/** Terms run on wires with every branch decided: which wires they leave, and that a diagram's leaves are these. */
module Walking {
  import opened Wrappers
  import opened Values
  import opened Prims
  import opened Terms
  import opened Readings
  import opened Wires
  import opened Order
  import opened Folds
  import opened Diagrams
  import opened Engine
  import opened Landings

  /** A branch goes by its literal if it has one, and otherwise by what is given as true. */
  predicate Holds(vals: seq<ValNode>, cond: ValId, truth: iset<ValId>)
    requires cond < |vals|
  {
    if vals[cond].Lit? then vals[cond].v.Truthy() else cond in truth
  }

  /**
   * Run on these wires with its branches decided by `truth`, the term leaves those. A branch on a test against a
   * literal is not walked through: the arm that saw it hold goes on with other wires.
   */
  ghost predicate Walks(vals: seq<ValNode>, t: Tree, stack: seq<ValId>, truth: iset<ValId>, out: seq<ValId>)
    requires WiresOk(vals)
    decreases t
  {
    if Straight(t) then Lands(vals, t, stack, out)
    else
      && t.Ok() && |stack| == t.Effect().inputs && All(stack, |vals|)
      && All(out, |vals|) && |out| == t.Effect().outputs
      && match t
        case Compose(l, r) =>
          exists mid: seq<ValId> :: Walks(vals, l, stack, truth, mid) && Walks(vals, r, mid, truth, out)
        case Par(l, r) =>
          var (cut, rise) := (l.Effect().inputs, l.Effect().outputs);
          Walks(vals, l, stack[..cut], truth, out[..rise]) && Walks(vals, r, stack[cut..], truth, out[rise..])
        case Branch(x, y) =>
          var (cond, under) := (stack[|stack| - 1], stack[..|stack| - 1]);
          EqualToLiteral(vals, cond).None? && Walks(vals, if Holds(vals, cond, truth) then x else y, under, truth, out)
        case _ => false
  }

  lemma {:induction false} WalksStay(
    vals: seq<ValNode>, more: seq<ValNode>, t: Tree, stack: seq<ValId>, truth: iset<ValId>, out: seq<ValId>)
    requires WiresOk(vals) && WiresOk(more) && vals <= more && Walks(vals, t, stack, truth, out)
    ensures Walks(more, t, stack, truth, out)
    decreases t
  {
    hide Lands;
    if Straight(t) {
      LandsStays(vals, more, t, stack, out);
    } else {
      match t
      case Compose(l, r) =>
        var mid: seq<ValId> :| Walks(vals, l, stack, truth, mid) && Walks(vals, r, mid, truth, out);
        WalksStay(vals, more, l, stack, truth, mid);
        WalksStay(vals, more, r, mid, truth, out);
      case Par(l, r) =>
        var (cut, rise) := (l.Effect().inputs, l.Effect().outputs);
        WalksStay(vals, more, l, stack[..cut], truth, out[..rise]);
        WalksStay(vals, more, r, stack[cut..], truth, out[rise..]);
      case Branch(x, y) =>
        var (cond, under) := (stack[|stack| - 1], stack[..|stack| - 1]);
        LiteralStays(vals, more, cond);
        WalksStay(vals, more, if Holds(vals, cond, truth) then x else y, under, truth, out);
    }
  }

  /** However the branches go, a term leaves one stack of wires. */
  lemma {:induction false} WalksOnce(
    vals: seq<ValNode>, t: Tree, stack: seq<ValId>, truth: iset<ValId>, out: seq<ValId>, other: seq<ValId>)
    requires WiresOk(vals) && Distinct(vals)
    requires Walks(vals, t, stack, truth, out) && Walks(vals, t, stack, truth, other)
    ensures out == other
    decreases t
  {
    hide Lands;
    if Straight(t) {
      LandsOnce(vals, t, stack, out, other);
    } else {
      match t
      case Compose(l, r) =>
        var mid: seq<ValId> :| Walks(vals, l, stack, truth, mid) && Walks(vals, r, mid, truth, out);
        var yon: seq<ValId> :| Walks(vals, l, stack, truth, yon) && Walks(vals, r, yon, truth, other);
        WalksOnce(vals, l, stack, truth, mid, yon);
        WalksOnce(vals, r, mid, truth, out, other);
      case Par(l, r) =>
        var (cut, rise) := (l.Effect().inputs, l.Effect().outputs);
        WalksOnce(vals, l, stack[..cut], truth, out[..rise], other[..rise]);
        WalksOnce(vals, r, stack[cut..], truth, out[rise..], other[rise..]);
        assert out == out[..rise] + out[rise..] && other == other[..rise] + other[rise..];
      case Branch(x, y) =>
        var (cond, under) := (stack[|stack| - 1], stack[..|stack| - 1]);
        WalksOnce(vals, if Holds(vals, cond, truth) then x else y, under, truth, out, other);
    }
  }

  // ---- walks of terms that compute nothing ----

  lemma {:induction false} WalksSpoken(
    vals: seq<ValNode>, t: Tree, stack: seq<ValId>, truth: iset<ValId>, out: seq<ValId>, pushed: set<Value>)
    requires WiresOk(vals) && Opaque(t) && Pushed(t) <= pushed && Walks(vals, t, stack, truth, out)
    requires AllSpoken(vals, stack, pushed)
    ensures AllSpoken(vals, out, pushed)
    decreases t
  {
    hide Lands; hide Spoken;
    if Straight(t) {
      LandsSpoken(vals, t, stack, out, pushed);
    } else {
      match t
      case Compose(l, r) =>
        var mid: seq<ValId> :| Walks(vals, l, stack, truth, mid) && Walks(vals, r, mid, truth, out);
        WalksSpoken(vals, l, stack, truth, mid, pushed);
        WalksSpoken(vals, r, mid, truth, out, pushed);
      case Par(l, r) =>
        var (cut, rise) := (l.Effect().inputs, l.Effect().outputs);
        WalksSpoken(vals, l, stack[..cut], truth, out[..rise], pushed);
        WalksSpoken(vals, r, stack[cut..], truth, out[rise..], pushed);
        assert forall k | 0 <= k < |out| :: out[k] == if k < rise then out[..rise][k] else out[rise..][k - rise];
      case Branch(x, y) =>
        var (cond, under) := (stack[|stack| - 1], stack[..|stack| - 1]);
        WalksSpoken(vals, if Holds(vals, cond, truth) then x else y, under, truth, out, pushed);
    }
  }

  /** The wires given as true are those that carry a true value. */
  ghost predicate Tells(
    vals: seq<ValNode>, truth: iset<ValId>, w: World, values: iset<Value>, pushed: set<Value>)
    requires WiresOk(vals)
  {
    Faithful(values, pushed)
    && forall v: ValId | v < |vals| && Spoken(vals, v, pushed) && !vals[v].Lit? ::
      v in truth <==> Val(vals, v, w) in values
  }

  /** What the wires of a walk carry is what running the term leaves. */
  lemma {:induction false} WalksRun(
    vals: seq<ValNode>, t: Tree, stack: seq<ValId>, truth: iset<ValId>, out: seq<ValId>, pushed: set<Value>,
    w: World, values: iset<Value>)
    requires WiresOk(vals) && Opaque(t) && Pushed(t) <= pushed && Walks(vals, t, stack, truth, out)
    requires AllSpoken(vals, stack, pushed) && Tells(vals, truth, w, values, pushed)
    ensures t.Ok() && |stack| == t.Effect().inputs && All(out, |vals|)
    ensures RunBy(t, w.calls, values, Vals(vals, stack, w)) == Vals(vals, out, w)
    decreases t
  {
    hide Lands; hide Spoken; hide Run; hide RunBy; hide Tells; hide Val; hide WiresOk;
    if Straight(t) {
      StraightRuns(vals, t, stack, out, w);
      StraightRunBy(t, w.calls, values, Vals(vals, stack, w));
    } else {
      match t
      case Compose(l, r) =>
        var mid: seq<ValId> :| Walks(vals, l, stack, truth, mid) && Walks(vals, r, mid, truth, out);
        WalksSpoken(vals, l, stack, truth, mid, pushed);
        WalksRun(vals, l, stack, truth, mid, pushed, w, values);
        WalksRun(vals, r, mid, truth, out, pushed, w, values);
        ComposeRunsBy(l, r, w.calls, values, Vals(vals, stack, w));
      case Par(l, r) =>
        var (cut, rise) := (l.Effect().inputs, l.Effect().outputs);
        WalksRun(vals, l, stack[..cut], truth, out[..rise], pushed, w, values);
        WalksRun(vals, r, stack[cut..], truth, out[rise..], pushed, w, values);
        SplitVals(vals, stack, cut, w);
        SplitVals(vals, out, rise, w);
        ParRunsBy(l, r, w.calls, values, Vals(vals, stack, w));
      case Branch(x, y) =>
        var (cond, under) := (stack[|stack| - 1], stack[..|stack| - 1]);
        assert Spoken(vals, cond, pushed);
        CondTold(vals, cond, truth, pushed, w, values);
        SplitVals(vals, stack, |stack| - 1, w);
        WalksRun(vals, if Holds(vals, cond, truth) then x else y, under, truth, out, pushed, w, values);
        BranchRunsBy(x, y, w.calls, values, Vals(vals, stack, w));
    }
  }

  lemma CondTold(
    vals: seq<ValNode>, cond: ValId, truth: iset<ValId>, pushed: set<Value>, w: World, values: iset<Value>)
    requires WiresOk(vals) && cond < |vals| && Spoken(vals, cond, pushed) && Tells(vals, truth, w, values, pushed)
    ensures Holds(vals, cond, truth) == (Val(vals, cond, w) in values)
  {
  }

  lemma SplitVals(vals: seq<ValNode>, vs: seq<ValId>, cut: nat, w: World)
    requires WiresOk(vals) && All(vs, |vals|) && cut <= |vs|
    ensures All(vs[..cut], |vals|) && All(vs[cut..], |vals|)
    ensures Vals(vals, vs, w)[..cut] == Vals(vals, vs[..cut], w) && Vals(vals, vs, w)[cut..] == Vals(vals, vs[cut..], w)
    ensures Vals(vals, vs, w) == Vals(vals, vs[..cut], w) + Vals(vals, vs[cut..], w)
  {
    hide Val;
  }

  lemma CallRuns(
    vals: seq<ValNode>, target: SentenceIndex, arity: Arity, stack: seq<ValId>, out: seq<ValId>, w: World)
    requires WiresOk(vals) && All(stack, |vals|) && |stack| == arity.inputs
    requires Answers(vals, Op.Call(target, arity), stack, out)
    ensures CallAnswer(w.calls, target, arity, Vals(vals, stack, w)) == Vals(vals, out, w)
  {
    forall k | 0 <= k < |out|
      ensures Val(vals, out[k], w) == CallAnswer(w.calls, target, arity, Vals(vals, stack, w))[k]
    {
      assert vals[out[k]] == BoxNode(Op.Call(target, arity), stack, k);
      ValOfApp(vals, out[k], w);
    }
  }

  lemma WireRuns(vals: seq<ValNode>, p: Prim, stack: seq<ValId>, out: seq<ValId>, w: World)
    requires WiresOk(vals) && (p.Push? || p.Swap?) && Lands(vals, Tree.Op(p), stack, out)
    ensures Answer(p, Vals(vals, stack, w)) == Vals(vals, out, w)
  {
  }

  /** Landing is running. */
  lemma {:induction false} StraightRuns(vals: seq<ValNode>, t: Tree, stack: seq<ValId>, out: seq<ValId>, w: World)
    requires WiresOk(vals) && Opaque(t) && Straight(t) && Lands(vals, t, stack, out)
    ensures t.Ok() && |stack| == t.Effect().inputs && All(stack, |vals|) && All(out, |vals|)
    ensures Run(t, w.calls, Vals(vals, stack, w)) == Vals(vals, out, w)
    decreases t
  {
    hide Answers; hide Val; hide CallAnswer;
    match t
    case Copy(_) => assert Vals(vals, out, w) == Vals(vals, stack, w) + Vals(vals, stack, w);
    case Call(target, arity) => CallRuns(vals, target, arity, stack, out, w);
    case Op(p) => WireRuns(vals, p, stack, out, w);
    case Compose(l, r) =>
      var mid: seq<ValId> :| Lands(vals, l, stack, mid) && Lands(vals, r, mid, out);
      StraightRuns(vals, l, stack, mid, w);
      StraightRuns(vals, r, mid, out, w);
    case Par(l, r) =>
      var (cut, rise) := (l.Effect().inputs, l.Effect().outputs);
      StraightRuns(vals, l, stack[..cut], out[..rise], w);
      StraightRuns(vals, r, stack[cut..], out[rise..], w);
      SplitVals(vals, stack, cut, w);
      SplitVals(vals, out, rise, w);
    case _ =>
  }

  // ---- the leaf a diagram chooses ----

  /** The wires of the leaf that `d` chooses when these conditions hold. */
  ghost function Chosen(a: Arena, d: DiagId, truth: iset<ValId>): (vs: seq<ValId>)
    requires a.Ok() && d < |a.diags|
    ensures All(vs, |a.vals|)
  {
    assert a.diags[Choose(a.diags, d, truth)].Below(Choose(a.diags, d, truth), |a.vals|);
    a.diags[Choose(a.diags, d, truth)].vals
  }

  lemma ChosenStays(a: Arena, b: Arena, d: DiagId, truth: iset<ValId>)
    requires a.Ok() && b.Ok() && Extends(a, b) && d < |a.diags|
    ensures Chosen(b, d, truth) == Chosen(a, d, truth)
  {
    ChooseStays(a.diags, b.diags, d, truth);
  }

  /** The conditions that hold are as the path decided them. */
  predicate Heeds(path: Path, truth: iset<ValId>) {
    forall k | 0 <= k < |path| :: (path[k].0 in truth) == path[k].1
  }

  // ---- what evaluation walks ----

  /** Whichever conditions hold along the path, the leaf `out` chooses has the wires the term leaves. */
  ghost predicate Walked(a: Arena, t: Tree, stack: seq<ValId>, path: Path, out: DiagId)
    requires a.Ok()
  {
    out < |a.diags| && forall truth: iset<ValId> {:trigger Chosen(a, out, truth)} | Heeds(path, truth) ::
      Walks(a.vals, t, stack, truth, Chosen(a, out, truth))
  }

  /** The same of a term continued under the leaves of `d`. */
  ghost predicate WalkedUnder(a: Arena, d: DiagId, t: Tree, path: Path, out: DiagId)
    requires a.Ok()
  {
    d < |a.diags| && out < |a.diags| && forall truth: iset<ValId> {:trigger Chosen(a, out, truth)} |
      Heeds(path, truth) :: Walks(a.vals, t, Chosen(a, d, truth), truth, Chosen(a, out, truth))
  }

  /** The same of a term run on the carried wires above the leaves of `d`. */
  ghost predicate WalkedBeside(a: Arena, d: DiagId, t: Tree, path: Path, carried: seq<ValId>, out: DiagId)
    requires a.Ok()
  {
    d < |a.diags| && out < |a.diags| && forall truth: iset<ValId> {:trigger Chosen(a, out, truth)} |
      Heeds(path, truth) ::
        Chosen(a, d, truth) <= Chosen(a, out, truth)
        && Walks(a.vals, t, carried, truth, Chosen(a, out, truth)[|Chosen(a, d, truth)|..])
  }

  /** The carried wires under whichever leaf is chosen. */
  ghost predicate ChosenOver(a: Arena, d: DiagId, carried: seq<ValId>, out: DiagId)
    requires a.Ok()
  {
    d < |a.diags| && out < |a.diags| && forall truth: iset<ValId> {:trigger Chosen(a, out, truth)} ::
      Chosen(a, out, truth) == carried + Chosen(a, d, truth)
  }

  lemma WalkedStays(a: Arena, b: Arena, t: Tree, stack: seq<ValId>, path: Path, out: DiagId)
    requires a.Ok() && b.Ok() && Extends(a, b) && Walked(a, t, stack, path, out)
    ensures Walked(b, t, stack, path, out)
  {
    hide Walks;
    forall truth: iset<ValId> | Heeds(path, truth) ensures Walks(b.vals, t, stack, truth, Chosen(b, out, truth)) {
      ChosenStays(a, b, out, truth);
      WalksStay(a.vals, b.vals, t, stack, truth, Chosen(a, out, truth));
    }
  }

  lemma WalkedUnderStays(a: Arena, b: Arena, d: DiagId, t: Tree, path: Path, out: DiagId)
    requires a.Ok() && b.Ok() && Extends(a, b) && WalkedUnder(a, d, t, path, out)
    ensures WalkedUnder(b, d, t, path, out)
  {
    hide Walks;
    forall truth: iset<ValId> | Heeds(path, truth)
      ensures Walks(b.vals, t, Chosen(b, d, truth), truth, Chosen(b, out, truth))
    {
      ChosenStays(a, b, d, truth);
      ChosenStays(a, b, out, truth);
      WalksStay(a.vals, b.vals, t, Chosen(a, d, truth), truth, Chosen(a, out, truth));
    }
  }

  lemma WalkedBesideStays(a: Arena, b: Arena, d: DiagId, t: Tree, path: Path, carried: seq<ValId>, out: DiagId)
    requires a.Ok() && b.Ok() && Extends(a, b) && WalkedBeside(a, d, t, path, carried, out)
    ensures WalkedBeside(b, d, t, path, carried, out)
  {
    hide Walks;
    forall truth: iset<ValId> | Heeds(path, truth)
      ensures Chosen(b, d, truth) <= Chosen(b, out, truth)
      ensures Walks(b.vals, t, carried, truth, Chosen(b, out, truth)[|Chosen(b, d, truth)|..])
    {
      ChosenStays(a, b, d, truth);
      ChosenStays(a, b, out, truth);
      WalksStay(a.vals, b.vals, t, carried, truth, Chosen(a, out, truth)[|Chosen(a, d, truth)|..]);
    }
  }

  lemma ChosenOverStays(a: Arena, b: Arena, d: DiagId, carried: seq<ValId>, out: DiagId)
    requires a.Ok() && b.Ok() && Extends(a, b) && ChosenOver(a, d, carried, out)
    ensures ChosenOver(b, d, carried, out)
  {
    forall truth: iset<ValId> ensures Chosen(b, out, truth) == carried + Chosen(b, d, truth) {
      ChosenStays(a, b, d, truth);
      ChosenStays(a, b, out, truth);
    }
  }

  // ---- how walks compose ----

  lemma StraightWalked(a: Arena, t: Tree, stack: seq<ValId>, path: Path, out: DiagId)
    requires a.Ok() && Straight(t) && out < |a.diags| && a.diags[out].Leaf?
    requires Lands(a.vals, t, stack, a.diags[out].vals)
    ensures Walked(a, t, stack, path, out)
  {
    hide Lands;
    forall truth: iset<ValId> | Heeds(path, truth) ensures Walks(a.vals, t, stack, truth, Chosen(a, out, truth)) {
      assert Chosen(a, out, truth) == a.diags[out].vals;
    }
  }

  lemma ComposeWalked(a: Arena, l: Tree, r: Tree, stack: seq<ValId>, path: Path, first: DiagId, out: DiagId)
    requires a.Ok() && Tree.Compose(l, r).Ok()
    requires Walked(a, l, stack, path, first) && WalkedUnder(a, first, r, path, out)
    ensures Walked(a, Tree.Compose(l, r), stack, path, out)
  {
    hide Answers;
    forall truth: iset<ValId> | Heeds(path, truth)
      ensures Walks(a.vals, Tree.Compose(l, r), stack, truth, Chosen(a, out, truth))
    {
      var mid := Chosen(a, first, truth);
      assert Walks(a.vals, l, stack, truth, mid) && Walks(a.vals, r, mid, truth, Chosen(a, out, truth));
      WalksFit(a.vals, l, stack, truth, mid);
      WalksFit(a.vals, r, mid, truth, Chosen(a, out, truth));
    }
  }

  lemma WalksFit(vals: seq<ValNode>, t: Tree, stack: seq<ValId>, truth: iset<ValId>, out: seq<ValId>)
    requires WiresOk(vals) && Walks(vals, t, stack, truth, out)
    ensures t.Ok() && |stack| == t.Effect().inputs && All(stack, |vals|)
    ensures All(out, |vals|) && |out| == t.Effect().outputs
  {
  }

  lemma ParWalked(
    a: Arena, l: Tree, r: Tree, under: seq<ValId>, top: seq<ValId>, path: Path, deep: DiagId, out: DiagId)
    requires a.Ok() && Tree.Par(l, r).Ok()
    requires Walked(a, l, under, path, deep) && WalkedBeside(a, deep, r, path, top, out)
    ensures Walked(a, Tree.Par(l, r), under + top, path, out)
  {
    hide Answers;
    forall truth: iset<ValId> | Heeds(path, truth)
      ensures Walks(a.vals, Tree.Par(l, r), under + top, truth, Chosen(a, out, truth))
    {
      var (x, whole) := (Chosen(a, deep, truth), Chosen(a, out, truth));
      assert Walks(a.vals, l, under, truth, x) && Walks(a.vals, r, top, truth, whole[|x|..]);
      WalksFit(a.vals, l, under, truth, x);
      WalksFit(a.vals, r, top, truth, whole[|x|..]);
      assert (under + top)[..|under|] == under && (under + top)[|under|..] == top && whole[..|x|] == x;
      assert All(under + top, |a.vals|) by { BothAll(under, top, |a.vals|); }
    }
  }

  lemma BothAll(x: seq<ValId>, y: seq<ValId>, bound: nat)
    requires All(x, bound) && All(y, bound)
    ensures All(x + y, bound)
  {
  }

  lemma UnderLeaf(a: Arena, d: DiagId, t: Tree, path: Path, out: DiagId)
    requires a.Ok() && d < |a.diags| && a.diags[d].Leaf? && Walked(a, t, a.diags[d].vals, path, out)
    ensures WalkedUnder(a, d, t, path, out)
  {
    hide Walks;
    forall truth: iset<ValId> | Heeds(path, truth)
      ensures Walks(a.vals, t, Chosen(a, d, truth), truth, Chosen(a, out, truth))
    {
    }
  }

  /** Which arm a node takes, and so what it chooses. */
  lemma ArmChosen(a: Arena, d: DiagId, truth: iset<ValId>)
    requires a.Ok() && d < |a.diags| && a.diags[d].Branch?
    ensures a.diags[d].ifTrue < d && a.diags[d].ifFalse < d && a.diags[d].cond < |a.vals|
    ensures Chosen(a, d, truth)
      == Chosen(a, if a.diags[d].cond in truth then a.diags[d].ifTrue else a.diags[d].ifFalse, truth)
  {
    assert a.diags[d].Below(d, |a.vals|);
  }

  lemma DecisionChosen(a: Arena, cond: ValId, yes: DiagId, no: DiagId, out: DiagId, truth: iset<ValId>)
    requires a.Ok() && cond < |a.vals| && yes < |a.diags| && no < |a.diags| && out < |a.diags|
    requires ChoosesAs(a, cond, yes, no, out)
    ensures Chosen(a, out, truth) == Chosen(a, if Holds(a.vals, cond, truth) then yes else no, truth)
  {
    assert Choose(a.diags, out, truth) == Choose(a.diags, if Holds(a.vals, cond, truth) then yes else no, truth);
  }

  lemma HeedsMore(path: Path, cond: ValId, taken: bool, truth: iset<ValId>)
    requires Heeds(path, truth) && (cond in truth) == taken
    ensures Heeds(path + [(cond, taken)], truth)
  {
  }

  lemma UnderArms(a: Arena, d: DiagId, t: Tree, path: Path, yes: DiagId, no: DiagId, out: DiagId)
    requires a.Ok() && d < |a.diags| && a.diags[d].Branch? && NodeSorted(a, d)
    requires WalkedUnder(a, a.diags[d].ifTrue, t, path + [(a.diags[d].cond, true)], yes)
    requires WalkedUnder(a, a.diags[d].ifFalse, t, path + [(a.diags[d].cond, false)], no)
    requires a.diags[d].cond < |a.vals| && out < |a.diags| && ChoosesAs(a, a.diags[d].cond, yes, no, out)
    ensures WalkedUnder(a, d, t, path, out)
  {
    hide Walks; hide ChoosesAs; hide Chosen;
    var c := a.diags[d].cond;
    forall truth: iset<ValId> | Heeds(path, truth)
      ensures Walks(a.vals, t, Chosen(a, d, truth), truth, Chosen(a, out, truth))
    {
      ArmChosen(a, d, truth);
      DecisionChosen(a, c, yes, no, out, truth);
      HeedsMore(path, c, c in truth, truth);
    }
  }

  lemma BesideArmsWalked(
    a: Arena, d: DiagId, t: Tree, path: Path, carried: seq<ValId>, yes: DiagId, no: DiagId, out: DiagId)
    requires a.Ok() && d < |a.diags| && a.diags[d].Branch? && NodeSorted(a, d)
    requires WalkedBeside(a, a.diags[d].ifTrue, t, path + [(a.diags[d].cond, true)], carried, yes)
    requires WalkedBeside(a, a.diags[d].ifFalse, t, path + [(a.diags[d].cond, false)], carried, no)
    requires a.diags[d].cond < |a.vals| && out < |a.diags| && ChoosesAs(a, a.diags[d].cond, yes, no, out)
    ensures WalkedBeside(a, d, t, path, carried, out)
  {
    hide Walks; hide ChoosesAs; hide Chosen;
    var c := a.diags[d].cond;
    forall truth: iset<ValId> | Heeds(path, truth)
      ensures Chosen(a, d, truth) <= Chosen(a, out, truth)
      ensures Walks(a.vals, t, carried, truth, Chosen(a, out, truth)[|Chosen(a, d, truth)|..])
    {
      ArmChosen(a, d, truth);
      DecisionChosen(a, c, yes, no, out, truth);
      HeedsMore(path, c, c in truth, truth);
    }
  }

  lemma BesideLeafWalked(
    a: Arena, d: DiagId, t: Tree, path: Path, carried: seq<ValId>, above: DiagId, out: DiagId)
    requires a.Ok() && d < |a.diags| && a.diags[d].Leaf? && Walked(a, t, carried, path, above)
    requires ChosenOver(a, above, a.diags[d].vals, out)
    ensures WalkedBeside(a, d, t, path, carried, out)
  {
    hide Walks;
    forall truth: iset<ValId> | Heeds(path, truth)
      ensures Chosen(a, d, truth) <= Chosen(a, out, truth)
      ensures Walks(a.vals, t, carried, truth, Chosen(a, out, truth)[|Chosen(a, d, truth)|..])
    {
      assert Chosen(a, d, truth) == a.diags[d].vals;
      assert Chosen(a, out, truth) == a.diags[d].vals + Chosen(a, above, truth);
      assert (a.diags[d].vals + Chosen(a, above, truth))[|a.diags[d].vals|..] == Chosen(a, above, truth);
    }
  }

  lemma OverArmsChosen(a: Arena, d: DiagId, carried: seq<ValId>, yes: DiagId, no: DiagId, out: DiagId)
    requires a.Ok() && d < |a.diags| && a.diags[d].Branch? && NodeSorted(a, d)
    requires ChosenOver(a, a.diags[d].ifTrue, carried, yes) && ChosenOver(a, a.diags[d].ifFalse, carried, no)
    requires a.diags[d].cond < |a.vals| && out < |a.diags| && ChoosesAs(a, a.diags[d].cond, yes, no, out)
    ensures ChosenOver(a, d, carried, out)
  {
    hide ChoosesAs; hide Chosen;
    forall truth: iset<ValId> ensures Chosen(a, out, truth) == carried + Chosen(a, d, truth) {
      ArmChosen(a, d, truth);
      DecisionChosen(a, a.diags[d].cond, yes, no, out, truth);
    }
  }

  lemma OverLeafChosen(a: Arena, d: DiagId, carried: seq<ValId>, out: DiagId)
    requires a.Ok() && d < |a.diags| && a.diags[d].Leaf? && out < |a.diags|
    requires a.diags[out] == DiagNode.Leaf(carried + a.diags[d].vals)
    ensures ChosenOver(a, d, carried, out)
  {
  }

  /** A fork on a condition that tests nothing against a literal. */
  lemma ForkWalked(
    a: Arena, x: Tree, y: Tree, stack: seq<ValId>, cond: ValId, path: Path, yes: DiagId, no: DiagId, out: DiagId)
    requires a.Ok() && Tree.Branch(x, y).Ok() && cond < |a.vals| && out < |a.diags|
    requires EqualToLiteral(a.vals, cond).None? && !a.vals[cond].Lit?
    requires Walked(a, x, stack, path + [(cond, true)], yes) && Walked(a, y, stack, path + [(cond, false)], no)
    requires ChoosesAs(a, cond, yes, no, out)
    ensures Walked(a, Tree.Branch(x, y), stack + [cond], path, out)
  {
    hide ChoosesAs; hide Chosen;
    forall truth: iset<ValId> | Heeds(path, truth)
      ensures Walks(a.vals, Tree.Branch(x, y), stack + [cond], truth, Chosen(a, out, truth))
    {
      DecisionChosen(a, cond, yes, no, out, truth);
      HeedsMore(path, cond, cond in truth, truth);
      ArmWalks(a.vals, x, y, stack, cond, truth, Chosen(a, out, truth));
    }
  }

  /** A condition that a literal or the path settles. */
  lemma KnownWalked(
    a: Arena, x: Tree, y: Tree, stack: seq<ValId>, cond: ValId, path: Path, taken: bool, out: DiagId)
    requires a.Ok() && Tree.Branch(x, y).Ok() && cond < |a.vals| && EqualToLiteral(a.vals, cond).None?
    requires if a.vals[cond].Lit? then a.vals[cond].v.Truthy() == taken
             else exists k | 0 <= k < |path| :: path[k] == (cond, taken)
    requires Walked(a, if taken then x else y, stack, path, out)
    ensures Walked(a, Tree.Branch(x, y), stack + [cond], path, out)
  {
    hide Chosen;
    forall truth: iset<ValId> | Heeds(path, truth)
      ensures Walks(a.vals, Tree.Branch(x, y), stack + [cond], truth, Chosen(a, out, truth))
    {
      ArmWalks(a.vals, x, y, stack, cond, truth, Chosen(a, out, truth));
    }
  }

  lemma ArmWalks(
    vals: seq<ValNode>, x: Tree, y: Tree, stack: seq<ValId>, cond: ValId, truth: iset<ValId>, out: seq<ValId>)
    requires WiresOk(vals) && Tree.Branch(x, y).Ok() && cond < |vals| && EqualToLiteral(vals, cond).None?
    requires Walks(vals, if Holds(vals, cond, truth) then x else y, stack, truth, out)
    ensures Walks(vals, Tree.Branch(x, y), stack + [cond], truth, out)
  {
    hide Lands;
    WalksFit(vals, if Holds(vals, cond, truth) then x else y, stack, truth, out);
    assert (stack + [cond])[..|stack|] == stack && (stack + [cond])[|stack|] == cond;
  }

  // ---- as far as everything asked about is plain ----

  /** Nothing asked about, and nothing decided on the path, is a test against a literal. */
  predicate Tame(a: Arena, asked: set<ValId>, path: Path)
    requires a.Ok()
  {
    Plain(a.vals, asked)
    && forall k | 0 <= k < |path| :: path[k].0 < |a.vals| && EqualToLiteral(a.vals, path[k].0).None?
  }

  ghost predicate TameWalk(
    a: Arena, asked: set<ValId>, t: Tree, stack: seq<ValId>, path: Path, r: Option<DiagId>)
    requires a.Ok()
  {
    Tame(a, asked, path) ==> r.Some? && Walked(a, t, stack, path, r.value)
  }

  ghost predicate TameUnder(a: Arena, asked: set<ValId>, d: DiagId, t: Tree, path: Path, r: Option<DiagId>)
    requires a.Ok()
  {
    Tame(a, asked, path) ==> r.Some? && WalkedUnder(a, d, t, path, r.value)
  }

  ghost predicate TameBeside(
    a: Arena, asked: set<ValId>, d: DiagId, t: Tree, path: Path, carried: seq<ValId>, r: Option<DiagId>)
    requires a.Ok()
  {
    Tame(a, asked, path) ==> r.Some? && WalkedBeside(a, d, t, path, carried, r.value)
  }

  ghost predicate TameOver(a: Arena, asked: set<ValId>, d: DiagId, carried: seq<ValId>, r: Option<DiagId>)
    requires a.Ok()
  {
    Tame(a, asked, []) ==> r.Some? && ChosenOver(a, d, carried, r.value)
  }

  /** An arena that has grown, in which no less has been asked about. */
  ghost predicate Later(a: Arena, asked: set<ValId>, b: Arena, more: set<ValId>) {
    a.Ok() && b.Ok() && Extends(a, b) && asked <= more && forall c | c in asked :: c < |a.vals|
  }

  /** What is tame was tame before. */
  lemma WasTame(a: Arena, asked: set<ValId>, b: Arena, more: set<ValId>, path: Path)
    requires Later(a, asked, b, more) && forall k | 0 <= k < |path| :: path[k].0 < |a.vals|
    ensures Tame(b, more, path) ==> Tame(a, asked, path)
  {
    PlainStays(a.vals, b.vals, asked);
    forall k | 0 <= k < |path| ensures EqualToLiteral(b.vals, path[k].0) == EqualToLiteral(a.vals, path[k].0) {
      LiteralStays(a.vals, b.vals, path[k].0);
    }
  }

  lemma TameWalkStays(
    a: Arena, asked: set<ValId>, b: Arena, more: set<ValId>, t: Tree, stack: seq<ValId>, path: Path, r: Option<DiagId>)
    requires Later(a, asked, b, more) && forall k | 0 <= k < |path| :: path[k].0 < |a.vals|
    requires TameWalk(a, asked, t, stack, path, r)
    ensures TameWalk(b, more, t, stack, path, r)
  {
    hide Tame; hide Walked;
    WasTame(a, asked, b, more, path);
    if Tame(b, more, path) {
      WalkedStays(a, b, t, stack, path, r.value);
    }
  }

  lemma TameUnderStays(
    a: Arena, asked: set<ValId>, b: Arena, more: set<ValId>, d: DiagId, t: Tree, path: Path, r: Option<DiagId>)
    requires Later(a, asked, b, more) && forall k | 0 <= k < |path| :: path[k].0 < |a.vals|
    requires TameUnder(a, asked, d, t, path, r)
    ensures TameUnder(b, more, d, t, path, r)
  {
    hide Tame; hide WalkedUnder;
    WasTame(a, asked, b, more, path);
    if Tame(b, more, path) {
      WalkedUnderStays(a, b, d, t, path, r.value);
    }
  }

  lemma TameBesideStays(
    a: Arena, asked: set<ValId>, b: Arena, more: set<ValId>, d: DiagId, t: Tree, path: Path, carried: seq<ValId>,
    r: Option<DiagId>)
    requires Later(a, asked, b, more) && forall k | 0 <= k < |path| :: path[k].0 < |a.vals|
    requires TameBeside(a, asked, d, t, path, carried, r)
    ensures TameBeside(b, more, d, t, path, carried, r)
  {
    hide Tame; hide WalkedBeside;
    WasTame(a, asked, b, more, path);
    if Tame(b, more, path) {
      WalkedBesideStays(a, b, d, t, path, carried, r.value);
    }
  }

  lemma TameOverStays(
    a: Arena, asked: set<ValId>, b: Arena, more: set<ValId>, d: DiagId, carried: seq<ValId>, r: Option<DiagId>)
    requires Later(a, asked, b, more) && TameOver(a, asked, d, carried, r)
    ensures TameOver(b, more, d, carried, r)
  {
    hide Tame; hide ChosenOver;
    WasTame(a, asked, b, more, []);
    if Tame(b, more, []) {
      ChosenOverStays(a, b, d, carried, r.value);
    }
  }

  lemma TameMore(a: Arena, asked: set<ValId>, path: Path, cond: ValId, taken: bool)
    requires a.Ok() && Tame(a, asked, path) && cond < |a.vals| && EqualToLiteral(a.vals, cond).None?
    ensures Tame(a, asked, path + [(cond, taken)])
  {
  }

  lemma TameCompose(
    a: Arena, asked: set<ValId>, l: Tree, r: Tree, stack: seq<ValId>, path: Path, first: Option<DiagId>,
    out: Option<DiagId>)
    requires a.Ok() && Tree.Compose(l, r).Ok() && TameWalk(a, asked, l, stack, path, first)
    requires first.Some? ==> TameUnder(a, asked, first.value, r, path, out)
    ensures TameWalk(a, asked, Tree.Compose(l, r), stack, path, out)
  {
    hide Tame; hide Walked; hide WalkedUnder;
    if Tame(a, asked, path) {
      ComposeWalked(a, l, r, stack, path, first.value, out.value);
    }
  }

  /** The first half of a `;` was walked in an earlier arena. */
  lemma ThenTame(
    a: Arena, asked: set<ValId>, b: Arena, more: set<ValId>, l: Tree, r: Tree, stack: seq<ValId>, path: Path,
    first: Option<DiagId>, out: Option<DiagId>)
    requires Later(a, asked, b, more) && forall k | 0 <= k < |path| :: path[k].0 < |a.vals|
    requires Tree.Compose(l, r).Ok() && TameWalk(a, asked, l, stack, path, first)
    requires first.Some? ==> TameUnder(b, more, first.value, r, path, out)
    ensures TameWalk(b, more, Tree.Compose(l, r), stack, path, out)
  {
    hide TameWalk; hide TameUnder;
    TameWalkStays(a, asked, b, more, l, stack, path, first);
    TameCompose(b, more, l, r, stack, path, first, out);
  }

  /** The deep half of a `*` was. */
  lemma AboveTame(
    a: Arena, asked: set<ValId>, b: Arena, more: set<ValId>, l: Tree, r: Tree, under: seq<ValId>, top: seq<ValId>,
    path: Path, deep: Option<DiagId>, out: Option<DiagId>)
    requires Later(a, asked, b, more) && forall k | 0 <= k < |path| :: path[k].0 < |a.vals|
    requires Tree.Par(l, r).Ok() && TameWalk(a, asked, l, under, path, deep)
    requires deep.Some? ==> TameBeside(b, more, deep.value, r, path, top, out)
    ensures TameWalk(b, more, Tree.Par(l, r), under + top, path, out)
  {
    hide TameWalk; hide TameBeside;
    TameWalkStays(a, asked, b, more, l, under, path, deep);
    TamePar(b, more, l, r, under, top, path, deep, out);
  }

  lemma TamePar(
    a: Arena, asked: set<ValId>, l: Tree, r: Tree, under: seq<ValId>, top: seq<ValId>, path: Path,
    deep: Option<DiagId>, out: Option<DiagId>)
    requires a.Ok() && Tree.Par(l, r).Ok() && TameWalk(a, asked, l, under, path, deep)
    requires deep.Some? ==> TameBeside(a, asked, deep.value, r, path, top, out)
    ensures TameWalk(a, asked, Tree.Par(l, r), under + top, path, out)
  {
    hide Tame; hide Walked; hide WalkedBeside;
    if Tame(a, asked, path) {
      ParWalked(a, l, r, under, top, path, deep.value, out.value);
    }
  }

  /** A plain condition that was asked about chose between the two arms. */
  ghost predicate Joined(a: Arena, asked: set<ValId>, cond: ValId, yes: DiagId, no: DiagId, r: Option<DiagId>)
    requires a.Ok()
  {
    && cond < |a.vals| && cond in asked && yes < |a.diags| && no < |a.diags|
    && (Plain(a.vals, asked) ==> r.Some? && r.value < |a.diags| && ChoosesAs(a, cond, yes, no, r.value))
  }

  lemma JoinUnder(
    a: Arena, asked: set<ValId>, d: DiagId, t: Tree, path: Path, yes: DiagId, no: DiagId, r: Option<DiagId>)
    requires a.Ok() && d < |a.diags| && a.diags[d].Branch? && NodeSorted(a, d)
    requires TameUnder(a, asked, a.diags[d].ifTrue, t, path + [(a.diags[d].cond, true)], Some(yes))
    requires TameUnder(a, asked, a.diags[d].ifFalse, t, path + [(a.diags[d].cond, false)], Some(no))
    requires Joined(a, asked, a.diags[d].cond, yes, no, r)
    ensures TameUnder(a, asked, d, t, path, r)
  {
    hide WalkedUnder; hide ChoosesAs; hide NodeSorted;
    var c := a.diags[d].cond;
    if Tame(a, asked, path) {
      TameMore(a, asked, path, c, true);
      TameMore(a, asked, path, c, false);
      UnderArms(a, d, t, path, yes, no, r.value);
    }
  }

  lemma JoinBeside(
    a: Arena, asked: set<ValId>, d: DiagId, t: Tree, path: Path, carried: seq<ValId>, held: seq<ValId>,
    yes: DiagId, no: DiagId, r: Option<DiagId>)
    requires a.Ok() && d < |a.diags| && a.diags[d].Branch? && NodeSorted(a, d)
    requires a.diags[d].cond < |a.vals| && (EqualToLiteral(a.vals, a.diags[d].cond).None? ==> held == carried)
    requires TameBeside(a, asked, a.diags[d].ifTrue, t, path + [(a.diags[d].cond, true)], held, Some(yes))
    requires TameBeside(a, asked, a.diags[d].ifFalse, t, path + [(a.diags[d].cond, false)], carried, Some(no))
    requires Joined(a, asked, a.diags[d].cond, yes, no, r)
    ensures TameBeside(a, asked, d, t, path, carried, r)
  {
    hide WalkedBeside; hide ChoosesAs; hide NodeSorted;
    var c := a.diags[d].cond;
    if Tame(a, asked, path) {
      TameMore(a, asked, path, c, true);
      TameMore(a, asked, path, c, false);
      BesideArmsWalked(a, d, t, path, carried, yes, no, r.value);
    }
  }

  lemma JoinOver(
    a: Arena, asked: set<ValId>, d: DiagId, carried: seq<ValId>, held: seq<ValId>, yes: DiagId, no: DiagId,
    r: Option<DiagId>)
    requires a.Ok() && d < |a.diags| && a.diags[d].Branch? && NodeSorted(a, d)
    requires a.diags[d].cond < |a.vals| && (EqualToLiteral(a.vals, a.diags[d].cond).None? ==> held == carried)
    requires TameOver(a, asked, a.diags[d].ifTrue, held, Some(yes))
    requires TameOver(a, asked, a.diags[d].ifFalse, carried, Some(no))
    requires Joined(a, asked, a.diags[d].cond, yes, no, r)
    ensures TameOver(a, asked, d, carried, r)
  {
    hide ChosenOver; hide ChoosesAs; hide NodeSorted;
    if Tame(a, asked, []) {
      OverArmsChosen(a, d, carried, yes, no, r.value);
    }
  }

  lemma TameBesideLeaf(
    a: Arena, asked: set<ValId>, d: DiagId, t: Tree, path: Path, carried: seq<ValId>, above: Option<DiagId>,
    r: Option<DiagId>)
    requires a.Ok() && d < |a.diags| && a.diags[d].Leaf? && TameWalk(a, asked, t, carried, path, above)
    requires above.Some? ==> TameOver(a, asked, above.value, a.diags[d].vals, r)
    ensures TameBeside(a, asked, d, t, path, carried, r)
  {
    hide Walked; hide ChosenOver; hide WalkedBeside;
    if Tame(a, asked, path) {
      assert Tame(a, asked, []);
      BesideLeafWalked(a, d, t, path, carried, above.value, r.value);
    }
  }

  lemma TameUnderLeaf(a: Arena, asked: set<ValId>, d: DiagId, t: Tree, path: Path, r: Option<DiagId>)
    requires a.Ok() && d < |a.diags| && a.diags[d].Leaf? && TameWalk(a, asked, t, a.diags[d].vals, path, r)
    ensures TameUnder(a, asked, d, t, path, r)
  {
    hide Walked; hide WalkedUnder; hide Tame;
    if Tame(a, asked, path) {
      UnderLeaf(a, d, t, path, r.value);
    }
  }

  lemma JoinFork(
    a: Arena, asked: set<ValId>, x: Tree, y: Tree, stack: seq<ValId>, held: seq<ValId>, cond: ValId, path: Path,
    yes: DiagId, no: DiagId, r: Option<DiagId>)
    requires a.Ok() && Tree.Branch(x, y).Ok() && cond < |a.vals| && !a.vals[cond].Lit?
    requires EqualToLiteral(a.vals, cond).None? ==> held == stack
    requires TameWalk(a, asked, x, held, path + [(cond, true)], Some(yes))
    requires TameWalk(a, asked, y, stack, path + [(cond, false)], Some(no))
    requires Joined(a, asked, cond, yes, no, r)
    ensures TameWalk(a, asked, Tree.Branch(x, y), stack + [cond], path, r)
  {
    hide Walked; hide ChoosesAs;
    if Tame(a, asked, path) {
      TameMore(a, asked, path, cond, true);
      TameMore(a, asked, path, cond, false);
      ForkWalked(a, x, y, stack, cond, path, yes, no, r.value);
    }
  }

  lemma TameKnown(
    a: Arena, asked: set<ValId>, x: Tree, y: Tree, stack: seq<ValId>, cond: ValId, path: Path, taken: bool,
    r: Option<DiagId>)
    requires a.Ok() && Tree.Branch(x, y).Ok() && cond < |a.vals|
    requires if a.vals[cond].Lit? then a.vals[cond].v.Truthy() == taken
             else exists k | 0 <= k < |path| :: path[k] == (cond, taken)
    requires TameWalk(a, asked, if taken then x else y, stack, path, r)
    ensures TameWalk(a, asked, Tree.Branch(x, y), stack + [cond], path, r)
  {
    hide Walked;
    if Tame(a, asked, path) {
      assert EqualToLiteral(a.vals, cond).None?;
      KnownWalked(a, x, y, stack, cond, path, taken, r.value);
    }
  }

  lemma TameChosen(a: Arena, asked: set<ValId>, d: DiagId, carried: seq<ValId>, out: DiagId)
    requires a.Ok() && ChosenOver(a, d, carried, out)
    ensures TameOver(a, asked, d, carried, Some(out))
  {
  }

  /** Where no answer came something was not plain, and nothing is claimed. */
  lemma Wild(
    a: Arena, asked: set<ValId>, d: DiagId, t: Tree, stack: seq<ValId>, path: Path, carried: seq<ValId>)
    requires a.Ok() && !Plain(a.vals, asked)
    ensures TameWalk(a, asked, t, stack, path, None) && TameUnder(a, asked, d, t, path, None)
    ensures TameBeside(a, asked, d, t, path, carried, None) && TameOver(a, asked, d, carried, None)
  {
  }
}
