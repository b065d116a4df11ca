/** A term run on a stack of wires, its branches forked into the case tree: the prover's judge of equality. */
module Normalize {
  import opened Wrappers
  import opened Terms
  import opened Wires
  import opened Order
  import opened Folds
  import opened Substitutions
  import opened Diagrams
  import opened Engine
  import opened Readings
  import opened Landings
  import opened Walking

  // ---- what evaluation promises ----

  /** The world answers every condition the way the path decided it. */
  ghost predicate Follows(a: Arena, path: Path, w: World)
    requires a.Ok() && PathOk(a, path)
  {
    forall k | 0 <= k < |path| :: Val(a.vals, path[k].0, w).Truthy() == path[k].1
  }

  predicate PathOk(a: Arena, path: Path) {
    forall k | 0 <= k < |path| :: path[k].0 < |a.vals|
  }

  /** On every world that follows the path, `out` leaves what running the term on the stack leaves. */
  ghost predicate EvalRight(a: Arena, t: Tree, stack: seq<ValId>, path: Path, out: DiagId)
    requires a.Ok()
  {
    && t.Ok() && |stack| == t.Effect().inputs && All(stack, |a.vals|) && PathOk(a, path)
    && out < |a.diags| && Width(a.diags, out) == t.Effect().outputs
    && forall w: World | Follows(a, path, w) :: Diag(a, out, w) == Run(t, w.calls, Vals(a.vals, stack, w))
  }

  /** On every world that follows the path, `out` leaves what the term leaves after `d`. */
  ghost predicate ThenRight(a: Arena, d: DiagId, t: Tree, path: Path, out: DiagId)
    requires a.Ok()
  {
    && t.Ok() && d < |a.diags| && Width(a.diags, d) == t.Effect().inputs && PathOk(a, path)
    && out < |a.diags| && Width(a.diags, out) == t.Effect().outputs
    && forall w: World | Follows(a, path, w) :: Diag(a, out, w) == Run(t, w.calls, Diag(a, d, w))
  }

  /** `out` leaves what `d` leaves, and above it what the term leaves on the carried wires. */
  ghost predicate BesideRight(a: Arena, d: DiagId, t: Tree, path: Path, carried: seq<ValId>, out: DiagId)
    requires a.Ok()
  {
    && t.Ok() && |carried| == t.Effect().inputs && All(carried, |a.vals|) && PathOk(a, path)
    && d < |a.diags| && out < |a.diags| && Width(a.diags, out) == Width(a.diags, d) + t.Effect().outputs
    && forall w: World | Follows(a, path, w) ::
      Diag(a, out, w) == Diag(a, d, w) + Run(t, w.calls, Vals(a.vals, carried, w))
  }

  /** `out` leaves the carried wires, and above them what `d` leaves. */
  ghost predicate OverRight(a: Arena, d: DiagId, carried: seq<ValId>, out: DiagId)
    requires a.Ok()
  {
    && All(carried, |a.vals|) && d < |a.diags| && out < |a.diags|
    && Width(a.diags, out) == |carried| + Width(a.diags, d)
    && forall w: World :: Diag(a, out, w) == Vals(a.vals, carried, w) + Diag(a, d, w)
  }

  /** The carried wires as an arm that saw `cond` hold reads them: with the literal it proved for the value tested. */
  ghost predicate CarriesOver(a: Arena, cond: ValId, carried: seq<ValId>, out: seq<ValId>)
    requires a.Ok()
  {
    && cond < |a.vals| && All(carried, |a.vals|) && All(out, |a.vals|) && |out| == |carried|
    && (match EqualToLiteral(a.vals, cond)
        case Some((from, to)) => SubstitutedAll(a.vals, |a.vals|, carried, from, to, out)
        case None => out == carried)
    && (forall w: World | Val(a.vals, cond, w).Truthy() :: Vals(a.vals, out, w) == Vals(a.vals, carried, w))
  }

  lemma ValsStay(a: Arena, b: Arena, vs: seq<ValId>, w: World)
    requires a.Ok() && b.Ok() && Extends(a, b) && All(vs, |a.vals|)
    ensures Vals(b.vals, vs, w) == Vals(a.vals, vs, w)
  {
    ExtendsAgrees(a, b);
  }

  lemma FollowsStays(a: Arena, b: Arena, path: Path)
    requires a.Ok() && b.Ok() && Extends(a, b) && PathOk(a, path)
    ensures PathOk(b, path) && forall w: World :: Follows(b, path, w) <==> Follows(a, path, w)
  {
    ExtendsAgrees(a, b);
    forall w: World ensures Follows(b, path, w) <==> Follows(a, path, w) {
      forall k | 0 <= k < |path| ensures Val(b.vals, path[k].0, w) == Val(a.vals, path[k].0, w) {
      }
    }
  }

  lemma EvalStays(a: Arena, b: Arena, t: Tree, stack: seq<ValId>, path: Path, out: DiagId)
    requires a.Ok() && b.Ok() && Extends(a, b) && EvalRight(a, t, stack, path, out)
    ensures EvalRight(b, t, stack, path, out)
  {
    ExtendsAgrees(a, b);
    FollowsStays(a, b, path);
    forall w: World | Follows(b, path, w) ensures Diag(b, out, w) == Run(t, w.calls, Vals(b.vals, stack, w)) {
      ValsStay(a, b, stack, w);
    }
  }

  lemma ThenStays(a: Arena, b: Arena, d: DiagId, t: Tree, path: Path, out: DiagId)
    requires a.Ok() && b.Ok() && Extends(a, b) && ThenRight(a, d, t, path, out)
    ensures ThenRight(b, d, t, path, out)
  {
    ExtendsAgrees(a, b);
    FollowsStays(a, b, path);
  }

  lemma BesideStays(a: Arena, b: Arena, d: DiagId, t: Tree, path: Path, carried: seq<ValId>, out: DiagId)
    requires a.Ok() && b.Ok() && Extends(a, b) && BesideRight(a, d, t, path, carried, out)
    ensures BesideRight(b, d, t, path, carried, out)
  {
    ExtendsAgrees(a, b);
    FollowsStays(a, b, path);
    forall w: World | Follows(b, path, w)
      ensures Diag(b, out, w) == Diag(b, d, w) + Run(t, w.calls, Vals(b.vals, carried, w))
    {
      ValsStay(a, b, carried, w);
    }
  }

  lemma OverStays(a: Arena, b: Arena, d: DiagId, carried: seq<ValId>, out: DiagId)
    requires a.Ok() && b.Ok() && Extends(a, b) && OverRight(a, d, carried, out)
    ensures OverRight(b, d, carried, out)
  {
    ExtendsAgrees(a, b);
    forall w: World ensures Diag(b, out, w) == Vals(b.vals, carried, w) + Diag(b, d, w) {
      ValsStay(a, b, carried, w);
    }
  }

  lemma CarriesStays(a: Arena, b: Arena, cond: ValId, carried: seq<ValId>, out: seq<ValId>)
    requires a.Ok() && b.Ok() && Extends(a, b) && CarriesOver(a, cond, carried, out)
    ensures CarriesOver(b, cond, carried, out)
  {
    hide Substituted;
    ExtendsAgrees(a, b);
    LiteralStays(a.vals, b.vals, cond);
    match EqualToLiteral(a.vals, cond) {
      case Some((from, to)) =>
        forall k | 0 <= k < |out| ensures Substituted(b.vals, carried[k], from, to, out[k]) {
          SubstitutedStays(a.vals, b.vals, carried[k], from, to, out[k]);
        }
      case None =>
    }
    forall w: World | Val(b.vals, cond, w).Truthy() ensures Vals(b.vals, out, w) == Vals(b.vals, carried, w) {
      ValsStay(a, b, carried, w);
      ValsStay(a, b, out, w);
    }
  }

  // ---- how the promises compose ----

  lemma FollowsMore(a: Arena, path: Path, cond: ValId, taken: bool, w: World)
    requires a.Ok() && PathOk(a, path) && cond < |a.vals|
    requires Follows(a, path, w) && Val(a.vals, cond, w).Truthy() == taken
    ensures PathOk(a, path + [(cond, taken)]) && Follows(a, path + [(cond, taken)], w)
  {
  }

  lemma ComposeRight(a: Arena, l: Tree, r: Tree, stack: seq<ValId>, path: Path, first: DiagId, out: DiagId)
    requires a.Ok() && EvalRight(a, l, stack, path, first) && ThenRight(a, first, r, path, out)
    ensures EvalRight(a, Tree.Compose(l, r), stack, path, out)
  {
  }

  lemma ThenLeaf(a: Arena, d: DiagId, t: Tree, path: Path, vs: seq<ValId>, out: DiagId)
    requires a.Ok() && d < |a.diags| && a.diags[d] == Leaf(vs) && EvalRight(a, t, vs, path, out)
    ensures ThenRight(a, d, t, path, out)
  {
  }

  lemma ThenBranch(a: Arena, d: DiagId, t: Tree, path: Path, yes: DiagId, no: DiagId, out: DiagId)
    requires a.Ok() && d < |a.diags| && a.diags[d].Branch? && PathOk(a, path)
    requires ThenRight(a, a.diags[d].ifTrue, t, path + [(a.diags[d].cond, true)], yes)
    requires ThenRight(a, a.diags[d].ifFalse, t, path + [(a.diags[d].cond, false)], no)
    requires Decides(a, a.diags[d].cond, yes, no, out)
    ensures ThenRight(a, d, t, path, out)
  {
    var c := a.diags[d].cond;
    assert a.diags[d].Below(d, |a.vals|);
    forall w: World | Follows(a, path, w) ensures Diag(a, out, w) == Run(t, w.calls, Diag(a, d, w)) {
      FollowsMore(a, path, c, Val(a.vals, c, w).Truthy(), w);
    }
  }

  lemma BesideLeaf(
    a: Arena, d: DiagId, t: Tree, path: Path, carried: seq<ValId>, vs: seq<ValId>, above: DiagId, out: DiagId)
    requires a.Ok() && d < |a.diags| && a.diags[d] == Leaf(vs) && All(vs, |a.vals|)
    requires EvalRight(a, t, carried, path, above) && OverRight(a, above, vs, out)
    ensures BesideRight(a, d, t, path, carried, out)
  {
  }

  lemma BesideBranch(
    a: Arena, d: DiagId, t: Tree, path: Path, carried: seq<ValId>, held: seq<ValId>, yes: DiagId, no: DiagId,
    out: DiagId)
    requires a.Ok() && d < |a.diags| && a.diags[d].Branch? && PathOk(a, path)
    requires CarriesOver(a, a.diags[d].cond, carried, held)
    requires BesideRight(a, a.diags[d].ifTrue, t, path + [(a.diags[d].cond, true)], held, yes)
    requires BesideRight(a, a.diags[d].ifFalse, t, path + [(a.diags[d].cond, false)], carried, no)
    requires Decides(a, a.diags[d].cond, yes, no, out)
    ensures BesideRight(a, d, t, path, carried, out)
  {
    var c := a.diags[d].cond;
    assert a.diags[d].Below(d, |a.vals|);
    forall w: World | Follows(a, path, w)
      ensures Diag(a, out, w) == Diag(a, d, w) + Run(t, w.calls, Vals(a.vals, carried, w))
    {
      FollowsMore(a, path, c, Val(a.vals, c, w).Truthy(), w);
    }
  }

  lemma OverLeaf(a: Arena, d: DiagId, carried: seq<ValId>, vs: seq<ValId>, out: DiagId)
    requires a.Ok() && d < |a.diags| && a.diags[d] == Leaf(vs) && All(vs, |a.vals|) && All(carried, |a.vals|)
    requires out < |a.diags| && a.diags[out] == Leaf(carried + vs)
    ensures OverRight(a, d, carried, out)
  {
    assert a.diags[out].Below(out, |a.vals|);
    forall w: World ensures Vals(a.vals, carried + vs, w) == Vals(a.vals, carried, w) + Vals(a.vals, vs, w) {
    }
  }

  lemma OverBranch(
    a: Arena, d: DiagId, carried: seq<ValId>, held: seq<ValId>, yes: DiagId, no: DiagId, out: DiagId)
    requires a.Ok() && d < |a.diags| && a.diags[d].Branch?
    requires a.diags[d].ifTrue < d && a.diags[d].ifFalse < d
    requires CarriesOver(a, a.diags[d].cond, carried, held)
    requires OverRight(a, a.diags[d].ifTrue, held, yes) && OverRight(a, a.diags[d].ifFalse, carried, no)
    requires Decides(a, a.diags[d].cond, yes, no, out)
    ensures OverRight(a, d, carried, out)
  {
  }

  lemma ParRight(
    a: Arena, l: Tree, r: Tree, stack: seq<ValId>, path: Path, deep: seq<ValId>, top: seq<ValId>, d: DiagId,
    out: DiagId)
    requires a.Ok() && stack == deep + top
    requires EvalRight(a, l, deep, path, d) && BesideRight(a, d, r, path, top, out)
    ensures EvalRight(a, Tree.Par(l, r), stack, path, out)
  {
    forall w: World | Follows(a, path, w)
      ensures Diag(a, out, w) == Run(Tree.Par(l, r), w.calls, Vals(a.vals, stack, w))
    {
      assert Vals(a.vals, stack, w) == Vals(a.vals, deep, w) + Vals(a.vals, top, w);
      ParRuns(l, r, w.calls, Vals(a.vals, deep, w), Vals(a.vals, top, w));
    }
  }

  /** The fork: each arm under its own answer to the condition, the then arm on the specialized stack. */
  lemma ForkRight(
    a: Arena, t: Tree, f: Tree, stack: seq<ValId>, held: seq<ValId>, cond: ValId, path: Path,
    yes: DiagId, no: DiagId, out: DiagId)
    requires a.Ok() && PathOk(a, path) && t.Effect() == f.Effect()
    requires CarriesOver(a, cond, stack, held)
    requires EvalRight(a, t, held, path + [(cond, true)], yes)
    requires EvalRight(a, f, stack, path + [(cond, false)], no)
    requires Decides(a, cond, yes, no, out)
    ensures EvalRight(a, Tree.Branch(t, f), stack + [cond], path, out)
  {
    forall w: World | Follows(a, path, w)
      ensures Diag(a, out, w) == Run(Tree.Branch(t, f), w.calls, Vals(a.vals, stack + [cond], w))
    {
      assert Vals(a.vals, stack + [cond], w) == Vals(a.vals, stack, w) + [Val(a.vals, cond, w)];
      BranchRuns(t, f, w.calls, Vals(a.vals, stack, w), Val(a.vals, cond, w));
      FollowsMore(a, path, cond, Val(a.vals, cond, w).Truthy(), w);
    }
  }

  /** A condition every world on this path answers one way takes that arm. */
  lemma KnownRight(
    a: Arena, t: Tree, f: Tree, stack: seq<ValId>, cond: ValId, path: Path, taken: bool, out: DiagId)
    requires a.Ok() && PathOk(a, path) && t.Ok() && f.Ok() && t.Effect() == f.Effect() && cond < |a.vals|
    requires forall w: World | Follows(a, path, w) :: Val(a.vals, cond, w).Truthy() == taken
    requires EvalRight(a, if taken then t else f, stack, path, out)
    ensures EvalRight(a, Tree.Branch(t, f), stack + [cond], path, out)
  {
    forall w: World | Follows(a, path, w)
      ensures Diag(a, out, w) == Run(Tree.Branch(t, f), w.calls, Vals(a.vals, stack + [cond], w))
    {
      assert Vals(a.vals, stack + [cond], w) == Vals(a.vals, stack, w) + [Val(a.vals, cond, w)];
      BranchRuns(t, f, w.calls, Vals(a.vals, stack, w), Val(a.vals, cond, w));
    }
  }

  lemma LeafRight(a: Arena, t: Tree, stack: seq<ValId>, path: Path, vs: seq<ValId>, out: DiagId)
    requires a.Ok() && t.Ok() && |stack| == t.Effect().inputs && All(stack, |a.vals|) && PathOk(a, path)
    requires out < |a.diags| && a.diags[out] == Leaf(vs) && |vs| == t.Effect().outputs && All(vs, |a.vals|)
    requires forall w: World :: Vals(a.vals, vs, w) == Run(t, w.calls, Vals(a.vals, stack, w))
    ensures EvalRight(a, t, stack, path, out)
  {
  }

  // ---- where evaluation lands ----

  /** A straight term leaves one leaf, on the wires it lands on. */
  ghost predicate Landed(a: Arena, t: Tree, stack: seq<ValId>, r: Option<DiagId>)
    requires a.Ok()
  {
    Straight(t) ==>
      r.Some? && r.value < |a.diags| && a.diags[r.value].Leaf? && Lands(a.vals, t, stack, a.diags[r.value].vals)
  }

  // ---- terms with one branch ----

  ghost predicate IsLeaf(diags: seq<DiagNode>, r: Option<DiagId>) {
    r.Some? && r.value < |diags| && diags[r.value].Leaf?
  }

  ghost predicate IsShallow(diags: seq<DiagNode>, r: Option<DiagId>) {
    r.Some? && r.value < |diags| && Shallow(diags, r.value)
  }

  /** A straight term has an answer, a leaf; one with one branch has an answer of one decision at most. */
  ghost predicate Few(diags: seq<DiagNode>, t: Tree, r: Option<DiagId>) {
    (Straight(t) ==> IsLeaf(diags, r)) && (OneFork(t) ==> IsShallow(diags, r))
  }

  /** The same of a term continued under the leaves of a diagram, whatever has at most one decision between them. */
  ghost predicate FewUnder(before: seq<DiagNode>, d: DiagId, diags: seq<DiagNode>, t: Tree, r: Option<DiagId>)
    requires d < |before|
  {
    && (before[d].Leaf? ==> Few(diags, t, r))
    && (Shallow(before, d) && Straight(t) ==> IsShallow(diags, r))
  }

  /** And of leaves that only have more put under them. */
  ghost predicate FewOver(before: seq<DiagNode>, d: DiagId, diags: seq<DiagNode>, r: Option<DiagId>)
    requires d < |before|
  {
    (before[d].Leaf? ==> IsLeaf(diags, r)) && (Shallow(before, d) ==> IsShallow(diags, r))
  }

  /** Evaluated in any arena this one grows into, the term can only come out as `d`. */
  ghost predicate Repeats(a: Arena, t: Tree, stack: seq<ValId>, path: Path, d: DiagId)
    requires a.Ok() && d < |a.diags|
    decreases t
  {
    assert a.diags[d].Below(d, |a.vals|);
    if Straight(t) then a.diags[d].Leaf? && LandsOnly(a.vals, t, stack, a.diags[d].vals)
    else match t
      case Compose(l, r) =>
        Straight(l) && exists mid: seq<ValId> :: LandsOnly(a.vals, l, stack, mid) && Repeats(a, r, mid, path, d)
      case Branch(x, y) =>
        && stack != [] && a.diags[d].Branch?
        && var (c, under) := (stack[|stack| - 1], stack[..|stack| - 1]);
          a.diags[d].cond == c && EqualToLiteral(a.vals, c).None? && !a.vals[c].Lit? && Decided(path, c).None?
          && Repeats(a, x, under, path + [(c, true)], a.diags[d].ifTrue)
          && Repeats(a, y, under, path + [(c, false)], a.diags[d].ifFalse)
      case _ => false
  }

  /** What the term could only come out as, it came out as. */
  ghost predicate Repeated(a: Arena, t: Tree, stack: seq<ValId>, path: Path, r: Option<DiagId>)
    requires a.Ok()
  {
    forall d: DiagId | d < |a.diags| && Repeats(a, t, stack, path, d) :: r == Some(d)
  }

  lemma {:induction false} RepeatsStays(a: Arena, b: Arena, t: Tree, stack: seq<ValId>, path: Path, d: DiagId)
    requires a.Ok() && b.Ok() && Extends(a, b) && d < |a.diags| && Repeats(a, t, stack, path, d)
    ensures Repeats(b, t, stack, path, d)
    decreases t
  {
    hide LandsOnly;
    assert b.diags[d] == a.diags[d] && a.diags[d].Below(d, |a.vals|);
    if Straight(t) {
      LandsOnlyStays(a.vals, b.vals, t, stack, a.diags[d].vals);
    } else if t.Compose? {
      var mid: seq<ValId> :| LandsOnly(a.vals, t.left, stack, mid) && Repeats(a, t.right, mid, path, d);
      LandsOnlyStays(a.vals, b.vals, t.left, stack, mid);
      RepeatsStays(a, b, t.right, mid, path, d);
    } else {
      var (c, under) := (stack[|stack| - 1], stack[..|stack| - 1]);
      LiteralStays(a.vals, b.vals, c);
      RepeatsStays(a, b, t.ifTrue, under, path + [(c, true)], a.diags[d].ifTrue);
      RepeatsStays(a, b, t.ifFalse, under, path + [(c, false)], a.diags[d].ifFalse);
    }
  }

  lemma {:induction false} RepeatsIsPlain(a: Arena, t: Tree, stack: seq<ValId>, path: Path, d: DiagId)
    requires a.Ok() && d < |a.diags| && Repeats(a, t, stack, path, d)
    ensures Plain(a.vals, Tests(a.diags, d))
    decreases t
  {
    hide LandsOnly;
    assert a.diags[d].Below(d, |a.vals|);
    if Straight(t) {
    } else if t.Compose? {
      var mid: seq<ValId> :| LandsOnly(a.vals, t.left, stack, mid) && Repeats(a, t.right, mid, path, d);
      RepeatsIsPlain(a, t.right, mid, path, d);
    } else {
      var (c, under) := (stack[|stack| - 1], stack[..|stack| - 1]);
      RepeatsIsPlain(a, t.ifTrue, under, path + [(c, true)], a.diags[d].ifTrue);
      RepeatsIsPlain(a, t.ifFalse, under, path + [(c, false)], a.diags[d].ifFalse);
    }
  }

  /** A straight term that can only land on a leaf's wires comes out as that leaf. */
  lemma StraightRepeated(a: Arena, b: Arena, t: Tree, stack: seq<ValId>, path: Path, r: Option<DiagId>)
    requires a.Ok() && b.Ok() && Extends(a, b) && GrowsInto(a.vals, b.vals) && DistinctDiags(b.diags)
    requires Straight(t) && Landed(b, t, stack, r)
    ensures Repeated(a, t, stack, path, r)
  {
    hide Lands;
    forall d: DiagId | d < |a.diags| && Repeats(a, t, stack, path, d) ensures r == Some(d) {
      assert b.diags[d] == a.diags[d] && b.diags[r.value] == a.diags[d];
    }
  }

  lemma ComposeLanded(
    a: Arena, b: Arena, l: Tree, r: Tree, stack: seq<ValId>, first: Option<DiagId>, out: Option<DiagId>)
    requires a.Ok() && b.Ok() && Extends(a, b) && Tree.Compose(l, r).Ok() && Landed(a, l, stack, first)
    requires first.Some? && first.value < |a.diags|
    requires (a.diags[first.value].Leaf? ==> Landed(b, r, a.diags[first.value].vals, out))
    ensures Landed(b, Tree.Compose(l, r), stack, out)
  {
    hide Answers;
    if Straight(Tree.Compose(l, r)) {
      LandsStays(a.vals, b.vals, l, stack, a.diags[first.value].vals);
    }
  }

  lemma ComposeRepeated(
    a0: Arena, a: Arena, b: Arena, l: Tree, r: Tree, stack: seq<ValId>, path: Path, first: Option<DiagId>,
    out: Option<DiagId>)
    requires a0.Ok() && a.Ok() && b.Ok() && Extends(a0, a) && Extends(a, b) && GrowsInto(a0.vals, a.vals)
    requires Landed(a, l, stack, first) && !Straight(Tree.Compose(l, r))
    requires first.Some? && first.value < |a.diags|
    requires (a.diags[first.value].Leaf? ==> Repeated(a, r, a.diags[first.value].vals, path, out))
    ensures Repeated(a0, Tree.Compose(l, r), stack, path, out)
  {
    hide Lands;
    forall d: DiagId | d < |a0.diags| && Repeats(a0, Tree.Compose(l, r), stack, path, d) ensures out == Some(d) {
      var mid: seq<ValId> :| LandsOnly(a0.vals, l, stack, mid) && Repeats(a0, r, mid, path, d);
      RepeatsStays(a0, a, r, mid, path, d);
    }
  }

  /** A `*` of straight terms lands where its halves do. */
  lemma ParLanded(
    a: Arena, b: Arena, l: Tree, r: Tree, deep: seq<ValId>, top: seq<ValId>, first: DiagId, out: DiagId)
    requires a.Ok() && b.Ok() && Extends(a, b) && Tree.Par(l, r).Ok() && Straight(l) && Landed(a, l, deep, Some(first))
    requires out < |b.diags| && b.diags[out].Leaf? && a.diags[first].vals <= b.diags[out].vals
    requires All(b.diags[out].vals, |b.vals|)
    requires Lands(b.vals, r, top, b.diags[out].vals[|a.diags[first].vals|..])
    ensures Lands(b.vals, Tree.Par(l, r), deep + top, b.diags[out].vals)
  {
    hide Answers;
    var vs := a.diags[first].vals;
    LandsStays(a.vals, b.vals, l, deep, vs);
    assert (deep + top)[..|deep|] == deep && (deep + top)[|deep|..] == top;
    assert b.diags[out].vals[..|vs|] == vs;
    assert forall k | 0 <= k < |deep + top| :: (deep + top)[k] < |b.vals| by {
      forall k | 0 <= k < |deep + top| ensures (deep + top)[k] < |b.vals| {
        assert (deep + top)[k] == if k < |deep| then deep[k] else top[k - |deep|];
      }
    }
  }

  /** A term that never compares two values. */
  predicate NoEqual(t: Tree) {
    match t
    case Op(prim) => prim != Prims.Prim.Equal
    case Compose(l, r) => NoEqual(l) && NoEqual(r)
    case Par(l, r) => NoEqual(l) && NoEqual(r)
    case Branch(x, y) => NoEqual(x) && NoEqual(y)
    case _ => true
  }

  // ---- evaluation ----

  /** Where no answer came something asked about was not plain, and nothing is claimed. */
  lemma Unanswered(ctx: Ctx, d: DiagId, t: Tree, stack: seq<ValId>, path: Path, carried: seq<ValId>)
    requires ctx.Valid() && ctx.Promised(None)
    ensures TameWalk(ctx.A(), ctx.asked, t, stack, path, None) && TameUnder(ctx.A(), ctx.asked, d, t, path, None)
    ensures TameBeside(ctx.A(), ctx.asked, d, t, path, carried, None) && TameOver(ctx.A(), ctx.asked, d, carried, None)
  {
    hide ctx.MemosRight; hide ctx.Interned; hide NodesSorted; hide AllUnfolded;
    Wild(ctx.A(), ctx.asked, d, t, stack, path, carried);
  }

  lemma AskedAreWires(ctx: Ctx)
    requires ctx.Valid()
    ensures forall c | c in ctx.asked :: c < |ctx.vals|
  {
  }

  /** A node of the arena is sorted. */
  lemma NodeIsSorted(ctx: Ctx, d: DiagId)
    requires ctx.Valid() && d < |ctx.diags|
    ensures NodeSorted(ctx.A(), d)
  {
  }

  /** The diagram of a term, run on wires for its inputs. */
  method NormalForm(ctx: Ctx, terms: Context, term: TermIndex, fuel: nat) returns (r: Option<DiagId>)
    requires ctx.Valid() && terms.Valid() && terms.Has(term) && terms.At(term).Ok()
    requires terms.At(term).Effect().inputs <= ctx.bound
    modifies ctx
    ensures ctx.Kept()
    ensures r.Some? ==> NormalRight(ctx.A(), terms.At(term), r.value)
    ensures Plain(ctx.vals, ctx.asked) ==> r.Some? && Formed(ctx.A(), terms.At(term), r.value)
    ensures HasInputs(ctx.vals, terms.At(term).Effect().inputs)
    ensures OneFork(terms.At(term)) ==> r.Some?
    ensures old(EqualFree(ctx.vals)) && NoEqual(terms.At(term)) ==>
      r.Some? && EqualFree(ctx.vals) && Formed(ctx.A(), terms.At(term), r.value)
    ensures terms.At(term).Cartesian() ==> r.Some? && CartLeaf(ctx.A(), r.value)
    ensures forall d: DiagId | d < |old(ctx.diags)| && Settles(old(ctx.A()), terms.At(term), d) :: r == Some(d)
  {
    hide ctx.MemosRight; hide ctx.Interned; hide NodesSorted; hide AllUnfolded; hide ctx.AskedOk; hide EvalRight;
    hide NormalRight; hide CartLeaf; hide Repeats; hide Landed; hide Settles;
    ghost var (a0, t) := (ctx.A(), terms.At(term));
    ctx.Forget();
    var stack := Inputs(ctx, terms.EffectAt(term).inputs);
    ghost var a1 := ctx.A();
    r := Eval(ctx, terms, term, stack, [], fuel);
    AskedIsPlain(ctx);
    assert InputWires(ctx.vals, stack);
    if Plain(ctx.vals, ctx.asked) {
      ctx.AllDistinct();
      FormedOnInputs(ctx.A(), ctx.asked, t, stack, r);
    }
    hide Formed;
    if r.Some? {
      InputsRight(ctx.A(), t, stack, r.value);
    }
    if t.Cartesian() {
      CartesianLanded(a1, ctx.A(), t, stack, r);
    }
    ctx.AllDistinct();
    SettledFound(a0, a1, t, stack, r);
  }

  /** With no comparison in the arena, everything asked about is plain. */
  lemma AskedIsPlain(ctx: Ctx)
    requires ctx.Valid()
    ensures EqualFree(ctx.vals) ==> Plain(ctx.vals, ctx.asked)
  {
    if EqualFree(ctx.vals) {
      EqualFreeIsPlain(ctx.vals, ctx.asked);
    }
  }

  /** Wires for the inputs, deepest first. */
  predicate InputWires(vals: seq<ValNode>, stack: seq<ValId>) {
    All(stack, |vals|) && forall k | 0 <= k < |stack| :: vals[stack[k]] == Var(k)
  }

  /** However the arena grows, the term on its inputs can only come out as `d`. */
  ghost predicate Settles(a: Arena, t: Tree, d: DiagId)
    requires a.Ok() && d < |a.diags|
  {
    forall b: Arena, stack: seq<ValId> {:trigger Repeats(b, t, stack, [], d)} |
      b.Ok() && Extends(a, b) && |stack| == t.Effect().inputs && InputWires(b.vals, stack) ::
        Repeats(b, t, stack, [], d)
  }

  /** There are wires for this many inputs. */
  ghost predicate HasInputs(vals: seq<ValNode>, n: nat) {
    exists stack: seq<ValId> :: |stack| == n && InputWires(vals, stack)
  }

  /**
   * On wires for its inputs, whichever conditions hold, the term leaves the wires of the leaf that `out` then chooses.
   */
  ghost predicate Formed(a: Arena, t: Tree, out: DiagId)
    requires a.Ok()
  {
    forall stack: seq<ValId> {:trigger InputWires(a.vals, stack)} |
      |stack| == t.Effect().inputs && InputWires(a.vals, stack) :: Walked(a, t, stack, [], out)
  }

  lemma FormedOnInputs(a: Arena, asked: set<ValId>, t: Tree, stack: seq<ValId>, r: Option<DiagId>)
    requires a.Ok() && Distinct(a.vals) && |stack| == t.Effect().inputs && InputWires(a.vals, stack)
    requires TameWalk(a, asked, t, stack, [], r) && Plain(a.vals, asked)
    ensures r.Some? && Formed(a, t, r.value)
  {
    hide Walked;
    forall other: seq<ValId> | |other| == t.Effect().inputs && InputWires(a.vals, other)
      ensures Walked(a, t, other, [], r.value)
    {
      InputsAreOnce(a.vals, stack, other);
    }
  }

  lemma InputsAreOnce(vals: seq<ValNode>, x: seq<ValId>, y: seq<ValId>)
    requires Distinct(vals) && InputWires(vals, x) && InputWires(vals, y) && |x| == |y|
    ensures x == y
  {
    forall k | 0 <= k < |x| ensures x[k] == y[k] {
      assert vals[x[k]] == vals[y[k]];
    }
  }

  lemma SettledFound(a0: Arena, a: Arena, t: Tree, stack: seq<ValId>, r: Option<DiagId>)
    requires a0.Ok() && a.Ok() && Extends(a0, a) && |stack| == t.Effect().inputs && InputWires(a.vals, stack)
    requires Repeated(a, t, stack, [], r)
    ensures forall d: DiagId | d < |a0.diags| && Settles(a0, t, d) :: r == Some(d)
  {
    hide Repeats;
    forall d: DiagId | d < |a0.diags| && Settles(a0, t, d) ensures r == Some(d) {
      assert Repeats(a, t, stack, [], d);
    }
  }

  lemma CartesianLanded(a: Arena, b: Arena, t: Tree, stack: seq<ValId>, r: Option<DiagId>)
    requires a.Ok() && b.Ok() && Extends(a, b) && t.Cartesian() && Landed(b, t, stack, r)
    requires All(stack, |a.vals|) && AllCart(a.vals, stack)
    ensures r.Some? && r.value < |b.diags| && CartLeaf(b, r.value)
  {
    hide Lands; hide Spoken;
    CartesianIsStraight(t);
    AllCartStays(a.vals, b.vals, stack);
    LandsSpoken(b.vals, t, stack, b.diags[r.value].vals, {});
  }

  /** The diagram computes what the term computes, however the calls are read and whatever the inputs are. */
  ghost predicate NormalRight(a: Arena, t: Tree, out: DiagId)
    requires a.Ok()
  {
    && t.Ok() && out < |a.diags| && Width(a.diags, out) == t.Effect().outputs
    && forall w: World | |w.env| >= t.Effect().inputs :: Diag(a, out, w) == Run(t, w.calls, w.env[..t.Effect().inputs])
  }

  lemma InputsRight(a: Arena, t: Tree, stack: seq<ValId>, out: DiagId)
    requires a.Ok() && EvalRight(a, t, stack, [], out) && forall k | 0 <= k < |stack| :: a.vals[stack[k]] == Var(k)
    ensures NormalRight(a, t, out)
  {
    var n := t.Effect().inputs;
    forall w: World | |w.env| >= n ensures Diag(a, out, w) == Run(t, w.calls, w.env[..n]) {
      assert Follows(a, [], w);
      assert Vals(a.vals, stack, w) == w.env[..n];
    }
  }

  method Inputs(ctx: Ctx, n: nat) returns (stack: seq<ValId>)
    requires ctx.Valid() && n <= ctx.bound
    modifies ctx
    ensures ctx.Grew() && |stack| == n && InputWires(ctx.vals, stack) && AllCart(ctx.vals, stack)
    ensures old(EqualFree(ctx.vals)) ==> EqualFree(ctx.vals)
  {
    hide ctx.MemosRight; hide ctx.Interned; hide NodesSorted; hide AllUnfolded; hide ctx.AskedOk;
    stack := [];
    ghost var start, had := ctx.A(), ctx.asked;
    for i := 0 to n
      invariant ctx.Valid() && Extends(start, ctx.A()) && had <= ctx.asked
      invariant |stack| == i && All(stack, |ctx.vals|)
      invariant forall k | 0 <= k < i :: ctx.vals[stack[k]] == Var(k)
      invariant EqualFree(start.vals) ==> EqualFree(ctx.vals)
    {
      var v := ctx.InternVal(Var(i));
      stack := stack + [v];
    }
  }

  /** One term on wires for exactly its inputs, under what the path has decided. */
  method Eval(ctx: Ctx, terms: Context, term: TermIndex, stack: seq<ValId>, path: Path, fuel: nat)
    returns (r: Option<DiagId>)
    requires ctx.Valid() && terms.Valid() && terms.Has(term) && terms.At(term).Ok()
    requires |stack| == terms.At(term).Effect().inputs && All(stack, |ctx.vals|) && PathOk(ctx.A(), path)
    modifies ctx
    ensures ctx.Grew()
    ensures r.Some? ==> EvalRight(ctx.A(), terms.At(term), stack, path, r.value)
    ensures ctx.Promised(r)
    ensures TameWalk(ctx.A(), ctx.asked, terms.At(term), stack, path, r)
    ensures Few(ctx.diags, terms.At(term), r)
    ensures old(EqualFree(ctx.vals)) && NoEqual(terms.At(term)) ==> EqualFree(ctx.vals)
    ensures Landed(ctx.A(), terms.At(term), stack, r)
    ensures Repeated(old(ctx.A()), terms.At(term), stack, path, r)
    decreases term, 2, 0
  {
    hide ctx.Promised; hide TameWalk; hide TameUnder; hide TameBeside; hide TameOver; hide EqualFree;
    hide ctx.MemosRight; hide ctx.Interned; hide NodesSorted; hide AllUnfolded;
    hide ctx.AskedOk; hide EvalRight; hide Repeated; hide Landed; hide Plain;
    assert terms.terms[term].Below(term);
    match terms.terms[term] {
      case Compose(a, b) =>
        r := EvalCompose(ctx, terms, term, stack, path, fuel);
      case Par(a, b) =>
        r := EvalPar(ctx, terms, term, stack, path, fuel);
      case Branch(ifTrue, ifFalse) =>
        var top := |stack| - 1;
        assert stack == stack[..top] + [stack[top]];
        r := BranchOn(ctx, terms, stack[top], stack[..top], ifTrue, ifFalse, path, fuel, term);
        NotStraight(ctx.A(), terms.At(term), stack, r);
      case _ =>
        var leaf := EvalLeaf(ctx, terms, term, stack, path);
        r := Some(leaf);
    }
  }

  lemma NotStraight(a: Arena, t: Tree, stack: seq<ValId>, r: Option<DiagId>)
    requires a.Ok() && !Straight(t)
    ensures Landed(a, t, stack, r)
  {
  }

  /** A leaf of the term language: wiring, a literal, or one box. */
  method EvalLeaf(ctx: Ctx, terms: Context, term: TermIndex, stack: seq<ValId>, path: Path) returns (d: DiagId)
    requires ctx.Valid() && terms.Valid() && terms.Has(term)
    requires !terms.terms[term].Compose? && !terms.terms[term].Par? && !terms.terms[term].Branch?
    requires |stack| == terms.At(term).Effect().inputs && All(stack, |ctx.vals|) && PathOk(ctx.A(), path)
    modifies ctx
    ensures ctx.Grew() && EvalRight(ctx.A(), terms.At(term), stack, path, d)
    ensures Landed(ctx.A(), terms.At(term), stack, Some(d))
    ensures Repeated(old(ctx.A()), terms.At(term), stack, path, Some(d))
    ensures ctx.Promised(Some(d))
    ensures TameWalk(ctx.A(), ctx.asked, terms.At(term), stack, path, Some(d))
    ensures Few(ctx.diags, terms.At(term), Some(d))
    ensures old(EqualFree(ctx.vals)) && NoEqual(terms.At(term)) ==> EqualFree(ctx.vals)
  {
    hide ctx.MemosRight; hide ctx.Interned; hide NodesSorted; hide AllUnfolded; hide ctx.AskedOk; hide Lands;
    hide Repeated;
    ghost var a0 := ctx.A();
    var out := LeafWires(ctx, terms, term, stack);
    ghost var a := ctx.A();
    d := ctx.LeafOf(out);
    forall w: World ensures Vals(ctx.vals, out, w) == Run(terms.At(term), w.calls, Vals(ctx.vals, stack, w)) {
      assert Vals(ctx.vals, out, w) == Vals(a.vals, out, w) && Vals(ctx.vals, stack, w) == Vals(a.vals, stack, w);
    }
    LeafRight(ctx.A(), terms.At(term), stack, path, out, d);
    StraightWalked(ctx.A(), terms.At(term), stack, path, d);
    hide Walked;
    GrowsValid(a0, ctx);
    StraightRepeated(a0, ctx.A(), terms.At(term), stack, path, Some(d));
  }

  lemma GrowsValid(a: Arena, ctx: Ctx)
    requires ctx.Valid() && a.Ok() && Extends(a, ctx.A())
    ensures GrowsInto(a.vals, ctx.vals) && DistinctDiags(ctx.diags)
  {
    hide ctx.MemosRight; hide NodesSorted; hide ctx.AskedOk;
    ctx.AllDistinct();
  }

  /** A literal, a swap or one box. */
  method OpWires(ctx: Ctx, terms: Context, term: TermIndex, stack: seq<ValId>) returns (out: seq<ValId>)
    requires ctx.Valid() && terms.Valid() && terms.Has(term)
    requires terms.terms[term].Op? || terms.terms[term].Call?
    requires |stack| == terms.At(term).Effect().inputs && All(stack, |ctx.vals|)
    modifies ctx
    ensures ctx.Grew() && All(out, |ctx.vals|) && |out| == terms.At(term).Effect().outputs
    ensures forall w: World :: Vals(ctx.vals, out, w) == Run(terms.At(term), w.calls, Vals(ctx.vals, stack, w))
    ensures Lands(ctx.vals, terms.At(term), stack, out)
    ensures old(EqualFree(ctx.vals)) && NoEqual(terms.At(term)) ==> EqualFree(ctx.vals)
  {
    hide ctx.MemosRight; hide ctx.Interned; hide NodesSorted; hide AllUnfolded; hide ctx.AskedOk; hide Answers;
    hide EqualFree; hide Plain; hide Tests;
    match terms.terms[term] {
      case Op(Push(v)) =>
        var lit := ctx.LitWire(v);
        out := [lit];
      case Op(Swap) => out := [stack[1], stack[0]];
      case Op(prim) => out := ctx.Apply(Op.Prim(prim), stack);
      case Call(target, arity) => out := ctx.Apply(Op.Call(target, arity), stack);
    }
  }

  method LeafWires(ctx: Ctx, terms: Context, term: TermIndex, stack: seq<ValId>) returns (out: seq<ValId>)
    requires ctx.Valid() && terms.Valid() && terms.Has(term)
    requires !terms.terms[term].Compose? && !terms.terms[term].Par? && !terms.terms[term].Branch?
    requires |stack| == terms.At(term).Effect().inputs && All(stack, |ctx.vals|)
    modifies ctx
    ensures ctx.Grew() && All(out, |ctx.vals|) && |out| == terms.At(term).Effect().outputs
    ensures forall w: World :: Vals(ctx.vals, out, w) == Run(terms.At(term), w.calls, Vals(ctx.vals, stack, w))
    ensures Lands(ctx.vals, terms.At(term), stack, out)
    ensures old(EqualFree(ctx.vals)) && NoEqual(terms.At(term)) ==> EqualFree(ctx.vals)
  {
    hide ctx.MemosRight; hide ctx.Interned; hide NodesSorted; hide AllUnfolded; hide ctx.AskedOk; hide Answers;
    hide EqualFree; hide Plain; hide Tests;
    match terms.terms[term] {
      case Id(_) => out := stack;
      case Drop(_) => out := [];
      case Copy(_) =>
        out := stack + stack;
        assert forall w: World :: Vals(ctx.vals, out, w) == Vals(ctx.vals, stack, w) + Vals(ctx.vals, stack, w);
      case Op(_) => out := OpWires(ctx, terms, term, stack);
      case Call(_, _) => out := OpWires(ctx, terms, term, stack);
    }
  }

  method EvalCompose(ctx: Ctx, terms: Context, term: TermIndex, stack: seq<ValId>, path: Path, fuel: nat)
    returns (r: Option<DiagId>)
    requires ctx.Valid() && terms.Valid() && terms.Has(term) && terms.At(term).Ok() && terms.terms[term].Compose?
    requires |stack| == terms.At(term).Effect().inputs && All(stack, |ctx.vals|) && PathOk(ctx.A(), path)
    modifies ctx
    ensures ctx.Grew()
    ensures r.Some? ==> EvalRight(ctx.A(), terms.At(term), stack, path, r.value)
    ensures ctx.Promised(r)
    ensures TameWalk(ctx.A(), ctx.asked, terms.At(term), stack, path, r)
    ensures Few(ctx.diags, terms.At(term), r)
    ensures old(EqualFree(ctx.vals)) && NoEqual(terms.At(term)) ==> EqualFree(ctx.vals)
    ensures Landed(ctx.A(), terms.At(term), stack, r)
    ensures Repeated(old(ctx.A()), terms.At(term), stack, path, r)
    decreases term, 1, 0
  {
    hide ctx.Promised; hide TameWalk; hide TameUnder; hide TameBeside; hide TameOver; hide EqualFree;
    hide ctx.MemosRight; hide ctx.Interned; hide NodesSorted; hide AllUnfolded;
    hide ctx.AskedOk; hide Repeated; hide Landed; hide Plain;
    ghost var a0 := ctx.A();
    assert terms.terms[term].Below(term);
    var (a, b) := (terms.terms[term].left, terms.terms[term].right);
    assert terms.At(term) == Tree.Compose(terms.At(a), terms.At(b));
    var first := Eval(ctx, terms, a, stack, path, fuel);
    label Then1: ghost var (a1, asked1) := (ctx.A(), ctx.asked);
    if first.None? {
      NoneLanded(a0, a1, terms.At(a), terms.At(b), stack, path);
      Unanswered(ctx, 0, terms.At(term), stack, path, []);
      return None;
    }
    GrowsValid(a0, ctx);
    AskedAreWires(ctx);
    r := GraftThen(ctx, terms, first.value, b, path, fuel);
    ThenTame(a1, asked1, ctx.A(), ctx.asked, terms.At(a), terms.At(b), stack, path, first, r);
    ComposeDone(ctx, a0, a1, terms.At(a), terms.At(b), stack, path, first, r);
    if r.Some? {
      EvalStays(a1, ctx.A(), terms.At(a), stack, path, first.value);
      ComposeRight(ctx.A(), terms.At(a), terms.At(b), stack, path, first.value, r.value);
    }
  }

  lemma NoneLanded(a0: Arena, a: Arena, l: Tree, r: Tree, stack: seq<ValId>, path: Path)
    requires a0.Ok() && a.Ok() && Landed(a, l, stack, None)
    ensures Landed(a, Tree.Compose(l, r), stack, None) && Repeated(a0, Tree.Compose(l, r), stack, path, None)
  {
  }

  lemma ComposeDone(
    ctx: Ctx, a0: Arena, a: Arena, l: Tree, r: Tree, stack: seq<ValId>, path: Path, first: Option<DiagId>,
    out: Option<DiagId>)
    requires ctx.Valid() && a0.Ok() && a.Ok() && Extends(a0, a) && Extends(a, ctx.A()) && GrowsInto(a0.vals, a.vals)
    requires Tree.Compose(l, r).Ok() && Landed(a, l, stack, first) && first.Some? && first.value < |a.diags|
    requires a.diags[first.value].Leaf? ==>
      Landed(ctx.A(), r, a.diags[first.value].vals, out) && Repeated(a, r, a.diags[first.value].vals, path, out)
    ensures Landed(ctx.A(), Tree.Compose(l, r), stack, out)
    ensures Repeated(a0, Tree.Compose(l, r), stack, path, out)
  {
    hide ctx.MemosRight; hide ctx.Interned; hide NodesSorted; hide AllUnfolded; hide ctx.AskedOk; hide Landed;
    hide Repeated;
    ComposeLanded(a, ctx.A(), l, r, stack, first, out);
    if Straight(Tree.Compose(l, r)) {
      GrowsValid(a0, ctx);
      StraightRepeated(a0, ctx.A(), Tree.Compose(l, r), stack, path, out);
    } else {
      ComposeRepeated(a0, a, ctx.A(), l, r, stack, path, first, out);
    }
  }

  method EvalPar(ctx: Ctx, terms: Context, term: TermIndex, stack: seq<ValId>, path: Path, fuel: nat)
    returns (r: Option<DiagId>)
    requires ctx.Valid() && terms.Valid() && terms.Has(term) && terms.At(term).Ok() && terms.terms[term].Par?
    requires |stack| == terms.At(term).Effect().inputs && All(stack, |ctx.vals|) && PathOk(ctx.A(), path)
    modifies ctx
    ensures ctx.Grew()
    ensures r.Some? ==> EvalRight(ctx.A(), terms.At(term), stack, path, r.value)
    ensures ctx.Promised(r)
    ensures TameWalk(ctx.A(), ctx.asked, terms.At(term), stack, path, r)
    ensures Few(ctx.diags, terms.At(term), r)
    ensures old(EqualFree(ctx.vals)) && NoEqual(terms.At(term)) ==> EqualFree(ctx.vals)
    ensures Landed(ctx.A(), terms.At(term), stack, r)
    ensures Repeated(old(ctx.A()), terms.At(term), stack, path, r)
    decreases term, 1, 0
  {
    hide ctx.Promised; hide TameWalk; hide TameUnder; hide TameBeside; hide TameOver; hide EqualFree;
    hide ctx.MemosRight; hide ctx.Interned; hide NodesSorted; hide AllUnfolded;
    hide ctx.AskedOk; hide Repeated; hide Landed; hide Plain; hide BesideLanded;
    hide EvalRight; hide CarriesOver; hide Width; hide Tests;
    ghost var a0 := ctx.A();
    assert terms.terms[term].Below(term);
    var (a, b) := (terms.terms[term].left, terms.terms[term].right);
    assert terms.At(term) == Tree.Par(terms.At(a), terms.At(b));
    var cut := |stack| - terms.EffectAt(b).inputs;
    var under, top := stack[..cut], stack[cut..];
    assert stack == under + top;
    var deep := Eval(ctx, terms, a, under, path, fuel);
    label Then1: ghost var (a1, asked1) := (ctx.A(), ctx.asked);
    if deep.None? {
      NoneBeside(a0, a1, terms.At(a), terms.At(b), under, stack, path);
      Unanswered(ctx, 0, terms.At(term), stack, path, []);
      return None;
    }
    EvalIsThere(a1, terms.At(a), under, path, deep.value);
    AskedAreWires(ctx);
    r := GraftBeside(ctx, terms, deep.value, b, path, top, fuel);
    AboveTame(a1, asked1, ctx.A(), ctx.asked, terms.At(a), terms.At(b), under, top, path, deep, r);
    ParDone(ctx, a0, a1, terms.At(a), terms.At(b), under, top, path, deep.value, r);
    if r.Some? {
      EvalStays(a1, ctx.A(), terms.At(a), under, path, deep.value);
      ParRight(ctx.A(), terms.At(a), terms.At(b), stack, path, under, top, deep.value, r.value);
    }
  }

  lemma NoneBeside(a0: Arena, a: Arena, l: Tree, r: Tree, under: seq<ValId>, stack: seq<ValId>, path: Path)
    requires a0.Ok() && a.Ok() && Landed(a, l, under, None)
    ensures Landed(a, Tree.Par(l, r), stack, None) && Repeated(a0, Tree.Par(l, r), stack, path, None)
  {
  }

  lemma EvalIsThere(a: Arena, t: Tree, stack: seq<ValId>, path: Path, out: DiagId)
    requires a.Ok() && EvalRight(a, t, stack, path, out)
    ensures out < |a.diags| && Width(a.diags, out) == t.Effect().outputs
  {
  }

  lemma ParDone(
    ctx: Ctx, a0: Arena, a: Arena, l: Tree, r: Tree, under: seq<ValId>, top: seq<ValId>, path: Path,
    deep: DiagId, out: Option<DiagId>)
    requires ctx.Valid() && a0.Ok() && a.Ok() && Extends(a0, a) && Extends(a, ctx.A())
    requires Tree.Par(l, r).Ok() && Landed(a, l, under, Some(deep)) && deep < |a.diags|
    requires a.diags[deep].Leaf? ==> BesideLanded(ctx.A(), r, a.diags[deep].vals, top, out)
    ensures Landed(ctx.A(), Tree.Par(l, r), under + top, out)
    ensures Repeated(a0, Tree.Par(l, r), under + top, path, out)
  {
    hide ctx.MemosRight; hide ctx.Interned; hide NodesSorted; hide AllUnfolded; hide ctx.AskedOk; hide Repeated;
    hide Lands;
    if Straight(Tree.Par(l, r)) {
      assert ctx.diags[out.value].Below(out.value, |ctx.vals|);
      ParLanded(a, ctx.A(), l, r, under, top, deep, out.value);
      GrowsValid(a0, ctx);
      StraightRepeated(a0, ctx.A(), Tree.Par(l, r), under + top, path, out);
    } else {
      ParNeverRepeats(a0, l, r, under + top, path, out);
    }
  }

  lemma ParNeverRepeats(a: Arena, l: Tree, r: Tree, stack: seq<ValId>, path: Path, out: Option<DiagId>)
    requires a.Ok() && !Straight(Tree.Par(l, r))
    ensures Repeated(a, Tree.Par(l, r), stack, path, out)
  {
  }

  /** Above a leaf's wires, a straight term leaves the wires it lands on. */
  ghost predicate BesideLanded(a: Arena, t: Tree, under: seq<ValId>, carried: seq<ValId>, r: Option<DiagId>)
    requires a.Ok()
  {
    Straight(t) ==>
      && r.Some? && r.value < |a.diags| && a.diags[r.value].Leaf? && under <= a.diags[r.value].vals
      && Lands(a.vals, t, carried, a.diags[r.value].vals[|under|..])
  }

  // ---- continuing under the leaves of a built diagram ----

  /** The stack an arm that saw `cond` hold carries: the literal it proved written for the value. */
  method Carry(ctx: Ctx, cond: ValId, carried: seq<ValId>) returns (out: seq<ValId>)
    requires ctx.Valid() && cond < |ctx.vals| && All(carried, |ctx.vals|)
    modifies ctx
    ensures ctx.Grew() && CarriesOver(ctx.A(), cond, carried, out)
    ensures |out| == |carried| && All(out, |ctx.vals|)
    ensures old(EqualToLiteral(ctx.vals, cond)).None? ==> out == carried
    ensures old(EqualFree(ctx.vals)) ==> EqualFree(ctx.vals)
  {
    hide ctx.MemosRight; hide ctx.Interned; hide NodesSorted; hide AllUnfolded; hide ctx.AskedOk;
    match EqualToLiteral(ctx.vals, cond) {
      case None => return carried;
      case Some((from, to)) =>
        LiteralHoldsAlways(ctx.vals, cond);
        ghost var a := ctx.A();
        out := ctx.SubstVals(carried, from, to, |ctx.vals|);
        ExtendsAgrees(a, ctx.A());
        forall w: World | Val(ctx.vals, cond, w).Truthy() ensures Vals(ctx.vals, out, w) == Vals(ctx.vals, carried, w) {
          assert Val(a.vals, from, w) == Val(a.vals, to, w);
          forall k | 0 <= k < |out| ensures Val(ctx.vals, out[k], w) == Val(ctx.vals, carried[k], w) {
            assert Rewrites(ctx.A(), carried[k], from, to, out[k]);
          }
        }
    }
  }

  /** The second half of a `;` under every leaf of the first. */
  method GraftThen(ctx: Ctx, terms: Context, d: DiagId, b: TermIndex, path: Path, fuel: nat) returns (r: Option<DiagId>)
    requires ctx.Valid() && terms.Valid() && terms.Has(b) && terms.At(b).Ok()
    requires d < |ctx.diags| && Width(ctx.diags, d) == terms.At(b).Effect().inputs && PathOk(ctx.A(), path)
    modifies ctx
    ensures ctx.Grew()
    ensures r.Some? ==> ThenRight(ctx.A(), d, terms.At(b), path, r.value)
    ensures ctx.Promised(r)
    ensures TameUnder(ctx.A(), ctx.asked, d, terms.At(b), path, r)
    ensures FewUnder(old(ctx.diags), d, ctx.diags, terms.At(b), r)
    ensures old(EqualFree(ctx.vals)) && NoEqual(terms.At(b)) ==> EqualFree(ctx.vals)
    ensures old(ctx.diags)[d].Leaf? ==>
      Landed(ctx.A(), terms.At(b), old(ctx.diags)[d].vals, r)
      && Repeated(old(ctx.A()), terms.At(b), old(ctx.diags)[d].vals, path, r)
    decreases b, 3, d
  {
    hide ctx.Promised; hide TameWalk; hide TameUnder; hide TameBeside; hide TameOver; hide EqualFree;
    hide ctx.MemosRight; hide ctx.Interned; hide NodesSorted; hide AllUnfolded;
    hide ctx.AskedOk; hide Repeated; hide Landed; hide Plain;
    assert ctx.diags[d].Below(d, |ctx.vals|);
    ghost var t := terms.At(b);
    match ctx.diags[d] {
      case Leaf(vs) =>
        r := Eval(ctx, terms, b, vs, path, fuel);
        TameUnderLeaf(ctx.A(), ctx.asked, d, t, path, r);
        if r.Some? {
          ThenLeaf(ctx.A(), d, t, path, vs, r.value);
        }
      case Branch(_, _, _) =>
        r := ThenArms(ctx, terms, d, b, path, fuel);
    }
  }

  lemma ArmsBelow(a: Arena, d: DiagId)
    requires a.Ok() && d < |a.diags| && a.diags[d].Branch?
    ensures a.diags[d].cond < |a.vals| && a.diags[d].ifTrue < d && a.diags[d].ifFalse < d
    ensures Grounded(a.diags)
    ensures Width(a.diags, d) == Width(a.diags, a.diags[d].ifTrue) == Width(a.diags, a.diags[d].ifFalse)
  {
    assert a.diags[d].Below(d, |a.vals|);
  }

  lemma WidthKept(a: Arena, b: Arena, d: DiagId)
    requires a.Ok() && b.Ok() && Extends(a, b) && d < |a.diags|
    ensures Grounded(a.diags) && Grounded(b.diags) && Width(b.diags, d) == Width(a.diags, d)
  {
    ExtendsAgrees(a, b);
  }

  method ThenArms(ctx: Ctx, terms: Context, d: DiagId, b: TermIndex, path: Path, fuel: nat) returns (r: Option<DiagId>)
    requires ctx.Valid() && terms.Valid() && terms.Has(b) && terms.At(b).Ok() && d < |ctx.diags| && ctx.diags[d].Branch?
    requires Width(ctx.diags, d) == terms.At(b).Effect().inputs && PathOk(ctx.A(), path)
    modifies ctx
    ensures ctx.Grew()
    ensures r.Some? ==> ThenRight(ctx.A(), d, terms.At(b), path, r.value)
    ensures ctx.Promised(r)
    ensures TameUnder(ctx.A(), ctx.asked, d, terms.At(b), path, r)
    ensures FewUnder(old(ctx.diags), d, ctx.diags, terms.At(b), r)
    ensures old(EqualFree(ctx.vals)) && NoEqual(terms.At(b)) ==> EqualFree(ctx.vals)
    decreases b, 3, d, 0
  {
    hide ctx.Promised; hide TameWalk; hide TameUnder; hide TameBeside; hide TameOver; hide EqualFree;
    hide ctx.MemosRight; hide ctx.Interned; hide NodesSorted; hide AllUnfolded;
    hide ctx.AskedOk; hide ThenRight; hide Plain; hide Landed; hide Repeated; hide TreeAt; hide Ordered;
    hide Arena.Ok; hide Width; hide Grounded; hide DiagNode.Below;
    ArmsBelow(ctx.A(), d);
    var (cond, ifTrue, ifFalse) := (ctx.diags[d].cond, ctx.diags[d].ifTrue, ctx.diags[d].ifFalse);
    ghost var t := terms.At(b);
    ghost var a0 := ctx.A();
    var yes := GraftThen(ctx, terms, ifTrue, b, path + [(cond, true)], fuel);
    if yes.None? {
      Unanswered(ctx, d, t, [], path, []);
      return None;
    }
    label Then1: ghost var (a1, asked1) := (ctx.A(), ctx.asked);
    AskedAreWires(ctx);
    WidthKept(a0, a1, ifFalse);
    var no := GraftThen(ctx, terms, ifFalse, b, path + [(cond, false)], fuel);
    ctx.StillPromised@Then1(yes);
    if no.None? {
      Unanswered(ctx, d, t, [], path, []);
      return None;
    }
    label Then2: ghost var a2 := ctx.A();
    ThenStays(a1, a2, ifTrue, t, path + [(cond, true)], yes.value);
    TameUnderStays(a1, asked1, a2, ctx.asked, ifTrue, t, path + [(cond, true)], yes);
    r := ThenJoin(ctx, d, t, path, yes.value, no.value, fuel);
  }

  method ThenJoin(ctx: Ctx, d: DiagId, ghost t: Tree, ghost path: Path, yes: DiagId, no: DiagId, fuel: nat)
    returns (r: Option<DiagId>)
    requires ctx.Valid() && d < |ctx.diags| && ctx.diags[d].Branch? && PathOk(ctx.A(), path)
    requires ThenRight(ctx.A(), ctx.diags[d].ifTrue, t, path + [(ctx.diags[d].cond, true)], yes)
    requires ThenRight(ctx.A(), ctx.diags[d].ifFalse, t, path + [(ctx.diags[d].cond, false)], no)
    requires TameUnder(ctx.A(), ctx.asked, ctx.diags[d].ifTrue, t, path + [(ctx.diags[d].cond, true)], Some(yes))
    requires TameUnder(ctx.A(), ctx.asked, ctx.diags[d].ifFalse, t, path + [(ctx.diags[d].cond, false)], Some(no))
    requires ctx.Promised(Some(yes)) && ctx.Promised(Some(no))
    modifies ctx
    ensures ctx.Grew()
    ensures r.Some? ==> ThenRight(ctx.A(), d, t, path, r.value)
    ensures ctx.Promised(r)
    ensures TameUnder(ctx.A(), ctx.asked, d, t, path, r)
    ensures old(BothLeaves(ctx.diags, yes, no)) ==> IsShallow(ctx.diags, r)
    ensures old(EqualFree(ctx.vals)) ==> EqualFree(ctx.vals)
  {
    hide ctx.Promised; hide TameWalk; hide TameUnder; hide TameBeside; hide TameOver; hide EqualFree;
    hide ctx.MemosRight; hide ctx.Interned; hide NodesSorted; hide AllUnfolded;
    hide ctx.AskedOk;
    assert ctx.diags[d].Below(d, |ctx.vals|);
    var (cond, ifTrue, ifFalse) := (ctx.diags[d].cond, ctx.diags[d].ifTrue, ctx.diags[d].ifFalse);
    ghost var (a, asked0) := (ctx.A(), ctx.asked);
    AskedAreWires(ctx);
    r := ctx.Join(cond, yes, no, fuel);
    TameUnderStays(a, asked0, ctx.A(), ctx.asked, ifTrue, t, path + [(cond, true)], Some(yes));
    TameUnderStays(a, asked0, ctx.A(), ctx.asked, ifFalse, t, path + [(cond, false)], Some(no));
    NodeIsSorted(ctx, d);
    JoinUnder(ctx.A(), ctx.asked, d, t, path, yes, no, r);
    if r.Some? {
      ThenStays(a, ctx.A(), ifTrue, t, path + [(cond, true)], yes);
      ThenStays(a, ctx.A(), ifFalse, t, path + [(cond, false)], no);
      ThenBranch(ctx.A(), d, t, path, yes, no, r.value);
    }
  }

  /** The top half of a `*` under every leaf of the deep half, its slice of the stack carried down. */
  method GraftBeside(ctx: Ctx, terms: Context, d: DiagId, b: TermIndex, path: Path, carried: seq<ValId>, fuel: nat)
    returns (r: Option<DiagId>)
    requires ctx.Valid() && terms.Valid() && terms.Has(b) && terms.At(b).Ok() && d < |ctx.diags|
    requires |carried| == terms.At(b).Effect().inputs && All(carried, |ctx.vals|) && PathOk(ctx.A(), path)
    modifies ctx
    ensures ctx.Grew()
    ensures r.Some? ==> BesideRight(ctx.A(), d, terms.At(b), path, carried, r.value)
    ensures ctx.Promised(r)
    ensures TameBeside(ctx.A(), ctx.asked, d, terms.At(b), path, carried, r)
    ensures FewUnder(old(ctx.diags), d, ctx.diags, terms.At(b), r)
    ensures old(EqualFree(ctx.vals)) && NoEqual(terms.At(b)) ==> EqualFree(ctx.vals)
    ensures old(ctx.diags)[d].Leaf? ==> BesideLanded(ctx.A(), terms.At(b), old(ctx.diags)[d].vals, carried, r)
    decreases b, 3, d
  {
    hide ctx.Promised; hide TameWalk; hide TameUnder; hide TameBeside; hide TameOver; hide EqualFree;
    hide ctx.MemosRight; hide ctx.Interned; hide NodesSorted; hide AllUnfolded;
    hide ctx.AskedOk;
    assert ctx.diags[d].Below(d, |ctx.vals|);
    match ctx.diags[d] {
      case Leaf(vs) => r := BesideOneLeaf(ctx, terms, d, b, path, carried, fuel);
      case Branch(_, _, _) => r := BesideArms(ctx, terms, d, b, path, carried, fuel);
    }
  }

  method BesideOneLeaf(ctx: Ctx, terms: Context, d: DiagId, b: TermIndex, path: Path, carried: seq<ValId>, fuel: nat)
    returns (r: Option<DiagId>)
    requires ctx.Valid() && terms.Valid() && terms.Has(b) && terms.At(b).Ok() && d < |ctx.diags| && ctx.diags[d].Leaf?
    requires |carried| == terms.At(b).Effect().inputs && All(carried, |ctx.vals|) && PathOk(ctx.A(), path)
    modifies ctx
    ensures ctx.Grew()
    ensures r.Some? ==> BesideRight(ctx.A(), d, terms.At(b), path, carried, r.value)
    ensures ctx.Promised(r)
    ensures TameBeside(ctx.A(), ctx.asked, d, terms.At(b), path, carried, r)
    ensures FewUnder(old(ctx.diags), d, ctx.diags, terms.At(b), r)
    ensures old(EqualFree(ctx.vals)) && NoEqual(terms.At(b)) ==> EqualFree(ctx.vals)
    ensures old(ctx.diags)[d].Leaf? ==> BesideLanded(ctx.A(), terms.At(b), old(ctx.diags)[d].vals, carried, r)
    decreases b, 3, d, 0
  {
    hide ctx.Promised; hide TameWalk; hide TameUnder; hide TameBeside; hide TameOver; hide EqualFree;
    hide ctx.MemosRight; hide ctx.Interned; hide NodesSorted; hide AllUnfolded;
    hide ctx.AskedOk; hide BesideLanded; hide Landed; hide Repeated; hide Plain; hide OverRight; hide BesideRight;
    hide TreeAt; hide Ordered;
    assert ctx.diags[d].Below(d, |ctx.vals|);
    var vs := ctx.diags[d].vals;
    assert All(vs, |ctx.vals|);
    var above := Eval(ctx, terms, b, carried, path, fuel);
    NothingBeside(ctx.A(), terms.At(b), vs, carried, above);
    if above.None? {
      Unanswered(ctx, d, terms.At(b), [], path, carried);
      return None;
    }
    label Then1: ghost var (a1, asked1) := (ctx.A(), ctx.asked);
    AskedAreWires(ctx);
    r := GraftOver(ctx, above.value, vs, fuel);
    TameWalkStays(a1, asked1, ctx.A(), ctx.asked, terms.At(b), carried, path, above);
    TameBesideLeaf(ctx.A(), ctx.asked, d, terms.At(b), path, carried, above, r);
    OverLanded(a1, ctx.A(), terms.At(b), vs, carried, above.value, r);
    if r.Some? {
      EvalStays(a1, ctx.A(), terms.At(b), carried, path, above.value);
      BesideLeaf(ctx.A(), d, terms.At(b), path, carried, vs, above.value, r.value);
    }
  }

  lemma NothingBeside(a: Arena, t: Tree, vs: seq<ValId>, carried: seq<ValId>, above: Option<DiagId>)
    requires a.Ok() && Landed(a, t, carried, above)
    ensures above.None? ==> BesideLanded(a, t, vs, carried, None)
  {
  }

  lemma OverLanded(
    a: Arena, b: Arena, t: Tree, vs: seq<ValId>, carried: seq<ValId>, above: DiagId, r: Option<DiagId>)
    requires a.Ok() && b.Ok() && Extends(a, b) && Landed(a, t, carried, Some(above)) && above < |a.diags|
    requires a.diags[above].Leaf? ==>
      r.Some? && r.value < |b.diags| && b.diags[r.value] == Leaf(vs + a.diags[above].vals)
    ensures BesideLanded(b, t, vs, carried, r)
  {
    hide Lands;
    if Straight(t) {
      var out := a.diags[above].vals;
      LandsStays(a.vals, b.vals, t, carried, out);
      assert (vs + out)[|vs|..] == out;
    }
  }

  method BesideArms(ctx: Ctx, terms: Context, d: DiagId, b: TermIndex, path: Path, carried: seq<ValId>, fuel: nat)
    returns (r: Option<DiagId>)
    requires ctx.Valid() && terms.Valid() && terms.Has(b) && terms.At(b).Ok() && d < |ctx.diags| && ctx.diags[d].Branch?
    requires |carried| == terms.At(b).Effect().inputs && All(carried, |ctx.vals|) && PathOk(ctx.A(), path)
    modifies ctx
    ensures ctx.Grew()
    ensures r.Some? ==> BesideRight(ctx.A(), d, terms.At(b), path, carried, r.value)
    ensures ctx.Promised(r)
    ensures TameBeside(ctx.A(), ctx.asked, d, terms.At(b), path, carried, r)
    ensures FewUnder(old(ctx.diags), d, ctx.diags, terms.At(b), r)
    ensures old(EqualFree(ctx.vals)) && NoEqual(terms.At(b)) ==> EqualFree(ctx.vals)
    decreases b, 3, d, 0
  {
    hide ctx.Promised; hide TameWalk; hide TameUnder; hide TameBeside; hide TameOver; hide EqualFree;
    hide ctx.MemosRight; hide ctx.Interned; hide NodesSorted; hide AllUnfolded;
    hide ctx.AskedOk; hide BesideRight; hide CarriesOver; hide Plain; hide BesideLanded; hide EqualToLiteral;
    hide TreeAt; hide Ordered; hide Arena.Ok; hide Width; hide Grounded; hide DiagNode.Below;
    ghost var a0 := ctx.A();
    ArmsBelow(ctx.A(), d);
    ghost var t := terms.At(b);
    var (cond, ifTrue, ifFalse) := (ctx.diags[d].cond, ctx.diags[d].ifTrue, ctx.diags[d].ifFalse);
    var held := Carry(ctx, cond, carried);
    ghost var a1 := ctx.A();
    var yes := GraftBeside(ctx, terms, ifTrue, b, path + [(cond, true)], held, fuel);
    if yes.None? {
      Unanswered(ctx, d, t, [], path, carried);
      return None;
    }
    label Then2: ghost var (a2, asked2) := (ctx.A(), ctx.asked);
    AskedAreWires(ctx);
    var no := GraftBeside(ctx, terms, ifFalse, b, path + [(cond, false)], carried, fuel);
    ctx.StillPromised@Then2(yes);
    if no.None? {
      Unanswered(ctx, d, t, [], path, carried);
      return None;
    }
    label Then3: ghost var a3 := ctx.A();
    TameBesideStays(a2, asked2, a3, ctx.asked, ifTrue, t, path + [(cond, true)], held, yes);
    BesideStays(a2, a3, ifTrue, t, path + [(cond, true)], held, yes.value);
    CarriesStays(a1, a3, cond, carried, held);
    WidthKept(a0, a3, ifTrue);
    WidthKept(a0, a3, ifFalse);
    r := BesideJoin(ctx, d, t, path, carried, held, yes.value, no.value, fuel);
  }

  method BesideJoin(
    ctx: Ctx, d: DiagId, ghost t: Tree, ghost path: Path, ghost carried: seq<ValId>, ghost held: seq<ValId>,
    yes: DiagId, no: DiagId, fuel: nat)
    returns (r: Option<DiagId>)
    requires ctx.Valid() && d < |ctx.diags| && ctx.diags[d].Branch? && PathOk(ctx.A(), path)
    requires ctx.diags[d].ifTrue < d && ctx.diags[d].ifFalse < d && ctx.diags[d].cond < |ctx.vals|
    requires CarriesOver(ctx.A(), ctx.diags[d].cond, carried, held)
    requires BesideRight(ctx.A(), ctx.diags[d].ifTrue, t, path + [(ctx.diags[d].cond, true)], held, yes)
    requires BesideRight(ctx.A(), ctx.diags[d].ifFalse, t, path + [(ctx.diags[d].cond, false)], carried, no)
    requires TameBeside(
               ctx.A(), ctx.asked, ctx.diags[d].ifTrue, t, path + [(ctx.diags[d].cond, true)], held, Some(yes))
    requires TameBeside(
               ctx.A(), ctx.asked, ctx.diags[d].ifFalse, t, path + [(ctx.diags[d].cond, false)], carried, Some(no))
    requires ctx.Promised(Some(yes)) && ctx.Promised(Some(no)) && PathOk(ctx.A(), path)
    modifies ctx
    ensures ctx.Grew()
    ensures r.Some? ==> BesideRight(ctx.A(), d, t, path, carried, r.value)
    ensures ctx.Promised(r)
    ensures TameBeside(ctx.A(), ctx.asked, d, t, path, carried, r)
    ensures old(BothLeaves(ctx.diags, yes, no)) ==> IsShallow(ctx.diags, r)
    ensures old(EqualFree(ctx.vals)) ==> EqualFree(ctx.vals)
  {
    hide ctx.Promised; hide TameWalk; hide TameUnder; hide TameBeside; hide TameOver; hide EqualFree;
    hide ctx.MemosRight; hide ctx.Interned; hide NodesSorted; hide AllUnfolded;
    hide ctx.AskedOk;
    var (cond, ifTrue, ifFalse) := (ctx.diags[d].cond, ctx.diags[d].ifTrue, ctx.diags[d].ifFalse);
    ghost var (a, asked0) := (ctx.A(), ctx.asked);
    AskedAreWires(ctx);
    r := ctx.Join(cond, yes, no, fuel);
    TameBesideStays(a, asked0, ctx.A(), ctx.asked, ifTrue, t, path + [(cond, true)], held, Some(yes));
    TameBesideStays(a, asked0, ctx.A(), ctx.asked, ifFalse, t, path + [(cond, false)], carried, Some(no));
    NodeIsSorted(ctx, d);
    LiteralStays(a.vals, ctx.vals, cond);
    JoinBeside(ctx.A(), ctx.asked, d, t, path, carried, held, yes, no, r);
    if r.Some? {
      CarriesStays(a, ctx.A(), cond, carried, held);
      BesideStays(a, ctx.A(), ifTrue, t, path + [(cond, true)], held, yes);
      BesideStays(a, ctx.A(), ifFalse, t, path + [(cond, false)], carried, no);
      BesideBranch(ctx.A(), d, t, path, carried, held, yes, no, r.value);
    }
  }

  /** The deep half's answers put under every leaf of the top half. */
  method GraftOver(ctx: Ctx, d: DiagId, carried: seq<ValId>, fuel: nat) returns (r: Option<DiagId>)
    requires ctx.Valid() && d < |ctx.diags| && All(carried, |ctx.vals|)
    modifies ctx
    ensures ctx.Grew()
    ensures r.Some? ==> OverRight(ctx.A(), d, carried, r.value)
    ensures ctx.Promised(r)
    ensures TameOver(ctx.A(), ctx.asked, d, carried, r)
    ensures FewOver(old(ctx.diags), d, ctx.diags, r)
    ensures old(EqualFree(ctx.vals)) ==> EqualFree(ctx.vals)
    ensures old(ctx.diags)[d].Leaf? ==>
      r.Some? && r.value < |ctx.diags| && ctx.diags[r.value] == Leaf(carried + old(ctx.diags)[d].vals)
    decreases d
  {
    hide ctx.Promised; hide TameWalk; hide TameUnder; hide TameBeside; hide TameOver; hide EqualFree;
    hide ctx.MemosRight; hide ctx.Interned; hide NodesSorted; hide AllUnfolded;
    hide ctx.AskedOk;
    assert ctx.diags[d].Below(d, |ctx.vals|);
    match ctx.diags[d] {
      case Leaf(vs) =>
        var leaf := ctx.LeafOf(carried + vs);
        OverLeaf(ctx.A(), d, carried, vs, leaf);
        OverLeafChosen(ctx.A(), d, carried, leaf);
        r := Some(leaf);
        TameChosen(ctx.A(), ctx.asked, d, carried, leaf);
      case Branch(_, _, _) => r := OverArms(ctx, d, carried, fuel);
    }
  }

  method OverArms(ctx: Ctx, d: DiagId, carried: seq<ValId>, fuel: nat) returns (r: Option<DiagId>)
    requires ctx.Valid() && d < |ctx.diags| && ctx.diags[d].Branch? && All(carried, |ctx.vals|)
    modifies ctx
    ensures ctx.Grew()
    ensures r.Some? ==> OverRight(ctx.A(), d, carried, r.value)
    ensures ctx.Promised(r)
    ensures TameOver(ctx.A(), ctx.asked, d, carried, r)
    ensures FewOver(old(ctx.diags), d, ctx.diags, r)
    ensures old(EqualFree(ctx.vals)) ==> EqualFree(ctx.vals)
    decreases d, 0
  {
    hide ctx.Promised; hide TameWalk; hide TameUnder; hide TameBeside; hide TameOver; hide EqualFree;
    hide ctx.MemosRight; hide ctx.Interned; hide NodesSorted; hide AllUnfolded;
    hide ctx.AskedOk; hide OverRight; hide CarriesOver; hide Plain; hide EqualToLiteral; hide TreeAt; hide Ordered;
    hide Arena.Ok; hide Width; hide Grounded; hide DiagNode.Below;
    ghost var a0 := ctx.A();
    ArmsBelow(ctx.A(), d);
    var (cond, ifTrue, ifFalse) := (ctx.diags[d].cond, ctx.diags[d].ifTrue, ctx.diags[d].ifFalse);
    var held := Carry(ctx, cond, carried);
    ghost var a1 := ctx.A();
    var yes := GraftOver(ctx, ifTrue, held, fuel);
    if yes.None? {
      Unanswered(ctx, d, Tree.Id(0), [], [], carried);
      return None;
    }
    label Then2: ghost var (a2, asked2) := (ctx.A(), ctx.asked);
    AskedAreWires(ctx);
    var no := GraftOver(ctx, ifFalse, carried, fuel);
    ctx.StillPromised@Then2(yes);
    if no.None? {
      Unanswered(ctx, d, Tree.Id(0), [], [], carried);
      return None;
    }
    label Then3: ghost var a3 := ctx.A();
    TameOverStays(a2, asked2, a3, ctx.asked, ifTrue, held, yes);
    OverStays(a2, a3, ifTrue, held, yes.value);
    CarriesStays(a1, a3, cond, carried, held);
    WidthKept(a0, a3, ifTrue);
    WidthKept(a0, a3, ifFalse);
    r := OverJoin(ctx, d, carried, held, yes.value, no.value, fuel);
  }

  method OverJoin(
    ctx: Ctx, d: DiagId, ghost carried: seq<ValId>, ghost held: seq<ValId>, yes: DiagId, no: DiagId, fuel: nat)
    returns (r: Option<DiagId>)
    requires ctx.Valid() && d < |ctx.diags| && ctx.diags[d].Branch?
    requires ctx.diags[d].ifTrue < d && ctx.diags[d].ifFalse < d && ctx.diags[d].cond < |ctx.vals|
    requires CarriesOver(ctx.A(), ctx.diags[d].cond, carried, held)
    requires OverRight(ctx.A(), ctx.diags[d].ifTrue, held, yes) && OverRight(ctx.A(), ctx.diags[d].ifFalse, carried, no)
    requires TameOver(ctx.A(), ctx.asked, ctx.diags[d].ifTrue, held, Some(yes))
    requires TameOver(ctx.A(), ctx.asked, ctx.diags[d].ifFalse, carried, Some(no))
    requires ctx.Promised(Some(yes)) && ctx.Promised(Some(no))
    modifies ctx
    ensures ctx.Grew()
    ensures r.Some? ==> OverRight(ctx.A(), d, carried, r.value)
    ensures ctx.Promised(r)
    ensures TameOver(ctx.A(), ctx.asked, d, carried, r)
    ensures old(BothLeaves(ctx.diags, yes, no)) ==> IsShallow(ctx.diags, r)
    ensures old(EqualFree(ctx.vals)) ==> EqualFree(ctx.vals)
  {
    hide ctx.Promised; hide TameWalk; hide TameUnder; hide TameBeside; hide TameOver; hide EqualFree;
    hide ctx.MemosRight; hide ctx.Interned; hide NodesSorted; hide AllUnfolded;
    hide ctx.AskedOk;
    var (cond, ifTrue, ifFalse) := (ctx.diags[d].cond, ctx.diags[d].ifTrue, ctx.diags[d].ifFalse);
    ghost var (a, asked0) := (ctx.A(), ctx.asked);
    AskedAreWires(ctx);
    r := ctx.Join(cond, yes, no, fuel);
    TameOverStays(a, asked0, ctx.A(), ctx.asked, ifTrue, held, Some(yes));
    TameOverStays(a, asked0, ctx.A(), ctx.asked, ifFalse, carried, Some(no));
    NodeIsSorted(ctx, d);
    LiteralStays(a.vals, ctx.vals, cond);
    JoinOver(ctx.A(), ctx.asked, d, carried, held, yes, no, r);
    if r.Some? {
      CarriesStays(a, ctx.A(), cond, carried, held);
      OverStays(a, ctx.A(), ifTrue, held, yes);
      OverStays(a, ctx.A(), ifFalse, carried, no);
      OverBranch(ctx.A(), d, carried, held, yes, no, r.value);
    }
  }

  // ---- branching ----

  /** What the path already decided about a condition, the outermost decision first. */
  function Decided(path: Path, cond: ValId): (r: Option<bool>)
    ensures forall taken :: r == Some(taken) <==> Taken(path, cond, taken)
  {
    if path == [] then None
    else if path[0].0 == cond then
      assert Taken(path, cond, path[0].1) by { assert path[0] == (cond, path[0].1); }
      Some(path[0].1)
    else
      var rest := Decided(path[1..], cond);
      TakenLater(path, cond);
      rest
  }

  /** The outermost decision on the condition is this one. */
  ghost predicate Taken(path: Path, cond: ValId, taken: bool) {
    exists k :: 0 <= k < |path| && path[k] == (cond, taken) && forall j | 0 <= j < k :: path[j].0 != cond
  }

  lemma TakenLater(path: Path, cond: ValId)
    requires path != [] && path[0].0 != cond
    ensures forall taken :: Taken(path, cond, taken) <==> Taken(path[1..], cond, taken)
  {
    var rest := path[1..];
    forall taken ensures Taken(path, cond, taken) <==> Taken(rest, cond, taken) {
      if Taken(path, cond, taken) {
        var k :| 0 <= k < |path| && path[k] == (cond, taken) && forall j | 0 <= j < k :: path[j].0 != cond;
        assert rest[k - 1] == (cond, taken) && forall j | 0 <= j < k - 1 :: rest[j] == path[j + 1];
      }
      if Taken(rest, cond, taken) {
        var k :| 0 <= k < |rest| && rest[k] == (cond, taken) && forall j | 0 <= j < k :: rest[j].0 != cond;
        assert path[k + 1] == (cond, taken) && forall j | 0 < j < k + 1 :: path[j] == rest[j - 1];
      }
    }
  }

  /** A literal says which arm it takes, and so does a path that has decided on the wire. */
  ghost predicate Picks(a: Arena, path: Path, cond: ValId, taken: bool)
    requires cond < |a.vals|
  {
    if a.vals[cond].Lit? then a.vals[cond].v.Truthy() == taken else Taken(path, cond, taken)
  }

  /** A `Branch` with its condition on top: one arm if a literal or the path settles it, else a fork. */
  method BranchOn(
    ctx: Ctx, terms: Context, cond: ValId, stack: seq<ValId>, ifTrue: TermIndex, ifFalse: TermIndex,
    path: Path, fuel: nat, ghost bound: nat)
    returns (r: Option<DiagId>)
    requires ctx.Valid() && terms.Valid() && terms.Has(ifTrue) && terms.Has(ifFalse)
    requires terms.At(ifTrue).Ok() && terms.At(ifFalse).Ok() && terms.At(ifTrue).Effect() == terms.At(ifFalse).Effect()
    requires |stack| == terms.At(ifTrue).Effect().inputs && All(stack, |ctx.vals|) && cond < |ctx.vals|
    requires PathOk(ctx.A(), path) && ifTrue < bound && ifFalse < bound
    modifies ctx
    ensures ctx.Grew()
    ensures r.Some? ==>
      EvalRight(ctx.A(), Tree.Branch(terms.At(ifTrue), terms.At(ifFalse)), stack + [cond], path, r.value)
    ensures ctx.Promised(r)
    ensures TameWalk(ctx.A(), ctx.asked, Tree.Branch(terms.At(ifTrue), terms.At(ifFalse)), stack + [cond], path, r)
    ensures Few(ctx.diags, Tree.Branch(terms.At(ifTrue), terms.At(ifFalse)), r)
    ensures forall taken: bool | old(Picks(ctx.A(), path, cond, taken)) ::
      Few(ctx.diags, if taken then terms.At(ifTrue) else terms.At(ifFalse), r)
    ensures old(EqualFree(ctx.vals)) && NoEqual(terms.At(ifTrue)) && NoEqual(terms.At(ifFalse)) ==>
      EqualFree(ctx.vals)
    ensures Repeated(old(ctx.A()), Tree.Branch(terms.At(ifTrue), terms.At(ifFalse)), stack + [cond], path, r)
    decreases bound, 1, 0
  {
    hide ctx.Promised; hide TameWalk; hide TameUnder; hide TameBeside; hide TameOver; hide EqualFree;
    hide ctx.MemosRight; hide ctx.Interned; hide NodesSorted; hide AllUnfolded;
    hide ctx.AskedOk; hide Repeated; hide Landed; hide Plain;
    ghost var a0 := ctx.A();
    ghost var (t, f) := (terms.At(ifTrue), terms.At(ifFalse));
    var known := if ctx.vals[cond].Lit? then Some(ctx.vals[cond].v.Truthy()) else Decided(path, cond);
    if known.None? {
      r := Fork(ctx, terms, cond, stack, ifTrue, ifFalse, path, fuel, bound);
      return;
    }
    assert forall w: World | Follows(a0, path, w) :: Val(a0.vals, cond, w).Truthy() == known.value;
    r := Eval(ctx, terms, if known.value then ifTrue else ifFalse, stack, path, fuel);
    KnownNeverRepeats(a0, t, f, stack, cond, path, r);
    TameKnown(ctx.A(), ctx.asked, t, f, stack, cond, path, known.value, r);
    if r.Some? {
      ExtendsAgrees(a0, ctx.A());
      FollowsStays(a0, ctx.A(), path);
      KnownRight(ctx.A(), t, f, stack, cond, path, known.value, r.value);
    }
  }

  method Fork(
    ctx: Ctx, terms: Context, cond: ValId, stack: seq<ValId>, ifTrue: TermIndex, ifFalse: TermIndex,
    path: Path, fuel: nat, ghost bound: nat)
    returns (r: Option<DiagId>)
    requires ctx.Valid() && terms.Valid() && terms.Has(ifTrue) && terms.Has(ifFalse)
    requires terms.At(ifTrue).Ok() && terms.At(ifFalse).Ok() && terms.At(ifTrue).Effect() == terms.At(ifFalse).Effect()
    requires |stack| == terms.At(ifTrue).Effect().inputs && All(stack, |ctx.vals|) && cond < |ctx.vals|
    requires PathOk(ctx.A(), path) && ifTrue < bound && ifFalse < bound
    requires !ctx.vals[cond].Lit?
    modifies ctx
    ensures ctx.Grew()
    ensures r.Some? ==>
      EvalRight(ctx.A(), Tree.Branch(terms.At(ifTrue), terms.At(ifFalse)), stack + [cond], path, r.value)
    ensures ctx.Promised(r)
    ensures TameWalk(ctx.A(), ctx.asked, Tree.Branch(terms.At(ifTrue), terms.At(ifFalse)), stack + [cond], path, r)
    ensures Few(ctx.diags, Tree.Branch(terms.At(ifTrue), terms.At(ifFalse)), r)
    ensures old(EqualFree(ctx.vals)) && NoEqual(terms.At(ifTrue)) && NoEqual(terms.At(ifFalse)) ==>
      EqualFree(ctx.vals)
    ensures Repeated(old(ctx.A()), Tree.Branch(terms.At(ifTrue), terms.At(ifFalse)), stack + [cond], path, r)
    decreases bound, 0, 0
  {
    hide ctx.Promised; hide TameWalk; hide TameUnder; hide TameBeside; hide TameOver; hide EqualFree;
    hide ctx.MemosRight; hide ctx.Interned; hide NodesSorted; hide AllUnfolded;
    hide ctx.AskedOk; hide EvalRight; hide CarriesOver; hide Tests; hide DiagNode.Below; hide TreeAt; hide Ordered;
    hide Arena.Ok; hide Width; hide Grounded; hide WiresOk; hide Repeated; hide Landed; hide Plain;
    ghost var (t, f) := (terms.At(ifTrue), terms.At(ifFalse));
    ghost var a0 := ctx.A();
    var held := Carry(ctx, cond, stack);
    ghost var a1 := ctx.A();
    var yes := Eval(ctx, terms, ifTrue, held, path + [(cond, true)], fuel);
    if yes.None? {
      NoArm(a0, a1, t, f, stack, held, cond, path);
      Unanswered(ctx, 0, Tree.Branch(t, f), stack + [cond], path, []);
      return None;
    }
    label Then2: ghost var (a2, asked2) := (ctx.A(), ctx.asked);
    AskedAreWires(ctx);
    var no := Eval(ctx, terms, ifFalse, stack, path + [(cond, false)], fuel);
    ctx.StillPromised@Then2(yes);
    if no.None? {
      ForkRepeated(a0, a1, a2, ctx.A(), t, f, stack, held, cond, path, yes.value, no, None);
      Unanswered(ctx, 0, Tree.Branch(t, f), stack + [cond], path, []);
      return None;
    }
    label Then3: ghost var a3 := ctx.A();
    TameWalkStays(a2, asked2, a3, ctx.asked, t, held, path + [(cond, true)], yes);
    EvalStays(a2, a3, t, held, path + [(cond, true)], yes.value);
    CarriesStays(a1, a3, cond, stack, held);
    r := ForkJoin(ctx, t, f, cond, stack, held, path, yes.value, no.value, fuel);
    ForkRepeated(a0, a1, a2, a3, t, f, stack, held, cond, path, yes.value, no, r);
  }

  lemma KnownNeverRepeats(a: Arena, x: Tree, y: Tree, stack: seq<ValId>, cond: ValId, path: Path, r: Option<DiagId>)
    requires a.Ok() && cond < |a.vals| && (a.vals[cond].Lit? || Decided(path, cond).Some?)
    ensures Repeated(a, Tree.Branch(x, y), stack + [cond], path, r)
  {
  }

  lemma NoArm(a0: Arena, a: Arena, x: Tree, y: Tree, stack: seq<ValId>, held: seq<ValId>, cond: ValId, path: Path)
    requires a0.Ok() && a.Ok() && Extends(a0, a) && cond < |a0.vals|
    requires EqualToLiteral(a0.vals, cond).None? ==> held == stack
    requires Repeated(a, x, held, path + [(cond, true)], None)
    ensures Repeated(a0, Tree.Branch(x, y), stack + [cond], path, None)
  {
    forall d: DiagId | d < |a0.diags| && Repeats(a0, Tree.Branch(x, y), stack + [cond], path, d) ensures false {
      RepeatsArms(a0, x, y, stack, cond, path, d);
      RepeatsStays(a0, a, x, stack, path + [(cond, true)], a0.diags[d].ifTrue);
    }
  }

  lemma RepeatsArms(a: Arena, x: Tree, y: Tree, stack: seq<ValId>, cond: ValId, path: Path, d: DiagId)
    requires a.Ok() && d < |a.diags| && Repeats(a, Tree.Branch(x, y), stack + [cond], path, d)
    ensures a.diags[d].Branch? && a.diags[d].Below(d, |a.vals|) && a.diags[d].cond == cond
    ensures EqualToLiteral(a.vals, cond).None?
    ensures Repeats(a, x, stack, path + [(cond, true)], a.diags[d].ifTrue)
    ensures Repeats(a, y, stack, path + [(cond, false)], a.diags[d].ifFalse)
  {
    assert a.diags[d].Below(d, |a.vals|);
    assert (stack + [cond])[..|stack|] == stack;
  }

  /** Both arms came out as what they could only come out as, so the node between them is found again. */
  lemma ForkRepeated(
    a0: Arena, a1: Arena, a2: Arena, a3: Arena, x: Tree, y: Tree, stack: seq<ValId>, held: seq<ValId>,
    cond: ValId, path: Path, yes: DiagId, no: Option<DiagId>, r: Option<DiagId>)
    requires a0.Ok() && a1.Ok() && a2.Ok() && a3.Ok() && Extends(a0, a1) && Extends(a1, a2) && Extends(a2, a3)
    requires cond < |a0.vals| && (EqualToLiteral(a0.vals, cond).None? ==> held == stack)
    requires Repeated(a1, x, held, path + [(cond, true)], Some(yes))
    requires Repeated(a2, y, stack, path + [(cond, false)], no)
    requires no.Some? ==> forall d: DiagId | d < |a3.diags| && a3.diags[d] == DiagNode.Branch(cond, yes, no.value)
      && Plain(a3.vals, Tests(a3.diags, d)) :: r == Some(d)
    ensures Repeated(a0, Tree.Branch(x, y), stack + [cond], path, r)
  {
    hide Repeats; hide Plain;
    forall d: DiagId | d < |a0.diags| && Repeats(a0, Tree.Branch(x, y), stack + [cond], path, d) ensures r == Some(d) {
      RepeatsArms(a0, x, y, stack, cond, path, d);
      RepeatsStays(a0, a1, x, stack, path + [(cond, true)], a0.diags[d].ifTrue);
      RepeatsStays(a0, a2, y, stack, path + [(cond, false)], a0.diags[d].ifFalse);
      RepeatsIsPlain(a0, Tree.Branch(x, y), stack + [cond], path, d);
      TestsAreWires(a0, d);
      TestsStay(a0, a3, d);
      PlainStays(a0.vals, a3.vals, Tests(a0.diags, d));
      assert a3.diags[d] == a0.diags[d];
    }
  }

  method ForkJoin(
    ctx: Ctx, ghost t: Tree, ghost f: Tree, cond: ValId, ghost stack: seq<ValId>, ghost held: seq<ValId>,
    ghost path: Path,
    yes: DiagId, no: DiagId, fuel: nat)
    returns (r: Option<DiagId>)
    requires ctx.Valid() && PathOk(ctx.A(), path) && t.Effect() == f.Effect()
    requires CarriesOver(ctx.A(), cond, stack, held)
    requires EvalRight(ctx.A(), t, held, path + [(cond, true)], yes)
    requires EvalRight(ctx.A(), f, stack, path + [(cond, false)], no) && !ctx.vals[cond].Lit?
    requires TameWalk(ctx.A(), ctx.asked, t, held, path + [(cond, true)], Some(yes))
    requires TameWalk(ctx.A(), ctx.asked, f, stack, path + [(cond, false)], Some(no))
    requires ctx.Promised(Some(yes)) && ctx.Promised(Some(no))
    modifies ctx
    ensures ctx.Grew()
    ensures r.Some? ==> EvalRight(ctx.A(), Tree.Branch(t, f), stack + [cond], path, r.value)
    ensures ctx.Promised(r)
    ensures TameWalk(ctx.A(), ctx.asked, Tree.Branch(t, f), stack + [cond], path, r)
    ensures old(BothLeaves(ctx.diags, yes, no)) ==> IsShallow(ctx.diags, r)
    ensures old(EqualFree(ctx.vals)) ==> EqualFree(ctx.vals)
    ensures forall d: DiagId | d < |old(ctx.diags)| && old(ctx.diags)[d] == DiagNode.Branch(cond, yes, no)
      && Plain(old(ctx.vals), Tests(old(ctx.diags), d)) :: r == Some(d)
  {
    hide ctx.Promised; hide TameWalk; hide TameUnder; hide TameBeside; hide TameOver; hide EqualFree;
    hide ctx.MemosRight; hide ctx.Interned; hide NodesSorted; hide AllUnfolded;
    hide ctx.AskedOk; hide Plain;
    ghost var (a, asked0) := (ctx.A(), ctx.asked);
    AskedAreWires(ctx);
    r := ctx.Join(cond, yes, no, fuel);
    TameWalkStays(a, asked0, ctx.A(), ctx.asked, t, held, path + [(cond, true)], Some(yes));
    TameWalkStays(a, asked0, ctx.A(), ctx.asked, f, stack, path + [(cond, false)], Some(no));
    LiteralStays(a.vals, ctx.vals, cond);
    JoinFork(ctx.A(), ctx.asked, t, f, stack, held, cond, path, yes, no, r);
    if r.Some? {
      CarriesStays(a, ctx.A(), cond, stack, held);
      EvalStays(a, ctx.A(), t, held, path + [(cond, true)], yes);
      EvalStays(a, ctx.A(), f, stack, path + [(cond, false)], no);
      ForkRight(ctx.A(), t, f, stack, held, cond, path, yes, no, r.value);
    }
  }
}
