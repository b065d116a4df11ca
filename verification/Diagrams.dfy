/** The string-diagram engine: a term evaluated on symbolic wires into one shared, ordered case tree. */
module Diagrams {
  import opened Wrappers
  import opened Values
  import opened Prims
  import opened Wires
  import opened Order
  import opened Supports
  import opened Folds
  import opened Substitutions

  // ---- what each operation of the arena promises ----

  /** `out` is `v` with `to` written for `from`, and carries what `v` does wherever the two are one value. */
  ghost predicate Rewrites(a: Arena, v: ValId, from: ValId, to: ValId, out: ValId)
    requires WiresOk(a.vals)
  {
    && v < |a.vals| && from < |a.vals| && to < |a.vals| && out < |a.vals|
    && Substituted(a.vals, v, from, to, out)
    && forall w: World | Val(a.vals, from, w) == Val(a.vals, to, w) :: Val(a.vals, out, w) == Val(a.vals, v, w)
  }

  /**
   * The same of a diagram, a leaf of which becomes the leaf of what its wires become; where a literal is written for
   * `from`, what comes out does not read `from`.
   */
  ghost predicate RewritesDiag(a: Arena, d: DiagId, from: ValId, to: ValId, out: DiagId)
    requires a.Ok()
  {
    && d < |a.diags| && from < |a.vals| && to < |a.vals| && out < |a.diags|
    && Width(a.diags, out) == Width(a.diags, d)
    && SubstitutedLeaf(a, d, from, to, out)
    && (a.vals[to].Lit? ==> ReadsNoMore(a, d, out) && Unread(a, from, out))
    && forall w: World | Val(a.vals, from, w) == Val(a.vals, to, w) :: Diag(a, out, w) == Diag(a, d, w)
  }

  /** The arm a root testing `cond` collapses to. */
  function RootArm(diags: seq<DiagNode>, d: DiagId, cond: ValId, taken: bool): DiagId
    requires d < |diags|
  {
    match diags[d]
    case Branch(c, t, f) => if c == cond then (if taken then t else f) else d
    case Leaf(_) => d
  }

  /** A leaf taken where a value is a literal has the literal written for the value, and is left as it is otherwise. */
  ghost predicate RestrictedLeaf(a: Arena, d: DiagId, cond: ValId, taken: bool, out: DiagId)
    requires a.Ok() && d < |a.diags| && cond < |a.vals| && out < |a.diags|
  {
    a.diags[d].Leaf? ==>
      match EqualToLiteral(a.vals, cond)
      case Some((from, to)) => if taken then a.diags[out].Leaf? && SubstitutedLeaf(a, d, from, to, out) else out == d
      case None => out == d
  }

  /**
   * `out` is `d` wherever `cond` comes out `taken`. Only a test against a literal changes more than the root, and
   * then nothing is left that reads the value tested.
   */
  ghost predicate Restricts(a: Arena, d: DiagId, cond: ValId, taken: bool, out: DiagId)
    requires a.Ok()
  {
    && d < |a.diags| && cond < |a.vals| && out < |a.diags|
    && Width(a.diags, out) == Width(a.diags, d)
    && (forall w: World | Val(a.vals, cond, w).Truthy() == taken :: Diag(a, out, w) == Diag(a, d, w))
    && (EqualToLiteral(a.vals, cond).None? ==> out == RootArm(a.diags, d, cond, taken))
    && ReadsNoMore(a, d, out) && (taken ==> Spent(a, cond, out))
    && RestrictedLeaf(a, d, cond, taken, out)
  }

  /** A leaf, or one decision between two. */
  predicate Shallow(diags: seq<DiagNode>, d: DiagId)
    requires d < |diags|
  {
    match diags[d]
    case Branch(_, t, f) => t < |diags| && f < |diags| && diags[t].Leaf? && diags[f].Leaf?
    case Leaf(_) => true
  }

  predicate BothLeaves(diags: seq<DiagNode>, t: DiagId, f: DiagId)
    requires t < |diags| && f < |diags|
  {
    diags[t].Leaf? && diags[f].Leaf?
  }

  /** What deciding between two arms may decide on. */
  function Asks(diags: seq<DiagNode>, cond: ValId, t: DiagId, f: DiagId): set<ValId>
    requires t < |diags| && f < |diags| && Grounded(diags)
  {
    {cond} + Tests(diags, t) + Tests(diags, f)
  }

  /** Nothing stands between a plain condition and these arms: the one node it takes is all there is to build. */
  predicate Direct(a: Arena, cond: ValId, t: DiagId, f: DiagId)
    requires a.Ok() && cond < |a.vals| && t < |a.diags| && f < |a.diags|
  {
    !a.vals[cond].Lit? && EqualToLiteral(a.vals, cond).None? && RootAfter(a, cond, t) && RootAfter(a, cond, f)
  }

  /** Whichever conditions hold, `out` chooses the leaf of the arm that `cond` takes. */
  ghost predicate ChoosesAs(a: Arena, cond: ValId, t: DiagId, f: DiagId, out: DiagId)
    requires a.Ok() && cond < |a.vals| && t < |a.diags| && f < |a.diags| && out < |a.diags|
  {
    if a.vals[cond].Lit? then out == if a.vals[cond].v.Truthy() then t else f
    else forall truth: iset<ValId> {:trigger Choose(a.diags, out, truth)} ::
      Choose(a.diags, out, truth) == if cond in truth then Choose(a.diags, t, truth) else Choose(a.diags, f, truth)
  }

  lemma ChoosesStay(a: Arena, b: Arena, cond: ValId, t: DiagId, f: DiagId, out: DiagId)
    requires a.Ok() && b.Ok() && Extends(a, b) && cond < |a.vals|
    requires t < |a.diags| && f < |a.diags| && out < |a.diags| && ChoosesAs(a, cond, t, f, out)
    ensures ChoosesAs(b, cond, t, f, out)
  {
    forall truth: iset<ValId> | !a.vals[cond].Lit?
      ensures Choose(b.diags, out, truth)
        == if cond in truth then Choose(b.diags, t, truth) else Choose(b.diags, f, truth)
    {
      ChooseStays(a.diags, b.diags, out, truth);
      ChooseStays(a.diags, b.diags, t, truth);
      ChooseStays(a.diags, b.diags, f, truth);
    }
  }

  /**
   * `out` is "if `cond` then `t` else `f`"; among plain conditions it decides on nothing they did not and chooses as
   * they do.
   */
  ghost predicate Decides(a: Arena, cond: ValId, t: DiagId, f: DiagId, out: DiagId)
    requires a.Ok()
  {
    && cond < |a.vals| && t < |a.diags| && f < |a.diags| && out < |a.diags|
    && Width(a.diags, out) == Width(a.diags, t) == Width(a.diags, f)
    && (forall w: World :: Diag(a, out, w) == if Val(a.vals, cond, w).Truthy() then Diag(a, t, w) else Diag(a, f, w))
    && (Plain(a.vals, Asks(a.diags, cond, t, f)) ==>
      Tests(a.diags, out) <= Asks(a.diags, cond, t, f) && ChoosesAs(a, cond, t, f, out))
    && (Direct(a, cond, t, f) ==> if t == f then out == t else a.diags[out] == DiagNode.Branch(cond, t, f))
    && (BothLeaves(a.diags, t, f) ==> Shallow(a.diags, out))
    && ReadsOnly(a, cond, t, f, out)
  }

  // ---- the promises survive growth ----

  lemma RewritesStays(a: Arena, b: Arena, v: ValId, from: ValId, to: ValId, out: ValId)
    requires a.Ok() && b.Ok() && Extends(a, b) && Rewrites(a, v, from, to, out)
    ensures Rewrites(b, v, from, to, out)
  {
    hide Substituted;
    ExtendsAgrees(a, b);
    SubstitutedStays(a.vals, b.vals, v, from, to, out);
  }

  lemma RewritesDiagStays(a: Arena, b: Arena, d: DiagId, from: ValId, to: ValId, out: DiagId)
    requires a.Ok() && b.Ok() && Extends(a, b) && RewritesDiag(a, d, from, to, out)
    ensures RewritesDiag(b, d, from, to, out)
  {
    hide ReadsNoMore; hide Unread; hide SubstitutedLeaf;
    ExtendsAgrees(a, b);
    SubstitutedLeafStays(a, b, d, from, to, out);
    if a.vals[to].Lit? {
      ReadsNoMoreStays(a, b, d, out);
      UnreadStays(a, b, from, out);
    }
  }

  lemma RestrictsStays(a: Arena, b: Arena, d: DiagId, cond: ValId, taken: bool, out: DiagId)
    requires a.Ok() && b.Ok() && Extends(a, b) && Restricts(a, d, cond, taken, out)
    ensures Restricts(b, d, cond, taken, out)
  {
    hide ReadsNoMore; hide Spent; hide SubstitutedLeaf;
    ExtendsAgrees(a, b);
    ReadsNoMoreStays(a, b, d, out);
    SpentStays(a, b, cond, out);
    LiteralStays(a.vals, b.vals, cond);
    match EqualToLiteral(a.vals, cond)
    case Some((from, to)) => if a.diags[d].Leaf? && taken { SubstitutedLeafStays(a, b, d, from, to, out); }
    case None =>
  }

  /** A settled root collapses to the arm taken, and nothing else changes. */
  lemma RootRestricts(a: Arena, d: DiagId, cond: ValId, taken: bool)
    requires a.Ok() && d < |a.diags| && cond < |a.vals| && (taken ==> EqualToLiteral(a.vals, cond).None?)
    ensures a.diags[d].Below(d, |a.vals|) && Restricts(a, d, cond, taken, RootArm(a.diags, d, cond, taken))
  {
    assert a.diags[d].Below(d, |a.vals|);
  }

  /** Where a value is a literal, the literal is written for it in the arm taken. */
  lemma WrittenRestricts(a: Arena, d: DiagId, cond: ValId, from: ValId, to: ValId, out: DiagId)
    requires a.Ok() && d < |a.diags| && cond < |a.vals| && EqualToLiteral(a.vals, cond) == Some((from, to))
    requires RewritesDiag(a, RootArm(a.diags, d, cond, true), from, to, out)
    ensures Restricts(a, d, cond, true, out)
  {
    hide SubstitutedAll; hide Val;
    assert a.diags[d].Below(d, |a.vals|);
    LiteralHoldsAlways(a.vals, cond);
  }

  lemma DecidesStays(a: Arena, b: Arena, cond: ValId, t: DiagId, f: DiagId, out: DiagId)
    requires a.Ok() && b.Ok() && Extends(a, b) && Decides(a, cond, t, f, out)
    ensures Decides(b, cond, t, f, out)
  {
    hide ReadsOnly; hide ChoosesAs;
    ExtendsAgrees(a, b);
    ReadsOnlyStays(a, b, cond, t, f, out);
    if ChoosesAs(a, cond, t, f, out) {
      ChoosesStay(a, b, cond, t, f, out);
    }
    TestsStay(a, b, out);
    AsksStay(a, b, cond, t, f);
    DirectStays(a, b, cond, t, f);
  }

  lemma AsksStay(a: Arena, b: Arena, cond: ValId, t: DiagId, f: DiagId)
    requires a.Ok() && b.Ok() && Extends(a, b) && cond < |a.vals| && t < |a.diags| && f < |a.diags|
    ensures Asks(b.diags, cond, t, f) == Asks(a.diags, cond, t, f)
    ensures Plain(b.vals, Asks(b.diags, cond, t, f)) == Plain(a.vals, Asks(a.diags, cond, t, f))
  {
    TestsStay(a, b, t);
    TestsStay(a, b, f);
    TestsAreWires(a, t);
    TestsAreWires(a, f);
    PlainStays(a.vals, b.vals, Asks(a.diags, cond, t, f));
  }

  lemma DirectStays(a: Arena, b: Arena, cond: ValId, t: DiagId, f: DiagId)
    requires a.Ok() && b.Ok() && Extends(a, b) && cond < |a.vals| && t < |a.diags| && f < |a.diags|
    ensures Direct(b, cond, t, f) == Direct(a, cond, t, f)
  {
    LiteralStays(a.vals, b.vals, cond);
    RootAfterStays(a, b, cond, t);
    RootAfterStays(a, b, cond, f);
  }

  // ---- decisions ----

  /** A condition that holds says its value is its literal. */
  lemma LiteralHolds(vals: seq<ValNode>, cond: ValId, w: World)
    requires WiresOk(vals) && cond < |vals| && EqualToLiteral(vals, cond).Some?
    ensures var (from, to) := EqualToLiteral(vals, cond).value;
      from < |vals| && to < |vals| && (Val(vals, cond, w).Truthy() ==> Val(vals, from, w) == Val(vals, to, w))
  {
    var node := vals[cond];
    assert node.Below(cond);
    ValOfApp(vals, cond, w);
    assert Vals(vals, node.args, w) == [Val(vals, node.args[0], w), Val(vals, node.args[1], w)];
  }

  lemma LiteralHoldsAlways(vals: seq<ValNode>, cond: ValId)
    requires WiresOk(vals) && cond < |vals| && EqualToLiteral(vals, cond).Some?
    ensures var (from, to) := EqualToLiteral(vals, cond).value;
      from < |vals| && to < |vals|
      && forall w: World | Val(vals, cond, w).Truthy() :: Val(vals, from, w) == Val(vals, to, w)
  {
    assert vals[cond].Below(cond);
    forall w: World ensures var (from, to) := EqualToLiteral(vals, cond).value;
      Val(vals, cond, w).Truthy() ==> Val(vals, from, w) == Val(vals, to, w)
    {
      LiteralHolds(vals, cond, w);
    }
  }

  lemma BranchRewrites(
    a: Arena, d: DiagId, from: ValId, to: ValId, c: ValId, t: DiagId, f: DiagId, out: DiagId)
    requires a.Ok() && d < |a.diags| && a.diags[d].Branch?
    requires a.diags[d].ifTrue < d && a.diags[d].ifFalse < d && a.diags[d].cond < |a.vals|
    requires Rewrites(a, a.diags[d].cond, from, to, c)
    requires RewritesDiag(a, a.diags[d].ifTrue, from, to, t) && RewritesDiag(a, a.diags[d].ifFalse, from, to, f)
    requires Decides(a, c, t, f, out) && AllUnfolded(a.vals)
    ensures RewritesDiag(a, d, from, to, out)
  {
    hide Plain; hide Direct; hide AllUnfolded; hide Substituted; hide ReadsNoMore; hide Unread; hide ReadsOnly;
    if a.vals[to].Lit? {
      BranchForgets(a, d, from, to, c, t, f, out);
    }
  }

  lemma BranchForgets(
    a: Arena, d: DiagId, from: ValId, to: ValId, c: ValId, t: DiagId, f: DiagId, out: DiagId)
    requires a.Ok() && AllUnfolded(a.vals) && d < |a.diags| && a.diags[d].Branch? && from < |a.vals|
    requires to < |a.vals| && a.vals[to].Lit? && c < |a.vals| && t < |a.diags| && f < |a.diags| && out < |a.diags|
    requires a.diags[d].ifTrue < d && a.diags[d].ifFalse < d && a.diags[d].cond < |a.vals|
    requires Substituted(a.vals, a.diags[d].cond, from, to, c) && ReadsOnly(a, c, t, f, out)
    requires ReadsNoMore(a, a.diags[d].ifTrue, t) && Unread(a, from, t)
    requires ReadsNoMore(a, a.diags[d].ifFalse, f) && Unread(a, from, f)
    ensures ReadsNoMore(a, d, out) && Unread(a, from, out)
  {
    hide Substituted; hide AllUnfolded;
    forall x: ValId | x < |a.vals| && Pure(a.vals, x) && Reads(a, out, x) ensures Reads(a, d, x) && x != from {
      if Beneath(a.vals, c, x) {
        SubstitutedReads(a.vals, a.diags[d].cond, from, to, c, x);
      }
    }
  }

  lemma RootArmTests(a: Arena, d: DiagId, cond: ValId, taken: bool)
    requires a.Ok() && d < |a.diags| && cond < |a.vals|
    ensures var out := RootArm(a.diags, d, cond, taken);
      out < |a.diags| && Tests(a.diags, out) <= Tests(a.diags, d)
  {
    assert a.diags[d].Below(d, |a.vals|);
  }

  /** Once a settled arm's own root is spent, what is left decides nothing before the condition. */
  lemma RootArmAfter(a: Arena, d: DiagId, cond: ValId, taken: bool)
    requires a.Ok() && Distinct(a.vals) && NodesSorted(a) && d < |a.diags| && cond < |a.vals|
    requires EqualToLiteral(a.vals, cond).None?
    requires a.diags[d].Branch? ==> a.diags[d].cond < |a.vals| && !CmpVal(a.vals, a.diags[d].cond, cond).Before?
    ensures RootArm(a.diags, d, cond, taken) < |a.diags|
    ensures RootAfter(a, cond, RootArm(a.diags, d, cond, taken))
  {
    assert a.diags[d].Below(d, |a.vals|) && NodeSorted(a, d);
    if a.diags[d].Branch? {
      WireFlips(a.vals, a.diags[d].cond, cond);
    }
  }

  /** Deciding between two restricted arms, or taking the one they both came to, is deciding. */
  lemma RestrictedDecides(
    a: Arena, cond: ValId, ifTrue: DiagId, ifFalse: DiagId, t: DiagId, f: DiagId, out: DiagId)
    requires a.Ok() && Distinct(a.vals) && Restricts(a, ifTrue, cond, true, t) && Restricts(a, ifFalse, cond, false, f)
    requires Width(a.diags, ifTrue) == Width(a.diags, ifFalse) && out < |a.diags|
    requires (t == f == out) || (t != f && a.diags[out] == DiagNode.Branch(cond, t, f))
    requires !a.vals[cond].Lit?
    ensures Decides(a, cond, ifTrue, ifFalse, out)
  {
    hide Restricts; hide ChoosesAs; hide Plain; hide Tests; hide Choose; hide Direct; hide ReadsOnly; hide Val;
    hide Diag; hide Shallow; hide BothLeaves;
    RestrictedComputes(a, cond, ifTrue, ifFalse, t, f, out);
    RestrictedReads(a, cond, ifTrue, ifFalse, t, f, out);
    RestrictedDirect(a, cond, ifTrue, ifFalse, t, f, out);
    RestrictedPlain(a, cond, ifTrue, ifFalse, t, f, out);
  }

  lemma RestrictedComputes(
    a: Arena, cond: ValId, ifTrue: DiagId, ifFalse: DiagId, t: DiagId, f: DiagId, out: DiagId)
    requires a.Ok() && Restricts(a, ifTrue, cond, true, t) && Restricts(a, ifFalse, cond, false, f)
    requires Width(a.diags, ifTrue) == Width(a.diags, ifFalse) && out < |a.diags|
    requires (t == f == out) || (t != f && a.diags[out] == DiagNode.Branch(cond, t, f))
    requires !a.vals[cond].Lit?
    ensures ifTrue < |a.diags| && ifFalse < |a.diags| && cond < |a.vals|
    ensures Width(a.diags, out) == Width(a.diags, ifTrue)
    ensures forall w: World ::
      Diag(a, out, w) == if Val(a.vals, cond, w).Truthy() then Diag(a, ifTrue, w) else Diag(a, ifFalse, w)
  {
    hide RestrictedLeaf; hide ReadsNoMore; hide Spent; hide Val;
  }

  lemma RestrictedReads(
    a: Arena, cond: ValId, ifTrue: DiagId, ifFalse: DiagId, t: DiagId, f: DiagId, out: DiagId)
    requires a.Ok() && Restricts(a, ifTrue, cond, true, t) && Restricts(a, ifFalse, cond, false, f)
    requires Width(a.diags, ifTrue) == Width(a.diags, ifFalse) && out < |a.diags|
    requires (t == f == out) || (t != f && a.diags[out] == DiagNode.Branch(cond, t, f))
    requires !a.vals[cond].Lit?
    ensures ReadsOnly(a, cond, ifTrue, ifFalse, out)
    ensures BothLeaves(a.diags, ifTrue, ifFalse) ==> Shallow(a.diags, out)
  {
    hide Val; hide Diag; hide Spent; hide Width; hide SubstitutedLeaf;
  }

  lemma RestrictedDirect(
    a: Arena, cond: ValId, ifTrue: DiagId, ifFalse: DiagId, t: DiagId, f: DiagId, out: DiagId)
    requires Distinct(a.vals)
    requires a.Ok() && Restricts(a, ifTrue, cond, true, t) && Restricts(a, ifFalse, cond, false, f)
    requires Width(a.diags, ifTrue) == Width(a.diags, ifFalse) && out < |a.diags|
    requires (t == f == out) || (t != f && a.diags[out] == DiagNode.Branch(cond, t, f))
    requires !a.vals[cond].Lit?
    ensures Direct(a, cond, ifTrue, ifFalse) ==>
      if ifTrue == ifFalse then out == ifTrue else a.diags[out] == DiagNode.Branch(cond, ifTrue, ifFalse)
  {
    hide Val; hide Diag; hide Spent; hide Width; hide RestrictedLeaf; hide ReadsNoMore;
    if Direct(a, cond, ifTrue, ifFalse) {
      WireFlips(a.vals, cond, cond);
      assert RootArm(a.diags, ifTrue, cond, true) == ifTrue && RootArm(a.diags, ifFalse, cond, false) == ifFalse;
    }
  }

  lemma RestrictedPlain(
    a: Arena, cond: ValId, ifTrue: DiagId, ifFalse: DiagId, t: DiagId, f: DiagId, out: DiagId)
    requires a.Ok() && Restricts(a, ifTrue, cond, true, t) && Restricts(a, ifFalse, cond, false, f)
    requires Width(a.diags, ifTrue) == Width(a.diags, ifFalse) && out < |a.diags|
    requires (t == f == out) || (t != f && a.diags[out] == DiagNode.Branch(cond, t, f))
    requires !a.vals[cond].Lit?
    ensures Plain(a.vals, Asks(a.diags, cond, ifTrue, ifFalse)) ==>
      Tests(a.diags, out) <= Asks(a.diags, cond, ifTrue, ifFalse) && ChoosesAs(a, cond, ifTrue, ifFalse, out)
  {
    hide Val; hide Diag; hide Spent; hide Width; hide RestrictedLeaf; hide ReadsNoMore; hide ChoosesAs; hide Choose;
    RestrictedAsks(a, cond, ifTrue, ifFalse, t, f, out);
    RestrictedChooses(a, cond, ifTrue, ifFalse, t, f, out);
  }

  lemma RestrictedChooses(
    a: Arena, cond: ValId, ifTrue: DiagId, ifFalse: DiagId, t: DiagId, f: DiagId, out: DiagId)
    requires a.Ok() && Restricts(a, ifTrue, cond, true, t) && Restricts(a, ifFalse, cond, false, f) && out < |a.diags|
    requires (t == f == out) || (t != f && a.diags[out] == DiagNode.Branch(cond, t, f))
    requires !a.vals[cond].Lit?
    ensures EqualToLiteral(a.vals, cond).None? ==> ChoosesAs(a, cond, ifTrue, ifFalse, out)
  {
    hide RestrictedLeaf;
    hide Diag; hide Val; hide ReadsNoMore; hide Spent; hide Width;
    if EqualToLiteral(a.vals, cond).None? {
      forall truth: iset<ValId>
        ensures cond in truth ==> Choose(a.diags, t, truth) == Choose(a.diags, ifTrue, truth)
        ensures cond !in truth ==> Choose(a.diags, f, truth) == Choose(a.diags, ifFalse, truth)
      {
        if cond in truth {
          RootArmChooses(a, ifTrue, cond, true, truth);
        } else {
          RootArmChooses(a, ifFalse, cond, false, truth);
        }
      }
    }
  }

  lemma RootArmChooses(a: Arena, d: DiagId, cond: ValId, taken: bool, truth: iset<ValId>)
    requires a.Ok() && d < |a.diags| && (cond in truth) == taken
    ensures RootArm(a.diags, d, cond, taken) < |a.diags|
    ensures Choose(a.diags, RootArm(a.diags, d, cond, taken), truth) == Choose(a.diags, d, truth)
  {
    assert a.diags[d].Below(d, |a.vals|);
  }

  lemma RestrictedAsks(
    a: Arena, cond: ValId, ifTrue: DiagId, ifFalse: DiagId, t: DiagId, f: DiagId, out: DiagId)
    requires a.Ok() && Restricts(a, ifTrue, cond, true, t) && Restricts(a, ifFalse, cond, false, f) && out < |a.diags|
    requires (t == f == out) || (t != f && a.diags[out] == DiagNode.Branch(cond, t, f))
    ensures EqualToLiteral(a.vals, cond).None? ==> Tests(a.diags, out) <= Asks(a.diags, cond, ifTrue, ifFalse)
  {
    if EqualToLiteral(a.vals, cond).None? {
      RootArmTests(a, ifTrue, cond, true);
      RootArmTests(a, ifFalse, cond, false);
    }
  }

  /** Shannon expansion: deciding on `cond` under each outcome of an earlier root `d`, then on `d`. */
  lemma ExpansionDecides(
    a: Arena, cond: ValId, t: DiagId, f: DiagId, d: ValId,
    tt: DiagId, ft: DiagId, te: DiagId, fe: DiagId, hi: DiagId, lo: DiagId, out: DiagId)
    requires a.Ok() && Distinct(a.vals)
    requires d < |a.vals| && t < |a.diags| && f < |a.diags| && Width(a.diags, t) == Width(a.diags, f)
    requires RootCond(a.diags, t) == Some(d) || RootCond(a.diags, f) == Some(d)
    requires Restricts(a, t, d, true, tt) && Restricts(a, f, d, true, ft)
    requires Restricts(a, t, d, false, te) && Restricts(a, f, d, false, fe)
    requires Decides(a, cond, tt, ft, hi) && Decides(a, cond, te, fe, lo) && Decides(a, d, hi, lo, out)
    requires CmpVal(a.vals, d, cond).Before? && !a.vals[d].Lit? && !a.vals[cond].Lit?
    ensures Decides(a, cond, t, f, out)
  {
    ExpansionReads(a, cond, t, f, d, tt, ft, te, fe, hi, lo, out);
    ExpansionComputes(a, cond, t, f, d, tt, ft, te, fe, hi, lo, out);
    if Plain(a.vals, Asks(a.diags, cond, t, f)) {
      ExpansionPlain(a, cond, t, f, d, tt, ft, te, fe, hi, lo, out);
      ExpansionChooses(a, cond, t, f, d, tt, ft, te, fe, hi, lo, out);
    }
    assert !Direct(a, cond, t, f) by { WireFlips(a.vals, d, cond); }
    hide Restricts; hide ChoosesAs; hide Plain; hide Tests; hide Asks; hide Choose; hide Val; hide Diag; hide ReadsOnly;
  }

  lemma ExpansionReads(
    a: Arena, cond: ValId, t: DiagId, f: DiagId, d: ValId,
    tt: DiagId, ft: DiagId, te: DiagId, fe: DiagId, hi: DiagId, lo: DiagId, out: DiagId)
    requires a.Ok() && d < |a.vals| && t < |a.diags| && f < |a.diags| && Width(a.diags, t) == Width(a.diags, f)
    requires RootCond(a.diags, t) == Some(d) || RootCond(a.diags, f) == Some(d)
    requires Restricts(a, t, d, true, tt) && Restricts(a, f, d, true, ft)
    requires Restricts(a, t, d, false, te) && Restricts(a, f, d, false, fe)
    requires Decides(a, cond, tt, ft, hi) && Decides(a, cond, te, fe, lo) && Decides(a, d, hi, lo, out)
    ensures cond < |a.vals| && out < |a.diags| && ReadsOnly(a, cond, t, f, out)
    ensures !BothLeaves(a.diags, t, f)
  {
    hide Val; hide Diag; hide Spent; hide Width; hide RestrictedLeaf; hide Direct; hide ChoosesAs; hide Plain;
    hide Tests; hide Choose; hide Shallow;
    assert Reads(a, t, d) || Reads(a, f, d);
  }

  lemma ExpansionComputes(
    a: Arena, cond: ValId, t: DiagId, f: DiagId, d: ValId,
    tt: DiagId, ft: DiagId, te: DiagId, fe: DiagId, hi: DiagId, lo: DiagId, out: DiagId)
    requires a.Ok() && d < |a.vals| && t < |a.diags| && f < |a.diags| && Width(a.diags, t) == Width(a.diags, f)
    requires RootCond(a.diags, t) == Some(d) || RootCond(a.diags, f) == Some(d)
    requires Restricts(a, t, d, true, tt) && Restricts(a, f, d, true, ft)
    requires Restricts(a, t, d, false, te) && Restricts(a, f, d, false, fe)
    requires Decides(a, cond, tt, ft, hi) && Decides(a, cond, te, fe, lo) && Decides(a, d, hi, lo, out)
    ensures Width(a.diags, out) == Width(a.diags, t)
    ensures forall w: World ::
      Diag(a, out, w) == if Val(a.vals, cond, w).Truthy() then Diag(a, t, w) else Diag(a, f, w)
  {
    hide Val; hide Spent; hide RestrictedLeaf; hide Direct; hide ChoosesAs; hide Plain; hide ReadsNoMore;
    hide ReadsOnly; hide Tests; hide Choose; hide Asks; hide Shallow; hide BothLeaves; hide Diag; hide Width;
  }

  lemma ExpansionChooses(
    a: Arena, cond: ValId, t: DiagId, f: DiagId, d: ValId,
    tt: DiagId, ft: DiagId, te: DiagId, fe: DiagId, hi: DiagId, lo: DiagId, out: DiagId)
    requires a.Ok() && d < |a.vals| && cond < |a.vals| && t < |a.diags| && f < |a.diags|
    requires !a.vals[d].Lit? && !a.vals[cond].Lit?
    requires RootCond(a.diags, t) == Some(d) || RootCond(a.diags, f) == Some(d)
    requires Restricts(a, t, d, true, tt) && Restricts(a, f, d, true, ft)
    requires Restricts(a, t, d, false, te) && Restricts(a, f, d, false, fe)
    requires Decides(a, cond, tt, ft, hi) && Decides(a, cond, te, fe, lo) && Decides(a, d, hi, lo, out)
    requires Plain(a.vals, Asks(a.diags, cond, t, f))
    ensures ChoosesAs(a, cond, t, f, out)
  {
    hide RestrictedLeaf;
    hide Diag; hide Val; hide Direct; hide ReadsNoMore; hide ReadsOnly; hide Spent; hide Width;
    ExpansionPlain(a, cond, t, f, d, tt, ft, te, fe, hi, lo, out);
    hide Plain; hide Asks;
    forall truth: iset<ValId>
      ensures Choose(a.diags, out, truth)
        == if cond in truth then Choose(a.diags, t, truth) else Choose(a.diags, f, truth)
    {
      RootArmChooses(a, t, d, d in truth, truth);
      RootArmChooses(a, f, d, d in truth, truth);
      assert Choose(a.diags, hi, truth)
        == if cond in truth then Choose(a.diags, tt, truth) else Choose(a.diags, ft, truth);
      assert Choose(a.diags, lo, truth)
        == if cond in truth then Choose(a.diags, te, truth) else Choose(a.diags, fe, truth);
    }
  }

  lemma ExpansionPlain(
    a: Arena, cond: ValId, t: DiagId, f: DiagId, d: ValId,
    tt: DiagId, ft: DiagId, te: DiagId, fe: DiagId, hi: DiagId, lo: DiagId, out: DiagId)
    requires a.Ok() && d < |a.vals| && t < |a.diags| && f < |a.diags|
    requires RootCond(a.diags, t) == Some(d) || RootCond(a.diags, f) == Some(d)
    requires Restricts(a, t, d, true, tt) && Restricts(a, f, d, true, ft)
    requires Restricts(a, t, d, false, te) && Restricts(a, f, d, false, fe)
    requires Decides(a, cond, tt, ft, hi) && Decides(a, cond, te, fe, lo) && Decides(a, d, hi, lo, out)
    requires Plain(a.vals, Asks(a.diags, cond, t, f))
    ensures EqualToLiteral(a.vals, d).None? && Plain(a.vals, Asks(a.diags, cond, tt, ft))
    ensures Plain(a.vals, Asks(a.diags, cond, te, fe)) && Plain(a.vals, Asks(a.diags, d, hi, lo))
    ensures Tests(a.diags, out) <= Asks(a.diags, cond, t, f)
  {
    hide Diag; hide Val; hide Direct; hide ReadsNoMore; hide ReadsOnly; hide Spent; hide Width; hide ChoosesAs;
    assert d in Asks(a.diags, cond, t, f);
    RootArmTests(a, t, d, true);
    RootArmTests(a, f, d, true);
    RootArmTests(a, t, d, false);
    RootArmTests(a, f, d, false);
    assert Asks(a.diags, cond, tt, ft) <= Asks(a.diags, cond, t, f);
    assert Asks(a.diags, cond, te, fe) <= Asks(a.diags, cond, t, f);
    assert Asks(a.diags, d, hi, lo) <= Asks(a.diags, cond, t, f);
  }
}
