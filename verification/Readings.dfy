/** Terms read with the truth of values left open, as the calls are: all that a term of wires and calls can tell. */
module Readings {
  import opened Values
  import opened Prims
  import opened Terms

  /** Nothing is decided. */
  predicate Straight(t: Tree) {
    match t
    case Compose(l, r) => Straight(l) && Straight(r)
    case Par(l, r) => Straight(l) && Straight(r)
    case Branch(_, _) => false
    case _ => true
  }

  /** Wires, literals, calls and branches: no instruction computes. */
  predicate Opaque(t: Tree) {
    match t
    case Op(prim) => prim.Push? || prim.Swap?
    case Compose(l, r) => Opaque(l) && Opaque(r)
    case Par(l, r) => Opaque(l) && Opaque(r)
    case Branch(x, y) => Opaque(x) && Opaque(y)
    case _ => true
  }

  /** The literals a term pushes. */
  function Pushed(t: Tree): set<Value> {
    match t
    case Op(Push(v)) => {v}
    case Compose(l, r) => Pushed(l) + Pushed(r)
    case Par(l, r) => Pushed(l) + Pushed(r)
    case Branch(x, y) => Pushed(x) + Pushed(y)
    case _ => {}
  }

  /** A term run where a branch takes its then arm on exactly these values. */
  ghost function RunBy(t: Tree, calls: Interp, truth: iset<Value>, s: seq<Value>): (r: seq<Value>)
    requires t.Ok() && |s| == t.Effect().inputs
    ensures |r| == t.Effect().outputs
    decreases t
  {
    match t
    case Compose(a, b) => RunBy(b, calls, truth, RunBy(a, calls, truth, s))
    case Par(a, b) =>
      var cut := a.Effect().inputs;
      RunBy(a, calls, truth, s[..cut]) + RunBy(b, calls, truth, s[cut..])
    case Branch(a, b) =>
      var top := |s| - 1;
      RunBy(if s[top] in truth then a else b, calls, truth, s[..top])
    case _ => Run(t, calls, s)
  }

  lemma ComposeRunsBy(a: Tree, b: Tree, calls: Interp, truth: iset<Value>, s: seq<Value>)
    requires Tree.Compose(a, b).Ok() && |s| == a.Effect().inputs
    ensures RunBy(Tree.Compose(a, b), calls, truth, s) == RunBy(b, calls, truth, RunBy(a, calls, truth, s))
  {
  }

  lemma ParRunsBy(a: Tree, b: Tree, calls: Interp, truth: iset<Value>, s: seq<Value>)
    requires Tree.Par(a, b).Ok() && |s| == Tree.Par(a, b).Effect().inputs
    ensures var cut := a.Effect().inputs;
      RunBy(Tree.Par(a, b), calls, truth, s) == RunBy(a, calls, truth, s[..cut]) + RunBy(b, calls, truth, s[cut..])
  {
  }

  lemma BranchRunsBy(a: Tree, b: Tree, calls: Interp, truth: iset<Value>, s: seq<Value>)
    requires Tree.Branch(a, b).Ok() && |s| == Tree.Branch(a, b).Effect().inputs
    ensures RunBy(Tree.Branch(a, b), calls, truth, s)
      == RunBy(if s[|s| - 1] in truth then a else b, calls, truth, s[..|s| - 1])
  {
  }

  /** As the machine has it, every value is true but one. */
  ghost function MachineTruth(): iset<Value> {
    iset v: Value | v.Truthy()
  }

  lemma {:induction false} RunByMachine(t: Tree, calls: Interp, s: seq<Value>)
    requires t.Ok() && |s| == t.Effect().inputs
    ensures RunBy(t, calls, MachineTruth(), s) == Run(t, calls, s)
    decreases t
  {
    match t
    case Compose(a, b) =>
      RunByMachine(a, calls, s);
      RunByMachine(b, calls, Run(a, calls, s));
    case Par(a, b) =>
      RunByMachine(a, calls, s[..a.Effect().inputs]);
      RunByMachine(b, calls, s[a.Effect().inputs..]);
    case Branch(a, b) =>
      RunByMachine(if s[|s| - 1].Truthy() then a else b, calls, s[..|s| - 1]);
    case _ =>
  }

  /** The truth of the literals that are pushed is the machine's. */
  ghost predicate Faithful(truth: iset<Value>, pushed: set<Value>) {
    forall v | v in pushed :: v in truth <==> v.Truthy()
  }

  /** Two terms of one arity that no stack, no reading of the calls and no truth of other values tells apart. */
  ghost predicate Alike(a: Tree, b: Tree) {
    && a.Ok() && b.Ok() && a.Effect() == b.Effect()
    && forall calls: Interp, truth: iset<Value>, s: seq<Value> |
      Faithful(truth, Pushed(a) + Pushed(b)) && |s| == a.Effect().inputs ::
        RunBy(a, calls, truth, s) == RunBy(b, calls, truth, s)
  }

  lemma AlikeIsSame(a: Tree, b: Tree)
    requires Alike(a, b)
    ensures Same(a, b)
  {
    forall calls: Interp, s: seq<Value> | |s| == a.Effect().inputs ensures Run(a, calls, s) == Run(b, calls, s) {
      RunByMachine(a, calls, s);
      RunByMachine(b, calls, s);
      assert Faithful(MachineTruth(), Pushed(a) + Pushed(b));
    }
  }

  lemma {:induction false} StraightRunBy(t: Tree, calls: Interp, truth: iset<Value>, s: seq<Value>)
    requires t.Ok() && |s| == t.Effect().inputs && Straight(t)
    ensures RunBy(t, calls, truth, s) == Run(t, calls, s)
    decreases t
  {
    match t
    case Compose(a, b) =>
      StraightRunBy(a, calls, truth, s);
      StraightRunBy(b, calls, truth, Run(a, calls, s));
    case Par(a, b) =>
      StraightRunBy(a, calls, truth, s[..a.Effect().inputs]);
      StraightRunBy(b, calls, truth, s[a.Effect().inputs..]);
    case _ =>
  }

  /** Where nothing branches the truth of values cannot be told. */
  lemma StraightAlike(a: Tree, b: Tree)
    requires Straight(a) && Straight(b)
    ensures Alike(a, b) <==> Same(a, b)
  {
    if Alike(a, b) { AlikeIsSame(a, b); }
    if Same(a, b) {
      forall calls: Interp, truth: iset<Value>, s: seq<Value> |
        Faithful(truth, Pushed(a) + Pushed(b)) && |s| == a.Effect().inputs
        ensures RunBy(a, calls, truth, s) == RunBy(b, calls, truth, s)
      {
        StraightRunBy(a, calls, truth, s);
        StraightRunBy(b, calls, truth, s);
      }
    }
  }

  // ---- branches in either order ----

  /** Two values tested one after the other, the upper first. */
  function Upward(a: Tree, b: Tree, c: Tree, d: Tree): Tree {
    Tree.Branch(Tree.Branch(a, b), Tree.Branch(c, d))
  }

  /** The same with the deeper first. */
  function Downward(a: Tree, b: Tree, c: Tree, d: Tree): Tree {
    Tree.Compose(Tree.Par(Tree.Id(a.Effect().inputs), Tree.Op(Swap)), Upward(a, c, b, d))
  }

  /** Four terms that can be the arms of the same tests. */
  predicate FourArms(a: Tree, b: Tree, c: Tree, d: Tree) {
    a.Ok() && b.Ok() && c.Ok() && d.Ok() && a.Effect() == b.Effect() == c.Effect() == d.Effect()
  }

  lemma UpwardShape(a: Tree, b: Tree, c: Tree, d: Tree)
    requires FourArms(a, b, c, d)
    ensures Tree.Branch(a, b).Ok() && Tree.Branch(a, b).Effect() == Arity(a.Effect().inputs + 1, a.Effect().outputs)
    ensures Tree.Branch(c, d).Ok() && Tree.Branch(c, d).Effect() == Tree.Branch(a, b).Effect()
    ensures Upward(a, b, c, d).Ok()
    ensures Upward(a, b, c, d).Effect() == Arity(a.Effect().inputs + 2, a.Effect().outputs)
  {
    BranchShape(a, b);
    BranchShape(c, d);
    BranchShape(Tree.Branch(a, b), Tree.Branch(c, d));
  }

  lemma DownwardShape(a: Tree, b: Tree, c: Tree, d: Tree)
    requires FourArms(a, b, c, d)
    ensures Downward(a, b, c, d).Ok() && Downward(a, b, c, d).Effect() == Upward(a, b, c, d).Effect()
    ensures Tree.Par(Tree.Id(a.Effect().inputs), Tree.Op(Swap)).Ok()
    ensures Tree.Par(Tree.Id(a.Effect().inputs), Tree.Op(Swap)).Effect()
      == Arity(a.Effect().inputs + 2, a.Effect().inputs + 2)
  {
    UpwardShape(a, b, c, d);
    UpwardShape(a, c, b, d);
    hide Upward;
    ParShape(Tree.Id(a.Effect().inputs), Tree.Op(Swap));
    ComposeShape(Tree.Par(Tree.Id(a.Effect().inputs), Tree.Op(Swap)), Upward(a, c, b, d));
  }

  /** Independent tests may be made in either order, whatever the four arms are. */
  lemma BranchesReorder(a: Tree, b: Tree, c: Tree, d: Tree)
    requires FourArms(a, b, c, d)
    ensures Alike(Upward(a, b, c, d), Downward(a, b, c, d))
  {
    UpwardShape(a, b, c, d);
    UpwardShape(a, c, b, d);
    DownwardShape(a, b, c, d);
    hide Upward; hide Downward; hide Tree.Ok; hide Tree.Effect; hide RunBy; hide Faithful; hide Pushed;
    forall calls: Interp, truth: iset<Value>, s: seq<Value> | |s| == a.Effect().inputs + 2
      ensures RunBy(Upward(a, b, c, d), calls, truth, s) == RunBy(Downward(a, b, c, d), calls, truth, s)
    {
      EitherOrder(a, b, c, d, calls, truth, s);
    }
  }

  lemma EitherOrder(a: Tree, b: Tree, c: Tree, d: Tree, calls: Interp, truth: iset<Value>, s: seq<Value>)
    requires FourArms(a, b, c, d) && |s| == a.Effect().inputs + 2
    requires Upward(a, b, c, d).Ok() && Upward(a, b, c, d).Effect().inputs == |s|
    requires Downward(a, b, c, d).Ok() && Downward(a, b, c, d).Effect().inputs == |s|
    ensures RunBy(Upward(a, b, c, d), calls, truth, s) == RunBy(Downward(a, b, c, d), calls, truth, s)
  {
    hide Upward; hide Downward; hide Tree.Ok; hide Tree.Effect; hide RunBy;
    var n := a.Effect().inputs;
    var (under, x, y) := (s[..n], s[n], s[n + 1]);
    assert s == under + [x, y];
    Twice(a, b, c, d, calls, truth, under, x, y);
    SwappedRuns(a, b, c, d, calls, truth, under, x, y);
    Twice(a, c, b, d, calls, truth, under, y, x);
  }

  lemma SwappedRuns(
    a: Tree, b: Tree, c: Tree, d: Tree, calls: Interp, truth: iset<Value>, s: seq<Value>, x: Value, y: Value)
    requires FourArms(a, b, c, d) && |s| == a.Effect().inputs
    requires Downward(a, b, c, d).Ok() && Downward(a, b, c, d).Effect().inputs == |s| + 2
    ensures Upward(a, c, b, d).Ok() && Upward(a, c, b, d).Effect().inputs == |s| + 2
    ensures RunBy(Downward(a, b, c, d), calls, truth, s + [x, y])
      == RunBy(Upward(a, c, b, d), calls, truth, s + [y, x])
  {
    hide Upward; hide Tree.Ok; hide Tree.Effect; hide RunBy;
    UpwardShape(a, c, b, d);
    Swapped(|s|, calls, truth, s, x, y);
    ComposeRunsBy(Tree.Par(Tree.Id(|s|), Tree.Op(Swap)), Upward(a, c, b, d), calls, truth, s + [x, y]);
  }

  lemma Twice(
    a: Tree, b: Tree, c: Tree, d: Tree, calls: Interp, truth: iset<Value>, s: seq<Value>, x: Value, y: Value)
    requires FourArms(a, b, c, d) && |s| == a.Effect().inputs
    ensures Upward(a, b, c, d).Ok() && Upward(a, b, c, d).Effect().inputs == |s| + 2
    ensures RunBy(Upward(a, b, c, d), calls, truth, s + [x, y])
      == RunBy(if y in truth then (if x in truth then a else b) else if x in truth then c else d, calls, truth, s)
  {
    UpwardShape(a, b, c, d);
    hide Tree.Ok; hide Tree.Effect; hide RunBy;
    var (yes, no) := (Tree.Branch(a, b), Tree.Branch(c, d));
    assert (s + [x, y])[..|s| + 1] == s + [x] && (s + [x])[..|s|] == s;
    BranchRunsBy(yes, no, calls, truth, s + [x, y]);
    BranchRunsBy(a, b, calls, truth, s + [x]);
    BranchRunsBy(c, d, calls, truth, s + [x]);
  }

  lemma Swapped(n: nat, calls: Interp, truth: iset<Value>, s: seq<Value>, x: Value, y: Value)
    requires |s| == n
    ensures Tree.Par(Tree.Id(n), Tree.Op(Swap)).Ok() && Tree.Par(Tree.Id(n), Tree.Op(Swap)).Effect().inputs == n + 2
    ensures RunBy(Tree.Par(Tree.Id(n), Tree.Op(Swap)), calls, truth, s + [x, y]) == s + [y, x]
  {
    assert Tree.Id(n).Ok() && Tree.Op(Swap).Ok();
    assert (s + [x, y])[..n] == s && (s + [x, y])[n..] == [x, y];
  }

  // ---- same, but not alike ----

  /** `x y` to `x`, outright. */
  function Deeper(): Tree {
    Tree.Par(Tree.Id(1), Tree.Drop(1))
  }

  /** `x y` to `x` where `y` is true, and to `y` where it is not. */
  function Upper(): Tree {
    Tree.Compose(Tree.Par(Tree.Id(1), Tree.Copy(1)), Tree.Branch(Deeper(), Tree.Par(Tree.Drop(1), Tree.Id(1))))
  }

  /** `x y` to `x` where one of them is true, and to `y` where neither is. */
  function EitherOne(): Tree {
    Tree.Compose(Tree.Compose(Tree.Par(Tree.Copy(1), Tree.Id(1)), Tree.Par(Tree.Id(1), Tree.Op(Swap))),
      Tree.Branch(Deeper(), Upper()))
  }

  lemma DeeperRuns(calls: Interp, truth: iset<Value>, x: Value, y: Value)
    ensures Deeper().Ok() && Deeper().Effect() == Arity(2, 1) && RunBy(Deeper(), calls, truth, [x, y]) == [x]
  {
    assert [x, y][..1] == [x] && [x, y][1..] == [y];
  }

  lemma UpperRuns(calls: Interp, truth: iset<Value>, x: Value, y: Value)
    ensures Upper().Ok() && Upper().Effect() == Arity(2, 1)
    ensures RunBy(Upper(), calls, truth, [x, y]) == [if y in truth then x else y]
  {
    DeeperRuns(calls, truth, x, y);
    assert [x, y][..1] == [x] && [x, y][1..] == [y];
    assert [x] + ([y] + [y]) == [x, y] + [y];
    assert ([x, y] + [y])[..2] == [x, y] && ([x, y] + [y])[2] == y;
    assert RunBy(Tree.Par(Tree.Id(1), Tree.Copy(1)), calls, truth, [x, y]) == [x, y] + [y];
    assert RunBy(Tree.Par(Tree.Drop(1), Tree.Id(1)), calls, truth, [x, y]) == [y];
  }

  lemma EitherOneRuns(calls: Interp, truth: iset<Value>, x: Value, y: Value)
    ensures EitherOne().Ok() && EitherOne().Effect() == Arity(2, 1)
    ensures RunBy(EitherOne(), calls, truth, [x, y]) == [if x in truth || y in truth then x else y]
  {
    DeeperRuns(calls, truth, x, y);
    UpperRuns(calls, truth, x, y);
    hide Deeper; hide Upper;
    var first, second := Tree.Par(Tree.Copy(1), Tree.Id(1)), Tree.Par(Tree.Id(1), Tree.Op(Swap));
    assert [x, y][..1] == [x] && [x, y][1..] == [y];
    assert ([x] + [x]) + [y] == [x, x, y];
    assert RunBy(first, calls, truth, [x, y]) == [x, x, y];
    assert [x, x, y][..1] == [x] && [x, x, y][1..] == [x, y];
    assert [x] + [y, x] == [x, y, x];
    assert RunBy(second, calls, truth, [x, x, y]) == [x, y, x];
    assert [x, y, x][..2] == [x, y] && [x, y, x][2] == x;
  }

  lemma EitherIsSame()
    ensures Same(Deeper(), EitherOne())
  {
    var (l, r) := (Deeper(), EitherOne());
    DeeperRuns(imap[], iset{}, UNIT, UNIT);
    EitherOneRuns(imap[], iset{}, UNIT, UNIT);
    hide Deeper; hide EitherOne; hide Run; hide RunBy;
    forall calls: Interp, s: seq<Value> | |s| == 2 ensures Run(l, calls, s) == Run(r, calls, s) {
      assert s == [s[0], s[1]];
      DeeperRuns(calls, MachineTruth(), s[0], s[1]);
      EitherOneRuns(calls, MachineTruth(), s[0], s[1]);
      RunByMachine(l, calls, s);
      RunByMachine(r, calls, s);
    }
  }

  lemma NothingPushed()
    ensures Pushed(Deeper()) == {} && Pushed(EitherOne()) == {}
  {
    assert Pushed(Deeper()) == {};
    assert Pushed(Upper()) == {} by {
      hide Deeper;
      assert Pushed(Tree.Par(Tree.Id(1), Tree.Copy(1))) == {} && Pushed(Tree.Par(Tree.Drop(1), Tree.Id(1))) == {};
    }
    hide Deeper; hide Upper;
    assert Pushed(Tree.Branch(Deeper(), Upper())) == {};
    assert Pushed(Tree.Par(Tree.Copy(1), Tree.Id(1))) == {} && Pushed(Tree.Par(Tree.Id(1), Tree.Op(Swap))) == {};
  }

  lemma EitherIsNotAlike()
    ensures !Alike(Deeper(), EitherOne())
  {
    hide Deeper; hide EitherOne; hide Pushed; hide RunBy; hide Tree.Ok; hide Tree.Effect;
    var calls: Interp, nothing: iset<Value> := imap[], iset{};
    NothingPushed();
    DeeperRuns(calls, nothing, Int(1), Int(2));
    EitherOneRuns(calls, nothing, Int(1), Int(2));
    var s := [Int(1), Int(2)];
    assert RunBy(Deeper(), calls, nothing, s)[0] != RunBy(EitherOne(), calls, nothing, s)[0];
    assert Faithful(nothing, Pushed(Deeper()) + Pushed(EitherOne()));
  }

  /**
   * Two terms that wire and branch, and that nothing tells apart but the truth of values: where neither `x` nor `y`
   * is true both are `false`, so that to leave one or the other is the same.
   */
  lemma SameNotAlike()
    ensures Opaque(Deeper()) && Opaque(EitherOne()) && Same(Deeper(), EitherOne()) && !Alike(Deeper(), EitherOne())
  {
    EitherIsSame();
    EitherIsNotAlike();
    hide Same; hide Alike;
  }
}
