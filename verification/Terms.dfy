/** The term algebra, what its terms compute, and the arena that stores them. */
module Terms {
  import opened Wrappers
  import opened Values
  import opened Prims

  type SentenceIndex = nat
  type TermIndex = nat

  /** A term as a tree. The arena's `Term` is the same thing with children named by index. */
  datatype Tree =
    | Id(n: nat)
    | Drop(n: nat)
    | Copy(n: nat)
    | Op(prim: Prim)
    | Call(target: SentenceIndex, arity: Arity)
    | Compose(left: Tree, right: Tree)
    | Par(left: Tree, right: Tree)
    | Branch(ifTrue: Tree, ifFalse: Tree)
  {
    function Effect(): Arity {
      match this
      case Id(n) => Arity(n, n)
      case Drop(n) => Arity(n, 0)
      case Copy(n) => Arity(n, 2 * n)
      case Op(prim) => prim.Effect()
      case Call(_, arity) => arity
      case Compose(l, r) => Arity(l.Effect().inputs, r.Effect().outputs)
      case Par(l, r) => Arity(l.Effect().inputs + r.Effect().inputs, l.Effect().outputs + r.Effect().outputs)
      case Branch(t, _) => Arity(t.Effect().inputs + 1, t.Effect().outputs)
    }

    /** The invariants the constructors enforce hold at every node. */
    predicate Ok() {
      match this
      case Compose(l, r) => l.Effect().outputs == r.Effect().inputs && l.Ok() && r.Ok()
      case Par(l, r) => l.Ok() && r.Ok()
      case Branch(t, f) => t.Effect() == f.Effect() && t.Ok() && f.Ok()
      case _ => true
    }

    /** Wires, calls and the two operators: nothing is computed and nothing is decided. */
    predicate Cartesian() {
      match this
      case Op(prim) => prim.Swap?
      case Compose(l, r) => l.Cartesian() && r.Cartesian()
      case Par(l, r) => l.Cartesian() && r.Cartesian()
      case Branch(_, _) => false
      case _ => true
    }
  }

  // ---- what a term computes ----

  /** What calls answer. Any total function of the stated arities is one of these. */
  type Interp = imap<(SentenceIndex, Arity, seq<Value>), seq<Value>>

  ghost function CallAnswer(calls: Interp, target: SentenceIndex, arity: Arity, args: seq<Value>): (r: seq<Value>)
    ensures |r| == arity.outputs
  {
    var key := (target, arity, args);
    if key in calls && |calls[key]| == arity.outputs then calls[key] else Units(arity.outputs)
  }

  /** A term run on exactly its inputs, deepest first. */
  ghost function Run(t: Tree, calls: Interp, s: seq<Value>): (r: seq<Value>)
    requires t.Ok() && |s| == t.Effect().inputs
    ensures |r| == t.Effect().outputs
    decreases t
  {
    match t
    case Id(_) => s
    case Drop(_) => []
    case Copy(_) => s + s
    case Op(prim) => Answer(prim, s)
    case Call(target, arity) => CallAnswer(calls, target, arity, s)
    case Compose(a, b) => Run(b, calls, Run(a, calls, s))
    case Par(a, b) =>
      var cut := a.Effect().inputs;
      Run(a, calls, s[..cut]) + Run(b, calls, s[cut..])
    case Branch(a, b) =>
      var top := |s| - 1;
      if s[top].Truthy() then Run(a, calls, s[..top]) else Run(b, calls, s[..top])
  }

  /** Two terms of one arity that no stack and no reading of the calls tells apart. */
  ghost predicate Same(a: Tree, b: Tree) {
    && a.Ok() && b.Ok() && a.Effect() == b.Effect()
    && forall calls: Interp, s: seq<Value> | |s| == a.Effect().inputs :: Run(a, calls, s) == Run(b, calls, s)
  }

  /** The term on the top of a deeper stack: everything below its inputs is left alone. */
  ghost function RunOn(t: Tree, calls: Interp, stack: seq<Value>): (r: seq<Value>)
    requires t.Ok() && |stack| >= t.Effect().inputs
    ensures |r| == |stack| - t.Effect().inputs + t.Effect().outputs
  {
    var cut := |stack| - t.Effect().inputs;
    stack[..cut] + Run(t, calls, stack[cut..])
  }

  lemma ComposeShape(l: Tree, r: Tree)
    ensures Tree.Compose(l, r).Effect() == Arity(l.Effect().inputs, r.Effect().outputs)
    ensures Tree.Compose(l, r).Ok() <==> l.Effect().outputs == r.Effect().inputs && l.Ok() && r.Ok()
  {
  }

  lemma BranchShape(t: Tree, f: Tree)
    ensures Tree.Branch(t, f).Effect() == Arity(t.Effect().inputs + 1, t.Effect().outputs)
    ensures Tree.Branch(t, f).Ok() <==> t.Effect() == f.Effect() && t.Ok() && f.Ok()
  {
  }

  lemma ParShape(l: Tree, r: Tree)
    ensures Tree.Par(l, r).Effect()
      == Arity(l.Effect().inputs + r.Effect().inputs, l.Effect().outputs + r.Effect().outputs)
    ensures Tree.Par(l, r).Ok() <==> l.Ok() && r.Ok()
  {
  }

  // ---- padding ----

  function Widened(t: Tree, n: nat): (r: Tree)
    ensures t.Ok() ==> r.Ok()
    ensures r.Effect() == Arity(n + t.Effect().inputs, n + t.Effect().outputs)
  {
    if n == 0 then t else Tree.Par(Tree.Id(n), t)
  }

  function Composed(l: Tree, r: Tree): Tree {
    var (have, want) := (l.Effect().outputs, r.Effect().inputs);
    if have < want then
      Tree.Compose(Widened(l, want - have), r)
    else
      Tree.Compose(l, Widened(r, have - want))
  }

  function Branched(t: Tree, f: Tree): Result<Tree, Error> {
    if t.Effect().Net() != f.Effect().Net() then
      Err(ArmsDiffer(t.Effect(), f.Effect()))
    else if t.Effect().inputs < f.Effect().inputs then
      Ok(Tree.Branch(Widened(t, f.Effect().inputs - t.Effect().inputs), f))
    else
      Ok(Tree.Branch(t, Widened(f, t.Effect().inputs - f.Effect().inputs)))
  }

  datatype Error =
    | Mismatch(left: Arity, right: Arity)
    | ArmsDiffer(ifTrue: Arity, ifFalse: Arity)
    | NoArity(sentence: SentenceIndex)

  /** Side by side, each side runs on its own piece of the stack. */
  lemma ParRuns(a: Tree, b: Tree, calls: Interp, x: seq<Value>, y: seq<Value>)
    requires a.Ok() && b.Ok() && |x| == a.Effect().inputs && |y| == b.Effect().inputs
    ensures Run(Tree.Par(a, b), calls, x + y) == Run(a, calls, x) + Run(b, calls, y)
  {
    assert (x + y)[..|x|] == x && (x + y)[|x|..] == y;
  }

  lemma BranchRuns(t: Tree, f: Tree, calls: Interp, s: seq<Value>, cond: Value)
    requires Tree.Branch(t, f).Ok() && |s| == t.Effect().inputs
    ensures Run(Tree.Branch(t, f), calls, s + [cond]) == if cond.Truthy() then Run(t, calls, s) else Run(f, calls, s)
  {
    assert (s + [cond])[..|s|] == s;
  }

  lemma RunOnSplit(t: Tree, calls: Interp, below: seq<Value>, args: seq<Value>)
    requires t.Ok() && |args| == t.Effect().inputs
    ensures RunOn(t, calls, below + args) == below + Run(t, calls, args)
  {
    assert (below + args)[..|below|] == below && (below + args)[|below|..] == args;
  }

  lemma Associative<T>(a: seq<T>, b: seq<T>, c: seq<T>)
    ensures a + (b + c) == (a + b) + c
  {
  }

  lemma IdRuns(n: nat, calls: Interp, s: seq<Value>)
    requires |s| == n
    ensures Run(Tree.Id(n), calls, s) == s
  {
  }

  /** Values passing underneath are invisible to what runs on top of them. */
  lemma WidenedRuns(t: Tree, n: nat, calls: Interp, stack: seq<Value>)
    requires t.Ok() && |stack| >= n + t.Effect().inputs
    ensures RunOn(Widened(t, n), calls, stack) == RunOn(t, calls, stack)
  {
    hide Run;
    if n > 0 {
      var cut := |stack| - n - t.Effect().inputs;
      var below, passed, args := stack[..cut], stack[cut..cut + n], stack[cut + n..];
      assert stack == below + (passed + args);
      Associative(below, passed, args);
      RunOnSplit(Widened(t, n), calls, below, passed + args);
      ParRuns(Tree.Id(n), t, calls, passed, args);
      IdRuns(n, calls, passed);
      RunOnSplit(t, calls, below + passed, args);
      Associative(below, passed, Run(t, calls, args));
    }
  }

  /** Composing with padding is running one program and then the other, whatever the two arities are. */
  lemma ComposedRuns(l: Tree, r: Tree, calls: Interp, stack: seq<Value>)
    requires l.Ok() && r.Ok() && |stack| >= Composed(l, r).Effect().inputs
    ensures Composed(l, r).Ok()
    ensures |stack| >= l.Effect().inputs && |RunOn(l, calls, stack)| >= r.Effect().inputs
    ensures RunOn(Composed(l, r), calls, stack) == RunOn(r, calls, RunOn(l, calls, stack))
  {
    hide Run;
    var (have, want) := (l.Effect().outputs, r.Effect().inputs);
    var n := if have < want then want - have else 0;
    var m := if have < want then 0 else have - want;
    var (wl, wr) := (Widened(l, n), Widened(r, m));
    assert Composed(l, r) == Tree.Compose(wl, wr) && wl.Effect().outputs == wr.Effect().inputs;
    WidenedRuns(l, n, calls, stack);
    var middle := RunOn(l, calls, stack);
    WidenedRuns(r, m, calls, middle);
    ComposeRuns(wl, wr, calls, stack);
  }

  lemma ComposeRuns(l: Tree, r: Tree, calls: Interp, stack: seq<Value>)
    requires Tree.Compose(l, r).Ok() && |stack| >= l.Effect().inputs
    ensures RunOn(Tree.Compose(l, r), calls, stack) == RunOn(r, calls, RunOn(l, calls, stack))
  {
    var cut := |stack| - l.Effect().inputs;
    var below, args := stack[..cut], stack[cut..];
    assert stack == below + args;
    RunOnSplit(l, calls, below, args);
    RunOnSplit(r, calls, below, Run(l, calls, args));
    RunOnSplit(Tree.Compose(l, r), calls, below, args);
  }

  /** The padded branch pops its condition and enters one arm with the rest of the stack. */
  lemma BranchedRuns(t: Tree, f: Tree, calls: Interp, rest: seq<Value>, cond: Value)
    requires t.Ok() && f.Ok() && Branched(t, f).Ok?
    requires |rest| + 1 >= Branched(t, f).value.Effect().inputs
    ensures Branched(t, f).value.Ok()
    ensures |rest| >= t.Effect().inputs && |rest| >= f.Effect().inputs
    ensures RunOn(Branched(t, f).value, calls, rest + [cond])
      == if cond.Truthy() then RunOn(t, calls, rest) else RunOn(f, calls, rest)
  {
    hide Run; hide RunOn; hide Tree.Ok; hide Tree.Effect; hide Widened;
    BranchedArms(t, f);
    if t.Effect().inputs < f.Effect().inputs {
      WidenedArms(t, f, f.Effect().inputs - t.Effect().inputs, 0, calls, rest, cond);
    } else {
      WidenedArms(t, f, 0, t.Effect().inputs - f.Effect().inputs, calls, rest, cond);
    }
  }

  /** The branch that is built, on arms one of which is widened. */
  lemma BranchedArms(t: Tree, f: Tree)
    requires Branched(t, f).Ok?
    ensures var (n, m) := (t.Effect().inputs, f.Effect().inputs);
      var (x, y) := (Widened(t, if n < m then m - n else 0), Widened(f, if n < m then 0 else n - m));
      && Branched(t, f).value == Tree.Branch(x, y) && x.Effect() == y.Effect()
      && Tree.Branch(x, y).Effect().inputs == x.Effect().inputs + 1
      && x.Effect().inputs == (if n < m then m else n)
  {
  }

  lemma WidenedArms(t: Tree, f: Tree, n: nat, m: nat, calls: Interp, rest: seq<Value>, cond: Value)
    requires t.Ok() && f.Ok() && Widened(t, n).Effect() == Widened(f, m).Effect()
    requires |rest| >= n + t.Effect().inputs
    ensures Tree.Branch(Widened(t, n), Widened(f, m)).Ok()
    ensures RunOn(Tree.Branch(Widened(t, n), Widened(f, m)), calls, rest + [cond])
      == if cond.Truthy() then RunOn(t, calls, rest) else RunOn(f, calls, rest)
  {
    hide Run;
    WidenedRuns(t, n, calls, rest);
    WidenedRuns(f, m, calls, rest);
    BranchOnTop(Widened(t, n), Widened(f, m), calls, rest, cond);
  }

  lemma BranchOnTop(t: Tree, f: Tree, calls: Interp, rest: seq<Value>, cond: Value)
    requires Tree.Branch(t, f).Ok() && |rest| >= t.Effect().inputs
    ensures RunOn(Tree.Branch(t, f), calls, rest + [cond])
      == if cond.Truthy() then RunOn(t, calls, rest) else RunOn(f, calls, rest)
  {
    hide Run;
    var cut := |rest| - t.Effect().inputs;
    var below, args := rest[..cut], rest[cut..];
    assert rest == below + args;
    Associative(below, args, [cond]);
    RunOnSplit(Tree.Branch(t, f), calls, below, args + [cond]);
    BranchRuns(t, f, calls, args, cond);
    RunOnSplit(t, calls, below, args);
    RunOnSplit(f, calls, below, args);
  }

  // ---- the arena ----

  /** One node, its children named by where they sit in the arena. */
  datatype Term =
    | Id(n: nat)
    | Drop(n: nat)
    | Copy(n: nat)
    | Op(prim: Prim)
    | Call(target: SentenceIndex, arity: Arity)
    | Compose(left: TermIndex, right: TermIndex)
    | Par(left: TermIndex, right: TermIndex)
    | Branch(ifTrue: TermIndex, ifFalse: TermIndex)
  {
    /** Every child sits below `bound`. */
    predicate Below(bound: nat) {
      match this
      case Compose(l, r) => l < bound && r < bound
      case Par(l, r) => l < bound && r < bound
      case Branch(t, f) => t < bound && f < bound
      case _ => true
    }
  }

  /** Children are built before their parents. */
  predicate Ordered(terms: seq<Term>) {
    forall i | 0 <= i < |terms| :: terms[i].Below(i)
  }

  function TreeAt(terms: seq<Term>, i: TermIndex): Tree
    requires Ordered(terms) && i < |terms|
    decreases i
  {
    assert terms[i].Below(i);
    match terms[i]
    case Id(n) => Tree.Id(n)
    case Drop(n) => Tree.Drop(n)
    case Copy(n) => Tree.Copy(n)
    case Op(prim) => Tree.Op(prim)
    case Call(target, arity) => Tree.Call(target, arity)
    case Compose(l, r) => Tree.Compose(TreeAt(terms, l), TreeAt(terms, r))
    case Par(l, r) => Tree.Par(TreeAt(terms, l), TreeAt(terms, r))
    case Branch(t, f) => Tree.Branch(TreeAt(terms, t), TreeAt(terms, f))
  }

  /** An index keeps its meaning as the arena grows. */
  lemma {:induction false} TreeStays(terms: seq<Term>, more: seq<Term>, i: TermIndex)
    requires Ordered(terms) && Ordered(more) && terms <= more && i < |terms|
    ensures TreeAt(terms, i) == TreeAt(more, i)
    decreases i
  {
    assert more[i] == terms[i] && terms[i].Below(i);
    match terms[i]
    case Compose(l, r) => TreeStays(terms, more, l); TreeStays(terms, more, r);
    case Par(l, r) => TreeStays(terms, more, l); TreeStays(terms, more, r);
    case Branch(t, f) => TreeStays(terms, more, t); TreeStays(terms, more, f);
    case _ =>
  }

  lemma TreesStay(terms: seq<Term>, more: seq<Term>)
    requires Ordered(terms) && Ordered(more) && terms <= more
    ensures forall i: TermIndex | i < |terms| :: TreeAt(more, i) == TreeAt(terms, i)
  {
    forall i: TermIndex | i < |terms| ensures TreeAt(more, i) == TreeAt(terms, i) {
      TreeStays(terms, more, i);
    }
  }

  /** Terms by index; a term's parts have smaller indices, and its effect is kept beside it. */
  class Context {
    var terms: seq<Term>
    var arities: seq<Arity>

    ghost predicate Valid()
      reads this
    {
      && |terms| == |arities|
      && Ordered(terms)
      && forall i | 0 <= i < |terms| :: arities[i] == TreeAt(terms, i).Effect()
    }

    predicate Has(i: TermIndex)
      reads this
    {
      i < |terms|
    }

    ghost function At(i: TermIndex): Tree
      reads this
      requires Valid() && Has(i)
    {
      TreeAt(terms, i)
    }

    /** Nothing already built has moved or changed. */
    twostate predicate Grew()
      reads this
    {
      && old(Valid()) && Valid()
      && old(terms) <= terms
      && forall i: TermIndex | i < |old(terms)| :: TreeAt(terms, i) == TreeAt(old(terms), i)
    }

    constructor ()
      ensures Valid() && terms == []
    {
      terms, arities := [], [];
    }

    function EffectAt(i: TermIndex): (a: Arity)
      reads this
      requires Valid() && Has(i)
      ensures a == At(i).Effect()
    {
      arities[i]
    }

    /** A node's tree, one layer of it. */
    lemma NodeAt(i: TermIndex)
      requires Valid() && Has(i)
      ensures terms[i].Below(i)
      ensures match terms[i]
        case Compose(l, r) => Has(l) && Has(r) && At(i) == Tree.Compose(At(l), At(r))
        case Par(l, r) => Has(l) && Has(r) && At(i) == Tree.Par(At(l), At(r))
        case Branch(t, f) => Has(t) && Has(f) && At(i) == Tree.Branch(At(t), At(f))
        case Call(target, arity) => At(i) == Tree.Call(target, arity)
        case Op(prim) => At(i) == Tree.Op(prim)
        case Id(n) => At(i) == Tree.Id(n)
        case Copy(n) => At(i) == Tree.Copy(n)
        case Drop(n) => At(i) == Tree.Drop(n)
    {
      assert terms[i].Below(i);
    }

    /** Adds a node by hand, unchecked, its arity worked out from its children's. */
    method Push(term: Term) returns (i: TermIndex)
      requires Valid() && term.Below(|terms|)
      modifies this
      ensures Grew() && Has(i) && i == |old(terms)| && terms == old(terms) + [term]
      ensures match term
        case Id(n) => At(i) == Tree.Id(n)
        case Drop(n) => At(i) == Tree.Drop(n)
        case Copy(n) => At(i) == Tree.Copy(n)
        case Op(prim) => At(i) == Tree.Op(prim)
        case Call(target, arity) => At(i) == Tree.Call(target, arity)
        case Compose(l, r) => At(i) == Tree.Compose(old(At(l)), old(At(r)))
        case Par(l, r) => At(i) == Tree.Par(old(At(l)), old(At(r)))
        case Branch(t, f) => At(i) == Tree.Branch(old(At(t)), old(At(f)))
    {
      i := |terms|;
      var arity := match term
        case Id(n) => Arity(n, n)
        case Drop(n) => Arity(n, 0)
        case Copy(n) => Arity(n, 2 * n)
        case Op(prim) => prim.Effect()
        case Call(_, arity) => arity
        case Compose(l, r) => Arity(arities[l].inputs, arities[r].outputs)
        case Par(l, r) => Arity(arities[l].inputs + arities[r].inputs, arities[l].outputs + arities[r].outputs)
        case Branch(t, _) => Arity(arities[t].inputs + 1, arities[t].outputs);
      ghost var was := terms;
      arities := arities + [arity];
      terms := terms + [term];
      TreesStay(was, terms);
    }

    /** Pushes a composition, or fails if the arities do not fit. */
    method Compose(left: TermIndex, right: TermIndex) returns (r: Result<TermIndex, Error>)
      requires Valid() && Has(left) && Has(right)
      modifies this
      ensures Grew()
      ensures old(At(left).Effect().outputs != At(right).Effect().inputs) ==>
        r == Err(Mismatch(old(At(left).Effect()), old(At(right).Effect())))
      ensures old(At(left).Effect().outputs == At(right).Effect().inputs) ==>
        r.Ok? && Has(r.value) && At(r.value) == Tree.Compose(old(At(left)), old(At(right)))
    {
      if EffectAt(left).outputs != EffectAt(right).inputs {
        return Err(Mismatch(EffectAt(left), EffectAt(right)));
      }
      var i := Push(Term.Compose(left, right));
      r := Ok(i);
    }

    /** A branch on two arms of one arity. */
    method Branch(ifTrue: TermIndex, ifFalse: TermIndex) returns (r: Result<TermIndex, Error>)
      requires Valid() && Has(ifTrue) && Has(ifFalse)
      modifies this
      ensures Grew()
      ensures old(At(ifTrue).Effect() != At(ifFalse).Effect()) ==>
        r == Err(ArmsDiffer(old(At(ifTrue).Effect()), old(At(ifFalse).Effect())))
      ensures old(At(ifTrue).Effect() == At(ifFalse).Effect()) ==>
        r.Ok? && Has(r.value) && At(r.value) == Tree.Branch(old(At(ifTrue)), old(At(ifFalse)))
    {
      if EffectAt(ifTrue) != EffectAt(ifFalse) {
        return Err(ArmsDiffer(EffectAt(ifTrue), EffectAt(ifFalse)));
      }
      var i := Push(Term.Branch(ifTrue, ifFalse));
      r := Ok(i);
    }

    /** `id(n) * i`, or `i` itself for no width. */
    method Under(term: TermIndex, n: nat) returns (i: TermIndex)
      requires Valid() && Has(term)
      modifies this
      ensures Grew() && Has(i) && At(i) == Widened(old(At(term)), n)
    {
      if n == 0 {
        return term;
      }
      var id := Push(Term.Id(n));
      i := Push(Term.Par(id, term));
    }

    /** `left ; right`, widening whichever side is narrower. */
    method PadCompose(left: TermIndex, right: TermIndex) returns (i: TermIndex)
      requires Valid() && Has(left) && Has(right)
      modifies this
      ensures Grew() && Has(i) && At(i) == Composed(old(At(left)), old(At(right)))
    {
      var l, r := EffectAt(left).outputs, EffectAt(right).inputs;
      var made;
      if l < r {
        var wide := Under(left, r - l);
        made := Compose(wide, right);
      } else {
        var wide := Under(right, l - r);
        made := Compose(left, wide);
      }
      i := made.value;
    }

    /** A branch on two arms padded to one arity; arms whose nets differ are refused. */
    method PadBranch(ifTrue: TermIndex, ifFalse: TermIndex) returns (r: Result<TermIndex, Error>)
      requires Valid() && Has(ifTrue) && Has(ifFalse)
      modifies this
      ensures Grew()
      ensures var spec := Branched(old(At(ifTrue)), old(At(ifFalse)));
        match r
        case Ok(i) => Has(i) && spec == Ok(At(i))
        case Err(e) => spec == Err(e)
    {
      hide Tree.Effect; hide TreeAt; hide Ordered;
      var t, f := EffectAt(ifTrue), EffectAt(ifFalse);
      if t.Net() != f.Net() {
        return Err(ArmsDiffer(t, f));
      }
      if t.inputs < f.inputs {
        var wide := Under(ifTrue, f.inputs - t.inputs);
        r := Branch(wide, ifFalse);
      } else {
        var wide := Under(ifFalse, t.inputs - f.inputs);
        r := Branch(ifTrue, wide);
      }
    }

    /** The same program written the same way, wherever the two copies sit. */
    method Equal(a: TermIndex, b: TermIndex) returns (same: bool)
      requires Valid() && Has(a) && Has(b)
      ensures same <==> At(a) == At(b)
      decreases a
    {
      if a == b {
        return true;
      }
      assert terms[a].Below(a) && terms[b].Below(b);
      match (terms[a], terms[b]) {
        case (Compose(a1, a2), Compose(b1, b2)) =>
          same := Equal(a1, b1);
          if same { same := Equal(a2, b2); }
        case (Par(a1, a2), Par(b1, b2)) =>
          same := Equal(a1, b1);
          if same { same := Equal(a2, b2); }
        case (Branch(a1, a2), Branch(b1, b2)) =>
          same := Equal(a1, b1);
          if same { same := Equal(a2, b2); }
        case (x, y) =>
          same := x == y;
      }
    }

    /** Whether every node under `root` obeys the invariants its constructor enforces. */
    method Check(root: TermIndex) returns (r: Result<(), Error>)
      requires Valid() && Has(root)
      ensures r.Ok? <==> At(root).Ok()
    {
      var seen: set<TermIndex> := {};
      var work := [root];
      while work != []
        invariant forall i | i in seen :: Has(i)
        invariant forall i | i in work :: Has(i)
        invariant root in seen || root in work
        invariant forall i | i in seen :: LocallyOk(i) && ChildrenIn(terms[i], seen, work)
        invariant At(root).Ok() ==> forall i | i in work :: At(i).Ok()
        decreases |terms| - |seen|, |work|
      {
        var i := work[|work| - 1];
        ghost var had := work;
        work := work[..|work| - 1];
        assert forall x :: x in had <==> x in work || x == i;
        if i in seen {
          continue;
        }
        SeenFits(seen + {i});
        seen := seen + {i};
        var children := Visit(i);
        if children.Err? {
          return Err(children.error);
        }
        work := work + children.value;
      }
      ClosedIsOk(seen, root);
      r := Ok(());
    }

    /** One node held to its own invariant, answering with the children still to be looked at. */
    method Visit(i: TermIndex) returns (r: Result<seq<TermIndex>, Error>)
      requires Valid() && Has(i)
      ensures r.Err? ==> !At(i).Ok()
      ensures r.Ok? ==> LocallyOk(i) && forall k | k in r.value :: Has(k) && (At(i).Ok() ==> At(k).Ok())
      ensures r.Ok? ==> ChildrenIn(terms[i], {}, r.value)
    {
      assert terms[i].Below(i);
      match terms[i] {
        case Compose(l, r') =>
          if EffectAt(l).outputs != EffectAt(r').inputs {
            return Err(Mismatch(EffectAt(l), EffectAt(r')));
          }
          r := Ok([l, r']);
        case Par(l, r') =>
          r := Ok([l, r']);
        case Branch(t, f) =>
          assert At(i) == Tree.Branch(At(t), At(f));
          if EffectAt(t) != EffectAt(f) {
            return Err(ArmsDiffer(EffectAt(t), EffectAt(f)));
          }
          r := Ok([t, f]);
        case _ =>
          r := Ok([]);
      }
    }

    ghost predicate LocallyOk(i: TermIndex)
      reads this
      requires Valid() && Has(i)
    {
      assert terms[i].Below(i);
      match terms[i]
      case Compose(l, r) => At(l).Effect().outputs == At(r).Effect().inputs
      case Branch(t, f) => At(t).Effect() == At(f).Effect()
      case _ => true
    }

    ghost predicate ChildrenIn(term: Term, seen: set<TermIndex>, work: seq<TermIndex>) {
      match term
      case Compose(l, r) => (l in seen || l in work) && (r in seen || r in work)
      case Par(l, r) => (l in seen || l in work) && (r in seen || r in work)
      case Branch(l, r) => (l in seen || l in work) && (r in seen || r in work)
      case _ => true
    }

    lemma SeenFits(seen: set<TermIndex>)
      requires forall i | i in seen :: Has(i)
      ensures |seen| <= |terms|
    {
      BoundedSet(seen, |terms|);
    }

    lemma {:induction false} ClosedIsOk(seen: set<TermIndex>, i: TermIndex)
      requires Valid() && i in seen
      requires forall k | k in seen :: Has(k) && LocallyOk(k) && ChildrenIn(terms[k], seen, [])
      ensures At(i).Ok()
      decreases i
    {
      assert terms[i].Below(i) && ChildrenIn(terms[i], seen, []);
      match terms[i]
      case Compose(l, r) => ClosedIsOk(seen, l); ClosedIsOk(seen, r);
      case Par(l, r) => ClosedIsOk(seen, l); ClosedIsOk(seen, r);
      case Branch(t, f) => ClosedIsOk(seen, t); ClosedIsOk(seen, f);
      case _ =>
    }
  }

  lemma BoundedSet(s: set<nat>, n: nat)
    requires forall i | i in s :: i < n
    ensures |s| <= n
  {
    if n > 0 {
      BoundedSet(s - {n - 1}, n - 1);
      assert |s| <= |s - {n - 1}| + 1;
    }
  }
}
