/** A diagram spelled as a term again: a stack schedule, each distinct wire computed once. */
module Reifying {
  import opened Wrappers
  import opened Values
  import opened Prims
  import opened Terms
  import opened Spines
  import opened Wires
  import opened Order
  import opened Folds
  import opened Diagrams
  import opened Engine
  import opened Readings
  import opened Landings
  import opened Normalize
  import opened Schedules

  // ---- which wires a schedule can reach ----

  /** Every input read is one of the first `n`. */
  predicate Reads(vals: seq<ValNode>, v: ValId, n: nat)
    requires WiresOk(vals) && v < |vals|
    decreases v
  {
    assert vals[v].Below(v);
    match vals[v]
    case Var(i) => i < n
    case Lit(_) => true
    case App(_, args) => forall k | 0 <= k < |args| :: Reads(vals, args[k], n)
    case Proj(_, _, args) => forall k | 0 <= k < |args| :: Reads(vals, args[k], n)
  }

  predicate DiagReads(a: Arena, d: DiagId, n: nat)
    requires a.Ok() && d < |a.diags|
    decreases d
  {
    assert a.diags[d].Below(d, |a.vals|);
    match a.diags[d]
    case Leaf(vs) => forall k | 0 <= k < |vs| :: Reads(a.vals, vs[k], n)
    case Branch(c, t, f) => Reads(a.vals, c, n) && DiagReads(a, t, n) && DiagReads(a, f, n)
  }

  lemma ReadsArgs(vals: seq<ValNode>, v: ValId, n: nat)
    requires WiresOk(vals) && v < |vals| && Reads(vals, v, n)
    ensures vals[v].Below(v)
    ensures vals[v].Var? ==> vals[v].i < n
    ensures vals[v].App? || vals[v].Proj? ==>
      forall k | 0 <= k < |vals[v].args| :: vals[v].args[k] < v && Reads(vals, vals[v].args[k], n)
  {
    assert vals[v].Below(v);
  }

  // ---- the scheduler's books ----

  /** Each wire is where the books say it is. */
  ghost predicate Placed(vals: seq<ValNode>, positions: map<ValId, nat>, stack: seq<ValNode>) {
    forall v | v in positions :: v < |vals| && positions[v] < |stack| && stack[positions[v]] == vals[v]
  }

  /** An input, or a wire already computed. */
  predicate Ready(vals: seq<ValNode>, inputs: nat, made: seq<Option<Key>>, v: ValId)
    requires v < |vals|
  {
    if vals[v].Var? then vals[v].i < inputs else KeyOf(vals[v]) in made
  }

  /** Inputs and wires already computed are in the books, and nothing else is. */
  ghost predicate Complete(vals: seq<ValNode>, inputs: nat, positions: map<ValId, nat>, made: seq<Option<Key>>) {
    && (forall v | v in positions :: v < |vals|)
    && forall v: ValId | v < |vals| :: v in positions <==> Ready(vals, inputs, made, v)
  }

  /** No wire and no box is computed twice. */
  ghost predicate Once(made: seq<Option<Key>>) {
    forall i, j | 0 <= i < j < |made| && made[i].Some? :: made[i] != made[j]
  }

  /** Each step makes one wire or box, or only moves what there is. */
  ghost predicate Accounts(trees: seq<Tree>, made: seq<Option<Key>>) {
    && |trees| == |made|
    && forall i | 0 <= i < |made| :: if made[i].Some? then trees[i] == KeyTree(made[i].value) else Wiring(trees[i])
  }

  /** What was made since `was` only took arguments below `bound`. */
  ghost predicate NewBelow(was: seq<Option<Key>>, made: seq<Option<Key>>, bound: nat) {
    && was <= made
    && forall i | |was| <= i < |made| && made[i].Some? && made[i].value.Boxed? :: All(made[i].value.args, bound)
  }

  lemma NewBelowMore(a: seq<Option<Key>>, b: seq<Option<Key>>, c: seq<Option<Key>>, x: nat, y: nat, bound: nat)
    requires NewBelow(a, b, x) && NewBelow(b, c, y) && x <= bound && y <= bound
    ensures NewBelow(a, c, bound)
  {
    forall i | |a| <= i < |c| && c[i].Some? && c[i].value.Boxed? ensures All(c[i].value.args, bound) {
      if i < |b| {
        assert c[i] == b[i];
      }
    }
  }

  /** A box whose arguments are not all below `bound` was not made meanwhile. */
  lemma StillUnmade(was: seq<Option<Key>>, made: seq<Option<Key>>, bound: nat, key: Key)
    requires NewBelow(was, made, bound) && Some(key) !in was && key.Boxed? && !All(key.args, bound)
    ensures Some(key) !in made
  {
    forall i | 0 <= i < |made| ensures made[i] != Some(key) {
      assert i < |was| ==> made[i] == was[i];
    }
  }

  /** Nothing was made since: the steps only moved what there was. */
  ghost predicate OnlyMoves(was: seq<Option<Key>>, made: seq<Option<Key>>) {
    was <= made && forall i | |was| <= i < |made| :: made[i] == None
  }

  lemma MovesMakeNothing(was: seq<Option<Key>>, made: seq<Option<Key>>, bound: nat)
    requires OnlyMoves(was, made)
    ensures NewBelow(was, made, bound) && forall key: Key :: Some(key) in made <==> Some(key) in was
  {
    forall key: Key | Some(key) in was ensures Some(key) in made {
      var i :| 0 <= i < |was| && was[i] == Some(key);
      assert made[i] == was[i];
    }
  }

  lemma CompleteStays(
    vals: seq<ValNode>, inputs: nat, positions: map<ValId, nat>, was: seq<Option<Key>>, made: seq<Option<Key>>)
    requires Complete(vals, inputs, positions, was) && OnlyMoves(was, made)
    ensures Complete(vals, inputs, positions, made)
  {
    MovesMakeNothing(was, made, 0);
    forall v: ValId | v < |vals| ensures Ready(vals, inputs, made, v) == Ready(vals, inputs, was, v) {
      if !vals[v].Var? {
        assert KeyOf(vals[v]).Some?;
      }
    }
  }

  /** Nothing but opaque calls was made since. */
  ghost predicate CallsOnly(was: seq<Option<Key>>, made: seq<Option<Key>>) {
    && was <= made
    && forall i | |was| <= i < |made| && made[i].Some? :: made[i].value.Boxed? && made[i].value.op.Call?
  }

  lemma CallsOnlyMore(a: seq<Option<Key>>, b: seq<Option<Key>>, c: seq<Option<Key>>)
    requires CallsOnly(a, b) && CallsOnly(b, c)
    ensures CallsOnly(a, c)
  {
    forall i | |a| <= i < |c| && c[i].Some? ensures c[i].value.Boxed? && c[i].value.op.Call? {
      if i < |b| {
        assert c[i] == b[i];
      }
    }
  }

  lemma MovesCallNothing(was: seq<Option<Key>>, made: seq<Option<Key>>)
    requires OnlyMoves(was, made)
    ensures CallsOnly(was, made)
  {
  }

  /** A cartesian wire is an input or a call's output, and so are the wires it is made from. */
  lemma CartArgs(vals: seq<ValNode>, v: ValId)
    requires WiresOk(vals) && v < |vals| && Cart(vals, v)
    ensures vals[v].Below(v) && !vals[v].Lit?
    ensures vals[v].App? || vals[v].Proj? ==>
      vals[v].op.Call? && forall k | 0 <= k < |vals[v].args| :: vals[v].args[k] < v && Cart(vals, vals[v].args[k])
  {
    assert vals[v].Below(v);
  }

  /** Once every wire of a key just made is in the books, the books are complete again. */
  lemma CompleteAgain(
    vals: seq<ValNode>, inputs: nat, positions: map<ValId, nat>, later: map<ValId, nat>,
    was: seq<Option<Key>>, key: Key)
    requires Complete(vals, inputs, positions, was) && forall v | v in later :: v < |vals|
    requires forall v: ValId | v < |vals| :: v in later <==> v in positions || KeyOf(vals[v]) == Some(key)
    ensures Complete(vals, inputs, later, was + [Some(key)])
  {
  }

  lemma CopyIsWiring(k: nat)
    ensures Wiring(Beneath(Tree.Copy(1), k))
  {
  }

  /** A drop of `n` with `k` kept on top: its shape. */
  lemma DropIsWiring(n: nat, k: nat)
    ensures Wiring(Beneath(Tree.Drop(n), k)) && Beneath(Tree.Drop(n), k).Effect() == Arity(n + k, k)
  {
  }

  lemma SwapIsWiring(k: nat)
    ensures Wiring(Beneath(Tree.Op(Swap), k))
  {
  }

  lemma PlacedBelow(vals: seq<ValNode>, positions: map<ValId, nat>, base: seq<ValNode>, more: seq<ValNode>)
    requires Placed(vals, positions, base)
    ensures Placed(vals, positions, base + more)
  {
  }

  lemma PlacedOne(vals: seq<ValNode>, positions: map<ValId, nat>, stack: seq<ValNode>, v: ValId, at: nat)
    requires Placed(vals, positions, stack) && v < |vals| && at < |stack| && stack[at] == vals[v]
    ensures Placed(vals, positions[v := at], stack)
  {
  }

  class Schedule {
    const vals: seq<ValNode>
    const interned: map<ValNode, ValId>
    const terms: Context
    const inputs: nat
    var steps: seq<TermIndex>
    var height: nat
    var positions: map<ValId, nat>
    var groups: set<(Op, seq<ValId>)>
    ghost var trees: seq<Tree>
    ghost var made: seq<Option<Key>>
    ghost var stack: seq<ValNode>

    ghost predicate Core()
      reads this, terms
    {
      && WiresOk(vals) && AllUnfolded(vals) && terms.Valid()
      && (forall n | n in interned :: interned[n] < |vals| && vals[interned[n]] == n)
      && (forall v: ValId | v < |vals| :: vals[v] in interned && interned[vals[v]] == v)
      && Names(terms.terms, steps, trees) && Does(vals, inputs, trees, stack) && height == |stack|
      && Accounts(trees, made) && Once(made)
    }

    ghost predicate Valid()
      reads this, terms
    {
      && Core() && Placed(vals, positions, stack) && Complete(vals, inputs, positions, made)
      && forall g | g in groups :: Some(Boxed(g.0, g.1)) in made
    }

    /** Nothing already on the stack, in the books or made has changed. */
    twostate predicate Kept()
      reads this
    {
      && old(stack) <= stack && old(made) <= made
      && forall v | v in old(positions) :: v in positions && positions[v] == old(positions)[v]
    }

    /** The inputs seeded where they lie, as far as the arena has wires for them. */
    constructor (vals: seq<ValNode>, interned: map<ValNode, ValId>, terms: Context, inputs: nat)
      requires WiresOk(vals) && AllUnfolded(vals) && terms.Valid()
      requires forall n | n in interned :: interned[n] < |vals| && vals[interned[n]] == n
      requires forall v: ValId | v < |vals| :: vals[v] in interned && interned[vals[v]] == v
      ensures Valid() && this.vals == vals && this.interned == interned && this.terms == terms && this.inputs == inputs
      ensures steps == [] && trees == [] && made == [] && stack == InputNodes(inputs)
    {
      this.vals, this.interned, this.terms, this.inputs := vals, interned, terms, inputs;
      steps, height, groups, trees, made, stack := [], inputs, {}, [], [], InputNodes(inputs);
      var seeded: map<ValId, nat> := map[];
      for i := 0 to inputs
        invariant forall v | v in seeded :: v < |vals| && seeded[v] < i && vals[v] == Var(seeded[v])
        invariant forall v: ValId | v < |vals| && vals[v].Var? && vals[v].i < i :: v in seeded
      {
        if Var(i) in interned {
          seeded := seeded[interned[Var(i)] := i];
        }
      }
      positions := seeded;
    }

    /** One step appended: what it makes, if anything, and what lies on the stack after it. */
    method Step(i: TermIndex, newHeight: nat, ghost key: Option<Key>, ghost to: seq<ValNode>)
      requires Core() && terms.Has(i) && newHeight == |to| && Takes(vals, inputs, terms.At(i), stack, to)
      requires if key.Some? then terms.At(i) == KeyTree(key.value) && key !in made else Wiring(terms.At(i))
      modifies this
      ensures Core() && steps == old(steps) + [i] && trees == old(trees) + [terms.At(i)]
      ensures stack == to && made == old(made) + [key] && positions == old(positions) && groups == old(groups)
      ensures old(terms.At(i).Effect().inputs == |stack|) ==> PadFold(trees).Effect().inputs == inputs
    {
      hide Takes; hide Does; hide AllUnfolded; hide Unfolded; hide TreeAt; hide Ordered; hide KeyTree; hide Tree.Effect;
      StepAdded(vals, inputs, trees, terms.At(i), stack, to);
      NamesJoin(terms.terms, steps, [i], trees, [terms.At(i)]);
      steps, height := steps + [i], newHeight;
      trees, made, stack := trees + [terms.At(i)], made + [key], to;
    }

    /** A term with `k` values passed on top of it. */
    method Beside(t: TermIndex, k: nat) returns (i: TermIndex)
      requires terms.Valid() && terms.Has(t)
      modifies terms
      ensures terms.Grew() && terms.Has(i) && terms.At(i) == Beneath(old(terms.At(t)), k)
    {
      if k == 0 {
        return t;
      }
      var under := terms.Push(Term.Id(k));
      i := terms.Push(Term.Par(t, under));
    }

    /** Leaves `v` once more, on top; everything below is as it was. */
    method Fetch(v: ValId)
      requires Valid() && v in positions
      modifies this, terms
      ensures Valid() && terms.Grew() && Kept() && stack == old(stack) + [vals[v]]
      ensures positions == old(positions) && groups == old(groups) && OnlyMoves(old(made), made) && |made| > |old(made)|
    {
      hide Does; hide AllUnfolded; hide Unfolded; hide TreeAt; hide Ordered; hide Complete; hide Names; hide Once;
      hide Accounts;
      var at := positions[v];
      var depth := height - 1 - at;
      ghost var (below, x, high) := (stack[..at], vals[v], stack[at + 1..]);
      assert stack == below + [x] + high;
      CopyAt(depth, below, x, high);
      BubbleUp(depth, below + [x], x, high);
      assert stack == old(stack) + [x];
      CompleteStays(vals, inputs, positions, old(made), made);
      MovesMakeNothing(old(made), made, 0);
      PlacedBelow(vals, positions, old(stack), [x]);
    }

    method CopyAt(depth: nat, ghost below: seq<ValNode>, ghost x: ValNode, ghost high: seq<ValNode>)
      requires Core() && stack == below + [x] + high && depth == |high|
      modifies this, terms
      ensures Core() && terms.Grew() && stack == below + [x] + [x] + high && made == old(made) + [None]
      ensures positions == old(positions) && groups == old(groups)
    {
      hide Takes; hide Does; hide AllUnfolded; hide Unfolded; hide TreeAt; hide Ordered; hide Tree.Effect;
      hide Names; hide Once; hide Accounts;
      ghost var was := terms.terms;
      var copy := terms.Push(Term.Copy(1));
      var step := Beside(copy, depth);
      NamesStay(was, terms.terms, steps, trees);
      StackOk();
      SplitStack(below, x, high);
      CopyTakes(vals, inputs, below, x, high);
      CopyIsWiring(depth);
      Step(step, height + 1, None, below + [x] + [x] + high);
    }

    lemma SplitStack(below: seq<ValNode>, x: ValNode, high: seq<ValNode>)
      requires NodesOk(vals, stack) && stack == below + [x] + high
      ensures NodesOk(vals, below) && NodesOk(vals, [x]) && NodesOk(vals, high)
    {
      assert stack[|below|] == x;
      forall k | 0 <= k < |below| ensures below[k].Below(|vals|) { assert stack[k] == below[k]; }
      forall k | 0 <= k < |high| ensures high[k].Below(|vals|) { assert stack[|below| + 1 + k] == high[k]; }
    }

    /** Past everything above it, one exchange at a time. */
    method BubbleUp(depth: nat, ghost below: seq<ValNode>, ghost x: ValNode, ghost high: seq<ValNode>)
      requires Core() && stack == below + [x] + high && depth == |high|
      modifies this, terms
      ensures Core() && terms.Grew() && stack == below + high + [x] && OnlyMoves(old(made), made)
      ensures positions == old(positions) && groups == old(groups)
    {
      hide Does; hide AllUnfolded; hide Unfolded; hide TreeAt; hide Ordered; hide Names; hide Once; hide Accounts;
      var k := depth;
      assert below + high[..0] + [x] + high[0..] == stack;
      while k > 0
        invariant 0 <= k <= depth && Core() && terms.Grew()
        invariant positions == old(positions) && groups == old(groups) && OnlyMoves(old(made), made)
        invariant stack == below + high[..depth - k] + [x] + high[depth - k..]
      {
        Bubble(k, below + high[..depth - k], x, high[depth - k..]);
        assert high[..depth - k] + [high[depth - k]] == high[..depth - k + 1];
        k := k - 1;
      }
      assert high[..depth] == high && high[depth..] == [];
      assert below + high + [x] + [] == below + high + [x];
    }

    /** The copy passes one of the `k` values above it. */
    method Bubble(k: nat, ghost below: seq<ValNode>, ghost x: ValNode, ghost high: seq<ValNode>)
      requires Core() && k == |high| > 0 && stack == below + [x] + high
      modifies this, terms
      ensures Core() && terms.Grew() && stack == below + [high[0]] + [x] + high[1..] && made == old(made) + [None]
      ensures positions == old(positions) && groups == old(groups)
    {
      hide Takes; hide Does; hide AllUnfolded; hide Unfolded; hide TreeAt; hide Ordered; hide Tree.Effect;
      hide Names; hide Once; hide Accounts;
      ghost var was := terms.terms;
      var swap := terms.Push(Term.Op(Swap));
      var step := Beside(swap, k - 1);
      NamesStay(was, terms.terms, steps, trees);
      StackOk();
      SplitNodes(below, x, high);
      SwapTakes(vals, inputs, below, x, high[0], high[1..]);
      SwapIsWiring(k - 1);
      assert stack == below + [x, high[0]] + high[1..];
      assert below + [high[0]] + [x] + high[1..] == below + [high[0], x] + high[1..];
      Step(step, height, None, below + [high[0], x] + high[1..]);
    }

    lemma SplitNodes(below: seq<ValNode>, x: ValNode, high: seq<ValNode>)
      requires WiresOk(vals) && high != [] && stack == below + [x] + high
      requires forall k | 0 <= k < |stack| :: stack[k].Below(|vals|)
      ensures NodesOk(vals, below) && NodesOk(vals, [x, high[0]]) && NodesOk(vals, high[1..])
      ensures NodesOk(vals, [x]) && NodesOk(vals, high)
    {
      assert stack[|below|] == x;
      forall k | 0 <= k < |below| ensures below[k].Below(|vals|) { assert stack[k] == below[k]; }
      forall k | 0 <= k < |high| ensures high[k].Below(|vals|) { assert stack[|below| + 1 + k] == high[k]; }
    }

    /** Afterwards `v` is in the books; if it was not before, it and all it is made from have been computed. */
    method Ensure(v: ValId)
      requires Valid() && v < |vals| && Reads(vals, v, inputs)
      modifies this, terms
      ensures Valid() && terms.Grew() && Kept() && v in positions && NewBelow(old(made), made, v)
      ensures groups >= old(groups)
      ensures Cart(vals, v) ==> CallsOnly(old(made), made)
      decreases v, 3
    {
      hide Does; hide AllUnfolded; hide Unfolded; hide TreeAt; hide Ordered; hide Names; hide Accounts; hide Once;
      hide Placed; hide Complete; hide Reads; hide Cart;
      if v in positions {
        NothingNew(made, v);
        return;
      }
      ReadsArgs(vals, v, inputs);
      if Cart(vals, v) {
        CartArgs(vals, v);
      }
      NotYetMade(v);
      match vals[v] {
        case Var(_) => assert false;
        case Lit(x) => PushLiteral(v, x);
        case App(op, args) =>
          NodeIsUnfolded(v);
          EmitApplication(op, args, v);
          RegisterOne(v, op, args);
        case Proj(_, op, args) =>
          EnsureGroup(v, op, args);
      }
    }

    /** The box behind a wire is one nothing folds. */
    lemma NodeIsUnfolded(v: ValId)
      requires Core() && v < |vals| && (vals[v].App? || vals[v].Proj?)
      ensures Box(vals[v].op, vals[v].args, |vals|) && Unfolded(vals, vals[v].op, vals[v].args)
    {
      assert vals[v].Below(v) && NodeUnfolded(vals, v);
    }

    /** A wire that is one of several outputs: its box run, unless a sibling has paid for it already. */
    method EnsureGroup(v: ValId, op: Op, args: seq<ValId>)
      requires Valid() && v < |vals| && vals[v].Proj? && vals[v].op == op && vals[v].args == args && v !in positions
      requires vals[v].Below(v) && forall k | 0 <= k < |args| :: Reads(vals, args[k], inputs)
      requires Some(Boxed(op, args)) !in made
      modifies this, terms
      ensures Valid() && terms.Grew() && Kept() && v in positions && NewBelow(old(made), made, v)
      ensures groups >= old(groups)
      ensures op.Call? && (forall k | 0 <= k < |args| :: Cart(vals, args[k])) ==> CallsOnly(old(made), made)
      decreases v, 2
    {
      hide Does; hide AllUnfolded; hide Unfolded; hide TreeAt; hide Ordered; hide Names; hide Accounts; hide Once;
      hide Placed; hide Complete; hide Reads; hide Cart;
      hide NewBelow; hide CallsOnly; hide OutNodes; hide Op.Effect; hide Box; hide All;
      GroupNotRun(v, op, args);
      NodeIsUnfolded(v);
      if (op, args) in groups {
        assert false;
      } else {
        EmitApplication(op, args, v);
        RegisterSiblings(v, op, args);
      }
    }

    /** A box whose outputs are not in the books has not run; its arguments come before them. */
    lemma GroupNotRun(v: ValId, op: Op, args: seq<ValId>)
      requires Valid() && v < |vals| && vals[v].Proj? && vals[v].op == op && vals[v].args == args
      requires vals[v].Below(v) && Some(Boxed(op, args)) !in made
      ensures (op, args) !in groups && Box(op, args, |vals|) && All(args, v) && op.Effect().outputs != 1
    {
      hide Does; hide AllUnfolded; hide Unfolded; hide TreeAt; hide Ordered; hide Names; hide Accounts; hide Once;
      hide Placed; hide Complete;
    }

    /** What is not in the books is not an input and has not been made. */
    lemma NotYetMade(v: ValId)
      requires Valid() && v < |vals| && v !in positions
      ensures vals[v].Var? ==> vals[v].i >= inputs
      ensures KeyOf(vals[v]).Some? ==> KeyOf(vals[v]) !in made
    {
    }

    lemma NothingNew(was: seq<Option<Key>>, bound: nat)
      ensures NewBelow(was, was, bound) && CallsOnly(was, was)
    {
    }

    method PushLiteral(v: ValId, x: Value)
      requires Valid() && v < |vals| && vals[v] == Lit(x) && Some(Pushed(x)) !in made && v !in positions
      modifies this, terms
      ensures Valid() && terms.Grew() && Kept() && v in positions && NewBelow(old(made), made, v)
      ensures groups >= old(groups)
    {
      hide Takes; hide Does; hide AllUnfolded; hide Unfolded; hide TreeAt; hide Ordered; hide Names; hide Accounts;
      hide Once; hide Tree.Effect;
      ghost var was := terms.terms;
      var step := terms.Push(Term.Op(Push(x)));
      NamesStay(was, terms.terms, steps, trees);
      StackOk();
      PushTakes(vals, inputs, stack, x);
      positions := positions[v := height];
      Step(step, height + 1, Some(Pushed(x)), stack + [Lit(x)]);
    }

    lemma StackOk()
      requires Core()
      ensures NodesOk(vals, stack)
    {
    }

    /** Runs a box that has not run: its outputs lie on top, and all else that is new are wires below `v`. */
    method EmitApplication(op: Op, args: seq<ValId>, ghost v: ValId)
      requires Valid() && v <= |vals| && Box(op, args, |vals|) && Unfolded(vals, op, args) && All(args, v)
      requires forall k | 0 <= k < |args| :: Reads(vals, args[k], inputs)
      requires Some(Boxed(op, args)) !in made
      modifies this, terms
      ensures Core() && Placed(vals, positions, stack) && terms.Grew() && Kept() && NewBelow(old(made), made, v)
      ensures made != [] && made[|made| - 1] == Some(Boxed(op, args))
      ensures Complete(vals, inputs, positions, made[..|made| - 1]) && Some(Boxed(op, args)) !in made[..|made| - 1]
      ensures groups >= old(groups) && forall g | g in groups :: Some(Boxed(g.0, g.1)) in made
      ensures height >= op.Effect().outputs && stack[height - op.Effect().outputs..] == OutNodes(op, args)
      ensures op.Call? && (forall k | 0 <= k < |args| :: Cart(vals, args[k])) ==> CallsOnly(old(made), made)
      decreases v, 1
    {
      hide Does; hide AllUnfolded; hide Unfolded; hide TreeAt; hide Ordered; hide Names; hide Accounts; hide Once;
      hide Complete; hide Placed; hide Reads; hide Cart;
      hide OutNodes; hide Op.Effect; hide Box;
      EnsureArgs(op, args, v);
      ghost var ensured := made;
      ApplyBox(op, args);
      NewBelowMore(old(made), ensured, made, v, v, v);
      if op.Call? && forall k | 0 <= k < |args| :: Cart(vals, args[k]) {
        CallsOnlyMore(old(made), ensured, made);
      }
    }

    method EnsureArgs(op: Op, args: seq<ValId>, ghost v: ValId)
      requires Valid() && v <= |vals| && All(args, v) && Some(Boxed(op, args)) !in made
      requires forall k | 0 <= k < |args| :: Reads(vals, args[k], inputs)
      modifies this, terms
      ensures Valid() && terms.Grew() && Kept() && NewBelow(old(made), made, v) && groups >= old(groups)
      ensures Some(Boxed(op, args)) !in made && forall k | 0 <= k < |args| :: args[k] in positions
      ensures (forall k | 0 <= k < |args| :: Cart(vals, args[k])) ==> CallsOnly(old(made), made)
      decreases v, 0
    {
      hide Does; hide AllUnfolded; hide Unfolded; hide TreeAt; hide Ordered; hide Names; hide Accounts; hide Once;
      hide Complete; hide Placed; hide Reads; hide Cart;
      hide NewBelow; hide CallsOnly;
      NothingNew(made, v);
      ghost var cart := forall k | 0 <= k < |args| :: Cart(vals, args[k]);
      for i := 0 to |args|
        invariant Valid() && terms.Grew() && Kept() && NewBelow(old(made), made, v) && groups >= old(groups)
        invariant Some(Boxed(op, args)) !in made
        invariant forall k | 0 <= k < i :: args[k] in positions
        invariant cart ==> CallsOnly(old(made), made)
      {
        ghost var before := made;
        Ensure(args[i]);
        if cart {
          CallsOnlyMore(old(made), before, made);
        }
        StillUnmade(before, made, args[i], Boxed(op, args));
        NewBelowMore(old(made), before, made, v, args[i], v);
      }
    }

    /** With the arguments in the books: a copy of each on top, and the box run on the copies. */
    method ApplyBox(op: Op, args: seq<ValId>)
      requires Valid() && Box(op, args, |vals|) && Unfolded(vals, op, args) && Some(Boxed(op, args)) !in made
      requires forall k | 0 <= k < |args| :: args[k] in positions
      modifies this, terms
      ensures Core() && Placed(vals, positions, stack) && terms.Grew() && positions == old(positions)
      ensures groups == old(groups)
      ensures old(stack) <= stack && made != [] && OnlyMoves(old(made), made[..|made| - 1])
      ensures made[|made| - 1] == Some(Boxed(op, args)) && Some(Boxed(op, args)) !in made[..|made| - 1]
      ensures old(made) <= made && forall v: nat | All(args, v) :: NewBelow(old(made), made, v)
      ensures Complete(vals, inputs, positions, made[..|made| - 1])
      ensures forall g | g in groups :: Some(Boxed(g.0, g.1)) in made
      ensures height >= op.Effect().outputs && stack[height - op.Effect().outputs..] == OutNodes(op, args)
      ensures op.Call? ==> CallsOnly(old(made), made)
    {
      hide Does; hide AllUnfolded; hide Unfolded; hide TreeAt; hide Ordered; hide Names; hide Accounts; hide Once;
      hide Complete; hide Placed;
      ghost var base := stack;
      FetchAll(args);
      MovesMakeNothing(old(made), made, 0);
      ghost var fetched := made;
      Apply(op, args, base);
      assert made[..|made| - 1] == fetched;
      PlacedBelow(vals, positions, base, OutNodes(op, args));
    }

    /** The `count` values between what is untouched at the bottom and what is wanted on top discarded. */
    method Discard(
      count: nat, wanted: nat, ghost below: seq<ValNode>, ghost work: seq<ValNode>, ghost kept: seq<ValNode>)
      requires Core() && stack == below + work + kept && count == |work| && wanted == |kept|
      modifies this, terms
      ensures Core() && terms.Grew() && stack == below + kept
      ensures OnlyMoves(old(made), made)
      ensures trees == if count == 0 then old(trees) else old(trees) + [Beneath(Tree.Drop(count), wanted)]
      ensures count > 0 && below == [] ==> PadFold(trees).Effect().inputs == inputs
    {
      hide Takes; hide Does; hide AllUnfolded; hide Unfolded; hide TreeAt; hide Ordered; hide Tree.Effect;
      hide Names; hide Once; hide Accounts;
      if count == 0 {
        assert below + work + kept == below + kept;
        return;
      }
      ghost var was := terms.terms;
      var drop := terms.Push(Term.Drop(count));
      var step := Beside(drop, wanted);
      NamesStay(was, terms.terms, steps, trees);
      StackOk();
      SplitThree(below, work, kept);
      DropTakes(vals, inputs, work, kept, below);
      DropIsWiring(count, wanted);
      Step(step, height - count, None, below + kept);
    }

    lemma SplitThree(below: seq<ValNode>, work: seq<ValNode>, kept: seq<ValNode>)
      requires NodesOk(vals, stack) && stack == below + work + kept
      ensures NodesOk(vals, below) && NodesOk(vals, work) && NodesOk(vals, kept)
    {
      forall k | 0 <= k < |below| ensures below[k].Below(|vals|) { assert stack[k] == below[k]; }
      forall k | 0 <= k < |work| ensures work[k].Below(|vals|) { assert stack[|below| + k] == work[k]; }
      forall k | 0 <= k < |kept| ensures kept[k].Below(|vals|) { assert stack[|below| + |work| + k] == kept[k]; }
    }

    method EnsureAll(vs: seq<ValId>)
      requires Valid() && All(vs, |vals|) && forall k | 0 <= k < |vs| :: Reads(vals, vs[k], inputs)
      modifies this, terms
      ensures Valid() && terms.Grew() && Kept() && forall k | 0 <= k < |vs| :: vs[k] in positions
      ensures vs == [] ==> trees == old(trees) && stack == old(stack)
      ensures AllCart(vals, vs) ==> CallsOnly(old(made), made)
    {
      hide Does; hide AllUnfolded; hide Unfolded; hide TreeAt; hide Ordered; hide Complete; hide Names; hide Reads;
      hide Accounts; hide Once; hide Placed; hide Cart;
      ghost var cart := AllCart(vals, vs);
      for k := 0 to |vs|
        invariant Valid() && terms.Grew() && Kept() && forall j | 0 <= j < k :: vs[j] in positions
        invariant k == 0 ==> trees == old(trees) && stack == old(stack)
        invariant cart ==> CallsOnly(old(made), made)
      {
        ghost var before := made;
        Ensure(vs[k]);
        if cart {
          CallsOnlyMore(old(made), before, made);
        }
      }
    }

    /** Nothing wanted can only lie on an empty stack if nothing is wanted. */
    lemma WantedLies(vs: seq<ValId>)
      requires Valid() && forall k | 0 <= k < |vs| :: vs[k] in positions
      ensures vs != [] ==> stack != []
    {
      assert vs != [] ==> positions[vs[0]] < |stack|;
    }

    lemma Books()
      requires Core()
      ensures Names(terms.terms, steps, trees) && ComputedOnce(trees, made) && Does(vals, inputs, trees, stack)
    {
    }

    method FetchAll(args: seq<ValId>)
      requires Valid() && forall k | 0 <= k < |args| :: args[k] in positions
      modifies this, terms
      ensures Valid() && terms.Grew() && Kept() && All(args, |vals|) && stack == old(stack) + ArgNodes(vals, args)
      ensures positions == old(positions) && groups == old(groups) && OnlyMoves(old(made), made)
      ensures args == [] ==> trees == old(trees)
    {
      hide Does; hide AllUnfolded; hide Unfolded; hide TreeAt; hide Ordered; hide Names; hide Accounts; hide Once;
      hide Complete;
      assert All(args, |vals|);
      for i := 0 to |args|
        invariant Valid() && terms.Grew() && positions == old(positions) && groups == old(groups)
        invariant OnlyMoves(old(made), made) && stack == old(stack) + ArgNodes(vals, args)[..i]
        invariant i == 0 ==> trees == old(trees)
      {
        Fetch(args[i]);
        assert ArgNodes(vals, args)[..i + 1] == ArgNodes(vals, args)[..i] + [vals[args[i]]];
      }
    }

    /** The box itself: its arguments on top give way to its outputs. */
    method Apply(op: Op, args: seq<ValId>, ghost base: seq<ValNode>)
      requires Valid() && Box(op, args, |vals|) && Unfolded(vals, op, args) && Some(Boxed(op, args)) !in made
      requires stack == base + ArgNodes(vals, args)
      modifies this, terms
      ensures Core() && terms.Grew() && stack == base + OutNodes(op, args)
      ensures positions == old(positions) && groups == old(groups) && made == old(made) + [Some(Boxed(op, args))]
    {
      hide Takes; hide Does; hide AllUnfolded; hide Unfolded; hide TreeAt; hide Ordered; hide Names; hide Accounts;
      hide Once; hide Complete; hide Placed;
      ghost var was := terms.terms;
      var step;
      match op {
        case Prim(p) => step := terms.Push(Term.Op(p));
        case Call(target, arity) => step := terms.Push(Term.Call(target, arity));
      }
      NamesStay(was, terms.terms, steps, trees);
      StackOk();
      assert NodesOk(vals, base) by {
        forall k | 0 <= k < |base| ensures base[k].Below(|vals|) { assert stack[k] == base[k]; }
      }
      BoxTakes(vals, inputs, base, op, args);
      Step(step, height - op.Effect().inputs + op.Effect().outputs, Some(Boxed(op, args)), base + OutNodes(op, args));
    }

    /** A box with one output is one wire. */
    method RegisterOne(v: ValId, op: Op, args: seq<ValId>)
      requires Core() && Placed(vals, positions, stack) && v < |vals| && vals[v] == App(op, args)
      requires made != [] && made[|made| - 1] == Some(Boxed(op, args)) && Some(Boxed(op, args)) !in made[..|made| - 1]
      requires Complete(vals, inputs, positions, made[..|made| - 1])
      requires forall g | g in groups :: Some(Boxed(g.0, g.1)) in made
      requires height >= op.Effect().outputs && stack[height - op.Effect().outputs..] == OutNodes(op, args)
      modifies `positions
      ensures Valid() && v in positions && forall u | u in old(positions) ::
        u in positions && positions[u] == old(positions)[u]
    {
      hide Does; hide AllUnfolded; hide Unfolded; hide Names; hide Accounts; hide Once; hide Complete; hide Placed;
      ghost var was := made[..|made| - 1];
      OneWire(v, op, args);
      NotBooked(positions, was, v);
      PlacedOne(vals, positions, stack, v, height - 1);
      InBounds(positions, was);
      CompleteAgain(vals, inputs, positions, positions[v := height - 1], was, Boxed(op, args));
      assert made == was + [Some(Boxed(op, args))];
      positions := positions[v := height - 1];
    }

    lemma OneWire(v: ValId, op: Op, args: seq<ValId>)
      requires Core() && v < |vals| && vals[v] == App(op, args)
      requires height >= op.Effect().outputs && stack[height - op.Effect().outputs..] == OutNodes(op, args)
      ensures height > 0 && stack[height - 1] == vals[v]
      ensures forall u: ValId | u < |vals| && KeyOf(vals[u]) == Some(Boxed(op, args)) :: u == v
    {
      hide Does; hide AllUnfolded; hide Unfolded; hide Names; hide Accounts; hide Once;
      assert vals[v].Below(v);
      assert stack[height - 1] == stack[height - 1..][0] == App(op, args);
      forall u: ValId | u < |vals| && KeyOf(vals[u]) == Some(Boxed(op, args)) ensures u == v {
        assert vals[u].Below(u);
        assert interned[vals[u]] == u;
      }
    }

    lemma InBounds(books: map<ValId, nat>, was: seq<Option<Key>>)
      requires Complete(vals, inputs, books, was)
      ensures forall u | u in books :: u < |vals|
    {
    }

    lemma NotBooked(books: map<ValId, nat>, was: seq<Option<Key>>, u: ValId)
      requires Complete(vals, inputs, books, was) && u < |vals| && KeyOf(vals[u]).Some? && KeyOf(vals[u]) !in was
      ensures u !in books
    {
    }

    /** Every output of a box that the arena has a wire for. */
    method RegisterSiblings(v: ValId, op: Op, args: seq<ValId>)
      requires Core() && Placed(vals, positions, stack) && v < |vals| && vals[v].Proj? && vals[v].op == op
      requires vals[v].args == args
      requires op.Effect().outputs != 1
      requires made != [] && made[|made| - 1] == Some(Boxed(op, args)) && Some(Boxed(op, args)) !in made[..|made| - 1]
      requires Complete(vals, inputs, positions, made[..|made| - 1])
      requires forall g | g in groups :: Some(Boxed(g.0, g.1)) in made
      requires height >= op.Effect().outputs && stack[height - op.Effect().outputs..] == OutNodes(op, args)
      modifies `positions, `groups
      ensures Valid() && groups == old(groups) + {(op, args)} && v in positions && forall u | u in old(positions) ::
        u in positions && positions[u] == old(positions)[u]
    {
      hide Does; hide AllUnfolded; hide Unfolded; hide Names; hide Accounts; hide Once; hide Complete; hide TreeAt;
      hide Ordered; hide OutNodes;
      groups := groups + {(op, args)};
      ghost var was := made[..|made| - 1];
      NoneBooked(positions, was, Boxed(op, args));
      var booked := BookSiblings(op, args);
      AllSiblings(op, args, v, booked);
      CompleteAgain(vals, inputs, positions, booked, was, Boxed(op, args));
      assert made == was + [Some(Boxed(op, args))];
      positions := booked;
    }

    lemma NoneBooked(books: map<ValId, nat>, was: seq<Option<Key>>, key: Key)
      requires Complete(vals, inputs, books, was) && Some(key) !in was
      ensures forall u: ValId | u < |vals| && KeyOf(vals[u]) == Some(key) :: u !in books
    {
    }

    method BookSiblings(op: Op, args: seq<ValId>) returns (booked: map<ValId, nat>)
      requires forall n | n in interned :: interned[n] < |vals| && vals[interned[n]] == n
      requires Placed(vals, positions, stack) && height == |stack|
      requires height >= op.Effect().outputs && stack[height - op.Effect().outputs..] == OutNodes(op, args)
      requires op.Effect().outputs != 1
      requires forall u: ValId | u < |vals| && KeyOf(vals[u]) == Some(Boxed(op, args)) :: u !in positions
      ensures Placed(vals, booked, stack)
      ensures forall u | u in positions :: u in booked && booked[u] == positions[u]
      ensures forall u | u in booked :: u < |vals| && (u in positions || KeyOf(vals[u]) == Some(Boxed(op, args)))
      ensures forall k | 0 <= k < op.Effect().outputs && Proj(k, op, args) in interned ::
        interned[Proj(k, op, args)] in booked
    {
      hide Op.Effect;
      var outputs := op.Effect().outputs;
      booked := positions;
      for index := 0 to outputs
        invariant Placed(vals, booked, stack)
        invariant forall u | u in positions :: u in booked && booked[u] == positions[u]
        invariant forall u | u in booked :: u < |vals| && (u in positions || KeyOf(vals[u]) == Some(Boxed(op, args)))
        invariant forall k | 0 <= k < index && Proj(k, op, args) in interned :: interned[Proj(k, op, args)] in booked
      {
        var sibling := Proj(index, op, args);
        if sibling in interned {
          assert stack[height - outputs + index] == stack[height - outputs..][index] == sibling;
          booked := booked[interned[sibling] := height - outputs + index];
        }
      }
    }

    lemma AllSiblings(op: Op, args: seq<ValId>, v: ValId, booked: map<ValId, nat>)
      requires Core() && v < |vals| && vals[v].Proj? && vals[v].op == op && vals[v].args == args
      requires forall k | 0 <= k < op.Effect().outputs && Proj(k, op, args) in interned ::
        interned[Proj(k, op, args)] in booked
      ensures forall u: ValId | u < |vals| && KeyOf(vals[u]) == Some(Boxed(op, args)) :: u in booked
    {
      assert vals[v].Below(v);
      forall u: ValId | u < |vals| && KeyOf(vals[u]) == Some(Boxed(op, args)) ensures u in booked {
        assert vals[u].Below(u);
        assert interned[vals[u]] == u;
      }
    }
  }

  // ---- reading a diagram back ----

  /** A well-formed term of exactly the stated arity that computes what the diagram does. */
  ghost predicate Spells(a: Arena, t: Tree, d: DiagId, inputs: nat)
    requires a.Ok() && d < |a.diags|
  {
    && t.Ok() && t.Effect() == Arity(inputs, Wires.Width(a.diags, d))
    && forall w: World | |w.env| == inputs :: Run(t, w.calls, w.env) == Diag(a, d, w)
  }

  /** The path has settled none of these conditions. */
  predicate Undecided(path: Path, conds: set<ValId>) {
    forall c | c in conds :: Decided(path, c).None?
  }

  /** However the arena grows, and whatever else a path has settled, the term can only come out as `d`. */
  ghost predicate Resettles(a: Arena, t: Tree, d: DiagId)
    requires a.Ok() && d < |a.diags|
  {
    forall b: Arena, stack: seq<ValId>, path: Path {:trigger Repeats(b, t, stack, path, d)} |
      b.Ok() && Extends(a, b) && |stack| == t.Effect().inputs && InputWires(b.vals, stack)
      && Undecided(path, Tests(a.diags, d)) :: Repeats(b, t, stack, path, d)
  }

  /** The books of one schedule: nothing is computed twice, and what is not computed is only moved. */
  ghost predicate ComputedOnce(trees: seq<Tree>, made: seq<Option<Key>>) {
    Accounts(trees, made) && Once(made)
  }

  /** One term for the whole run, `PadFold` of the steps, or `id(0)` if there are none. */
  method FoldSteps(terms: Context, steps: seq<TermIndex>, ghost trees: seq<Tree>) returns (i: TermIndex)
    requires terms.Valid() && Names(terms.terms, steps, trees)
    modifies terms
    ensures terms.Grew() && terms.Has(i)
    ensures terms.At(i) == if trees == [] then Tree.Id(0) else PadFold(trees)
  {
    hide TreeAt; hide Ordered; hide Composed;
    if steps == [] {
      i := terms.Push(Term.Id(0));
      return;
    }
    i := steps[0];
    assert trees[..1] == [trees[0]];
    ghost var was := terms.terms;
    for k := 1 to |steps|
      invariant terms.Grew() && terms.Has(i) && Names(terms.terms, steps, trees) && terms.At(i) == PadFold(trees[..k])
    {
      assert trees[..k + 1][..k] == trees[..k];
      ghost var before := terms.terms;
      i := terms.PadCompose(i, steps[k]);
      NamesStay(before, terms.terms, steps, trees);
    }
    assert trees[..|steps|] == trees;
  }

  /** The wires of a leaf computed, fetched in order, and everything under them dropped. */
  method ScheduleLeaf(ctx: Ctx, terms: Context, vs: seq<ValId>, inputs: nat)
    returns (steps: seq<TermIndex>, ghost trees: seq<Tree>, ghost made: seq<Option<Key>>)
    requires ctx.Valid() && terms.Valid() && All(vs, |ctx.vals|)
    requires forall k | 0 <= k < |vs| :: Reads(ctx.vals, vs[k], inputs)
    modifies terms
    ensures terms.Grew() && Names(terms.terms, steps, trees) && ComputedOnce(trees, made)
    ensures trees == [] ==> inputs == 0 && vs == []
    ensures trees != [] ==> PadFold(trees).Effect().inputs == inputs
    ensures trees != [] ==> Does(ctx.vals, inputs, trees, ArgNodes(ctx.vals, vs))
    ensures AllCart(ctx.vals, vs) ==> CallsOnly([], made)
  {
    hide Does; hide AllUnfolded; hide Unfolded; hide TreeAt; hide Ordered; hide Complete; hide Names; hide Reads;
    hide Tree.Effect; hide Accounts; hide Once; hide Placed;
    hide ComputedOnce; hide PadFold;
    var schedule := NewSchedule(ctx, terms, inputs);
    schedule.EnsureAll(vs);
    schedule.WantedLies(vs);
    ghost var work, ensured := schedule.stack, schedule.made;
    FinishLeaf(schedule, vs, work);
    MovesCallNothing(ensured, schedule.made);
    if AllCart(ctx.vals, vs) {
      CallsOnlyMore([], ensured, schedule.made);
    }
    schedule.Books();
    steps, trees, made := schedule.steps, schedule.trees, schedule.made;
  }

  method NewSchedule(ctx: Ctx, terms: Context, inputs: nat) returns (schedule: Schedule)
    requires ctx.Valid() && terms.Valid()
    ensures fresh(schedule) && schedule.Valid() && schedule.vals == ctx.vals && schedule.terms == terms
    ensures schedule.inputs == inputs
    ensures schedule.trees == [] && schedule.stack == InputNodes(inputs) && schedule.made == []
  {
    hide Does; hide AllUnfolded; hide Unfolded; hide TreeAt; hide Ordered; hide Complete; hide Names; hide Accounts;
    hide Once; hide Placed;
    schedule := new Schedule(ctx.vals, ctx.valsInterned, terms, inputs);
  }

  method FinishLeaf(schedule: Schedule, vs: seq<ValId>, ghost work: seq<ValNode>)
    requires schedule.Valid() && All(vs, |schedule.vals|) && forall k | 0 <= k < |vs| :: vs[k] in schedule.positions
    requires schedule.stack == work
    modifies schedule, schedule.terms
    ensures schedule.Core() && schedule.terms.Grew() && schedule.stack == ArgNodes(schedule.vals, vs)
    ensures OnlyMoves(old(schedule.made), schedule.made)
    ensures work != [] ==> schedule.trees != [] && PadFold(schedule.trees).Effect().inputs == schedule.inputs
    ensures work == [] && vs == [] ==> schedule.trees == old(schedule.trees)
  {
    hide Does; hide AllUnfolded; hide Unfolded; hide TreeAt; hide Ordered; hide Complete; hide Names;
    hide Tree.Effect; hide Accounts; hide Once; hide Placed;
    ghost var kept := ArgNodes(schedule.vals, vs);
    schedule.FetchAll(vs);
    assert schedule.stack == [] + work + kept && [] + kept == kept;
    schedule.Discard(schedule.height - |vs|, |vs|, [], work, kept);
  }

  /** Steps that leave the inputs as they were and `cond` above them, and nothing else. */
  method ScheduleCondition(ctx: Ctx, terms: Context, cond: ValId, inputs: nat)
    returns (steps: seq<TermIndex>, ghost trees: seq<Tree>, ghost made: seq<Option<Key>>)
    requires ctx.Valid() && terms.Valid() && cond < |ctx.vals| && Reads(ctx.vals, cond, inputs)
    modifies terms
    ensures terms.Grew() && Names(terms.terms, steps, trees) && ComputedOnce(trees, made) && trees != []
    ensures Does(ctx.vals, inputs, trees, InputNodes(inputs) + [ctx.vals[cond]])
  {
    hide Does; hide AllUnfolded; hide Unfolded; hide TreeAt; hide Ordered; hide Complete; hide Names; hide Reads;
    hide Tree.Effect; hide Accounts; hide Once; hide Placed;
    hide ComputedOnce; hide PadFold; hide Composed;
    var schedule := NewSchedule(ctx, terms, inputs);
    schedule.Ensure(cond);
    ghost var work := schedule.stack[inputs..];
    assert schedule.stack == InputNodes(inputs) + work;
    schedule.Fetch(cond);
    schedule.Discard(schedule.height - inputs - 1, 1, InputNodes(inputs), work, [ctx.vals[cond]]);
    schedule.Books();
    steps, trees, made := schedule.steps, schedule.trees, schedule.made;
  }

  /** The diagram as a term: a leaf is a schedule, a decision the condition's schedule and a branch. */
  method Reify(ctx: Ctx, terms: Context, d: DiagId, inputs: nat) returns (i: TermIndex)
    requires ctx.Valid() && terms.Valid() && d < |ctx.diags| && DiagReads(ctx.A(), d, inputs)
    modifies terms
    ensures terms.Grew() && terms.Has(i) && Spells(ctx.A(), terms.At(i), d, inputs)
    ensures PlainDiag(ctx.A(), d) ==> Resettles(ctx.A(), terms.At(i), d)
    ensures CartLeaf(ctx.A(), d) ==> terms.At(i).Cartesian()
    decreases d, 1
  {
    hide PlainDiag; hide Does; hide AllUnfolded; hide Unfolded; hide TreeAt; hide Ordered; hide Names; hide Reads;
    hide ComputedOnce; hide Tree.Effect; hide Spells; hide Resettles;
    assert ctx.diags[d].Below(d, |ctx.vals|);
    match ctx.diags[d] {
      case Leaf(vs) =>
        i := ReifyLeaf(ctx, terms, d, vs, inputs);
      case Branch(cond, ifTrue, ifFalse) =>
        i := ReifyBranch(ctx, terms, d, cond, ifTrue, ifFalse, inputs);
    }
  }

  method ReifyBranch(
    ctx: Ctx, terms: Context, ghost d: DiagId, cond: ValId, ifTrue: DiagId, ifFalse: DiagId, inputs: nat)
    returns (i: TermIndex)
    requires ctx.Valid() && terms.Valid() && d < |ctx.diags| && ctx.diags[d] == DiagNode.Branch(cond, ifTrue, ifFalse)
    requires ctx.diags[d].Below(d, |ctx.vals|) && Reads(ctx.vals, cond, inputs)
    requires DiagReads(ctx.A(), ifTrue, inputs) && DiagReads(ctx.A(), ifFalse, inputs)
    modifies terms
    ensures terms.Grew() && terms.Has(i) && Spells(ctx.A(), terms.At(i), d, inputs)
    ensures PlainDiag(ctx.A(), d) ==> Resettles(ctx.A(), terms.At(i), d)
    decreases d, 0
  {
    hide PlainDiag; hide Does; hide AllUnfolded; hide Unfolded; hide TreeAt; hide Ordered; hide Names; hide Reads;
    hide ComputedOnce; hide Tree.Effect; hide Spells; hide Resettles; hide DiagReads; hide Arena.Ok;
    hide StraightAll; hide ctx.MemosRight; hide ctx.Interned; hide ctx.AskedOk; hide NodesSorted; hide Tests;
    hide Diag;
    var steps, trees, made := ScheduleCondition(ctx, terms, cond, inputs);
    ghost var was := terms.terms;
    var yes := Reify(ctx, terms, ifTrue, inputs);
    ghost var thenArm := terms.At(yes);
    var no := Reify(ctx, terms, ifFalse, inputs);
    assert terms.At(yes) == thenArm;
    NamesStay(was, terms.terms, steps, trees);
    StepsAreStraight(trees, made);
    i := JoinArms(ctx, terms, d, inputs, steps, trees, yes, no);
  }

  method ReifyLeaf(ctx: Ctx, terms: Context, ghost d: DiagId, vs: seq<ValId>, inputs: nat) returns (i: TermIndex)
    requires ctx.Valid() && terms.Valid() && d < |ctx.diags| && ctx.diags[d] == Leaf(vs) && All(vs, |ctx.vals|)
    requires forall k | 0 <= k < |vs| :: Reads(ctx.vals, vs[k], inputs)
    modifies terms
    ensures terms.Grew() && terms.Has(i) && Spells(ctx.A(), terms.At(i), d, inputs)
    ensures PlainDiag(ctx.A(), d) ==> Resettles(ctx.A(), terms.At(i), d)
    ensures AllCart(ctx.vals, vs) ==> terms.At(i).Cartesian()
  {
    hide PlainDiag; hide Does; hide AllUnfolded; hide Unfolded; hide TreeAt; hide Ordered; hide Names; hide Reads;
    hide ComputedOnce; hide Tree.Effect; hide Spells; hide Resettles; hide AllCart;
    hide CallsOnly;
    var steps, trees, made := ScheduleLeaf(ctx, terms, vs, inputs);
    i := FoldSteps(terms, steps, trees);
    LeafSpelled(ctx.A(), d, inputs, trees);
    StepsAreStraight(trees, made);
    LeafResettles(ctx.A(), d, inputs, trees);
    if AllCart(ctx.vals, vs) && trees != [] {
      CartesianFold(trees, made);
    }
  }

  /** The branch on two finished arms, after the condition's steps. */
  method JoinArms(
    ctx: Ctx, terms: Context, ghost d: DiagId, ghost inputs: nat, steps: seq<TermIndex>, ghost trees: seq<Tree>,
    yes: TermIndex, no: TermIndex)
    returns (i: TermIndex)
    requires ctx.Valid() && terms.Valid() && terms.Has(yes) && terms.Has(no)
    requires d < |ctx.diags| && ctx.diags[d].Branch? && ctx.diags[d].Below(d, |ctx.vals|)
    requires Names(terms.terms, steps, trees) && trees != []
    requires Does(ctx.vals, inputs, trees, InputNodes(inputs) + [ctx.vals[ctx.diags[d].cond]])
    requires Spells(ctx.A(), terms.At(yes), ctx.diags[d].ifTrue, inputs)
    requires Spells(ctx.A(), terms.At(no), ctx.diags[d].ifFalse, inputs)
    requires PlainDiag(ctx.A(), ctx.diags[d].ifTrue) ==> Resettles(ctx.A(), terms.At(yes), ctx.diags[d].ifTrue)
    requires PlainDiag(ctx.A(), ctx.diags[d].ifFalse) ==> Resettles(ctx.A(), terms.At(no), ctx.diags[d].ifFalse)
    requires StraightAll(trees)
    modifies terms
    ensures terms.Grew() && terms.Has(i) && Spells(ctx.A(), terms.At(i), d, inputs)
    ensures PlainDiag(ctx.A(), d) ==> Resettles(ctx.A(), terms.At(i), d)
  {
    hide PlainDiag; hide Does; hide AllUnfolded; hide Unfolded; hide TreeAt; hide Ordered; hide Names;
    hide Tree.Effect; hide Spells; hide Resettles; hide Arena.Ok; hide StraightAll;
    ghost var (t, f) := (terms.At(yes), terms.At(no));
    ArmsShareAWidth(ctx.A(), d, inputs, t, f);
    ghost var was := terms.terms;
    var branch := terms.Branch(yes, no);
    NamesStay(was, terms.terms, steps, trees);
    OneName(terms, branch.value);
    NamesJoin(terms.terms, steps, [branch.value], trees, [Tree.Branch(t, f)]);
    i := FoldSteps(terms, steps + [branch.value], trees + [Tree.Branch(t, f)]);
    BranchSpelled(ctx.A(), d, inputs, trees, t, f);
    if PlainDiag(ctx.A(), d) {
      ctx.AllDistinct();
      BranchResettles(ctx.A(), d, inputs, trees, t, f);
    }
  }

  lemma OneName(terms: Context, i: TermIndex)
    requires terms.Valid() && terms.Has(i)
    ensures Names(terms.terms, [i], [terms.At(i)])
  {
  }

  lemma ArmsShareAWidth(a: Arena, d: DiagId, inputs: nat, yes: Tree, no: Tree)
    requires a.Ok() && d < |a.diags| && a.diags[d].Branch? && a.diags[d].Below(d, |a.vals|)
    requires Spells(a, yes, a.diags[d].ifTrue, inputs) && Spells(a, no, a.diags[d].ifFalse, inputs)
    ensures yes.Effect() == no.Effect()
  {
    hide Tree.Effect; hide Tree.Ok; hide Run; hide Diag;
  }

  lemma LeafSpelled(a: Arena, d: DiagId, inputs: nat, trees: seq<Tree>)
    requires a.Ok() && d < |a.diags| && a.diags[d].Leaf?
    requires trees == [] ==> inputs == 0 && a.diags[d].vals == []
    requires trees != [] ==> PadFold(trees).Effect().inputs == inputs
    requires All(a.diags[d].vals, |a.vals|)
    requires trees != [] ==> Does(a.vals, inputs, trees, ArgNodes(a.vals, a.diags[d].vals))
    ensures Spells(a, if trees == [] then Tree.Id(0) else PadFold(trees), d, inputs)
  {
    hide Tree.Effect; hide Tree.Ok; hide PadFold; hide Retraces;
    var vs := a.diags[d].vals;
    if trees == [] {
      EmptySpelled(a, d);
    } else {
      var t := PadFold(trees);
      forall w: World | |w.env| == inputs ensures Run(t, w.calls, w.env) == Diag(a, d, w) {
        ArgsCarry(a.vals, vs, w);
        WholeRun(t, w.calls, w.env);
      }
    }
  }

  lemma EmptySpelled(a: Arena, d: DiagId)
    requires a.Ok() && d < |a.diags| && a.diags[d] == Leaf([])
    ensures Spells(a, Tree.Id(0), d, 0)
  {
  }

  lemma WholeRun(t: Tree, calls: Interp, s: seq<Value>)
    requires t.Ok() && |s| == t.Effect().inputs
    ensures RunOn(t, calls, s) == Run(t, calls, s)
  {
    RunOnSplit(t, calls, [], s);
    assert [] + s == s && [] + Run(t, calls, s) == Run(t, calls, s);
  }

  /** The condition's value read off the top, and one arm run on the inputs beneath it. */
  lemma BranchSpelled(a: Arena, d: DiagId, inputs: nat, trees: seq<Tree>, yes: Tree, no: Tree)
    requires a.Ok() && d < |a.diags| && a.diags[d].Branch? && a.diags[d].Below(d, |a.vals|) && trees != []
    requires Does(a.vals, inputs, trees, InputNodes(inputs) + [a.vals[a.diags[d].cond]])
    requires Spells(a, yes, a.diags[d].ifTrue, inputs) && Spells(a, no, a.diags[d].ifFalse, inputs)
    ensures Spells(a, PadFold(trees + [Tree.Branch(yes, no)]), d, inputs)
  {
    hide Tree.Effect; hide Tree.Ok; hide Run; hide Composed; hide PadFold;
    var fork, before := Tree.Branch(yes, no), PadFold(trees);
    var cond := a.diags[d].cond;
    BranchShape(yes, no);
    FoldOneMore(trees, fork);
    ComposedNet(before, fork, inputs);
    var t := Composed(before, fork);
    forall w: World | |w.env| == inputs ensures Run(t, w.calls, w.env) == Diag(a, d, w) {
      InputsLie(a.vals, inputs, w);
      WireVal(a.vals, cond, w);
      NodeValsJoin(a.vals, InputNodes(inputs), [a.vals[cond]], w);
      assert NodeVals(a.vals, [a.vals[cond]], w) == [Val(a.vals, cond, w)];
      ComposedRuns(before, fork, w.calls, w.env);
      WholeRun(t, w.calls, w.env);
      WholeRun(fork, w.calls, w.env + [Val(a.vals, cond, w)]);
      Terms.BranchRuns(yes, no, w.calls, w.env, Val(a.vals, cond, w));
    }
  }

  lemma FoldOneMore(trees: seq<Tree>, t: Tree)
    requires trees != []
    ensures PadFold(trees + [t]) == Composed(PadFold(trees), t)
  {
    assert (trees + [t])[..|trees|] == trees;
  }

  // ---- normalizing what was spelled ----

  predicate StraightAll(trees: seq<Tree>) {
    forall k | 0 <= k < |trees| :: Straight(trees[k])
  }

  /** Steps move what there is, push a literal or run a box: none of them branches. */
  lemma StepsAreStraight(trees: seq<Tree>, made: seq<Option<Key>>)
    requires ComputedOnce(trees, made)
    ensures StraightAll(trees)
  {
    forall k | 0 <= k < |trees| ensures Straight(trees[k]) {
      if made[k].None? {
        WiringIsStraight(trees[k]);
      }
    }
  }

  lemma WiringIsStraight(t: Tree)
    requires Wiring(t)
    ensures Straight(t)
  {
  }

  lemma {:induction false} FoldIsStraight(trees: seq<Tree>)
    requires trees != [] && StraightAll(trees)
    ensures Straight(PadFold(trees))
    decreases |trees|
  {
    var last := |trees| - 1;
    if last > 0 {
      FoldIsStraight(trees[..last]);
    }
  }

  /** Steps that take the inputs to these wires can, run again, only land on these wires. */
  lemma StepsLandOnly(a: Arena, b: Arena, t: Tree, stack: seq<ValId>, nodes: seq<ValNode>, out: seq<ValId>)
    requires a.Ok() && b.Ok() && Extends(a, b) && InputWires(b.vals, stack) && |stack| == t.Effect().inputs
    requires Retraces(a.vals, t, InputNodes(|stack|), nodes) && Lie(b.vals, out, nodes)
    ensures LandsOnly(b.vals, t, stack, out)
  {
    hide Lands;
    forall more: seq<ValNode>, o: seq<ValId> {:trigger Lands(more, t, stack, o)} |
      GrowsInto(b.vals, more) && Lands(more, t, stack, o)
      ensures o == out
    {
      assert GrowsInto(a.vals, more);
      LandsWhole(more, t, stack, o);
      assert Lie(more, stack, InputNodes(|stack|));
      assert Lie(more, o, nodes);
      forall k | 0 <= k < |out| ensures o[k] == out[k] {
        assert more[o[k]] == nodes[k] == b.vals[out[k]] == more[out[k]];
      }
    }
  }

  lemma LeafResettles(a: Arena, d: DiagId, inputs: nat, trees: seq<Tree>)
    requires a.Ok() && d < |a.diags| && a.diags[d].Leaf? && All(a.diags[d].vals, |a.vals|) && StraightAll(trees)
    requires trees == [] ==> inputs == 0 && a.diags[d].vals == []
    requires trees != [] ==> PadFold(trees).Effect().inputs == inputs
    requires trees != [] ==> Does(a.vals, inputs, trees, ArgNodes(a.vals, a.diags[d].vals))
    ensures Resettles(a, if trees == [] then Tree.Id(0) else PadFold(trees), d)
  {
    hide *;
    if trees == [] {
      EmptyResettles(a, d);
    } else {
      DoesRetraces(a.vals, inputs, trees, ArgNodes(a.vals, a.diags[d].vals));
      FoldIsStraight(trees);
      StraightResettles(a, d, PadFold(trees));
    }
  }

  lemma DoesRetraces(vals: seq<ValNode>, inputs: nat, trees: seq<Tree>, stack: seq<ValNode>)
    requires trees != [] && Does(vals, inputs, trees, stack)
    ensures Retraces(vals, PadFold(trees), InputNodes(inputs), stack)
  {
    hide Retraces; hide PadFold; hide RunOn; hide NodeVals;
  }

  lemma EmptyResettles(a: Arena, d: DiagId)
    requires a.Ok() && d < |a.diags| && a.diags[d] == Leaf([])
    ensures Resettles(a, Tree.Id(0), d)
  {
    hide LandsOnly;
    forall b: Arena, stack: seq<ValId>, path: Path {:trigger Repeats(b, Tree.Id(0), stack, path, d)} |
      b.Ok() && Extends(a, b) && |stack| == Tree.Id(0).Effect().inputs && InputWires(b.vals, stack)
      && Undecided(path, Tests(a.diags, d))
      ensures Repeats(b, Tree.Id(0), stack, path, d)
    {
      assert b.diags[d] == a.diags[d];
      NothingLands(b.vals, stack);
    }
  }

  lemma StraightResettles(a: Arena, d: DiagId, t: Tree)
    requires a.Ok() && d < |a.diags| && a.diags[d].Leaf? && All(a.diags[d].vals, |a.vals|) && Straight(t)
    requires Retraces(a.vals, t, InputNodes(t.Effect().inputs), ArgNodes(a.vals, a.diags[d].vals))
    ensures Resettles(a, t, d)
  {
    hide Tree.Effect; hide LandsOnly; hide Retraces; hide Straight;
    var vs := a.diags[d].vals;
    forall b: Arena, stack: seq<ValId>, path: Path {:trigger Repeats(b, t, stack, path, d)} |
      b.Ok() && Extends(a, b) && |stack| == t.Effect().inputs && InputWires(b.vals, stack)
      && Undecided(path, Tests(a.diags, d))
      ensures Repeats(b, t, stack, path, d)
    {
      assert b.diags[d] == a.diags[d];
      assert Lie(b.vals, vs, ArgNodes(a.vals, vs));
      StepsLandOnly(a, b, t, stack, ArgNodes(a.vals, vs), vs);
    }
  }

  lemma NothingLands(vals: seq<ValNode>, stack: seq<ValId>)
    ensures |stack| == Tree.Id(0).Effect().inputs ==> LandsOnly(vals, Tree.Id(0), stack, [])
  {
  }

  /** The condition's wire on the inputs, and the fork on it: each arm is reached with the condition just settled. */
  lemma BranchResettles(a: Arena, d: DiagId, inputs: nat, trees: seq<Tree>, yes: Tree, no: Tree)
    requires a.Ok() && Distinct(a.vals) && NodesSorted(a) && d < |a.diags| && a.diags[d].Branch?
    requires a.diags[d].Below(d, |a.vals|)
    requires trees != [] && StraightAll(trees) && PlainDiag(a, d)
    requires Does(a.vals, inputs, trees, InputNodes(inputs) + [a.vals[a.diags[d].cond]])
    requires Spells(a, yes, a.diags[d].ifTrue, inputs) && Spells(a, no, a.diags[d].ifFalse, inputs)
    requires PlainDiag(a, a.diags[d].ifTrue) ==> Resettles(a, yes, a.diags[d].ifTrue)
    requires PlainDiag(a, a.diags[d].ifFalse) ==> Resettles(a, no, a.diags[d].ifFalse)
    ensures Resettles(a, PadFold(trees + [Tree.Branch(yes, no)]), d)
  {
    hide Tree.Ok; hide Run; hide PadFold; hide Lands; hide Retraces; hide Diag; hide Resettles; hide Repeats;
    hide Tests; hide RunOn;
    var (before, fork) := (PadFold(trees), Tree.Branch(yes, no));
    FoldOneMore(trees, fork);
    FoldIsStraight(trees);
    ForkShape(a, d, inputs, before, yes, no);
    var wide := Widened(before, inputs + 1 - before.Effect().outputs);
    WidenedRetraces(a.vals, before, inputs + 1 - before.Effect().outputs, inputs,
      InputNodes(inputs) + [a.vals[a.diags[d].cond]]);
    ForkResettles(a, d, inputs, wide, yes, no);
  }

  /** Padding under the steps makes their shape that of the whole stack. */
  lemma ForkShape(a: Arena, d: DiagId, inputs: nat, before: Tree, yes: Tree, no: Tree)
    requires a.Ok() && d < |a.diags| && a.diags[d].Branch? && a.diags[d].Below(d, |a.vals|)
    requires NodesOk(a.vals, InputNodes(inputs) + [a.vals[a.diags[d].cond]])
    requires Leaves(a.vals, inputs, before, InputNodes(inputs) + [a.vals[a.diags[d].cond]])
    requires Spells(a, yes, a.diags[d].ifTrue, inputs) && Spells(a, no, a.diags[d].ifFalse, inputs)
    ensures yes.Effect().inputs == inputs && no.Effect().inputs == inputs && before.Effect().outputs <= inputs + 1
    ensures var wide := Widened(before, inputs + 1 - before.Effect().outputs);
      wide.Effect().inputs == inputs
        && Composed(before, Tree.Branch(yes, no)) == Tree.Compose(wide, Tree.Branch(yes, no))
  {
    hide Run; hide RunOn; hide Diag; hide Retraces;
  }

  lemma WidenedRetraces(vals: seq<ValNode>, t: Tree, n: nat, inputs: nat, to: seq<ValNode>)
    requires Retraces(vals, t, InputNodes(inputs), to) && Straight(t)
    ensures Retraces(vals, Widened(t, n), InputNodes(inputs), to) && Straight(Widened(t, n))
  {
    hide LandsOn; hide Lie; hide Distinct; hide AllUnfolded;
    forall more: seq<ValNode>, s: seq<ValId>, out: seq<ValId> {:trigger LandsOn(more, Widened(t, n), s, out)} |
      GrowsInto(vals, more) && Lie(more, s, InputNodes(inputs)) && LandsOn(more, Widened(t, n), s, out)
      ensures Lie(more, out, to)
    {
      WidenedLands(more, t, n, s, out);
    }
  }

  lemma ForkResettles(a: Arena, d: DiagId, inputs: nat, before: Tree, yes: Tree, no: Tree)
    requires a.Ok() && Distinct(a.vals) && NodesSorted(a) && d < |a.diags| && a.diags[d].Branch?
    requires a.diags[d].Below(d, |a.vals|)
    requires Straight(before) && before.Effect().inputs == inputs && PlainDiag(a, d)
    requires Retraces(a.vals, before, InputNodes(inputs), InputNodes(inputs) + [a.vals[a.diags[d].cond]])
    requires yes.Effect().inputs == inputs && no.Effect().inputs == inputs
    requires PlainDiag(a, a.diags[d].ifTrue) ==> Resettles(a, yes, a.diags[d].ifTrue)
    requires PlainDiag(a, a.diags[d].ifFalse) ==> Resettles(a, no, a.diags[d].ifFalse)
    ensures Resettles(a, Tree.Compose(before, Tree.Branch(yes, no)), d)
  {
    hide Lands; hide Retraces; hide Repeats;
    var (c, x, y) := (a.diags[d].cond, a.diags[d].ifTrue, a.diags[d].ifFalse);
    var t := Tree.Compose(before, Tree.Branch(yes, no));
    NotInArms(a, d);
    assert NodeSorted(a, d) && c in Tests(a.diags, d) && PlainDiag(a, x) && PlainDiag(a, y);
    forall b: Arena, stack: seq<ValId>, path: Path {:trigger Repeats(b, t, stack, path, d)} |
      b.Ok() && Extends(a, b) && |stack| == t.Effect().inputs && InputWires(b.vals, stack)
      && Undecided(path, Tests(a.diags, d))
      ensures Repeats(b, t, stack, path, d)
    {
      StepsLandOnly(a, b, before, stack, InputNodes(inputs) + [a.vals[c]], stack + [c]);
      LiteralStays(a.vals, b.vals, c);
      ArmRepeats(a, b, yes, stack, path, c, true, x);
      ArmRepeats(a, b, no, stack, path, c, false, y);
      ForkRepeats(b, before, yes, no, stack, c, path, d);
    }
  }

  lemma ForkRepeats(
    b: Arena, before: Tree, yes: Tree, no: Tree, stack: seq<ValId>, c: ValId, path: Path, d: DiagId)
    requires b.Ok() && d < |b.diags| && b.diags[d].Branch? && b.diags[d].Below(d, |b.vals|) && b.diags[d].cond == c
    requires Straight(before) && LandsOnly(b.vals, before, stack, stack + [c])
    requires EqualToLiteral(b.vals, c).None? && !b.vals[c].Lit? && Decided(path, c).None?
    requires Repeats(b, yes, stack, path + [(c, true)], b.diags[d].ifTrue)
    requires Repeats(b, no, stack, path + [(c, false)], b.diags[d].ifFalse)
    ensures Repeats(b, Tree.Compose(before, Tree.Branch(yes, no)), stack, path, d)
  {
    hide LandsOnly;
    var mid := stack + [c];
    assert mid[..|mid| - 1] == stack && mid[|mid| - 1] == c;
    assert Repeats(b, Tree.Branch(yes, no), mid, path, d);
  }

  lemma ArmRepeats(
    a: Arena, b: Arena, t: Tree, stack: seq<ValId>, path: Path, c: ValId, taken: bool, x: DiagId)
    requires a.Ok() && b.Ok() && Extends(a, b) && x < |a.diags| && Resettles(a, t, x)
    requires |stack| == t.Effect().inputs && InputWires(b.vals, stack)
    requires Undecided(path, Tests(a.diags, x)) && c !in Tests(a.diags, x)
    ensures Repeats(b, t, stack, path + [(c, taken)], x)
  {
    hide Repeats; hide Tests;
    forall q | q in Tests(a.diags, x) ensures Decided(path + [(c, taken)], q).None? {
      DecidedMore(path, c, taken, q);
    }
  }

  lemma {:induction false} DecidedMore(path: Path, c: ValId, taken: bool, q: ValId)
    requires c != q
    ensures Decided(path + [(c, taken)], q) == Decided(path, q)
  {
    if path != [] {
      assert (path + [(c, taken)])[1..] == path[1..] + [(c, taken)];
      DecidedMore(path[1..], c, taken, q);
    }
  }

  lemma WiringIsCartesian(t: Tree)
    requires Wiring(t)
    ensures t.Cartesian()
  {
  }

  lemma ComposedCartesian(l: Tree, r: Tree)
    requires l.Cartesian() && r.Cartesian()
    ensures Composed(l, r).Cartesian()
  {
  }

  /** Steps that only move and call make a cartesian term. */
  lemma {:induction false} CartesianFold(trees: seq<Tree>, made: seq<Option<Key>>)
    requires trees != [] && ComputedOnce(trees, made) && CallsOnly([], made)
    ensures PadFold(trees).Cartesian()
    decreases |trees|
  {
    var last := |trees| - 1;
    assert trees[last].Cartesian() by {
      if made[last].None? {
        WiringIsCartesian(trees[last]);
      }
    }
    if last > 0 {
      assert forall i, j | 0 <= i < j < last && made[..last][i].Some? :: made[..last][i] != made[..last][j];
      CartesianFold(trees[..last], made[..last]);
      ComposedCartesian(PadFold(trees[..last]), trees[last]);
    }
  }

  lemma {:induction false} AllRead(vals: seq<ValNode>, v: ValId, n: nat)
    requires WiresOk(vals) && v < |vals| && forall u: ValId | u < |vals| && vals[u].Var? :: vals[u].i < n
    ensures Reads(vals, v, n)
    decreases v
  {
    assert vals[v].Below(v);
    if vals[v].App? || vals[v].Proj? {
      forall k | 0 <= k < |vals[v].args| ensures Reads(vals, vals[v].args[k], n) {
        AllRead(vals, vals[v].args[k], n);
      }
    }
  }

  lemma {:induction false} AllDiagsRead(a: Arena, d: DiagId, n: nat)
    requires a.Ok() && d < |a.diags| && forall u: ValId | u < |a.vals| && a.vals[u].Var? :: a.vals[u].i < n
    ensures DiagReads(a, d, n)
    decreases d
  {
    assert a.diags[d].Below(d, |a.vals|);
    match a.diags[d]
    case Leaf(vs) =>
      forall k | 0 <= k < |vs| ensures Reads(a.vals, vs[k], n) {
        AllRead(a.vals, vs[k], n);
      }
    case Branch(c, t, f) =>
      AllRead(a.vals, c, n);
      AllDiagsRead(a, t, n);
      AllDiagsRead(a, f, n);
  }

  lemma SpelledIsSame(a: Arena, t: Tree, u: Tree, d: DiagId)
    requires a.Ok() && NormalRight(a, t, d) && Spells(a, u, d, t.Effect().inputs)
    ensures Same(t, u) && u.Effect() == t.Effect()
  {
    forall calls: Interp, s: seq<Value> | |s| == t.Effect().inputs ensures Run(t, calls, s) == Run(u, calls, s) {
      var w := World(calls, s);
      assert w.env[..|s|] == s;
      assert Diag(a, d, w) == Run(t, calls, s);
    }
  }

  /** Under no path at all the term on its inputs settles as it does under every path. */
  lemma ResettlesSettles(a: Arena, t: Tree, d: DiagId)
    requires a.Ok() && d < |a.diags| && Resettles(a, t, d)
    ensures Settles(a, t, d)
  {
    hide Repeats;
    forall b: Arena, stack: seq<ValId> {:trigger Repeats(b, t, stack, [], d)} |
      b.Ok() && Extends(a, b) && |stack| == t.Effect().inputs && InputWires(b.vals, stack)
      ensures Repeats(b, t, stack, [], d)
    {
      assert Undecided([], Tests(a.diags, d));
    }
  }

  /**
   * A diagram spelled out and normalized again in the arena it came from: where none of its conditions is
   * equal against a literal, the very same diagram is found.
   */
  method Reread(
    ctx: Ctx, terms: Context, d: DiagId, inputs: nat, fuel: nat) returns (i: TermIndex, again: Option<DiagId>)
    requires ctx.Valid() && terms.Valid() && d < |ctx.diags| && DiagReads(ctx.A(), d, inputs) && inputs <= ctx.bound
    modifies ctx, terms
    ensures terms.Grew() && ctx.Kept() && terms.Has(i) && Spells(old(ctx.A()), terms.At(i), d, inputs)
    ensures old(PlainDiag(ctx.A(), d)) ==> again == Some(d)
    ensures old(CartLeaf(ctx.A(), d)) ==> terms.At(i).Cartesian()
  {
    hide ctx.MemosRight; hide ctx.Interned; hide NodesSorted; hide AllUnfolded; hide TreeAt; hide Ordered;
    hide Repeats; hide Reads;
    hide DiagReads; hide Settles; hide Resettles; hide PlainDiag; hide NormalRight; hide CartLeaf; hide Tree.Cartesian;
    ghost var a := ctx.A();
    i := Reify(ctx, terms, d, inputs);
    if PlainDiag(a, d) {
      ResettlesSettles(a, terms.At(i), d);
    }
    again := NormalForm(ctx, terms, i, fuel);
  }

  /**
   * A term by way of its diagram: another spelling of the same program, of the same arity. If none of the
   * conditions is equal against a literal, normalizing that spelling finds the very same diagram again. Where
   * nothing is compared there is always a spelling.
   */
  method Respell(ctx: Ctx, terms: Context, term: TermIndex, fuel: nat)
    returns (r: Option<TermIndex>, d: Option<DiagId>, again: Option<DiagId>)
    requires ctx.Valid() && terms.Valid() && terms.Has(term) && terms.At(term).Ok()
    requires terms.At(term).Effect().inputs == ctx.bound
    modifies ctx, terms
    ensures terms.Grew() && ctx.Kept() && r.Some? == d.Some?
    ensures old(EqualFree(ctx.vals) && NoEqual(terms.At(term))) ==> r.Some?
    ensures r.Some? ==> terms.Has(r.value) && Same(terms.At(term), terms.At(r.value))
    ensures d.Some? ==> d.value < |ctx.diags| && (PlainDiag(ctx.A(), d.value) ==> again == d)
    ensures old(terms.At(term)).Cartesian() ==> r.Some? && terms.At(r.value).Cartesian() && again == d
  {
    hide EqualFree; hide NoEqual;
    hide NormalRight; hide CartLeaf; hide Same; hide TreeAt; hide Ordered; hide Tree.Effect; hide Tree.Cartesian;
    hide Tree.Ok;
    hide ctx.MemosRight; hide ctx.Interned; hide NodesSorted; hide AllUnfolded; hide ctx.AskedOk; hide PlainDiag;
    hide Tests;
    r, again := None, None;
    ghost var t := terms.At(term);
    d := NormalForm(ctx, terms, term, fuel);
    if d.None? {
      return;
    }
    ghost var a := ctx.A();
    InputsBelow(ctx);
    RightIsThere(a, t, d.value);
    AllDiagsRead(a, d.value, ctx.bound);
    var i;
    i, again := Reread(ctx, terms, d.value, terms.EffectAt(term).inputs, fuel);
    SpelledIsSame(a, t, terms.At(i), d.value);
    LeafIsPlain(a, d.value);
    PlainDiagStays(a, ctx.A(), d.value);
    r := Some(i);
  }

  lemma RightIsThere(a: Arena, t: Tree, d: DiagId)
    requires a.Ok() && NormalRight(a, t, d)
    ensures d < |a.diags|
  {
  }

  lemma LeafIsPlain(a: Arena, d: DiagId)
    requires a.Ok() && d < |a.diags|
    ensures CartLeaf(a, d) ==> PlainDiag(a, d)
  {
  }

  lemma PlainDiagStays(a: Arena, b: Arena, d: DiagId)
    requires a.Ok() && b.Ok() && Extends(a, b) && d < |a.diags|
    ensures PlainDiag(b, d) == PlainDiag(a, d)
  {
    TestsAreWires(a, d);
    TestsStay(a, b, d);
    PlainStays(a.vals, b.vals, Tests(a.diags, d));
  }

  lemma InputsBelow(ctx: Ctx)
    requires ctx.Valid()
    ensures forall v: ValId | v < |ctx.vals| && ctx.vals[v].Var? :: ctx.vals[v].i < ctx.bound
  {
  }
}
