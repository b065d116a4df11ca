/** What an operation on wires folds to: which boxes are ever built, and what is left in place of the others. */
module Folds {
  import opened Wrappers
  import opened Values
  import opened Prims
  import opened Wires
  import opened Order

  // ---- what each fold looks at ----

  /** The literals on these wires, if that is all there is on them. */
  function Literals(vals: seq<ValNode>, args: seq<ValId>): (r: Option<seq<Value>>)
    requires WiresOk(vals) && All(args, |vals|)
    ensures r.Some? ==> |r.value| == |args| && forall k | 0 <= k < |args| :: vals[args[k]] == Lit(r.value[k])
    ensures r.None? ==> exists k :: 0 <= k < |args| && !vals[args[k]].Lit?
  {
    if args == [] then Some([])
    else
      var rest := Literals(vals, args[1..]);
      assert rest.None? ==> exists k :: 0 <= k < |args[1..]| && !vals[args[1..][k]].Lit?;
      if vals[args[0]].Lit? && rest.Some? then Some([vals[args[0]].v] + rest.value)
      else
        assert rest.None? ==> exists k :: 0 <= k < |args| && !vals[args[k]].Lit? by {
          if rest.None? {
            var k :| 0 <= k < |args[1..]| && !vals[args[1..][k]].Lit?;
            assert !vals[args[k + 1]].Lit?;
          }
        }
        None
  }

  /** What slot `want` of an `untuple n` was taken from. */
  function SlotOf(vals: seq<ValNode>, n: nat, arg: ValId, want: nat): Option<ValId>
    requires WiresOk(vals) && arg < |vals|
  {
    assert vals[arg].Below(arg);
    match vals[arg]
    case App(Prim(Untuple(m)), a) => if m == n && want == 0 && n == 1 then Some(a[0]) else None
    case Proj(index, Prim(Untuple(m)), a) => if m == n && index == want then Some(a[0]) else None
    case _ => None
  }

  /** The wire `args` were untupled from, if slot `k` of it is the `k`th of them for all `k`. */
  function Retupled(vals: seq<ValNode>, n: nat, args: seq<ValId>): (r: Option<ValId>)
    requires WiresOk(vals) && All(args, |vals|) && |args| == n && n > 0
    ensures r.Some? ==> forall k | 0 <= k < n :: SlotOf(vals, n, args[k], k) == r
    ensures r.Some? ==> r.value < |vals|
  {
    var first := SlotOf(vals, n, args[0], 0);
    assert vals[args[0]].Below(args[0]);
    if first.Some? && forall k | 1 <= k < n :: SlotOf(vals, n, args[k], k) == first then first else None
  }

  /** The first argument is already what this coercion leaves. */
  predicate IdempotentCoercion(vals: seq<ValNode>, prim: Prim, args: seq<ValId>)
    requires WiresOk(vals) && All(args, |vals|) && |args| > 0
  {
    match vals[args[0]]
    case App(Prim(p), _) => p == prim && (prim.AsBool? || prim.AsInt? || prim.AsTuple?)
    case _ => false
  }

  lemma SlotHolds(vals: seq<ValNode>, n: nat, arg: ValId, want: nat, w: World)
    requires WiresOk(vals) && arg < |vals| && want < n && SlotOf(vals, n, arg, want).Some?
    ensures SlotOf(vals, n, arg, want).value < |vals|
    ensures Val(vals, arg, w) == TakenApart(n, Val(vals, SlotOf(vals, n, arg, want).value, w))[want]
  {
    assert vals[arg].Below(arg);
    ValOfApp(vals, arg, w);
  }

  /** A tuple of all the slots of one untupling is that value coerced, whether or not it was a tuple. */
  lemma RetupledHolds(vals: seq<ValNode>, n: nat, args: seq<ValId>, w: World)
    requires WiresOk(vals) && All(args, |vals|) && |args| == n && n > 0 && Retupled(vals, n, args).Some?
    ensures var inner := Retupled(vals, n, args).value;
      Answer(Prim.Tuple(n), Vals(vals, args, w)) == Answer(Prim.AsTuple(n), [Val(vals, inner, w)])
  {
    var inner := Retupled(vals, n, args).value;
    forall k | 0 <= k < n ensures Val(vals, args[k], w) == TakenApart(n, Val(vals, inner, w))[k] {
      SlotHolds(vals, n, args[k], k, w);
    }
    assert Vals(vals, args, w) == TakenApart(n, Val(vals, inner, w));
  }

  lemma IdempotentHolds(vals: seq<ValNode>, prim: Prim, args: seq<ValId>, w: World)
    requires WiresOk(vals) && All(args, |vals|) && |args| == 1 == prim.Effect().inputs
    requires IdempotentCoercion(vals, prim, args)
    ensures Answer(prim, Vals(vals, args, w)) == [Val(vals, args[0], w)]
  {
    ValOfApp(vals, args[0], w);
    assert Vals(vals, args, w) == [Val(vals, args[0], w)];
  }

  /** Taking apart what `tuple n` built gives back what it was built from. */
  lemma CancelHolds(vals: seq<ValNode>, arg: ValId, n: nat, w: World)
    requires WiresOk(vals) && arg < |vals| && vals[arg].App? && vals[arg].op == Op.Prim(Prim.Tuple(n))
    ensures All(vals[arg].args, |vals|) && |vals[arg].args| == n
    ensures Answer(Prim.Untuple(n), [Val(vals, arg, w)]) == Vals(vals, vals[arg].args, w)
  {
    assert vals[arg].Below(arg);
    ValOfApp(vals, arg, w);
  }

  lemma BoolHolds(vals: seq<ValNode>, arg: ValId, w: World)
    requires WiresOk(vals) && arg < |vals| && vals[arg].App? && vals[arg].op.Prim? && vals[arg].op.prim.YieldsBool()
    ensures Val(vals, arg, w).Bool?
  {
    assert vals[arg].Below(arg);
    ValOfApp(vals, arg, w);
    YieldsBoolAnswers(vals[arg].op.prim, Vals(vals, vals[arg].args, w));
  }

  /** What an operation leaves on these wires is what these wires carry, in every world. */
  ghost predicate Computes(vals: seq<ValNode>, op: Op, args: seq<ValId>, out: seq<ValId>)
    requires WiresOk(vals)
  {
    && All(args, |vals|) && All(out, |vals|) && |args| == op.Effect().inputs && |out| == op.Effect().outputs
    && forall w: World :: Vals(vals, out, w) == OpAnswer(op, w.calls, Vals(vals, args, w))
  }

  lemma WindowComputes(vals: seq<ValNode>, prim: Prim, args: seq<ValId>, operands: seq<Value>, out: seq<ValId>)
    requires WiresOk(vals) && All(args, |vals|) && |args| == |operands| == prim.Effect().inputs
    requires forall k | 0 <= k < |args| :: vals[args[k]] == Lit(operands[k])
    requires All(out, |vals|) && |out| == prim.Effect().outputs
    requires forall w: World :: Vals(vals, out, w) == Answer(prim, operands)
    ensures Computes(vals, Op.Prim(prim), args, out)
  {
    forall w: World ensures Vals(vals, args, w) == operands {
    }
  }

  lemma CancelComputes(vals: seq<ValNode>, arg: ValId, n: nat)
    requires WiresOk(vals) && arg < |vals| && vals[arg].App? && vals[arg].op == Op.Prim(Prim.Tuple(n))
    ensures Computes(vals, Op.Prim(Prim.Untuple(n)), [arg], vals[arg].args)
  {
    assert vals[arg].Below(arg);
    forall w: World ensures Vals(vals, vals[arg].args, w) == Answer(Prim.Untuple(n), Vals(vals, [arg], w)) {
      CancelHolds(vals, arg, n, w);
      assert Vals(vals, [arg], w) == [Val(vals, arg, w)];
    }
  }

  lemma RetupledComputes(a: Arena, b: Arena, n: nat, args: seq<ValId>, out: seq<ValId>)
    requires a.Ok() && b.Ok() && Extends(a, b)
    requires All(args, |a.vals|) && |args| == n && n > 0 && Retupled(a.vals, n, args).Some?
    requires Computes(b.vals, Op.Prim(AsTuple(n)), [Retupled(a.vals, n, args).value], out)
    ensures Computes(b.vals, Op.Prim(Prim.Tuple(n)), args, out)
  {
    var inner := Retupled(a.vals, n, args).value;
    ExtendsAgrees(a, b);
    forall w: World ensures Vals(b.vals, out, w) == Answer(Prim.Tuple(n), Vals(b.vals, args, w)) {
      RetupledHolds(a.vals, n, args, w);
      assert Vals(b.vals, args, w) == Vals(a.vals, args, w);
      assert Vals(b.vals, [inner], w) == [Val(a.vals, inner, w)];
    }
  }

  lemma IdempotentComputes(vals: seq<ValNode>, prim: Prim, args: seq<ValId>)
    requires WiresOk(vals) && All(args, |vals|) && |args| == 1 == prim.Effect().inputs
    requires IdempotentCoercion(vals, prim, args)
    ensures Computes(vals, Op.Prim(prim), args, [args[0]])
  {
    forall w: World ensures Vals(vals, [args[0]], w) == Answer(prim, Vals(vals, args, w)) {
      IdempotentHolds(vals, prim, args, w);
    }
  }

  lemma BoolComputes(vals: seq<ValNode>, arg: ValId, truth: ValId)
    requires WiresOk(vals) && arg < |vals| && truth < |vals| && vals[truth] == Lit(Bool(true))
    requires vals[arg].App? && vals[arg].op.Prim? && vals[arg].op.prim.YieldsBool()
    ensures Computes(vals, Op.Prim(IsBool), [arg], [truth])
  {
    forall w: World ensures Vals(vals, [truth], w) == Answer(IsBool, Vals(vals, [arg], w)) {
      BoolHolds(vals, arg, w);
    }
  }

  lemma CommuteComputes(vals: seq<ValNode>, prim: Prim, args: seq<ValId>, sorted: seq<ValId>, out: seq<ValId>)
    requires WiresOk(vals) && prim.Commutative() && |args| == 2 && (sorted == args || sorted == [args[1], args[0]])
    requires Computes(vals, Op.Prim(prim), sorted, out)
    ensures Computes(vals, Op.Prim(prim), args, out)
  {
    assert sorted[0] < |vals| && sorted[1] < |vals|;
    forall w: World ensures Vals(vals, out, w) == Answer(prim, Vals(vals, args, w)) {
      var (x, y) := (Val(vals, args[0], w), Val(vals, args[1], w));
      CommutativeAnswers(prim, x, y);
      assert Vals(vals, args, w) == [x, y];
      assert Vals(vals, [args[1], args[0]], w) == [y, x];
    }
  }

  // ---- which box answers which wires ----

  /** Taking apart what a `tuple` of the same width just built. */
  predicate Cancels(vals: seq<ValNode>, prim: Prim, args: seq<ValId>)
    requires WiresOk(vals) && All(args, |vals|) && |args| == prim.Effect().inputs
  {
    prim.Untuple? && vals[args[0]].App? && vals[args[0]].op == Op.Prim(Prim.Tuple(prim.n))
  }

  /** Rebuilding what an `untuple` of the same width took apart. */
  predicate Rebuilds(vals: seq<ValNode>, prim: Prim, args: seq<ValId>)
    requires WiresOk(vals) && All(args, |vals|) && |args| == prim.Effect().inputs
  {
    prim.Tuple? && prim.n > 0 && Retupled(vals, prim.n, args).Some?
  }

  /** Asking for a boolean of an answer that is always one. */
  predicate KnownBool(vals: seq<ValNode>, prim: Prim, args: seq<ValId>)
    requires WiresOk(vals) && All(args, |vals|) && |args| == prim.Effect().inputs
  {
    prim.IsBool? && vals[args[0]].App? && vals[args[0]].op.Prim? && vals[args[0]].op.prim.YieldsBool()
  }

  /** A commutative operation's operands in the order of wires; any other's as they are. */
  function InOrder(vals: seq<ValNode>, prim: Prim, args: seq<ValId>): (r: seq<ValId>)
    requires WiresOk(vals) && All(args, |vals|) && |args| == prim.Effect().inputs
    ensures |r| == |args| && All(r, |vals|)
  {
    if prim.Commutative() && CmpVal(vals, args[0], args[1]).After? then [args[1], args[0]] else args
  }

  /** No fold has anything to say about this box on these wires, and its operands are in order. */
  predicate Unfolded(vals: seq<ValNode>, op: Op, args: seq<ValId>)
    requires WiresOk(vals) && All(args, |vals|) && |args| == op.Effect().inputs
  {
    op.Prim? ==>
      && Literals(vals, args).None? && args != []
      && !Cancels(vals, op.prim, args) && !Rebuilds(vals, op.prim, args)
      && !IdempotentCoercion(vals, op.prim, args) && !KnownBool(vals, op.prim, args)
      && InOrder(vals, op.prim, args) == args
  }

  /** Every box in the arena was built because nothing folded it. */
  predicate AllUnfolded(vals: seq<ValNode>)
    requires WiresOk(vals)
  {
    forall v: ValId | v < |vals| :: NodeUnfolded(vals, v)
  }

  predicate NodeUnfolded(vals: seq<ValNode>, v: ValId)
    requires WiresOk(vals) && v < |vals|
  {
    assert vals[v].Below(v);
    vals[v].App? || vals[v].Proj? ==> Unfolded(vals, vals[v].op, vals[v].args)
  }

  /** The wire that output `k` of the box nothing folded is. */
  function BoxNode(op: Op, args: seq<ValId>, k: nat): ValNode {
    if op.Effect().outputs == 1 then App(op, args) else Proj(k, op, args)
  }

  /** What `Ctx.Apply` answers: literals for literals, what a fold already has, or the box's own wires. */
  ghost predicate Answers(vals: seq<ValNode>, op: Op, args: seq<ValId>, out: seq<ValId>)
    requires WiresOk(vals) && All(args, |vals|) && |args| == op.Effect().inputs
    decreases if op.Prim? && op.prim.Tuple? then 1 else 0
  {
    && All(out, |vals|) && |out| == op.Effect().outputs
    && (out != [] ==>
      if op.Call? then BuiltAs(vals, op, args, out)
      else match Literals(vals, args)
        case Some(xs) => forall k | 0 <= k < |out| :: vals[out[k]] == Lit(Answer(op.prim, xs)[k])
        case None =>
          if Cancels(vals, op.prim, args) then out == vals[args[0]].args
          else if Rebuilds(vals, op.prim, args) then
            Answers(vals, Op.Prim(AsTuple(op.prim.n)), [Retupled(vals, op.prim.n, args).value], out)
          else if IdempotentCoercion(vals, op.prim, args) then out == [args[0]]
          else if KnownBool(vals, op.prim, args) then vals[out[0]] == Lit(Bool(true))
          else BuiltAs(vals, op, InOrder(vals, op.prim, args), out))
  }

  /** A coercion of a wire that is no literal is that wire again exactly if the wire is what the same coercion left. */
  lemma CoercedAgain(vals: seq<ValNode>, prim: Prim, v: ValId, out: seq<ValId>)
    requires WiresOk(vals) && v < |vals| && !vals[v].Lit? && (prim.AsBool? || prim.AsInt? || prim.AsTuple?)
    requires Answers(vals, Op.Prim(prim), [v], out)
    ensures out == [v] <==> vals[v].App? && vals[v].op == Op.Prim(prim)
    ensures out != [v] ==> vals[out[0]] == App(Op.Prim(prim), [v])
  {
    assert Literals(vals, [v]).None?;
    assert vals[out[0]].Below(out[0]);
    if out != [v] {
      assert BuiltAs(vals, Op.Prim(prim), [v], out);
    }
  }

  /** Whether a wire that is no literal is a boolean is known exactly of the boxes that leave nothing else. */
  lemma KnownBoolean(vals: seq<ValNode>, v: ValId, out: seq<ValId>)
    requires WiresOk(vals) && v < |vals| && !vals[v].Lit? && Answers(vals, Op.Prim(IsBool), [v], out)
    ensures vals[out[0]] == Lit(Bool(true)) <==> vals[v].App? && vals[v].op.Prim? && vals[v].op.prim.YieldsBool()
    ensures vals[out[0]] != Lit(Bool(true)) ==> vals[out[0]] == App(Op.Prim(IsBool), [v])
  {
    assert Literals(vals, [v]).None?;
    if vals[out[0]] != Lit(Bool(true)) {
      assert BuiltAs(vals, Op.Prim(IsBool), [v], out);
    }
  }

  /** What `tuple n` built comes apart into the wires it was built of. */
  lemma TupleComesApart(vals: seq<ValNode>, n: nat, v: ValId, out: seq<ValId>)
    requires WiresOk(vals) && v < |vals| && n > 0 && vals[v].App? && vals[v].op == Op.Prim(Prim.Tuple(n))
    requires Answers(vals, Op.Prim(Untuple(n)), [v], out)
    ensures out == vals[v].args
  {
    assert Literals(vals, [v]).None?;
  }

  /** The outputs of one `untuple n`, tupled again, are the coercion of what was taken apart. */
  lemma TupledAgain(vals: seq<ValNode>, n: nat, v: ValId, slots: seq<ValId>, out: seq<ValId>)
    requires WiresOk(vals) && v < |vals| && n > 0 && |slots| == n && BuiltAs(vals, Op.Prim(Untuple(n)), [v], slots)
    requires Answers(vals, Op.Prim(Prim.Tuple(n)), slots, out)
    ensures Answers(vals, Op.Prim(AsTuple(n)), [v], out)
  {
    assert !vals[slots[0]].Lit? && Literals(vals, slots).None?;
    forall k | 0 <= k < n ensures SlotOf(vals, n, slots[k], k) == Some(v) {
      assert vals[slots[k]] == BoxNode(Op.Prim(Untuple(n)), [v], k);
    }
  }

  /** A commutative operation has one answer for both orders of its operands. */
  lemma EitherWayRound(vals: seq<ValNode>, p: Prim, u: ValId, v: ValId, out: seq<ValId>, other: seq<ValId>)
    requires WiresOk(vals) && Distinct(vals) && u < |vals| && v < |vals| && p.Commutative()
    requires Answers(vals, Op.Prim(p), [u, v], out) && Answers(vals, Op.Prim(p), [v, u], other)
    ensures out == other
  {
    hide CmpVal; hide Literals; hide Prims.Answer;
    WireFlips(vals, u, v);
    TwoLiterals(vals, u, v);
    TwoLiterals(vals, v, u);
    if vals[u].Lit? && vals[v].Lit? {
      CommutativeAnswers(p, vals[u].v, vals[v].v);
    }
    assert vals[out[0]] == vals[other[0]];
  }

  lemma TwoLiterals(vals: seq<ValNode>, u: ValId, v: ValId)
    requires WiresOk(vals) && u < |vals| && v < |vals|
    ensures Literals(vals, [u, v])
      == if vals[u].Lit? && vals[v].Lit? then Some([vals[u].v, vals[v].v]) else None
  {
    var xs := Literals(vals, [u, v]);
    if xs.Some? {
      assert vals[[u, v][0]] == Lit(xs.value[0]) && vals[[u, v][1]] == Lit(xs.value[1]);
      assert xs.value == [vals[u].v, vals[v].v];
    }
  }

  predicate BuiltAs(vals: seq<ValNode>, op: Op, args: seq<ValId>, out: seq<ValId>) {
    All(out, |vals|) && forall k | 0 <= k < |out| :: vals[out[k]] == BoxNode(op, args, k)
  }

  lemma {:induction false} LiteralsStay(vals: seq<ValNode>, more: seq<ValNode>, args: seq<ValId>)
    requires WiresOk(vals) && WiresOk(more) && vals <= more && All(args, |vals|)
    ensures Literals(more, args) == Literals(vals, args)
  {
    if args != [] {
      LiteralsStay(vals, more, args[1..]);
    }
  }

  lemma RetupledStays(vals: seq<ValNode>, more: seq<ValNode>, n: nat, args: seq<ValId>)
    requires WiresOk(vals) && WiresOk(more) && vals <= more && All(args, |vals|) && |args| == n && n > 0
    ensures Retupled(more, n, args) == Retupled(vals, n, args)
  {
    forall k | 0 <= k < n ensures SlotOf(more, n, args[k], k) == SlotOf(vals, n, args[k], k) {
      assert more[args[k]] == vals[args[k]];
    }
  }

  lemma InOrderStays(vals: seq<ValNode>, more: seq<ValNode>, prim: Prim, args: seq<ValId>)
    requires WiresOk(vals) && WiresOk(more) && vals <= more && All(args, |vals|) && |args| == prim.Effect().inputs
    ensures InOrder(more, prim, args) == InOrder(vals, prim, args)
  {
    if prim.Commutative() {
      CmpStays(vals, more, args[0], args[1]);
    }
  }

  /** What the folds look at is already in the arena. */
  lemma FoldsStay(vals: seq<ValNode>, more: seq<ValNode>, prim: Prim, args: seq<ValId>)
    requires WiresOk(vals) && WiresOk(more) && vals <= more && All(args, |vals|) && |args| == prim.Effect().inputs
    requires args != []
    ensures Literals(more, args) == Literals(vals, args)
    ensures Cancels(more, prim, args) == Cancels(vals, prim, args)
    ensures Rebuilds(more, prim, args) == Rebuilds(vals, prim, args)
    ensures Rebuilds(vals, prim, args) ==> Retupled(more, prim.n, args) == Retupled(vals, prim.n, args)
    ensures IdempotentCoercion(more, prim, args) == IdempotentCoercion(vals, prim, args)
    ensures KnownBool(more, prim, args) == KnownBool(vals, prim, args)
    ensures InOrder(more, prim, args) == InOrder(vals, prim, args)
  {
    LiteralsStay(vals, more, args);
    InOrderStays(vals, more, prim, args);
    if prim.Tuple? && prim.n > 0 {
      RetupledStays(vals, more, prim.n, args);
    }
    assert more[args[0]] == vals[args[0]];
  }

  lemma UnfoldedStays(vals: seq<ValNode>, more: seq<ValNode>, op: Op, args: seq<ValId>)
    requires WiresOk(vals) && WiresOk(more) && vals <= more && All(args, |vals|) && |args| == op.Effect().inputs
    ensures Unfolded(more, op, args) == Unfolded(vals, op, args)
  {
    if op.Prim? && args != [] {
      FoldsStay(vals, more, op.prim, args);
    }
  }

  lemma NodeStaysUnfolded(vals: seq<ValNode>, more: seq<ValNode>, v: ValId)
    requires WiresOk(vals) && WiresOk(more) && vals <= more && v < |vals| && NodeUnfolded(vals, v)
    ensures NodeUnfolded(more, v)
  {
    assert vals[v].Below(v) && more[v] == vals[v];
    if vals[v].App? || vals[v].Proj? {
      UnfoldedStays(vals, more, vals[v].op, vals[v].args);
    }
  }

  lemma {:induction false} AnswersStay(
    vals: seq<ValNode>, more: seq<ValNode>, op: Op, args: seq<ValId>, out: seq<ValId>)
    requires WiresOk(vals) && WiresOk(more) && vals <= more && All(args, |vals|) && |args| == op.Effect().inputs
    requires Answers(vals, op, args, out)
    ensures Answers(more, op, args, out)
    decreases if op.Prim? && op.prim.Tuple? then 1 else 0
  {
    if op.Prim? && args != [] {
      FoldsStay(vals, more, op.prim, args);
      if Literals(vals, args).None? && Rebuilds(vals, op.prim, args) && out != [] {
        AnswersStay(vals, more, Op.Prim(AsTuple(op.prim.n)), [Retupled(vals, op.prim.n, args).value], out);
      }
    }
  }

  /** An operation has one answer, since no two wires are one computation. */
  lemma {:induction false} AnswersOnce(vals: seq<ValNode>, op: Op, args: seq<ValId>, out: seq<ValId>, other: seq<ValId>)
    requires WiresOk(vals) && Distinct(vals) && All(args, |vals|) && |args| == op.Effect().inputs
    requires Answers(vals, op, args, out) && Answers(vals, op, args, other)
    ensures out == other
    decreases if op.Prim? && op.prim.Tuple? then 1 else 0
  {
    if op.Prim? && Literals(vals, args).None? && Rebuilds(vals, op.prim, args) && out != [] {
      AnswersOnce(vals, Op.Prim(AsTuple(op.prim.n)), [Retupled(vals, op.prim.n, args).value], out, other);
    } else if !(op.Prim? && Literals(vals, args).None? && Cancels(vals, op.prim, args)) {
      forall k | 0 <= k < |out| ensures out[k] == other[k] {
        assert vals[out[k]] == vals[other[k]];
      }
    }
  }

  /** A box nothing folds answers as itself. */
  lemma UnfoldedAnswers(vals: seq<ValNode>, op: Op, args: seq<ValId>, out: seq<ValId>)
    requires WiresOk(vals) && All(args, |vals|) && |args| == op.Effect().inputs
    requires Unfolded(vals, op, args) && Answers(vals, op, args, out)
    ensures BuiltAs(vals, op, args, out)
  {
  }
}
