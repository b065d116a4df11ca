/** The arena as it runs: interning, the operation caches, and normalization into it. */
module Engine {
  import opened Wrappers
  import opened Values
  import opened Prims
  import opened Wires
  import opened Order
  import opened Supports
  import opened Folds
  import opened Substitutions
  import opened Diagrams

  /** The conditions the current path has decided, outermost first. */
  type Path = seq<(ValId, bool)>

  class Ctx {
    /** How many inputs the terms this arena is for may read. */
    ghost const bound: nat
    var vals: seq<ValNode>
    var valsInterned: map<ValNode, ValId>
    var diags: seq<DiagNode>
    var diagsInterned: map<DiagNode, DiagId>
    var restrictMemo: map<(DiagId, ValId, bool), DiagId>
    var substValMemo: map<(ValId, ValId, ValId), ValId>
    var substDiagMemo: map<(DiagId, ValId, ValId), DiagId>
    var iteMemo: map<(ValId, DiagId, DiagId), DiagId>
    /** The conditions `Ite` has been asked to decide on since `Forget`. */
    ghost var asked: set<ValId>

    function A(): Arena
      reads `vals, `diags
    {
      Arena(vals, diags)
    }

    /** Each table is the inverse of its list, so equal nodes are one index. */
    ghost predicate Interned()
      reads `vals, `valsInterned, `diags, `diagsInterned
    {
      && (forall n | n in valsInterned :: valsInterned[n] < |vals| && vals[valsInterned[n]] == n)
      && (forall v: ValId | v < |vals| :: vals[v] in valsInterned && valsInterned[vals[v]] == v)
      && (forall n | n in diagsInterned :: diagsInterned[n] < |diags| && diags[diagsInterned[n]] == n)
      && (forall d: DiagId | d < |diags| :: diags[d] in diagsInterned && diagsInterned[diags[d]] == d)
      && (forall v: ValId | v < |vals| && vals[v].Var? :: vals[v].i < bound)
    }

    /** Every cached answer is right, and stays right. */
    ghost predicate MemosRight()
      reads `vals, `diags, `restrictMemo, `substValMemo, `substDiagMemo, `iteMemo
      requires A().Ok()
    {
      MemosRightIn(A())
    }

    ghost predicate MemosRightIn(a: Arena)
      reads `restrictMemo, `substValMemo, `substDiagMemo, `iteMemo
      requires a.Ok()
    {
      && (forall k | k in restrictMemo :: Restricts(a, k.0, k.1, k.2, restrictMemo[k]))
      && (forall k | k in substValMemo :: Rewrites(a, k.0, k.1, k.2, substValMemo[k]))
      && (forall k | k in substDiagMemo :: RewritesDiag(a, k.0, k.1, k.2, substDiagMemo[k]))
      && (forall k | k in iteMemo :: Decides(a, k.0, k.1, k.2, iteMemo[k]))
    }

    ghost predicate Valid()
      reads this
    {
      && A().Ok()
      && Interned()
      && MemosRight()
      && NodesSorted(A())
      && AllUnfolded(vals)
      && AskedOk()
    }

    /** Only wires are asked about. */
    ghost predicate AskedOk()
      reads `vals, `asked
    {
      forall c | c in asked :: c < |vals|
    }

    /** Nothing already in the arena has changed, so by `ExtendsAgrees` none of it means anything else. */
    twostate predicate Kept()
      reads this
    {
      old(Valid()) && Valid() && Extends(old(A()), A())
    }

    /** The same, and nothing asked about has been forgotten. */
    twostate predicate Grew()
      reads this
    {
      Kept() && old(asked) <= asked
    }

    constructor (ghost bound: nat)
      ensures Valid() && vals == [] && diags == [] && this.bound == bound
    {
      this.bound := bound;
      vals, valsInterned, diags, diagsInterned := [], map[], [], map[];
      restrictMemo, substValMemo, substDiagMemo, iteMemo, asked := map[], map[], map[], map[], {};
    }

    lemma AllDistinct()
      requires Valid()
      ensures Distinct(vals) && DistinctDiags(diags)
    {
    }

    // ---- interning ----

    method InternVal(node: ValNode) returns (v: ValId)
      requires Valid() && node.Below(|vals|) && (node.Var? ==> node.i < bound)
      requires node.App? || node.Proj? ==> Unfolded(vals, node.op, node.args)
      modifies this
      ensures Grew() && v < |vals| && vals[v] == node && diags == old(diags) && asked == old(asked)
      ensures vals == old(vals) || vals == old(vals) + [node]
    {
      hide Restricts; hide Rewrites; hide RewritesDiag; hide Decides; hide Unfolded; hide NodeSorted;
      hide AllUnfolded; hide NodesSorted; hide MemosRightIn;
      if node in valsInterned {
        return valsInterned[node];
      }
      ghost var a := A();
      v := |vals|;
      vals := vals + [node];
      valsInterned := valsInterned[node := v];
      assert A().Ok();
      MemosStay(a);
      WireAdded(a, node);
      SortedStay(a);
    }

    lemma WireAdded(a: Arena, node: ValNode)
      requires WiresOk(a.vals) && WiresOk(vals) && vals == a.vals + [node] && AllUnfolded(a.vals)
      requires node.Below(|a.vals|) && (node.App? || node.Proj? ==> Unfolded(a.vals, node.op, node.args))
      ensures AllUnfolded(vals)
    {
      hide Unfolded; hide NodeUnfolded;
      forall v: ValId | v < |vals| ensures NodeUnfolded(vals, v) {
        if v < |a.vals| {
          assert NodeUnfolded(a.vals, v);
          NodeStaysUnfolded(a.vals, vals, v);
        } else {
          LastUnfolded(a, node);
        }
      }
    }

    lemma LastUnfolded(a: Arena, node: ValNode)
      requires WiresOk(a.vals) && WiresOk(vals) && vals == a.vals + [node] && node.Below(|a.vals|)
      requires node.App? || node.Proj? ==> Unfolded(a.vals, node.op, node.args)
      ensures NodeUnfolded(vals, |a.vals|)
    {
      hide Unfolded;
      if node.App? || node.Proj? {
        UnfoldedStays(a.vals, vals, node.op, node.args);
      }
    }

    /** What a new node may be: nothing folds it away, and it is sorted if it decides. */
    ghost predicate Fits(node: DiagNode)
      reads this
      requires A().Ok() && node.Below(|diags|, |vals|)
    {
      node.Branch? ==>
        && !vals[node.cond].Lit? && Width(diags, node.ifTrue) == Width(diags, node.ifFalse)
        && (EqualToLiteral(vals, node.cond).None? ==>
          RootAfter(A(), node.cond, node.ifTrue) && RootAfter(A(), node.cond, node.ifFalse))
        && Spent(A(), node.cond, node.ifTrue)
    }

    method InternDiag(node: DiagNode) returns (d: DiagId)
      requires Valid() && node.Below(|diags|, |vals|) && Fits(node)
      modifies this
      ensures Grew() && d < |diags| && diags[d] == node && vals == old(vals) && asked == old(asked)
    {
      hide Restricts; hide Rewrites; hide RewritesDiag; hide Decides; hide AllUnfolded; hide NodesSorted;
      hide MemosRightIn; hide Fits; hide Width; hide CmpVal; hide RootAfter; hide EqualToLiteral; hide Plain;
      hide Spent;
      hide Tests;
      if node in diagsInterned {
        return diagsInterned[node];
      }
      ghost var a := A();
      d := |diags|;
      NodeFits(node);
      diags := diags + [node];
      diagsInterned := diagsInterned[node := d];
      MemosStay(a);
    }

    /** What a new node promises is what the arena with it needs. */
    lemma NodeFits(node: DiagNode)
      requires A().Ok() && NodesSorted(A()) && node.Below(|diags|, |vals|) && Fits(node)
      ensures var b := Arena(vals, diags + [node]); b.Ok() && NodesSorted(b)
    {
      hide NodeSorted; hide Width; hide RootAfter; hide Spent;
      var (a, b) := (A(), Arena(vals, diags + [node]));
      PushOk(a, node);
      forall d: DiagId | d < |b.diags| ensures NodeSorted(b, d) {
        if d < |diags| {
          assert NodeSorted(a, d);
          NodeStaysSorted(a, b, d);
        } else {
          LastSorted(node);
        }
      }
    }

    lemma LastSorted(node: DiagNode)
      requires A().Ok() && node.Below(|diags|, |vals|) && Fits(node) && Arena(vals, diags + [node]).Ok()
      ensures NodeSorted(Arena(vals, diags + [node]), |diags|)
    {
      hide RootAfter; hide Spent;
      if node.Branch? {
        SpentStays(A(), Arena(vals, diags + [node]), node.cond, node.ifTrue);
        RootAfterStays(A(), Arena(vals, diags + [node]), node.cond, node.ifTrue);
        RootAfterStays(A(), Arena(vals, diags + [node]), node.cond, node.ifFalse);
      }
    }

    lemma MemosStay(a: Arena)
      requires a.Ok() && A().Ok() && Extends(a, A()) && MemosRightIn(a)
      ensures MemosRightIn(A())
    {
      forall k | k in restrictMemo ensures Restricts(A(), k.0, k.1, k.2, restrictMemo[k]) {
        RestrictsStays(a, A(), k.0, k.1, k.2, restrictMemo[k]);
      }
      forall k | k in substValMemo ensures Rewrites(A(), k.0, k.1, k.2, substValMemo[k]) {
        RewritesStays(a, A(), k.0, k.1, k.2, substValMemo[k]);
      }
      forall k | k in substDiagMemo ensures RewritesDiag(A(), k.0, k.1, k.2, substDiagMemo[k]) {
        RewritesDiagStays(a, A(), k.0, k.1, k.2, substDiagMemo[k]);
      }
      forall k | k in iteMemo ensures Decides(A(), k.0, k.1, k.2, iteMemo[k]) {
        DecidesStays(a, A(), k.0, k.1, k.2, iteMemo[k]);
      }
    }

    lemma SortedStay(a: Arena)
      requires a.Ok() && A().Ok() && Extends(a, A()) && diags == a.diags && NodesSorted(a)
      ensures NodesSorted(A())
    {
      hide NodeSorted;
      forall d: DiagId | d < |a.diags| ensures NodeSorted(A(), d) {
        assert NodeSorted(a, d);
        NodeStaysSorted(a, A(), d);
      }
    }

    method LitWire(x: Value) returns (v: ValId)
      requires Valid()
      modifies this
      ensures Grew() && v < |vals| && vals[v] == Lit(x) && diags == old(diags)
      ensures old(EqualFree(vals)) ==> EqualFree(vals)
    {
      v := InternVal(Lit(x));
    }

    method LeafOf(vs: seq<ValId>) returns (d: DiagId)
      requires Valid() && All(vs, |vals|)
      modifies this
      ensures Grew() && d < |diags| && diags[d] == Leaf(vs) && vals == old(vals)
      ensures Width(diags, d) == |vs| && forall w: World :: Diag(A(), d, w) == Vals(vals, vs, w)
      ensures Promised(Some(d))
    {
      d := InternDiag(Leaf(vs));
    }

    // ---- applying an operation to wires ----

    lemma BoxComputes(op: Op, args: seq<ValId>, out: seq<ValId>)
      requires Valid() && Box(op, args, |vals|) && All(out, |vals|) && |out| == op.Effect().outputs
      requires forall k | 0 <= k < |out| :: vals[out[k]] == BoxNode(op, args, k)
      ensures Computes(vals, op, args, out)
    {
      forall w: World ensures Vals(vals, out, w) == OpAnswer(op, w.calls, Vals(vals, args, w)) {
        forall k | 0 <= k < |out| ensures Val(vals, out[k], w) == OpAnswer(op, w.calls, Vals(vals, args, w))[k] {
          ValOfApp(vals, out[k], w);
        }
      }
    }

    /** A box no fold has anything to say about, and the wires of its outputs. */
    method Build(op: Op, args: seq<ValId>) returns (out: seq<ValId>)
      requires Valid() && Box(op, args, |vals|) && Unfolded(vals, op, args)
      modifies this
      ensures Grew() && diags == old(diags) && Computes(vals, op, args, out) && BuiltAs(vals, op, args, out)
      ensures old(EqualFree(vals)) && op != Op.Prim(Prim.Equal) ==> EqualFree(vals)
    {
      hide MemosRight; hide Interned; hide NodesSorted; hide AllUnfolded; hide Unfolded;
      var outputs := op.Effect().outputs;
      if outputs == 1 {
        var v := InternVal(App(op, args));
        out := [v];
        BoxComputes(op, args, out);
        return;
      }
      out := [];
      ghost var start, had := A(), asked;
      for k := 0 to outputs
        invariant Valid() && Extends(start, A()) && diags == start.diags && had <= asked
        invariant |out| == k && All(out, |vals|)
        invariant forall j | 0 <= j < k :: vals[out[j]] == BoxNode(op, args, j)
        invariant EqualFree(start.vals) && op != Op.Prim(Prim.Equal) ==> EqualFree(vals)
      {
        UnfoldedStays(start.vals, vals, op, args);
        var v := InternVal(Proj(k, op, args));
        out := out + [v];
      }
      BoxComputes(op, args, out);
    }

    /** The wires that carry the operation's answers on `args`; a box is built only if no fold has them already. */
    method Apply(op: Op, args: seq<ValId>) returns (out: seq<ValId>)
      requires Valid() && Box(op, args, |vals|)
      modifies this
      ensures Grew() && diags == old(diags) && Computes(vals, op, args, out) && Answers(vals, op, args, out)
      ensures old(EqualFree(vals)) && op != Op.Prim(Prim.Equal) ==> EqualFree(vals)
      decreases if op.Prim? && op.prim.Tuple? then 1 else 0, 1
    {
      hide MemosRight; hide Interned; hide NodesSorted; hide AllUnfolded;
      if op.Effect().outputs == 0 {
        return [];
      }
      if op.Call? {
        out := Build(op, args);
        return;
      }
      var prim := op.prim;
      var literals := Literals(vals, args);
      ghost var a := A();
      if literals.Some? {
        out := LitWires(Answer(prim, literals.value));
        LiteralsStay(a.vals, vals, args);
        WindowComputes(vals, prim, args, literals.value, out);
        return;
      }
      out := Fold(prim, args);
    }

    /** A prim on wires that are not all literals. */
    method Fold(prim: Prim, args: seq<ValId>) returns (out: seq<ValId>)
      requires Valid() && Box(Op.Prim(prim), args, |vals|) && args != [] && prim.Effect().outputs > 0
      requires Literals(vals, args).None?
      modifies this
      ensures Grew() && diags == old(diags) && Computes(vals, Op.Prim(prim), args, out)
      ensures Answers(vals, Op.Prim(prim), args, out)
      ensures old(EqualFree(vals)) && prim != Prim.Equal ==> EqualFree(vals)
      decreases if prim.Tuple? then 1 else 0, 0
    {
      hide MemosRight; hide Interned; hide NodesSorted; hide AllUnfolded; hide Literals;
      ghost var a := A();
      if Cancels(vals, prim, args) {
        CancelComputes(vals, args[0], prim.n);
        return vals[args[0]].args;
      }
      if Rebuilds(vals, prim, args) {
        var inner := Retupled(vals, prim.n, args).value;
        out := Apply(Op.Prim(AsTuple(prim.n)), [inner]);
        RetupledComputes(a, A(), prim.n, args, out);
        FoldsStay(a.vals, vals, prim, args);
        return;
      }
      if IdempotentCoercion(vals, prim, args) {
        IdempotentComputes(vals, prim, args);
        return [args[0]];
      }
      if KnownBool(vals, prim, args) {
        var truth := LitWire(Bool(true));
        BoolComputes(vals, args[0], truth);
        FoldsStay(a.vals, vals, prim, args);
        return [truth];
      }
      out := BuildInOrder(prim, args);
    }

    /** A prim nothing folds, built on its operands in order. */
    method BuildInOrder(prim: Prim, args: seq<ValId>) returns (out: seq<ValId>)
      requires Valid() && Box(Op.Prim(prim), args, |vals|) && args != [] && prim.Effect().outputs > 0
      requires Literals(vals, args).None? && !Cancels(vals, prim, args) && !Rebuilds(vals, prim, args)
      requires !IdempotentCoercion(vals, prim, args) && !KnownBool(vals, prim, args)
      modifies this
      ensures Grew() && diags == old(diags) && Computes(vals, Op.Prim(prim), args, out)
      ensures Answers(vals, Op.Prim(prim), args, out)
      ensures old(EqualFree(vals)) && prim != Prim.Equal ==> EqualFree(vals)
    {
      hide MemosRight; hide Interned; hide NodesSorted; hide AllUnfolded; hide Literals;
      ghost var a := A();
      var sorted := InOrder(vals, prim, args);
      OrderedUnfolded(prim, args);
      out := Build(Op.Prim(prim), sorted);
      if prim.Commutative() {
        CommuteComputes(vals, prim, args, sorted, out);
      }
      FoldsStay(a.vals, vals, prim, args);
    }

    lemma OrderedUnfolded(prim: Prim, args: seq<ValId>)
      requires Valid() && Box(Op.Prim(prim), args, |vals|) && args != []
      requires Literals(vals, args).None? && !Cancels(vals, prim, args) && !Rebuilds(vals, prim, args)
      requires !IdempotentCoercion(vals, prim, args) && !KnownBool(vals, prim, args)
      ensures Unfolded(vals, Op.Prim(prim), InOrder(vals, prim, args))
    {
      hide MemosRight; hide NodesSorted; hide AllUnfolded; hide Literals; hide AskedOk;
      var sorted := InOrder(vals, prim, args);
      if sorted != args {
        AllDistinct();
        WireFlips(vals, args[0], args[1]);
        NotLiterals(args);
      }
    }

    lemma NotLiterals(args: seq<ValId>)
      requires Valid() && All(args, |vals|) && |args| == 2 && Literals(vals, args).None?
      ensures Literals(vals, [args[1], args[0]]).None?
    {
      hide MemosRight; hide NodesSorted; hide AllUnfolded; hide AskedOk; hide Interned;
      var k :| 0 <= k < |args| && !vals[args[k]].Lit?;
      assert !vals[[args[1], args[0]][1 - k]].Lit?;
    }

    method LitWires(xs: seq<Value>) returns (out: seq<ValId>)
      requires Valid()
      modifies this
      ensures Grew() && diags == old(diags) && |out| == |xs| && All(out, |vals|)
      ensures forall k | 0 <= k < |xs| :: vals[out[k]] == Lit(xs[k])
      ensures forall w: World :: Vals(vals, out, w) == xs
      ensures old(EqualFree(vals)) ==> EqualFree(vals)
    {
      hide MemosRight; hide Interned; hide NodesSorted; hide AllUnfolded;
      out := [];
      ghost var start, had := A(), asked;
      for k := 0 to |xs|
        invariant Valid() && Extends(start, A()) && diags == start.diags && had <= asked
        invariant |out| == k && All(out, |vals|)
        invariant forall j | 0 <= j < k :: vals[out[j]] == Lit(xs[j])
        invariant EqualFree(start.vals) ==> EqualFree(vals)
      {
        var v := LitWire(xs[k]);
        out := out + [v];
      }
    }

    // ---- substitution ----

    /** The wire with `to` for every `from`, folded again on the way back up. */
    method SubstVal(v: ValId, from: ValId, to: ValId) returns (out: ValId)
      requires Valid() && v < |vals| && from < |vals| && to < |vals|
      modifies this
      ensures Grew() && diags == old(diags) && Rewrites(A(), v, from, to, out)
      decreases v, 2
    {
      if v == from {
        return to;
      }
      var key := (v, from, to);
      if key in substValMemo {
        return substValMemo[key];
      }
      out := SubstNode(v, from, to);
      RememberVal(key, out);
    }

    method SubstNode(v: ValId, from: ValId, to: ValId) returns (out: ValId)
      requires Valid() && v < |vals| && v != from && from < |vals| && to < |vals|
      modifies this
      ensures Grew() && diags == old(diags) && Rewrites(A(), v, from, to, out)
      decreases v, 1
    {
      hide MemosRight; hide Interned; hide NodesSorted; hide AllUnfolded;
      var node := vals[v];
      assert node.Below(v);
      if node.Var? || node.Lit? {
        return v;
      }
      var walked := SubstVals(node.args, from, to, v);
      if walked == node.args {
        UnchangedRewrites(v, from, to);
        return v;
      }
      ghost var a := A();
      var outs := Apply(node.op, walked);
      var k := OutputOf(node);
      AppliedRewrites(a, node.op, node.args, walked, v, from, to, outs, k);
      out := outs[k];
    }

    method RememberVal(key: (ValId, ValId, ValId), out: ValId)
      requires Valid() && Rewrites(A(), key.0, key.1, key.2, out)
      modifies this`substValMemo
      ensures Valid()
    {
      hide Restricts; hide Rewrites; hide RewritesDiag; hide Decides; hide NodesSorted; hide AllUnfolded;
      hide AskedOk; hide Interned;
      substValMemo := substValMemo[key := out];
    }

    lemma UnchangedRewrites(v: ValId, from: ValId, to: ValId)
      requires Valid() && v < |vals| && v != from && from < |vals| && to < |vals|
      requires (vals[v].App? || vals[v].Proj?) && All(vals[v].args, v)
      requires forall j | 0 <= j < |vals[v].args| :: Rewrites(A(), vals[v].args[j], from, to, vals[v].args[j])
      ensures Rewrites(A(), v, from, to, v)
    {
      hide MemosRight; hide Interned; hide NodesSorted; hide AllUnfolded; hide AskedOk; hide Rebuilt;
      assert SubstitutedAll(vals, v, vals[v].args, from, to, vals[v].args);
    }

    lemma AppliedRewrites(
      a: Arena, op: Op, args: seq<ValId>, walked: seq<ValId>, v: ValId, from: ValId, to: ValId, outs: seq<ValId>,
      k: nat)
      requires Valid() && a.Ok() && Extends(a, A()) && |args| == |walked| && v < |a.vals| && v != from
      requires from < |a.vals| && to < |a.vals|
      requires Box(op, args, v) && forall j | 0 <= j < |args| :: Rewrites(a, args[j], from, to, walked[j])
      requires k < op.Effect().outputs
      requires vals[v] == if op.Effect().outputs == 1 then App(op, args) else Proj(k, op, args)
      requires k == OutputOf(vals[v]) && walked != args
      requires Computes(vals, op, walked, outs) && Answers(vals, op, walked, outs)
      ensures Rewrites(A(), v, from, to, outs[k])
    {
      hide MemosRight; hide Interned; hide NodesSorted; hide AllUnfolded; hide AskedOk; hide Answers;
      ExtendsAgrees(a, A());
      AppliedSubstitutes(a, op, args, walked, v, from, to, outs, k);
      hide Substituted;
      forall w: World | Val(vals, from, w) == Val(vals, to, w) ensures Val(vals, outs[k], w) == Val(vals, v, w) {
        forall j | 0 <= j < |args| ensures Val(vals, walked[j], w) == Val(vals, args[j], w) {
          assert Rewrites(a, args[j], from, to, walked[j]);
          assert Val(a.vals, from, w) == Val(a.vals, to, w);
        }
        assert Vals(vals, walked, w) == Vals(vals, args, w);
        ValOfApp(vals, v, w);
        assert Vals(vals, outs, w)[k] == Val(vals, outs[k], w);
      }
    }

    lemma AppliedSubstitutes(
      a: Arena, op: Op, args: seq<ValId>, walked: seq<ValId>, v: ValId, from: ValId, to: ValId, outs: seq<ValId>,
      k: nat)
      requires Valid() && a.Ok() && Extends(a, A()) && |args| == |walked| && v < |a.vals| && v != from
      requires Box(op, args, v) && forall j | 0 <= j < |args| :: Rewrites(a, args[j], from, to, walked[j])
      requires vals[v] == if op.Effect().outputs == 1 then App(op, args) else Proj(k, op, args)
      requires k == OutputOf(vals[v]) && walked != args && k < op.Effect().outputs && All(walked, |vals|)
      requires Answers(vals, op, walked, outs) && |outs| == op.Effect().outputs && All(outs, |vals|)
      ensures Substituted(vals, v, from, to, outs[k])
    {
      hide MemosRight; hide Interned; hide NodesSorted; hide AllUnfolded; hide AskedOk; hide Answers;
      forall j | 0 <= j < |args| ensures Substituted(vals, args[j], from, to, walked[j]) {
        assert Rewrites(a, args[j], from, to, walked[j]);
        SubstitutedStays(a.vals, vals, args[j], from, to, walked[j]);
      }
      assert vals[v].args == args && vals[v].op == op && (vals[v].App? || vals[v].Proj?);
      assert SubstitutedAll(vals, v, vals[v].args, from, to, walked);
      assert Rebuilt(vals, v, walked, outs[k]);
    }

    method SubstVals(vs: seq<ValId>, from: ValId, to: ValId, ghost bound: nat) returns (out: seq<ValId>)
      requires Valid() && All(vs, bound) && bound <= |vals| && from < |vals| && to < |vals|
      modifies this
      ensures Grew() && diags == old(diags) && |out| == |vs| && All(out, |vals|)
      ensures forall k | 0 <= k < |vs| :: Rewrites(A(), vs[k], from, to, out[k])
      decreases bound, 0
    {
      hide MemosRight; hide Interned; hide NodesSorted; hide AllUnfolded; hide Rewrites;
      out := [];
      ghost var start, had := A(), asked;
      for k := 0 to |vs|
        invariant Valid() && Extends(start, A()) && diags == start.diags && had <= asked
        invariant |out| == k && All(out, |vals|)
        invariant forall j | 0 <= j < k :: Rewrites(A(), vs[j], from, to, out[j])
      {
        ghost var a := A();
        var v := SubstVal(vs[k], from, to);
        forall j | 0 <= j < k ensures Rewrites(A(), vs[j], from, to, out[j]) {
          RewritesStays(a, A(), vs[j], from, to, out[j]);
        }
        out := out + [v];
      }
    }

    // ---- decisions ----

    /** Neither arm decides on anything that sorts before `cond`. */
    ghost predicate Settled(cond: ValId, t: DiagId, f: DiagId)
      reads this
      requires A().Ok() && cond < |vals| && t < |diags| && f < |diags|
    {
      NotBefore(cond, t) && NotBefore(cond, f)
    }

    ghost predicate NotBefore(cond: ValId, d: DiagId)
      reads this
      requires A().Ok() && cond < |vals| && d < |diags|
    {
      diags[d].Branch? ==> diags[d].cond < |vals| && !CmpVal(vals, diags[d].cond, cond).Before?
    }

    /** The root of `d`, if it sorts before `cond`. */
    function Hoisted(cond: ValId, d: DiagId): (r: Option<ValId>)
      reads this
      requires A().Ok() && cond < |vals| && d < |diags|
      ensures r.Some? ==> r.value < |vals| && diags[d].Branch? && diags[d].cond == r.value
      ensures r.Some? ==> CmpVal(vals, r.value, cond).Before?
      ensures r.None? ==> NotBefore(cond, d)
    {
      assert diags[d].Below(d, |vals|);
      match diags[d]
      case Branch(c, _, _) => if CmpVal(vals, c, cond).Before? then Some(c) else None
      case Leaf(_) => None
    }

    /** The earliest condition in either arm that belongs above `cond`. */
    function Earlier(cond: ValId, t: DiagId, f: DiagId): (r: Option<ValId>)
      reads this
      requires A().Ok() && cond < |vals| && t < |diags| && f < |diags|
      ensures r.None? ==> Settled(cond, t, f)
      ensures r.Some? ==> r.value < |vals| && CmpVal(vals, r.value, cond).Before?
    {
      match (Hoisted(cond, t), Hoisted(cond, f))
      case (Some(x), Some(y)) => if CmpVal(vals, y, x).Before? then Some(y) else Some(x)
      case (Some(x), None) => Some(x)
      case (None, y) => y
    }

    /** The diagram with `to` for every `from`, rebuilt through `Ite` on the way up. */
    method SubstDiag(d: DiagId, from: ValId, to: ValId, fuel: nat) returns (r: Option<DiagId>)
      requires Valid() && d < |diags| && from < |vals| && to < |vals|
      modifies this
      ensures Grew() && (r.Some? ==> RewritesDiag(A(), d, from, to, r.value))
      ensures old(diags)[d].Leaf? ==> r.Some?
      decreases fuel, 1, d
    {
      hide MemosRight; hide Interned; hide NodesSorted; hide AllUnfolded;
      var key := (d, from, to);
      if key in substDiagMemo {
        DiagHit(key);
        return Some(substDiagMemo[key]);
      }
      assert diags[d].Below(d, |vals|);
      match diags[d] {
        case Leaf(vs) =>
          var walked := SubstVals(vs, from, to, |vals|);
          ghost var a := A();
          var leaf := LeafOf(walked);
          LeafRewrites(a, d, vs, walked, from, to, leaf);
          r := Some(leaf);
        case Branch(cond, ifTrue, ifFalse) =>
          r := SubstArms(d, cond, ifTrue, ifFalse, from, to, fuel);
          if r.None? {
            return;
          }
      }
      RememberDiag(key, r.value);
    }

    lemma LeafRewrites(
      a: Arena, d: DiagId, vs: seq<ValId>, walked: seq<ValId>, from: ValId, to: ValId, leaf: DiagId)
      requires Valid() && a.Ok() && Extends(a, A()) && d < |a.diags| && a.diags[d] == Leaf(vs)
      requires |walked| == |vs| && All(walked, |a.vals|) && All(vs, |a.vals|) && from < |a.vals| && to < |a.vals|
      requires forall k | 0 <= k < |vs| :: Rewrites(a, vs[k], from, to, walked[k])
      requires leaf < |diags| && diags[leaf] == Leaf(walked)
      ensures RewritesDiag(A(), d, from, to, leaf)
    {
      hide MemosRight; hide Interned; hide NodesSorted; hide AllUnfolded; hide AskedOk; hide Substituted;
      ExtendsAgrees(a, A());
      forall k | 0 <= k < |vs| ensures Substituted(vals, vs[k], from, to, walked[k]) {
        assert Rewrites(a, vs[k], from, to, walked[k]);
        SubstitutedStays(a.vals, vals, vs[k], from, to, walked[k]);
      }
      assert SubstitutedLeaf(A(), d, from, to, leaf);
      if vals[to].Lit? {
        LeafForgets(a, d, vs, walked, from, to, leaf);
      }
      hide ReadsNoMore; hide Unread; hide SubstitutedLeaf;
      forall w: World | Val(vals, from, w) == Val(vals, to, w) ensures Diag(A(), leaf, w) == Diag(A(), d, w) {
        forall k | 0 <= k < |vs| ensures Val(vals, walked[k], w) == Val(vals, vs[k], w) {
          assert Rewrites(a, vs[k], from, to, walked[k]);
        }
        assert Vals(vals, walked, w) == Vals(vals, vs, w);
      }
    }

    lemma LeafForgets(
      a: Arena, d: DiagId, vs: seq<ValId>, walked: seq<ValId>, from: ValId, to: ValId, leaf: DiagId)
      requires Valid() && a.Ok() && Extends(a, A()) && d < |a.diags| && a.diags[d] == Leaf(vs)
      requires |walked| == |vs| && All(walked, |a.vals|) && All(vs, |a.vals|) && from < |a.vals| && to < |a.vals|
      requires forall k | 0 <= k < |vs| :: Rewrites(a, vs[k], from, to, walked[k])
      requires leaf < |diags| && diags[leaf] == Leaf(walked) && vals[to].Lit?
      ensures ReadsNoMore(A(), d, leaf) && Unread(A(), from, leaf)
    {
      hide MemosRight; hide Interned; hide NodesSorted; hide AllUnfolded; hide AskedOk; hide Substituted;
      forall x: ValId | x < |vals| && Pure(vals, x) && Reads(A(), leaf, x) ensures Reads(A(), d, x) && x != from {
        var k :| 0 <= k < |walked| && Beneath(vals, walked[k], x);
        assert Rewrites(a, vs[k], from, to, walked[k]);
        SubstitutedStays(a.vals, vals, vs[k], from, to, walked[k]);
        SubstitutedReads(vals, vs[k], from, to, walked[k], x);
        assert diags[d] == Leaf(vs);
      }
    }

    method SubstArms(
      d: DiagId, cond: ValId, ifTrue: DiagId, ifFalse: DiagId, from: ValId, to: ValId, fuel: nat)
      returns (r: Option<DiagId>)
      requires Valid() && d < |diags| && from < |vals| && to < |vals|
      requires diags[d] == DiagNode.Branch(cond, ifTrue, ifFalse) && ifTrue < d && ifFalse < d && cond < |vals|
      modifies this
      ensures Grew() && (r.Some? ==> RewritesDiag(A(), d, from, to, r.value))
      decreases fuel, 1, d, 0
    {
      hide EqualFree; hide AskedOk; hide Plain; hide Asks; hide Promised; hide MemosRight; hide Interned;
      hide NodesSorted; hide AllUnfolded; hide Decides; hide BothLeaves; hide Val; hide Diag; hide Settled;
      hide Rewrites; hide RewritesDiag; hide Width; hide Grounded;
      ghost var a0 := A();
      var c := SubstVal(cond, from, to);
      ghost var a1 := A();
      var t := SubstDiag(ifTrue, from, to, fuel);
      if t.None? { return None; }
      ghost var a2 := A();
      var f := SubstDiag(ifFalse, from, to, fuel);
      if f.None? { return None; }
      RewritesStays(a1, A(), cond, from, to, c);
      RewritesDiagStays(a2, A(), ifTrue, from, to, t.value);
      ghost var a := A();
      ArmsRewritten(a, d, from, to, c, t.value, f.value);
      r := Ite(c, t.value, f.value, fuel);
      if r.Some? {
        RewritesStays(a, A(), cond, from, to, c);
        RewritesDiagStays(a, A(), ifTrue, from, to, t.value);
        RewritesDiagStays(a, A(), ifFalse, from, to, f.value);
        BranchRewrites(A(), d, from, to, c, t.value, f.value, r.value);
      }
    }

    lemma ArmsRewritten(a: Arena, d: DiagId, from: ValId, to: ValId, c: ValId, t: DiagId, f: DiagId)
      requires a.Ok() && d < |a.diags| && a.diags[d].Branch?
      requires Rewrites(a, a.diags[d].cond, from, to, c)
      requires RewritesDiag(a, a.diags[d].ifTrue, from, to, t) && RewritesDiag(a, a.diags[d].ifFalse, from, to, f)
      ensures c < |a.vals| && t < |a.diags| && f < |a.diags| && Width(a.diags, t) == Width(a.diags, f)
    {
      assert a.diags[d].Below(d, |a.vals|);
    }

    lemma DiagHit(key: (DiagId, ValId, ValId))
      requires Valid() && key in substDiagMemo
      ensures RewritesDiag(A(), key.0, key.1, key.2, substDiagMemo[key])
    {
    }

    method RememberDiag(key: (DiagId, ValId, ValId), out: DiagId)
      requires Valid() && RewritesDiag(A(), key.0, key.1, key.2, out)
      modifies this`substDiagMemo
      ensures Valid()
    {
      hide Restricts; hide Rewrites; hide RewritesDiag; hide Decides; hide NodesSorted; hide AllUnfolded;
      hide AskedOk; hide Interned;
      substDiagMemo := substDiagMemo[key := out];
    }

    /** The part of `d` that is left once `cond` is settled; a tested literal is also written through it. */
    method Restrict(d: DiagId, cond: ValId, taken: bool, fuel: nat) returns (r: Option<DiagId>)
      requires Valid() && d < |diags| && cond < |vals|
      modifies this
      ensures Grew() && (r.Some? ==> Restricts(A(), d, cond, taken, r.value))
      ensures EqualToLiteral(vals, cond).None? || old(diags)[d].Leaf? ==> r.Some?
      ensures old(EqualFree(vals)) ==> EqualFree(vals)
      decreases fuel, 2, 0
    {
      hide MemosRight; hide Interned; hide NodesSorted; hide AllUnfolded; hide Restricts; hide RewritesDiag;
      var key := (d, cond, taken);
      if key in restrictMemo {
        RestrictHit(key);
        return Some(restrictMemo[key]);
      }
      assert diags[d].Below(d, |vals|);
      var base := RootArm(diags, d, cond, taken);
      r := Some(base);
      ghost var a := A();
      if taken {
        match EqualToLiteral(vals, cond) {
          case Some((from, to)) =>
            LiteralHoldsAlways(vals, cond);
            r := SubstDiag(base, from, to, fuel);
            LiteralStays(a.vals, vals, cond);
            if r.None? { return; }
            WrittenRestricts(A(), d, cond, from, to, r.value);
          case None =>
            RootRestricts(A(), d, cond, taken);
        }
      } else {
        RootRestricts(A(), d, cond, taken);
      }
      RestrictMemoize(key, r.value);
    }

    lemma RestrictHit(key: (DiagId, ValId, bool))
      requires Valid() && key in restrictMemo
      ensures Restricts(A(), key.0, key.1, key.2, restrictMemo[key])
    {
    }

    method RestrictMemoize(key: (DiagId, ValId, bool), out: DiagId)
      requires Valid() && Restricts(A(), key.0, key.1, key.2, out)
      modifies this`restrictMemo
      ensures Valid()
    {
      hide Restricts; hide Rewrites; hide RewritesDiag; hide Decides; hide NodesSorted; hide AllUnfolded;
      restrictMemo := restrictMemo[key := out];
    }

    /** A decision node, unless the arms come out as one diagram; each arm first loses a root that asks the same. */
    method Branch(cond: ValId, ifTrue: DiagId, ifFalse: DiagId, fuel: nat) returns (r: Option<DiagId>)
      requires Valid() && cond < |vals| && !vals[cond].Lit? && ifTrue < |diags| && ifFalse < |diags|
      requires Width(diags, ifTrue) == Width(diags, ifFalse) && Settled(cond, ifTrue, ifFalse)
      modifies this
      ensures Grew() && (r.Some? ==> Decides(A(), cond, ifTrue, ifFalse, r.value))
      ensures EqualToLiteral(vals, cond).None? || old(BothLeaves(diags, ifTrue, ifFalse)) ==> r.Some?
      ensures old(EqualFree(vals)) ==> EqualFree(vals)
      decreases fuel, 3, 0
    {
      hide Grounded; hide EqualFree; hide Val; hide Diag; hide MemosRight; hide Interned; hide NodesSorted;
      hide AllUnfolded; hide Restricts; hide Decides; hide RootAfter; hide RootArm; hide AskedOk;
      ghost var a0 := A();
      var t := Restrict(ifTrue, cond, true, fuel);
      LiteralStays(a0.vals, vals, cond);
      if t.None? { return None; }
      ghost var a1 := A();
      var f := Restrict(ifFalse, cond, false, fuel);
      LiteralStays(a1.vals, vals, cond);
      if f.None? { return None; }
      RestrictsStays(a1, A(), ifTrue, cond, true, t.value);
      var d := Decide(a0, cond, ifTrue, ifFalse, t.value, f.value);
      r := Some(d);
    }

    method Decide(ghost a: Arena, cond: ValId, ghost ifTrue: DiagId, ghost ifFalse: DiagId, t: DiagId, f: DiagId)
      returns (d: DiagId)
      requires Valid() && a.Ok() && Extends(a, A()) && ifTrue < |a.diags| && ifFalse < |a.diags|
      requires cond < |a.vals| && !vals[cond].Lit?
      requires Width(a.diags, ifTrue) == Width(a.diags, ifFalse)
      requires a.diags[ifTrue].Branch? ==>
        a.diags[ifTrue].cond < |a.vals| && !CmpVal(a.vals, a.diags[ifTrue].cond, cond).Before?
      requires a.diags[ifFalse].Branch? ==>
        a.diags[ifFalse].cond < |a.vals| && !CmpVal(a.vals, a.diags[ifFalse].cond, cond).Before?
      requires Restricts(A(), ifTrue, cond, true, t) && Restricts(A(), ifFalse, cond, false, f)
      modifies this
      ensures Grew() && Decides(A(), cond, ifTrue, ifFalse, d)
      ensures old(EqualFree(vals)) ==> EqualFree(vals)
    {
      hide Grounded; hide EqualFree; hide Val; hide Diag; hide MemosRight; hide Interned; hide NodesSorted;
      hide AllUnfolded; hide Restricts; hide Decides; hide RootAfter; hide RootArm; hide AskedOk; hide Fits;
      hide Shallow; hide BothLeaves;
      d := t;
      if t != f {
        ArmsFit(a, cond, ifTrue, ifFalse, t, f);
        ghost var a2 := A();
        d := InternDiag(DiagNode.Branch(cond, t, f));
        RestrictsStays(a2, A(), ifTrue, cond, true, t);
        RestrictsStays(a2, A(), ifFalse, cond, false, f);
      }
      ArmIsThere(cond, ifTrue, true, t);
      NowDecided(a, cond, ifTrue, ifFalse, t, f, d);
    }

    lemma NowDecided(
      a: Arena, cond: ValId, ifTrue: DiagId, ifFalse: DiagId, t: DiagId, f: DiagId, d: DiagId)
      requires Valid() && a.Ok() && Extends(a, A()) && ifTrue < |a.diags| && ifFalse < |a.diags| && d < |diags|
      requires Width(a.diags, ifTrue) == Width(a.diags, ifFalse)
      requires Restricts(A(), ifTrue, cond, true, t) && Restricts(A(), ifFalse, cond, false, f)
      requires (t == f == d) || (t != f && diags[d] == DiagNode.Branch(cond, t, f))
      requires cond < |vals| && !vals[cond].Lit?
      ensures Decides(A(), cond, ifTrue, ifFalse, d)
    {
      hide Grounded; hide Val; hide Diag; hide MemosRight; hide Interned; hide NodesSorted; hide AllUnfolded;
      hide Restricts; hide Decides; hide RootAfter; hide RootArm; hide AskedOk; hide Fits;
      AllDistinct();
      ExtendsAgrees(a, A());
      RestrictedDecides(A(), cond, ifTrue, ifFalse, t, f, d);
    }

    lemma ArmIsThere(cond: ValId, d: DiagId, taken: bool, out: DiagId)
      requires A().Ok() && Restricts(A(), d, cond, taken, out)
      ensures out < |diags|
    {
    }

    lemma ArmsFit(a: Arena, cond: ValId, ifTrue: DiagId, ifFalse: DiagId, t: DiagId, f: DiagId)
      requires Valid() && a.Ok() && Extends(a, A()) && ifTrue < |a.diags| && ifFalse < |a.diags|
      requires cond < |a.vals| && !vals[cond].Lit?
      requires Width(a.diags, ifTrue) == Width(a.diags, ifFalse)
      requires a.diags[ifTrue].Branch? ==>
        a.diags[ifTrue].cond < |a.vals| && !CmpVal(a.vals, a.diags[ifTrue].cond, cond).Before?
      requires a.diags[ifFalse].Branch? ==>
        a.diags[ifFalse].cond < |a.vals| && !CmpVal(a.vals, a.diags[ifFalse].cond, cond).Before?
      requires Restricts(A(), ifTrue, cond, true, t) && Restricts(A(), ifFalse, cond, false, f) && t != f
      ensures DiagNode.Branch(cond, t, f).Below(|diags|, |vals|) && Fits(DiagNode.Branch(cond, t, f))
    {
      hide MemosRight; hide AllUnfolded; hide Val; hide Diag;
      ExtendsAgrees(a, A());
      if EqualToLiteral(vals, cond).None? {
        SettledArm(a, ifTrue, cond, true);
        SettledArm(a, ifFalse, cond, false);
      }
    }

    lemma SettledArm(a: Arena, d: DiagId, cond: ValId, taken: bool)
      requires Valid() && a.Ok() && Extends(a, A()) && d < |a.diags| && cond < |a.vals|
      requires EqualToLiteral(vals, cond).None?
      requires a.diags[d].Branch? ==> a.diags[d].cond < |a.vals| && !CmpVal(a.vals, a.diags[d].cond, cond).Before?
      ensures RootArm(diags, d, cond, taken) < |diags|
      ensures RootAfter(A(), cond, RootArm(diags, d, cond, taken))
    {
      AllDistinct();
      if a.diags[d].Branch? {
        CmpStays(a.vals, vals, a.diags[d].cond, cond);
      }
      RootArmAfter(A(), d, cond, taken);
    }

    /**
     * Decides between `t` and `f` on `cond`, with whatever the arms decide before `cond` hoisted above it.
     * Among plain conditions as much fuel as there are nodes below the arms is enough; between two leaves any is,
     * whatever the condition.
     */
    method Ite(cond: ValId, t: DiagId, f: DiagId, fuel: nat) returns (r: Option<DiagId>)
      requires Valid() && cond < |vals| && t < |diags| && f < |diags| && Width(diags, t) == Width(diags, f)
      modifies this
      ensures Grew() && (r.Some? ==> Decides(A(), cond, t, f, r.value)) && cond in asked
      ensures old(Plain(vals, Asks(diags, cond, t, f)) && fuel > 0 && (Settled(cond, t, f) || fuel >= t + f + 2)) ==>
        r.Some?
      ensures old(BothLeaves(diags, t, f)) && fuel > 0 ==> r.Some?
      ensures old(EqualFree(vals)) ==> EqualFree(vals)
      decreases fuel, 0, 0
    {
      hide Rewrites; hide EqualFree; hide RewritesDiag; hide Grounded; hide Val; hide Diag; hide MemosRight;
      hide Interned; hide NodesSorted; hide AllUnfolded; hide Decides; hide Restricts; hide AskedOk;
      Ask(cond);
      if vals[cond].Lit? {
        LiteralDecides(cond, t, f);
        r := Some(if vals[cond].v.Truthy() then t else f);
        return;
      }
      var key := (cond, t, f);
      if key in iteMemo {
        IteHit(key);
        return Some(iteMemo[key]);
      }
      if fuel == 0 {
        return None;
      }
      match Earlier(cond, t, f) {
        case None => r := Branch(cond, t, f, fuel - 1);
        case Some(d) => r := Expand(cond, t, f, d, fuel - 1);
      }
      if r.Some? {
        IteMemoize(key, r.value);
      }
    }

    ghost method Ask(cond: ValId)
      requires Valid() && cond < |vals|
      modifies this`asked
      ensures Valid() && asked == old(asked) + {cond}
    {
      hide MemosRight; hide Interned; hide NodesSorted; hide AllUnfolded;
      asked := asked + {cond};
    }

    lemma LiteralDecides(cond: ValId, t: DiagId, f: DiagId)
      requires Valid() && cond < |vals| && t < |diags| && f < |diags| && Width(diags, t) == Width(diags, f)
      requires vals[cond].Lit?
      ensures Decides(A(), cond, t, f, if vals[cond].v.Truthy() then t else f)
    {
      hide MemosRight; hide Interned; hide NodesSorted; hide AllUnfolded;
    }

    lemma IteHit(key: (ValId, DiagId, DiagId))
      requires Valid() && key in iteMemo
      ensures Decides(A(), key.0, key.1, key.2, iteMemo[key])
    {
    }

    method IteMemoize(key: (ValId, DiagId, DiagId), out: DiagId)
      requires Valid() && Decides(A(), key.0, key.1, key.2, out)
      modifies this`iteMemo
      ensures Valid()
    {
      hide Restricts; hide Rewrites; hide RewritesDiag; hide Decides; hide NodesSorted; hide AllUnfolded;
      hide AskedOk; hide Interned;
      iteMemo := iteMemo[key := out];
    }

    method Expand(cond: ValId, t: DiagId, f: DiagId, d: ValId, fuel: nat) returns (r: Option<DiagId>)
      requires Valid() && cond < |vals| && t < |diags| && f < |diags| && Width(diags, t) == Width(diags, f)
      requires Earlier(cond, t, f) == Some(d) && !vals[cond].Lit?
      modifies this
      ensures Grew() && (r.Some? ==> Decides(A(), cond, t, f, r.value))
      ensures old(Plain(vals, Asks(diags, cond, t, f))) && fuel >= t + f + 1 ==> r.Some?
      ensures old(EqualFree(vals)) ==> EqualFree(vals)
      decreases fuel, 4, 0
    {
      hide CmpVal; hide Tests; hide Promised; hide RootCond; hide Rewrites; hide EqualFree; hide RewritesDiag;
      hide Grounded; hide Val; hide Diag; hide MemosRight; hide Interned; hide NodesSorted; hide AllUnfolded;
      hide Earlier; hide Decides; hide Restricts; hide AskedOk;
      ghost var a0 := A();
      EarlierIsRoot(cond, t, f);
      var tt, te := RestrictBoth(t, d, fuel);
      LiteralStays(a0.vals, vals, d);
      if tt.None? || te.None? { return None; }
      ghost var a1 := A();
      var ft, fe := RestrictBoth(f, d, fuel);
      LiteralStays(a1.vals, vals, d);
      if ft.None? || fe.None? { return None; }
      ghost var a2 := A();
      RestrictsStays(a1, a2, t, d, true, tt.value);
      RestrictsStays(a1, a2, t, d, false, te.value);
      ExtendsAgrees(a0, a2);
      RootStays(a0, t, f, d, cond);
      AsksStay(a0, a2, cond, t, f);
      r := Recombine(cond, t, f, d, tt.value, ft.value, te.value, fe.value, fuel);
    }

    /** `d` under both outcomes of one condition. */
    method RestrictBoth(d: DiagId, cond: ValId, fuel: nat) returns (hi: Option<DiagId>, lo: Option<DiagId>)
      requires Valid() && d < |diags| && cond < |vals|
      modifies this
      ensures Grew()
      ensures (hi.Some? ==> Restricts(A(), d, cond, true, hi.value))
      ensures (lo.Some? ==> Restricts(A(), d, cond, false, lo.value))
      ensures EqualToLiteral(vals, cond).None? ==> hi.Some? && lo.Some?
      ensures old(EqualFree(vals)) ==> EqualFree(vals)
      decreases fuel, 3, 0
    {
      hide Restricts; hide EqualFree; hide Diag; hide Val; hide AskedOk; hide MemosRight; hide Interned;
      hide NodesSorted; hide AllUnfolded;
      hi := Restrict(d, cond, true, fuel);
      ghost var a := A();
      lo := Restrict(d, cond, false, fuel);
      if hi.Some? {
        RestrictsStays(a, A(), d, cond, true, hi.value);
      }
      LiteralStays(a.vals, vals, cond);
    }

    /** `d` is the earliest root of the two arms, and belongs above `cond`. */
    ghost predicate IsEarliest(d: ValId, t: DiagId, f: DiagId, cond: ValId)
      reads this
      requires A().Ok() && t < |diags| && f < |diags| && cond < |vals|
    {
      && d < |vals| && CmpVal(vals, d, cond).Before? && !vals[d].Lit?
      && NotBefore(d, t) && NotBefore(d, f)
      && (RootCond(diags, t) == Some(d) || RootCond(diags, f) == Some(d))
    }

    lemma EarlierIsRoot(cond: ValId, t: DiagId, f: DiagId)
      requires Valid() && cond < |vals| && t < |diags| && f < |diags| && Earlier(cond, t, f).Some?
      ensures IsEarliest(Earlier(cond, t, f).value, t, f, cond) && Earlier(cond, t, f).value in Asks(diags, cond, t, f)
    {
      AllDistinct();
      var d := Earlier(cond, t, f).value;
      assert diags[t].Below(t, |vals|) && diags[f].Below(f, |vals|);
      assert NodeSorted(A(), t) && NodeSorted(A(), f);
      forall x | x in {t, f} && diags[x].Branch? ensures NotBefore(d, x) {
        var c := diags[x].cond;
        WireFlips(vals, c, d);
        WireFlips(vals, c, cond);
        WireOrder(vals, c, d, cond);
      }
    }

    lemma RootStays(a: Arena, t: DiagId, f: DiagId, d: ValId, cond: ValId)
      requires Valid() && a.Ok() && Extends(a, A()) && t < |a.diags| && f < |a.diags| && cond < |a.vals| && d < |a.vals|
      requires CmpVal(a.vals, d, cond).Before? && !a.vals[d].Lit?
      requires forall x | x in {t, f} && a.diags[x].Branch? ::
        a.diags[x].cond < |a.vals| && !CmpVal(a.vals, a.diags[x].cond, d).Before?
      requires RootCond(a.diags, t) == Some(d) || RootCond(a.diags, f) == Some(d)
      ensures IsEarliest(d, t, f, cond)
    {
      CmpStays(a.vals, vals, d, cond);
      forall x | x in {t, f} && a.diags[x].Branch? ensures NotBefore(d, x) {
        CmpStays(a.vals, vals, a.diags[x].cond, d);
      }
    }

    method Recombine(
      cond: ValId, t: DiagId, f: DiagId, d: ValId, tt: DiagId, ft: DiagId, te: DiagId, fe: DiagId, fuel: nat)
      returns (r: Option<DiagId>)
      requires Valid() && cond < |vals| && t < |diags| && f < |diags| && Width(diags, t) == Width(diags, f)
      requires IsEarliest(d, t, f, cond) && !vals[cond].Lit?
      requires Restricts(A(), t, d, true, tt) && Restricts(A(), f, d, true, ft)
      requires Restricts(A(), t, d, false, te) && Restricts(A(), f, d, false, fe)
      modifies this
      ensures Grew() && (r.Some? ==> Decides(A(), cond, t, f, r.value))
      ensures old(Plain(vals, Asks(diags, cond, t, f))) && fuel >= t + f + 1 ==> r.Some?
      ensures old(EqualFree(vals)) ==> EqualFree(vals)
      decreases fuel, 3, 0
    {
      hide Rewrites; hide EqualFree; hide RewritesDiag; hide Grounded; hide Val; hide Diag; hide MemosRight;
      hide Interned; hide NodesSorted; hide AllUnfolded; hide RootAfter; hide CmpVal; hide Tests; hide RootCond;
      hide NotBefore; hide Arena.Ok; hide IsEarliest; hide Decides; hide Restricts; hide AskedOk; hide Asks;
      hide Plain; hide Settled;
      ghost var a0 := A();
      AllDistinct();
      ArmsShrink(t, f, d, cond, true, tt, ft);
      ArmsShrink(t, f, d, cond, false, te, fe);
      var hi := Ite(cond, tt, ft, fuel);
      if hi.None? { return None; }
      ghost var a1 := A();
      ExtendsAgrees(a0, a1);
      AsksStay(a0, a1, cond, te, fe);
      var lo := Ite(cond, te, fe, fuel);
      if lo.None? { return None; }
      ghost var a2 := A();
      ExtendsAgrees(a0, a2);
      DecidesStays(a1, a2, cond, tt, ft, hi.value);
      HalvesSettle(a0, t, f, d, cond, tt, ft, te, fe, hi.value, lo.value);
      r := Rejoin(a0, cond, t, f, d, tt, ft, te, fe, hi.value, lo.value, fuel);
    }

    /** Restricting one arm to an outcome of a plain condition spends its root, if that is what the root decides. */
    lemma ArmShrinks(t: DiagId, d: ValId, taken: bool, x: DiagId)
      requires Valid() && t < |diags| && d < |vals| && NotBefore(d, t)
      requires Restricts(A(), t, d, taken, x) && EqualToLiteral(vals, d).None?
      ensures x <= t && (RootCond(diags, t) == Some(d) ==> x < t) && x < |diags|
      ensures Tests(diags, x) <= Tests(diags, t) && RootAfter(A(), d, x)
    {
      hide MemosRight; hide AllUnfolded; hide Val; hide Diag;
      assert diags[t].Below(t, |vals|);
      AllDistinct();
      RootArmTests(A(), t, d, taken);
      RootArmAfter(A(), t, d, taken);
    }

    /** Restricting both arms to one outcome of the earliest root spends a root, and what is left decides after it. */
    lemma ArmsShrink(t: DiagId, f: DiagId, d: ValId, cond: ValId, taken: bool, x: DiagId, y: DiagId)
      requires Valid() && t < |diags| && f < |diags| && cond < |vals| && IsEarliest(d, t, f, cond)
      requires Restricts(A(), t, d, taken, x) && Restricts(A(), f, d, taken, y)
      ensures x < |diags| && y < |diags| && Width(diags, x) == Width(diags, t) && Width(diags, y) == Width(diags, f)
      ensures d < |vals| && CmpVal(vals, d, cond).Before? && !vals[d].Lit?
      ensures RootCond(diags, t) == Some(d) || RootCond(diags, f) == Some(d)
      ensures Plain(vals, Asks(diags, cond, t, f)) ==>
        x + y < t + f && Plain(vals, Asks(diags, cond, x, y)) && Asks(diags, cond, x, y) <= Asks(diags, cond, t, f)
      ensures Plain(vals, Asks(diags, cond, t, f)) ==> RootAfter(A(), d, x) && RootAfter(A(), d, y)
    {
      hide MemosRight; hide AllUnfolded; hide Val; hide Diag; hide Interned; hide NodesSorted; hide NotBefore;
      hide CmpVal; hide RootAfter; hide AskedOk;
      if Plain(vals, Asks(diags, cond, t, f)) {
        assert d in Asks(diags, cond, t, f);
        ArmShrinks(t, d, taken, x);
        ArmShrinks(f, d, taken, y);
      }
    }

    /** With the earliest root spent, what deciding on `cond` built has nothing before that root. */
    lemma HalvesSettle(
      a: Arena, t: DiagId, f: DiagId, d: ValId, cond: ValId, tt: DiagId, ft: DiagId, te: DiagId, fe: DiagId,
      hi: DiagId, lo: DiagId)
      requires Valid() && a.Ok() && NodesSorted(a) && Distinct(a.vals) && Extends(a, A()) && d < |a.vals|
      requires cond < |a.vals|
      requires t < |a.diags| && f < |a.diags| && tt < |a.diags| && ft < |a.diags| && te < |a.diags| && fe < |a.diags|
      requires CmpVal(a.vals, d, cond).Before?
      requires RootCond(a.diags, t) == Some(d) || RootCond(a.diags, f) == Some(d)
      requires Plain(a.vals, Asks(a.diags, cond, t, f)) ==>
        RootAfter(a, d, tt) && RootAfter(a, d, ft) && RootAfter(a, d, te) && RootAfter(a, d, fe)
      requires Plain(a.vals, Asks(a.diags, cond, t, f)) ==>
        Asks(a.diags, cond, tt, ft) <= Asks(a.diags, cond, t, f)
          && Asks(a.diags, cond, te, fe) <= Asks(a.diags, cond, t, f)
      requires Decides(A(), cond, tt, ft, hi) && Decides(A(), cond, te, fe, lo)
      ensures Plain(a.vals, Asks(a.diags, cond, t, f)) ==> Settled(d, hi, lo) && Plain(vals, Asks(diags, d, hi, lo))
    {
      hide MemosRight; hide Interned; hide AllUnfolded; hide Val; hide Diag; hide Decides; hide NodesSorted;
      if Plain(a.vals, Asks(a.diags, cond, t, f)) {
        AsksStay(a, A(), cond, t, f);
        assert d in Asks(a.diags, cond, t, f);
        HoistSettles(a, d, cond, tt, ft, hi);
        HoistSettles(a, d, cond, te, fe, lo);
      }
    }

    lemma HoistSettles(a: Arena, d: ValId, cond: ValId, x: DiagId, y: DiagId, out: DiagId)
      requires Valid() && a.Ok() && NodesSorted(a) && Distinct(a.vals) && Extends(a, A()) && d < |a.vals|
      requires cond < |a.vals|
      requires x < |a.diags| && y < |a.diags| && CmpVal(a.vals, d, cond).Before?
      requires Plain(a.vals, Asks(a.diags, cond, x, y)) && RootAfter(a, d, x) && RootAfter(a, d, y)
      requires Decides(A(), cond, x, y, out)
      ensures NotBefore(d, out) && Tests(diags, out) <= Asks(a.diags, cond, x, y)
    {
      hide MemosRight; hide AllUnfolded; hide Val; hide Diag;
      AsksStay(a, A(), cond, x, y);
      RootDecides(a, d, x);
      RootDecides(a, d, y);
      if diags[out].Branch? {
        assert diags[out].Below(out, |vals|);
        var root := diags[out].cond;
        assert root in Tests(diags, out);
        CmpStays(a.vals, vals, d, root);
        AllDistinct();
        WireFlips(vals, d, root);
      }
    }

    method Rejoin(
      ghost a0: Arena, cond: ValId, t: DiagId, f: DiagId, d: ValId,
      ghost tt: DiagId, ghost ft: DiagId, ghost te: DiagId, ghost fe: DiagId, hi: DiagId, lo: DiagId, fuel: nat)
      returns (r: Option<DiagId>)
      requires Valid() && a0.Ok() && Extends(a0, A())
      requires cond < |a0.vals| && t < |a0.diags| && f < |a0.diags| && Width(a0.diags, t) == Width(a0.diags, f)
      requires d < |a0.vals| && CmpVal(a0.vals, d, cond).Before? && !a0.vals[d].Lit? && !a0.vals[cond].Lit?
      requires RootCond(a0.diags, t) == Some(d) || RootCond(a0.diags, f) == Some(d)
      requires Restricts(a0, t, d, true, tt) && Restricts(a0, f, d, true, ft)
      requires Restricts(a0, t, d, false, te) && Restricts(a0, f, d, false, fe)
      requires Decides(A(), cond, tt, ft, hi) && Decides(A(), cond, te, fe, lo)
      modifies this
      ensures Grew() && (r.Some? ==> Decides(A(), cond, t, f, r.value))
      ensures old(Settled(d, hi, lo) && Plain(vals, Asks(diags, d, hi, lo))) && fuel > 0 ==> r.Some?
      ensures old(EqualFree(vals)) ==> EqualFree(vals)
      decreases fuel, 1, 0
    {
      hide MemosRight; hide EqualFree; hide Interned; hide NodesSorted; hide AllUnfolded; hide AskedOk; hide Asks;
      hide Plain; hide Settled; hide Val; hide Diag;
      ghost var a := A();
      ExtendsAgrees(a0, a);
      r := Ite(d, hi, lo, fuel);
      if r.Some? {
        AllDistinct();
        Rejoined(a0, a, A(), cond, t, f, d, tt, ft, te, fe, hi, lo, r.value);
      }
    }

    /** What was restricted and decided in earlier arenas is so in the last, and there it is an expansion. */
    static lemma Rejoined(
      a0: Arena, a: Arena, b: Arena, cond: ValId, t: DiagId, f: DiagId, d: ValId,
      tt: DiagId, ft: DiagId, te: DiagId, fe: DiagId, hi: DiagId, lo: DiagId, out: DiagId)
      requires a0.Ok() && a.Ok() && b.Ok() && Extends(a0, a) && Extends(a, b) && Distinct(b.vals)
      requires cond < |a0.vals| && t < |a0.diags| && f < |a0.diags| && Width(a0.diags, t) == Width(a0.diags, f)
      requires d < |a0.vals| && CmpVal(a0.vals, d, cond).Before? && !a0.vals[d].Lit? && !a0.vals[cond].Lit?
      requires RootCond(a0.diags, t) == Some(d) || RootCond(a0.diags, f) == Some(d)
      requires Restricts(a0, t, d, true, tt) && Restricts(a0, f, d, true, ft)
      requires Restricts(a0, t, d, false, te) && Restricts(a0, f, d, false, fe)
      requires Decides(a, cond, tt, ft, hi) && Decides(a, cond, te, fe, lo) && Decides(b, d, hi, lo, out)
      ensures Decides(b, cond, t, f, out)
    {
      hide Decides; hide Restricts; hide CmpVal; hide Val; hide Diag;
      DecidesStays(a, b, cond, tt, ft, hi);
      DecidesStays(a, b, cond, te, fe, lo);
      RestrictsStays(a0, b, t, d, true, tt);
      RestrictsStays(a0, b, f, d, true, ft);
      RestrictsStays(a0, b, t, d, false, te);
      RestrictsStays(a0, b, f, d, false, fe);
      ExtendsAgrees(a0, b);
      CmpStays(a0.vals, b.vals, d, cond);
      ExpansionDecides(b, cond, t, f, d, tt, ft, te, fe, hi, lo, out);
    }

    // ---- joining two finished arms ----

    /** Nothing asked about yet. */
    ghost method Forget()
      requires Valid()
      modifies this`asked
      ensures Valid() && asked == {}
    {
      hide MemosRight; hide Interned; hide NodesSorted; hide AllUnfolded;
      asked := {};
    }

    /** An answer, and one deciding on nothing else, if everything asked about is plain. */
    ghost predicate Promised(r: Option<DiagId>)
      reads `vals, `diags, `asked
      requires A().Ok()
    {
      Plain(vals, asked) ==> r.Some? && r.value < |diags| && Tests(diags, r.value) <= asked
    }

    twostate lemma StillPromised(r: Option<DiagId>)
      requires Grew() && old(Promised(r))
      ensures Promised(r)
    {
      hide MemosRight; hide Interned; hide NodesSorted; hide AllUnfolded;
      PlainStays(old(vals), vals, old(asked));
      if r.Some? && r.value < |old(diags)| {
        TestsStay(old(A()), A(), r.value);
      }
    }

    /** `Ite` with fuel for plain conditions: a node that is there already is found again. */
    method Join(cond: ValId, yes: DiagId, no: DiagId, fuel: nat) returns (r: Option<DiagId>)
      requires Valid() && cond < |vals| && yes < |diags| && no < |diags| && Width(diags, yes) == Width(diags, no)
      requires Promised(Some(yes)) && Promised(Some(no))
      modifies this
      ensures Grew() && (r.Some? ==> Decides(A(), cond, yes, no, r.value))
      ensures Promised(r) && cond in asked
      ensures Plain(vals, asked) ==> r.Some? && r.value < |diags| && ChoosesAs(A(), cond, yes, no, r.value)
      ensures old(BothLeaves(diags, yes, no)) ==> r.Some? && r.value < |diags| && Shallow(diags, r.value)
      ensures forall d: DiagId | d < |old(diags)| && old(diags)[d] == DiagNode.Branch(cond, yes, no)
        && Plain(old(vals), Tests(old(diags), d)) :: r == Some(d)
      ensures old(EqualFree(vals)) ==> EqualFree(vals)
    {
      hide MemosRight; hide Interned; hide NodesSorted; hide AllUnfolded; hide AskedOk; hide Decides; hide Plain;
      hide Settled; hide EqualFree; hide Promised;
      ghost var a := A();
      r := Ite(cond, yes, no, fuel + yes + no + 2);
      StillPromised(Some(yes));
      StillPromised(Some(no));
      JoinPromised(a, cond, yes, no, r);
      if BothLeaves(a.diags, yes, no) {
        JoinShallow(a, cond, yes, no, r.value);
      }
      forall d: DiagId | d < |a.diags| && a.diags[d] == DiagNode.Branch(cond, yes, no)
        && Plain(a.vals, Tests(a.diags, d))
        ensures r == Some(d)
      {
        assert Tests(a.diags, d) == Asks(a.diags, cond, yes, no);
        FoundAgain(a, cond, yes, no, d, r.value);
      }
    }

    lemma JoinShallow(a: Arena, cond: ValId, yes: DiagId, no: DiagId, d: DiagId)
      requires A().Ok() && a.Ok() && Extends(a, A()) && Decides(A(), cond, yes, no, d)
      requires yes < |a.diags| && no < |a.diags| && BothLeaves(a.diags, yes, no)
      ensures d < |diags| && Shallow(diags, d)
    {
    }

    lemma JoinPromised(a: Arena, cond: ValId, yes: DiagId, no: DiagId, r: Option<DiagId>)
      requires Valid() && a.Ok() && Extends(a, A()) && cond < |a.vals| && yes < |a.diags| && no < |a.diags|
      requires Promised(Some(yes)) && Promised(Some(no)) && cond in asked
      requires Plain(a.vals, Asks(a.diags, cond, yes, no)) ==> r.Some?
      requires r.Some? ==> Decides(A(), cond, yes, no, r.value)
      ensures Promised(r)
      ensures Plain(vals, asked) ==> r.Some? && r.value < |diags| && ChoosesAs(A(), cond, yes, no, r.value)
    {
      hide MemosRight; hide Interned; hide NodesSorted; hide AllUnfolded; hide Val; hide Diag;
      AsksStay(a, A(), cond, yes, no);
    }

    lemma FoundAgain(a: Arena, cond: ValId, yes: DiagId, no: DiagId, d: DiagId, out: DiagId)
      requires Valid() && a.Ok() && Extends(a, A()) && d < |a.diags| && a.diags[d] == DiagNode.Branch(cond, yes, no)
      requires Plain(a.vals, Tests(a.diags, d)) && Decides(A(), cond, yes, no, out)
      ensures out == d
    {
      hide MemosRight; hide AllUnfolded; hide Val; hide Diag;
      assert diags[d] == a.diags[d] && diags[d].Below(d, |vals|) && a.diags[d].Below(d, |a.vals|);
      assert NodeSorted(A(), d) && cond in Tests(a.diags, d);
      LiteralStays(a.vals, vals, cond);
      AllDistinct();
    }
  }
}
