/** Which wire comes out when one wire is written for another, and what it no longer reads. */
module Substitutions {
  import opened Wrappers
  import opened Values
  import opened Prims
  import opened Terms
  import opened Wires
  import opened Order
  import opened Supports
  import opened Folds

  /** The wires with `to` for every `from`, one by one. */
  ghost predicate SubstitutedAll(
    vals: seq<ValNode>, bound: nat, vs: seq<ValId>, from: ValId, to: ValId, out: seq<ValId>)
    requires WiresOk(vals) && bound <= |vals| && All(vs, bound)
    decreases bound, 0
  {
    |out| == |vs| && All(out, |vals|) && forall k | 0 <= k < |vs| :: Substituted(vals, vs[k], from, to, out[k])
  }

  /**
   * `out` is the wire that `v` becomes with `to` for every `from`: `to` for `from` itself, the wire there was where
   * nothing beneath it changed, and otherwise what the operation answers on the changed arguments.
   */
  ghost predicate Substituted(vals: seq<ValNode>, v: ValId, from: ValId, to: ValId, out: ValId)
    requires WiresOk(vals) && v < |vals|
    decreases v, 1
  {
    assert vals[v].Below(v);
    && out < |vals|
    && if v == from then out == to
       else if vals[v].Var? || vals[v].Lit? then out == v
       else exists walked: seq<ValId> ::
         && SubstitutedAll(vals, v, vals[v].args, from, to, walked)
         && if walked == vals[v].args then out == v else Rebuilt(vals, v, walked, out)
  }

  /** What the operation at `v` answers on other arguments, at the output that `v` is of it. */
  ghost predicate Rebuilt(vals: seq<ValNode>, v: ValId, args: seq<ValId>, out: ValId)
    requires WiresOk(vals) && v < |vals| && (vals[v].App? || vals[v].Proj?)
  {
    assert vals[v].Below(v);
    var k := OutputOf(vals[v]);
    && |args| == vals[v].op.Effect().inputs && All(args, |vals|)
    && exists outs: seq<ValId> :: Answers(vals, vals[v].op, args, outs) && k < |outs| && outs[k] == out
  }

  /** Which output of its operation a wire is. */
  function OutputOf(node: ValNode): nat
    requires node.App? || node.Proj?
  {
    if node.App? then 0 else node.index
  }

  lemma Outputs(vals: seq<ValNode>, v: ValId, args: seq<ValId>, out: ValId) returns (outs: seq<ValId>)
    requires WiresOk(vals) && v < |vals| && (vals[v].App? || vals[v].Proj?) && Rebuilt(vals, v, args, out)
    ensures |args| == vals[v].op.Effect().inputs && All(args, |vals|)
    ensures Answers(vals, vals[v].op, args, outs) && OutputOf(vals[v]) < |outs| && outs[OutputOf(vals[v])] == out
  {
    hide Answers;
    outs :| Answers(vals, vals[v].op, args, outs) && OutputOf(vals[v]) < |outs| && outs[OutputOf(vals[v])] == out;
  }

  // ---- one wire, and the same one later ----

  lemma {:induction false} SubstitutedOnce(
    vals: seq<ValNode>, v: ValId, from: ValId, to: ValId, out: ValId, other: ValId)
    requires WiresOk(vals) && Distinct(vals) && v < |vals|
    requires Substituted(vals, v, from, to, out) && Substituted(vals, v, from, to, other)
    ensures out == other
    decreases v
  {
    hide Answers;
    assert vals[v].Below(v);
    if v != from && (vals[v].App? || vals[v].Proj?) {
      var args := vals[v].args;
      var walked: seq<ValId> :|
        SubstitutedAll(vals, v, args, from, to, walked)
        && if walked == args then out == v else Rebuilt(vals, v, walked, out);
      var again: seq<ValId> :|
        SubstitutedAll(vals, v, args, from, to, again)
        && if again == args then other == v else Rebuilt(vals, v, again, other);
      forall k | 0 <= k < |args| ensures walked[k] == again[k] {
        SubstitutedOnce(vals, args[k], from, to, walked[k], again[k]);
      }
      assert walked == again;
      if walked != args {
        RebuiltOnce(vals, v, walked, out, other);
      }
    }
  }

  lemma RebuiltOnce(vals: seq<ValNode>, v: ValId, args: seq<ValId>, out: ValId, other: ValId)
    requires WiresOk(vals) && Distinct(vals) && v < |vals| && (vals[v].App? || vals[v].Proj?)
    requires Rebuilt(vals, v, args, out) && Rebuilt(vals, v, args, other)
    ensures out == other
  {
    hide Answers;
    var x := Outputs(vals, v, args, out);
    var y := Outputs(vals, v, args, other);
    AnswersOnce(vals, vals[v].op, args, x, y);
  }

  /** A box whose arguments all become literals becomes the literal the machine answers on them. */
  lemma WindowCloses(
    vals: seq<ValNode>, v: ValId, from: ValId, to: ValId, out: ValId, walked: seq<ValId>, xs: seq<Value>)
    requires WiresOk(vals) && Distinct(vals) && AllUnfolded(vals) && v < |vals| && v != from
    requires (vals[v].App? || vals[v].Proj?) && vals[v].op.Prim? && All(vals[v].args, v)
    requires SubstitutedAll(vals, v, vals[v].args, from, to, walked) && Literals(vals, walked) == Some(xs)
    requires Substituted(vals, v, from, to, out)
    ensures |xs| == vals[v].op.prim.Effect().inputs && OutputOf(vals[v]) < vals[v].op.prim.Effect().outputs
    ensures vals[out] == Lit(Answer(vals[v].op.prim, xs)[OutputOf(vals[v])])
  {
    hide Retupled; hide CmpVal; hide SubstitutedAll; hide AllUnfolded; hide Distinct;
    assert vals[v].Below(v);
    var args := vals[v].args;
    assert Literals(vals, args).None? by { Closed(vals, v); }
    var again: seq<ValId> :|
      SubstitutedAll(vals, v, args, from, to, again)
      && if again == args then out == v else Rebuilt(vals, v, again, out);
    WalkedOnce(vals, v, args, from, to, walked, again);
    var outs := Outputs(vals, v, walked, out);
  }

  lemma Closed(vals: seq<ValNode>, v: ValId)
    requires WiresOk(vals) && AllUnfolded(vals) && v < |vals| && (vals[v].App? || vals[v].Proj?) && vals[v].op.Prim?
    ensures vals[v].Below(v) && All(vals[v].args, |vals|) && Literals(vals, vals[v].args).None?
  {
    assert NodeUnfolded(vals, v) && vals[v].Below(v);
  }

  lemma WalkedOnce(
    vals: seq<ValNode>, bound: nat, vs: seq<ValId>, from: ValId, to: ValId, walked: seq<ValId>, again: seq<ValId>)
    requires WiresOk(vals) && Distinct(vals) && bound <= |vals| && All(vs, bound)
    requires SubstitutedAll(vals, bound, vs, from, to, walked) && SubstitutedAll(vals, bound, vs, from, to, again)
    ensures walked == again
  {
    hide Substituted;
    forall k | 0 <= k < |vs| ensures walked[k] == again[k] {
      SubstitutedOnce(vals, vs[k], from, to, walked[k], again[k]);
    }
  }

  lemma {:induction false} SubstitutedStays(
    vals: seq<ValNode>, more: seq<ValNode>, v: ValId, from: ValId, to: ValId, out: ValId)
    requires WiresOk(vals) && WiresOk(more) && vals <= more && v < |vals| && Substituted(vals, v, from, to, out)
    ensures Substituted(more, v, from, to, out)
    decreases v
  {
    hide Answers;
    assert vals[v].Below(v) && more[v] == vals[v];
    if v != from && (vals[v].App? || vals[v].Proj?) {
      var args := vals[v].args;
      var walked: seq<ValId> :|
        SubstitutedAll(vals, v, args, from, to, walked)
        && if walked == args then out == v else Rebuilt(vals, v, walked, out);
      forall k | 0 <= k < |args| ensures Substituted(more, args[k], from, to, walked[k]) {
        SubstitutedStays(vals, more, args[k], from, to, walked[k]);
      }
      assert SubstitutedAll(more, v, args, from, to, walked);
      if walked != args {
        RebuiltStays(vals, more, v, walked, out);
      }
    }
  }

  lemma RebuiltStays(vals: seq<ValNode>, more: seq<ValNode>, v: ValId, args: seq<ValId>, out: ValId)
    requires WiresOk(vals) && WiresOk(more) && vals <= more && v < |vals| && (vals[v].App? || vals[v].Proj?)
    requires Rebuilt(vals, v, args, out)
    ensures Rebuilt(more, v, args, out)
  {
    hide Answers;
    var k := OutputOf(vals[v]);
    var outs := Outputs(vals, v, args, out);
    AnswersStay(vals, more, vals[v].op, args, outs);
  }

  // ---- what a fold leaves was there, or is new ----

  /** The box of these arguments, in one order or the other. */
  ghost predicate BoxOf(vals: seq<ValNode>, v: ValId, args: seq<ValId>)
    requires v < |vals|
  {
    (vals[v].App? || vals[v].Proj?) && (vals[v].args == args || (|args| == 2 && vals[v].args == [args[1], args[0]]))
  }

  /** The coercion of what `args` were taken from, or that itself. */
  ghost predicate Recoerced(vals: seq<ValNode>, v: ValId, op: Op, args: seq<ValId>)
    requires WiresOk(vals) && v < |vals| && All(args, |vals|) && |args| == op.Effect().inputs
  {
    && op.Prim? && Rebuilds(vals, op.prim, args)
    && vals[v].App? && vals[v].op == Op.Prim(AsTuple(op.prim.n))
    && var inner := Retupled(vals, op.prim.n, args).value; v == inner || vals[v].args == [inner]
  }

  /** A wire an operation answers with is a literal, an argument, part of an argument taken apart, or a new box. */
  lemma Leaves(vals: seq<ValNode>, op: Op, args: seq<ValId>, outs: seq<ValId>, k: nat)
    requires WiresOk(vals) && All(args, |vals|) && |args| == op.Effect().inputs && Answers(vals, op, args, outs)
    requires k < |outs|
    ensures outs[k] < |vals|
    ensures var v := outs[k];
      || vals[v].Lit?
      || (op.Prim? && args != [] && Cancels(vals, op.prim, args) && k < |vals[args[0]].args|
          && v == vals[args[0]].args[k])
      || (args != [] && v == args[0] && |args| == 1 && vals[v].App? && vals[v].op == op)
      || (BoxOf(vals, v, args) && vals[v].op == op)
      || Recoerced(vals, v, op, args)
  {
    hide Literals; hide Retupled; hide CmpVal;
  }

  /** A tuple box that comes out of an operation was built there, or lay in what it took apart. */
  lemma TupleAnswered(vals: seq<ValNode>, op: Op, args: seq<ValId>, outs: seq<ValId>, k: nat, n: nat)
    requires WiresOk(vals) && All(args, |vals|) && |args| == op.Effect().inputs && Answers(vals, op, args, outs)
    requires k < |outs| && vals[outs[k]].App? && vals[outs[k]].op == Op.Prim(Prim.Tuple(n))
    ensures op == Op.Prim(Prim.Tuple(n)) || (op.Prim? && args != [] && Cancels(vals, op.prim, args))
  {
    hide Answers; hide Retupled;
    Leaves(vals, op, args, outs, k);
  }

  /** What an operation leaves is computed from a literal if any argument was, but for what it takes apart. */
  lemma ImpureAnswered(vals: seq<ValNode>, op: Op, args: seq<ValId>, outs: seq<ValId>, k: nat, j: nat)
    requires WiresOk(vals) && All(args, |vals|) && |args| == op.Effect().inputs && Answers(vals, op, args, outs)
    requires k < |outs| && j < |args| && !Pure(vals, args[j])
    requires op.Prim? ==> !Cancels(vals, op.prim, args)
    ensures !Pure(vals, outs[k])
  {
    hide Answers; hide Retupled;
    var v := outs[k];
    Leaves(vals, op, args, outs, k);
    assert vals[v].Below(v);
    if Recoerced(vals, v, op, args) {
      var inner := Retupled(vals, op.prim.n, args).value;
      SlotImpure(vals, op.prim.n, args, j);
      assert v != inner ==> vals[v].args[0] == inner;
    } else if BoxOf(vals, v, args) {
      assert vals[v].args[j] == args[j] || vals[v].args[1 - j] == args[j];
    }
  }

  lemma SlotImpure(vals: seq<ValNode>, n: nat, args: seq<ValId>, j: nat)
    requires WiresOk(vals) && All(args, |vals|) && |args| == n && j < n && Retupled(vals, n, args).Some?
    requires !Pure(vals, args[j])
    ensures !Pure(vals, Retupled(vals, n, args).value)
  {
    var inner := Retupled(vals, n, args).value;
    assert SlotOf(vals, n, args[j], j) == Some(inner);
    assert vals[args[j]].Below(args[j]) && vals[args[j]].args == [inner];
  }

  /** A wire beneath what an operation leaves is that itself or beneath an argument. */
  lemma AnsweredReads(vals: seq<ValNode>, op: Op, args: seq<ValId>, outs: seq<ValId>, k: nat, x: ValId)
    requires WiresOk(vals) && All(args, |vals|) && |args| == op.Effect().inputs && Answers(vals, op, args, outs)
    requires k < |outs| && Beneath(vals, outs[k], x) && x != outs[k]
    ensures AnyBeneath(vals, args, x)
  {
    hide Answers; hide Retupled;
    var v := outs[k];
    Leaves(vals, op, args, outs, k);
    assert vals[v].Below(v);
    if Recoerced(vals, v, op, args) {
      InnerBeneath(vals, op.prim.n, args, v, x);
    } else if BoxOf(vals, v, args) {
      var j :| 0 <= j < |vals[v].args| && Beneath(vals, vals[v].args[j], x);
      assert vals[v].args[j] == args[j] || vals[v].args[j] == args[1 - j];
    } else if v == args[0] {
      assert Beneath(vals, args[0], x);
    } else {
      assert vals[args[0]].Below(args[0]) && vals[args[0]].args[k] == v;
      assert Beneath(vals, args[0], x);
    }
  }

  lemma InnerBeneath(vals: seq<ValNode>, n: nat, args: seq<ValId>, v: ValId, x: ValId)
    requires WiresOk(vals) && All(args, |vals|) && |args| == n && n > 0 && Retupled(vals, n, args).Some?
    requires v < |vals| && Beneath(vals, v, x) && x != v
    requires var inner := Retupled(vals, n, args).value; v == inner || (vals[v].App? && vals[v].args == [inner])
    ensures AnyBeneath(vals, args, x)
  {
    var inner := Retupled(vals, n, args).value;
    assert vals[v].Below(v);
    assert Beneath(vals, inner, x);
    assert SlotOf(vals, n, args[0], 0) == Some(inner);
    assert vals[args[0]].Below(args[0]) && vals[args[0]].args[0] == inner;
    assert Beneath(vals, args[0], x);
  }

  // ---- what a substituted wire reads ----

  /** Writing a literal makes no tuple box out of anything else. */
  lemma {:induction false} TupleStaysTuple(
    vals: seq<ValNode>, v: ValId, from: ValId, to: ValId, out: ValId, n: nat)
    requires WiresOk(vals) && AllUnfolded(vals) && v < |vals| && to < |vals| && vals[to].Lit?
    requires Substituted(vals, v, from, to, out) && vals[out].App? && vals[out].op == Op.Prim(Prim.Tuple(n))
    ensures vals[v].App? && vals[v].op == Op.Prim(Prim.Tuple(n))
    decreases v
  {
    hide Answers; hide AllUnfolded;
    assert vals[v].Below(v);
    if v != from && (vals[v].App? || vals[v].Proj?) && out != v {
      var (op, args) := (vals[v].op, vals[v].args);
      var walked: seq<ValId> :| SubstitutedAll(vals, v, args, from, to, walked) && Rebuilt(vals, v, walked, out);
      var k := OutputOf(vals[v]);
      var outs := Outputs(vals, v, walked, out);
      TupleAnswered(vals, op, walked, outs, k, n);
      if op.Prim? && walked != [] && Cancels(vals, op.prim, walked) {
        TupleStaysTuple(vals, args[0], from, to, walked[0], op.prim.n);
        NothingCancels(vals, v);
      }
    }
  }

  /** No box of the arena takes apart what another just built. */
  lemma NothingCancels(vals: seq<ValNode>, v: ValId)
    requires WiresOk(vals) && AllUnfolded(vals) && v < |vals| && (vals[v].App? || vals[v].Proj?)
    ensures vals[v].Below(v) && All(vals[v].args, |vals|)
    ensures vals[v].op.Prim? ==> !Cancels(vals, vals[v].op.prim, vals[v].args)
  {
    assert NodeUnfolded(vals, v) && vals[v].Below(v);
  }

  /** What writing a literal changed is computed from a literal. */
  lemma {:induction false} ChangedIsImpure(vals: seq<ValNode>, v: ValId, from: ValId, to: ValId, out: ValId)
    requires WiresOk(vals) && AllUnfolded(vals) && v < |vals| && to < |vals| && vals[to].Lit?
    requires Substituted(vals, v, from, to, out) && out != v
    ensures !Pure(vals, out)
    decreases v
  {
    hide Answers; hide AllUnfolded; hide Cancels;
    assert vals[v].Below(v);
    if v != from {
      var (op, args) := (vals[v].op, vals[v].args);
      var walked: seq<ValId> :| SubstitutedAll(vals, v, args, from, to, walked) && walked != args
        && Rebuilt(vals, v, walked, out);
      var j :| 0 <= j < |args| && walked[j] != args[j];
      ChangedIsImpure(vals, args[j], from, to, walked[j]);
      var k := OutputOf(vals[v]);
      var outs := Outputs(vals, v, walked, out);
      CancelledBefore(vals, v, from, to, walked);
      ImpureAnswered(vals, op, walked, outs, k, j);
    }
  }

  /** So an operation that has nothing to take apart still has nothing to take apart. */
  lemma CancelledBefore(vals: seq<ValNode>, v: ValId, from: ValId, to: ValId, walked: seq<ValId>)
    requires WiresOk(vals) && AllUnfolded(vals) && v < |vals| && to < |vals| && vals[to].Lit?
    requires (vals[v].App? || vals[v].Proj?) && All(vals[v].args, v)
    requires SubstitutedAll(vals, v, vals[v].args, from, to, walked)
    requires |walked| == vals[v].op.Effect().inputs
    ensures vals[v].op.Prim? ==> !Cancels(vals, vals[v].op.prim, walked)
  {
    hide Answers; hide AllUnfolded; hide Substituted;
    NothingCancels(vals, v);
    if vals[v].op.Prim? && Cancels(vals, vals[v].op.prim, walked) {
      TupleStaysTuple(vals, vals[v].args[0], from, to, walked[0], vals[v].op.prim.n);
    }
  }

  /**
   * Of the wires computed from inputs alone, what comes out when a literal is written for `from` reads none that
   * was not read before, and no longer `from`.
   */
  lemma {:induction false} SubstitutedReads(
    vals: seq<ValNode>, v: ValId, from: ValId, to: ValId, out: ValId, x: ValId)
    requires WiresOk(vals) && AllUnfolded(vals) && v < |vals| && to < |vals| && vals[to].Lit?
    requires Substituted(vals, v, from, to, out) && x < |vals| && Pure(vals, x) && Beneath(vals, out, x)
    ensures Beneath(vals, v, x) && x != from
    decreases v
  {
    hide Answers; hide AllUnfolded;
    assert vals[v].Below(v) && vals[out].Below(out);
    if v != from && (vals[v].App? || vals[v].Proj?) {
      var (op, args) := (vals[v].op, vals[v].args);
      var walked: seq<ValId> :|
        SubstitutedAll(vals, v, args, from, to, walked)
        && if walked == args then out == v else Rebuilt(vals, v, walked, out);
      if x == out {
        if out != v {
          ChangedIsImpure(vals, v, from, to, out);
        }
      } else {
        WalkedReads(vals, v, walked, out, x);
        var j :| 0 <= j < |walked| && Beneath(vals, walked[j], x);
        SubstitutedReads(vals, args[j], from, to, walked[j], x);
      }
    }
  }

  lemma WalkedReads(vals: seq<ValNode>, v: ValId, walked: seq<ValId>, out: ValId, x: ValId)
    requires WiresOk(vals) && v < |vals| && (vals[v].App? || vals[v].Proj?) && All(walked, |vals|)
    requires out < |vals| && x != out && Beneath(vals, out, x)
    requires if walked == vals[v].args then out == v else Rebuilt(vals, v, walked, out)
    ensures AnyBeneath(vals, walked, x)
  {
    hide Answers;
    assert vals[v].Below(v) && vals[out].Below(out);
    if walked != vals[v].args {
      var k := OutputOf(vals[v]);
      var outs := Outputs(vals, v, walked, out);
      AnsweredReads(vals, vals[v].op, walked, outs, k, x);
    }
  }

  function Returning(): seq<ValNode> {
    var subtract := Op.Prim(Prim.Subtract);
    [Var(0), Lit(Int(7)), App(subtract, [0, 1]), App(subtract, [0, 2])]
  }

  lemma ReturningKept()
    ensures var vals := Returning();
      WiresOk(vals) && Distinct(vals) && AllUnfolded(vals)
      && Answers(vals, Op.Prim(Prim.Subtract), [0, 1], [2]) && Beneath(vals, 2, 2) && !Pure(vals, 2)
  {
    var vals := Returning();
    assert WiresOk(vals);
    assert Literals(vals, [0, 1]).None? && Literals(vals, [0, 2]).None?;
    assert NodeUnfolded(vals, 2) && NodeUnfolded(vals, 3);
    assert !Pure(vals, vals[2].args[1]);
  }

  /**
   * A wire computed from a literal may come out of its own substitution. Wire 2 is `x = subtract(v0, 7)` and wire 3
   * is `subtract(v0, x)`: where `x` is 7 that is `subtract(v0, 7)`, which is `x`.
   */
  lemma ImpureComesBack()
    ensures var vals := Returning();
      && WiresOk(vals) && Distinct(vals) && AllUnfolded(vals)
      && Substituted(vals, 3, 2, 1, 2) && Beneath(vals, 2, 2) && !Pure(vals, 2)
  {
    hide Answers; hide AllUnfolded; hide Beneath; hide Pure; hide Distinct;
    ReturningKept();
    var vals := Returning();
    assert Substituted(vals, 0, 2, 1, 0) && Substituted(vals, 2, 2, 1, 1);
    assert SubstitutedAll(vals, 3, [0, 2], 2, 1, [0, 1]);
    assert Rebuilt(vals, 3, [0, 1], 2);
  }

  // ---- leaves ----

  /** A leaf becomes the leaf of what its wires become. */
  ghost predicate SubstitutedLeaf(a: Arena, d: DiagId, from: ValId, to: ValId, out: DiagId)
    requires a.Ok() && d < |a.diags| && out < |a.diags|
  {
    a.diags[d].Leaf? ==>
      assert a.diags[d].Below(d, |a.vals|);
      && a.diags[out].Leaf?
      && SubstitutedAll(a.vals, |a.vals|, a.diags[d].vals, from, to, a.diags[out].vals)
  }

  lemma SubstitutedLeafStays(a: Arena, b: Arena, d: DiagId, from: ValId, to: ValId, out: DiagId)
    requires a.Ok() && b.Ok() && Extends(a, b) && d < |a.diags| && out < |a.diags|
    requires SubstitutedLeaf(a, d, from, to, out)
    ensures SubstitutedLeaf(b, d, from, to, out)
  {
    hide Substituted;
    assert a.diags[d].Below(d, |a.vals|) && b.diags[d] == a.diags[d] && b.diags[out] == a.diags[out];
    if a.diags[d].Leaf? {
      var (vs, walked) := (a.diags[d].vals, a.diags[out].vals);
      forall k | 0 <= k < |vs| ensures Substituted(b.vals, vs[k], from, to, walked[k]) {
        SubstitutedStays(a.vals, b.vals, vs[k], from, to, walked[k]);
      }
    }
  }
}
