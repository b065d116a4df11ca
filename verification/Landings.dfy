/** Terms without a branch run on wires: which wires they land on, and that they always land on the same ones. */
module Landings {
  import opened Values
  import opened Terms
  import opened Readings
  import opened Wires
  import opened Order
  import opened Folds

  /** At most one branch, between straight arms, is met on the way through the term. */
  predicate OneFork(t: Tree) {
    match t
    case Compose(l, r) => (OneFork(l) && Straight(r)) || (Straight(l) && OneFork(r))
    case Par(l, r) => (OneFork(l) && Straight(r)) || (Straight(l) && OneFork(r))
    case Branch(x, y) => Straight(x) && Straight(y)
    case _ => true
  }

  /** Run on these wires, a straight term leaves those. */
  ghost predicate Lands(vals: seq<ValNode>, t: Tree, stack: seq<ValId>, out: seq<ValId>)
    requires WiresOk(vals)
    decreases t
  {
    && t.Ok() && |stack| == t.Effect().inputs && All(stack, |vals|)
    && All(out, |vals|) && |out| == t.Effect().outputs
    && match t
      case Id(_) => out == stack
      case Drop(_) => out == []
      case Copy(_) => out == stack + stack
      case Op(p) =>
        if p.Push? then vals[out[0]] == Lit(p.v)
        else if p.Swap? then out == [stack[1], stack[0]]
        else Answers(vals, Op.Prim(p), stack, out)
      case Call(target, arity) => Answers(vals, Op.Call(target, arity), stack, out)
      case Compose(l, r) => exists mid: seq<ValId> :: Lands(vals, l, stack, mid) && Lands(vals, r, mid, out)
      case Par(l, r) =>
        var (cut, rise) := (l.Effect().inputs, l.Effect().outputs);
        Lands(vals, l, stack[..cut], out[..rise]) && Lands(vals, r, stack[cut..], out[rise..])
      case Branch(_, _) => false
  }

  lemma {:induction false} LandsStays(
    vals: seq<ValNode>, more: seq<ValNode>, t: Tree, stack: seq<ValId>, out: seq<ValId>)
    requires WiresOk(vals) && WiresOk(more) && vals <= more && Lands(vals, t, stack, out)
    ensures Lands(more, t, stack, out)
    decreases t
  {
    hide Answers;
    match t
    case Op(p) =>
      if !p.Push? && !p.Swap? {
        AnswersStay(vals, more, Op.Prim(p), stack, out);
      }
    case Call(target, arity) => AnswersStay(vals, more, Op.Call(target, arity), stack, out);
    case Compose(l, r) =>
      var mid: seq<ValId> :| Lands(vals, l, stack, mid) && Lands(vals, r, mid, out);
      LandsStays(vals, more, l, stack, mid);
      LandsStays(vals, more, r, mid, out);
    case Par(l, r) =>
      var (cut, rise) := (l.Effect().inputs, l.Effect().outputs);
      LandsStays(vals, more, l, stack[..cut], out[..rise]);
      LandsStays(vals, more, r, stack[cut..], out[rise..]);
    case _ =>
  }

  /** No term lands on two different stacks of wires. */
  lemma {:induction false} LandsOnce(
    vals: seq<ValNode>, t: Tree, stack: seq<ValId>, out: seq<ValId>, other: seq<ValId>)
    requires WiresOk(vals) && Distinct(vals) && Lands(vals, t, stack, out) && Lands(vals, t, stack, other)
    ensures out == other
    decreases t
  {
    hide Answers;
    match t
    case Op(p) =>
      if p.Push? {
        assert vals[out[0]] == vals[other[0]];
      } else if !p.Swap? {
        AnswersOnce(vals, Op.Prim(p), stack, out, other);
      }
    case Call(target, arity) => AnswersOnce(vals, Op.Call(target, arity), stack, out, other);
    case Compose(l, r) =>
      var mid: seq<ValId> :| Lands(vals, l, stack, mid) && Lands(vals, r, mid, out);
      var yon: seq<ValId> :| Lands(vals, l, stack, yon) && Lands(vals, r, yon, other);
      LandsOnce(vals, l, stack, mid, yon);
      LandsOnce(vals, r, mid, out, other);
    case Par(l, r) =>
      var (cut, rise) := (l.Effect().inputs, l.Effect().outputs);
      LandsOnce(vals, l, stack[..cut], out[..rise], other[..rise]);
      LandsOnce(vals, r, stack[cut..], out[rise..], other[rise..]);
      assert out == out[..rise] + out[rise..] && other == other[..rise] + other[rise..];
    case _ =>
  }

  /** Where no instruction computes, what a term lands on no instruction computed. */
  lemma {:induction false} LandsSpoken(
    vals: seq<ValNode>, t: Tree, stack: seq<ValId>, out: seq<ValId>, pushed: set<Value>)
    requires WiresOk(vals) && Opaque(t) && Pushed(t) <= pushed && Lands(vals, t, stack, out)
    requires AllSpoken(vals, stack, pushed)
    ensures AllSpoken(vals, out, pushed)
    decreases t
  {
    match t
    case Call(target, arity) =>
      forall k | 0 <= k < |out| ensures Spoken(vals, out[k], pushed) {
        assert vals[out[k]] == BoxNode(Op.Call(target, arity), stack, k);
      }
    case Compose(l, r) =>
      var mid: seq<ValId> :| Lands(vals, l, stack, mid) && Lands(vals, r, mid, out);
      LandsSpoken(vals, l, stack, mid, pushed);
      LandsSpoken(vals, r, mid, out, pushed);
    case Par(l, r) =>
      var (cut, rise) := (l.Effect().inputs, l.Effect().outputs);
      LandsSpoken(vals, l, stack[..cut], out[..rise], pushed);
      LandsSpoken(vals, r, stack[cut..], out[rise..], pushed);
      assert forall k | 0 <= k < |out| :: out[k] == if k < rise then out[..rise][k] else out[rise..][k - rise];
    case _ =>
  }

  lemma {:induction false} CartesianIsStraight(t: Tree)
    requires t.Cartesian()
    ensures Straight(t) && Opaque(t) && Pushed(t) == {}
    decreases t
  {
    match t
    case Compose(l, r) =>
      CartesianIsStraight(l);
      CartesianIsStraight(r);
    case Par(l, r) =>
      CartesianIsStraight(l);
      CartesianIsStraight(r);
    case _ =>
  }

  // ---- in every arena to come ----

  /** Interning these wires and more gives those. */
  ghost predicate GrowsInto(vals: seq<ValNode>, more: seq<ValNode>) {
    WiresOk(vals) && WiresOk(more) && vals <= more && Distinct(more) && AllUnfolded(more)
  }

  /** However the arena grows, these are the only wires the term can land on. */
  ghost predicate LandsOnly(vals: seq<ValNode>, t: Tree, stack: seq<ValId>, out: seq<ValId>) {
    forall more: seq<ValNode>, o: seq<ValId> {:trigger Lands(more, t, stack, o)} |
      GrowsInto(vals, more) && Lands(more, t, stack, o) :: o == out
  }

  lemma LandsOnlyStays(vals: seq<ValNode>, more: seq<ValNode>, t: Tree, stack: seq<ValId>, out: seq<ValId>)
    requires WiresOk(vals) && WiresOk(more) && vals <= more && LandsOnly(vals, t, stack, out)
    ensures LandsOnly(more, t, stack, out)
  {
    hide Lands;
    forall most: seq<ValNode>, o: seq<ValId> {:trigger Lands(most, t, stack, o)} |
      GrowsInto(more, most) && Lands(most, t, stack, o)
      ensures o == out
    {
      assert GrowsInto(vals, most);
    }
  }

  // ---- on the top of a deeper stack ----

  /** What lies under a term's inputs passes. */
  ghost predicate LandsOn(vals: seq<ValNode>, t: Tree, stack: seq<ValId>, out: seq<ValId>)
    requires WiresOk(vals)
  {
    && t.Effect().inputs <= |stack| && All(stack, |vals|)
    && var cut := |stack| - t.Effect().inputs;
      stack[..cut] <= out && Lands(vals, t, stack[cut..], out[cut..])
  }

  lemma LandsWhole(vals: seq<ValNode>, t: Tree, stack: seq<ValId>, out: seq<ValId>)
    requires WiresOk(vals) && |stack| == t.Effect().inputs
    ensures Lands(vals, t, stack, out) <==> LandsOn(vals, t, stack, out)
  {
    assert stack[0..] == stack && out[0..] == out && stack[..0] == [];
  }

  /** Over `n` more wires a widened term does what the term does. */
  lemma WidenedLands(vals: seq<ValNode>, t: Tree, n: nat, stack: seq<ValId>, out: seq<ValId>)
    requires WiresOk(vals) && LandsOn(vals, Widened(t, n), stack, out)
    ensures LandsOn(vals, t, stack, out)
  {
    hide Answers;
    if n > 0 {
      var wide := Widened(t, n);
      var cut := |stack| - wide.Effect().inputs;
      assert Lands(vals, Tree.Id(n), stack[cut..][..n], out[cut..][..n]);
      assert stack[cut..][n..] == stack[cut + n..] && out[cut..][n..] == out[cut + n..];
      assert stack[..cut + n] == stack[..cut] + stack[cut..][..n];
      assert out[..cut + n] == out[..cut] + out[cut..][..n];
    }
  }

  lemma Midway(vals: seq<ValNode>, l: Tree, r: Tree, stack: seq<ValId>, out: seq<ValId>) returns (mid: seq<ValId>)
    requires WiresOk(vals) && Lands(vals, Tree.Compose(l, r), stack, out)
    ensures Lands(vals, l, stack, mid) && Lands(vals, r, mid, out)
  {
    mid :| Lands(vals, l, stack, mid) && Lands(vals, r, mid, out);
  }

  lemma ComposeLands(vals: seq<ValNode>, l: Tree, r: Tree, stack: seq<ValId>, out: seq<ValId>) returns (mid: seq<ValId>)
    requires WiresOk(vals) && LandsOn(vals, Tree.Compose(l, r), stack, out)
    ensures LandsOn(vals, l, stack, mid) && LandsOn(vals, r, mid, out)
  {
    hide Lands;
    var cut := |stack| - l.Effect().inputs;
    var top := Midway(vals, l, r, stack[cut..], out[cut..]);
    mid := stack[..cut] + top;
    Above(vals, l, stack[..cut], stack[cut..], top);
    Above(vals, r, stack[..cut], top, out[cut..]);
    assert stack == stack[..cut] + stack[cut..] && out == stack[..cut] + out[cut..];
  }

  /** A padded composition lands where its halves do, one after the other. */
  lemma ComposedLands(
    vals: seq<ValNode>, l: Tree, r: Tree, stack: seq<ValId>, out: seq<ValId>) returns (mid: seq<ValId>)
    requires WiresOk(vals) && LandsOn(vals, Composed(l, r), stack, out)
    ensures LandsOn(vals, l, stack, mid) && LandsOn(vals, r, mid, out)
  {
    hide Lands; hide LandsOn; hide Tree.Effect; hide Widened;
    var (have, want) := (l.Effect().outputs, r.Effect().inputs);
    var n := if have < want then want - have else 0;
    var m := if have < want then 0 else have - want;
    NotWidened(l);
    NotWidened(r);
    assert Composed(l, r) == Tree.Compose(Widened(l, n), Widened(r, m));
    mid := ComposeLands(vals, Widened(l, n), Widened(r, m), stack, out);
    WidenedLands(vals, l, n, stack, mid);
    WidenedLands(vals, r, m, mid, out);
  }

  lemma NotWidened(t: Tree)
    ensures Widened(t, 0) == t
  {
  }

  lemma Above(vals: seq<ValNode>, t: Tree, below: seq<ValId>, stack: seq<ValId>, out: seq<ValId>)
    requires WiresOk(vals) && Lands(vals, t, stack, out) && All(below, |vals|)
    ensures LandsOn(vals, t, below + stack, below + out)
  {
    assert (below + stack)[..|below|] == below && (below + stack)[|below|..] == stack;
    assert (below + out)[|below|..] == out;
  }
}
