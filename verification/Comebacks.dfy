/** When a wire may come out of its own substitution: exactly when a literal is beneath it. */
module Comebacks {
  import opened Wrappers
  import opened Values
  import opened Prims
  import opened Wires
  import opened Order
  import opened Supports
  import opened Folds
  import opened Substitutions

  /** An arena of wires as the interner keeps it. */
  ghost predicate Kept(vals: seq<ValNode>) {
    WiresOk(vals) && Distinct(vals) && AllUnfolded(vals)
  }

  // ---- one more box ----

  lemma Appended(vals: seq<ValNode>, op: Op, args: seq<ValId>, k: nat)
    requires Kept(vals) && Box(op, args, |vals|) && Unfolded(vals, op, args) && k < op.Effect().outputs
    requires forall v: ValId | v < |vals| :: vals[v] != BoxNode(op, args, k)
    ensures Kept(vals + [BoxNode(op, args, k)])
  {
    hide Unfolded;
    var node := BoxNode(op, args, k);
    var more := vals + [node];
    assert node.Below(|vals|);
    forall v: ValId | v < |more| ensures NodeUnfolded(more, v) {
      if v < |vals| {
        assert NodeUnfolded(vals, v);
        NodeStaysUnfolded(vals, more, v);
      } else {
        UnfoldedStays(vals, more, op, args);
      }
    }
  }

  /** The first `n` outputs of a box, those that were not there added. */
  lemma {:induction false} Boxed(vals: seq<ValNode>, op: Op, args: seq<ValId>, n: nat)
    returns (more: seq<ValNode>, outs: seq<ValId>)
    requires Kept(vals) && Box(op, args, |vals|) && Unfolded(vals, op, args) && n <= op.Effect().outputs
    ensures vals <= more && Kept(more) && |outs| == n && BuiltAs(more, op, args, outs)
    decreases n
  {
    hide Unfolded; hide AllUnfolded;
    if n == 0 {
      return vals, [];
    }
    more, outs := Boxed(vals, op, args, n - 1);
    if v: ValId :| v < |more| && more[v] == BoxNode(op, args, n - 1) {
      outs := outs + [v];
    } else {
      UnfoldedStays(vals, more, op, args);
      Appended(more, op, args, n - 1);
      outs, more := outs + [|more|], more + [BoxNode(op, args, n - 1)];
    }
  }

  // ---- the wire that becomes a given one ----

  /** The same output of the same operation. */
  predicate SameBox(node: ValNode, other: ValNode) {
    || (node.App? && other.App? && node.op == other.op)
    || (node.Proj? && other.Proj? && node.op == other.op && node.index == other.index)
  }

  /** `z` reads `from`, and becomes `y` once the literal `to` is written for it. */
  ghost predicate Becomes(vals: seq<ValNode>, from: ValId, to: ValId, y: ValId, z: ValId)
    requires WiresOk(vals)
  {
    && y < |vals| && z < |vals| && z != y && Beneath(vals, z, from) && Substituted(vals, z, from, to, y)
    && if vals[y].Lit? then z == from else SameBox(vals[z], vals[y])
  }

  lemma {:induction false} BeneathArgs(vals: seq<ValNode>, v: ValId, y: ValId, j: nat)
    requires WiresOk(vals) && v < |vals| && Beneath(vals, v, y) && y < |vals| && (vals[y].App? || vals[y].Proj?)
    requires j < |vals[y].args|
    ensures vals[y].args[j] < y && Beneath(vals, v, vals[y].args[j])
    decreases v
  {
    assert vals[v].Below(v) && vals[y].Below(y);
    if v != y {
      var k :| 0 <= k < |vals[v].args| && Beneath(vals, vals[v].args[k], y);
      BeneathArgs(vals, vals[v].args[k], y, j);
    } else {
      assert Beneath(vals, vals[v].args[j], vals[v].args[j]);
    }
  }

  /** What is older than `from` is not changed. */
  lemma {:induction false} OlderStays(vals: seq<ValNode>, v: ValId, from: ValId, to: ValId)
    requires WiresOk(vals) && v < from && v < |vals|
    ensures Substituted(vals, v, from, to, v)
    decreases v
  {
    hide Answers;
    assert vals[v].Below(v);
    if vals[v].App? || vals[v].Proj? {
      var args := vals[v].args;
      forall k | 0 <= k < |args| ensures Substituted(vals, args[k], from, to, args[k]) {
        OlderStays(vals, args[k], from, to);
      }
      assert SubstitutedAll(vals, v, args, from, to, args);
    }
  }

  /** `z` for argument `j` of `y`, where that is what `z` becomes. */
  ghost predicate Swapping(vals: seq<ValNode>, from: ValId, to: ValId, y: ValId, j: nat, z: ValId)
    requires WiresOk(vals)
  {
    && from < |vals| && !vals[from].Lit? && y <= from && (vals[y].App? || vals[y].Proj?) && Beneath(vals, from, y)
    && NodeUnfolded(vals, y) && j < |vals[y].args| && Becomes(vals, from, to, vals[y].args[j], z)
  }

  lemma SlotAbove(vals: seq<ValNode>, from: ValId, to: ValId, y: ValId, j: nat, z: ValId, n: nat, inner: ValId)
    requires WiresOk(vals) && Swapping(vals, from, to, y, j, z) && vals[y].op == Op.Prim(Prim.Tuple(n))
    requires SlotOf(vals, n, z, j) == Some(inner)
    ensures inner >= y
  {
    hide Substituted; hide NodeUnfolded;
    assert vals[z].Below(z) && vals[y].Below(y) && vals[z].args == [inner];
    if z == from {
      var k :| 0 <= k < |vals[from].args| && Beneath(vals, vals[from].args[k], y);
      BeneathIsOlder(vals, inner, y);
    } else {
      var k :| 0 <= k < |vals[z].args| && Beneath(vals, vals[z].args[k], from);
      BeneathIsOlder(vals, inner, from);
    }
  }

  /** No fold looks at an argument closely enough to tell the two apart. */
  lemma NothingRebuilds(vals: seq<ValNode>, from: ValId, to: ValId, y: ValId, j: nat, z: ValId, n: nat)
    requires WiresOk(vals) && Swapping(vals, from, to, y, j, z) && vals[y].op == Op.Prim(Prim.Tuple(n)) && n > 0
    requires |vals[y].args| == n && All(vals[y].args[j := z], |vals|)
    ensures Retupled(vals, n, vals[y].args[j := z]).None?
  {
    hide Substituted;
    var args := vals[y].args;
    assert vals[y].Below(y);
    var changed := args[j := z];
    if Retupled(vals, n, changed).Some? {
      var inner := Retupled(vals, n, changed).value;
      assert SlotOf(vals, n, changed[j], j) == Some(inner);
      if n > 1 {
        var i := if j == 0 then 1 else 0;
        assert changed[i] == args[i] && SlotOf(vals, n, changed[i], i) == Some(inner);
        assert vals[args[i]].Below(args[i]) && inner < y;
        SlotAbove(vals, from, to, y, j, z, n, inner);
      }
    }
  }

  lemma StillUnfolded(vals: seq<ValNode>, from: ValId, to: ValId, y: ValId, j: nat, z: ValId, changed: seq<ValId>)
    requires Kept(vals) && Swapping(vals, from, to, y, j, z) && vals[y].Below(y) && changed == vals[y].args[j := z]
    ensures All(changed, |vals|)
    ensures var op := vals[y].op;
      Unfolded(vals, op, if op.Prim? then InOrder(vals, op.prim, changed) else changed)
  {
    hide Substituted; hide AllUnfolded; hide Beneath; hide CmpVal; hide NodeUnfolded; hide Literals; hide Retupled;
    var op := vals[y].op;
    if op.Prim? {
      NotAllLiterals(vals, changed, z, j);
      if op.prim.Commutative() {
        WireFlips(vals, changed[0], changed[1]);
        NotAllLiterals(vals, [changed[1], changed[0]], z, 1 - j);
      } else {
        NothingElseFolds(vals, from, to, y, j, z, changed);
      }
    }
  }

  lemma NotAllLiterals(vals: seq<ValNode>, args: seq<ValId>, z: ValId, j: nat)
    requires WiresOk(vals) && All(args, |vals|) && j < |args| && args[j] == z && !vals[z].Lit?
    ensures Literals(vals, args).None?
  {
  }

  lemma NothingElseFolds(
    vals: seq<ValNode>, from: ValId, to: ValId, y: ValId, j: nat, z: ValId, changed: seq<ValId>)
    requires Kept(vals) && Swapping(vals, from, to, y, j, z) && vals[y].Below(y) && changed == vals[y].args[j := z]
    requires vals[y].op.Prim? && All(changed, |vals|)
    ensures var prim := vals[y].op.prim;
      && !Cancels(vals, prim, changed) && !Rebuilds(vals, prim, changed) && !IdempotentCoercion(vals, prim, changed)
      && !KnownBool(vals, prim, changed)
  {
    hide Substituted; hide AllUnfolded; hide Beneath; hide CmpVal; hide Retupled;
    var (prim, args) := (vals[y].op.prim, vals[y].args);
    assert |args| == 1 ==> !vals[args[0]].Lit? by {
      assert Literals(vals, args).None?;
    }
    if prim.Tuple? && prim.n > 0 {
      NothingRebuilds(vals, from, to, y, j, z, prim.n);
    }
  }

  /** The operation on its own arguments, in either order where that is one to it, is what it was. */
  lemma AnswersEither(vals: seq<ValNode>, op: Op, args: seq<ValId>, walked: seq<ValId>, outs: seq<ValId>)
    requires Kept(vals) && Box(op, args, |vals|) && Unfolded(vals, op, args)
    requires walked == args || (op.Prim? && op.prim.Commutative() && walked == [args[1], args[0]])
    requires |outs| == op.Effect().outputs && BuiltAs(vals, op, args, outs)
    ensures All(walked, |vals|) && Answers(vals, op, walked, outs)
  {
    if op.Prim? && op.prim.Commutative() {
      WireFlips(vals, args[0], args[1]);
      assert args == [args[0], args[1]];
      assert InOrder(vals, op.prim, walked) == args;
      assert Literals(vals, walked).None?;
    }
  }

  /** The arguments of `y`, one of them changed, in either order, and what they become. */
  ghost predicate Paired(vals: seq<ValNode>, y: ValId, j: nat, z: ValId, sorted: seq<ValId>, walked: seq<ValId>)
    requires y < |vals| && (vals[y].App? || vals[y].Proj?) && j < |vals[y].args|
  {
    var (op, args) := (vals[y].op, vals[y].args);
    || (sorted == args[j := z] && walked == args)
    || (op.Prim? && op.prim.Commutative() && |args| == 2 && walked == [args[1], args[0]]
        && sorted == [args[j := z][1], args[j := z][0]])
  }

  lemma WalkedBack(
    vals: seq<ValNode>, from: ValId, to: ValId, y: ValId, j: nat, z: ValId, above: ValId, sorted: seq<ValId>,
    walked: seq<ValId>)
    requires WiresOk(vals) && Swapping(vals, from, to, y, j, z) && above < |vals| && vals[y].Below(y)
    requires All(sorted, above) && Paired(vals, y, j, z, sorted, walked)
    ensures z in sorted && walked != sorted && SubstitutedAll(vals, above, sorted, from, to, walked)
  {
    hide Answers; hide Substituted; hide NodeUnfolded;
    var args := vals[y].args;
    BeneathIsOlder(vals, z, from);
    assert if sorted == args[j := z] then sorted[j] == z && walked[j] == args[j]
      else sorted[1 - j] == z && walked[1 - j] == args[j];
    forall i | 0 <= i < |sorted| ensures Substituted(vals, sorted[i], from, to, walked[i]) {
      if sorted[i] != z || walked[i] != args[j] {
        OlderStays(vals, walked[i], from, to);
      }
    }
  }

  /** `y` and the wire that becomes it, both built: what its changed arguments become is its own arguments. */
  lemma Joined(
    vals: seq<ValNode>, from: ValId, to: ValId, y: ValId, j: nat, z: ValId, above: ValId, sorted: seq<ValId>,
    walked: seq<ValId>, own: seq<ValId>)
    requires Kept(vals) && Swapping(vals, from, to, y, j, z) && above < |vals| && vals[y].Below(y)
    requires SameBox(vals[above], vals[y]) && vals[above].args == sorted && Paired(vals, y, j, z, sorted, walked)
    requires |own| == vals[y].op.Effect().outputs && BuiltAs(vals, vals[y].op, vals[y].args, own)
    ensures Becomes(vals, from, to, y, above)
  {
    hide Answers; hide AllUnfolded; hide Unfolded; hide SubstitutedAll;
    var (op, args) := (vals[y].op, vals[y].args);
    assert vals[above].Below(above);
    WalkedBack(vals, from, to, y, j, z, above, sorted, walked);
    var k :| 0 <= k < |sorted| && sorted[k] == z;
    BeneathIsOlder(vals, z, from);
    assert Beneath(vals, above, from);
    AnswersEither(vals, op, args, walked, own);
    var out := OutputOf(vals[above]);
    assert vals[own[out]] == vals[y];
    assert Rebuilt(vals, above, walked, y);
  }

  lemma BecomesStays(vals: seq<ValNode>, more: seq<ValNode>, from: ValId, to: ValId, y: ValId, z: ValId)
    requires WiresOk(vals) && WiresOk(more) && vals <= more && Becomes(vals, from, to, y, z)
    ensures Becomes(more, from, to, y, z)
  {
    hide Substituted;
    SubstitutedStays(vals, more, z, from, to, y);
    BeneathStays(vals, more, z, from);
  }

  lemma SwappingStays(vals: seq<ValNode>, more: seq<ValNode>, from: ValId, to: ValId, y: ValId, j: nat, z: ValId)
    requires WiresOk(vals) && WiresOk(more) && vals <= more && Swapping(vals, from, to, y, j, z)
    ensures Swapping(more, from, to, y, j, z)
  {
    hide Becomes; hide NodeUnfolded;
    BecomesStays(vals, more, from, to, vals[y].args[j], z);
    BeneathStays(vals, more, from, y);
    NodeStaysUnfolded(vals, more, y);
  }

  /** One box up: with what its argument comes of, and the box itself, in the arena. */
  lemma Raised(vals: seq<ValNode>, from: ValId, to: ValId, y: ValId, j: nat, z: ValId)
    returns (more: seq<ValNode>, above: ValId)
    requires Kept(vals) && Swapping(vals, from, to, y, j, z)
    ensures vals <= more && Kept(more) && Becomes(more, from, to, y, above)
  {
    hide Answers; hide AllUnfolded; hide Unfolded; hide Becomes; hide NodeUnfolded; hide InOrder;
    assert vals[y].Below(y);
    var (op, args) := (vals[y].op, vals[y].args);
    var changed := args[j := z];
    StillUnfolded(vals, from, to, y, j, z, changed);
    var sorted := if op.Prim? then InOrder(vals, op.prim, changed) else changed;
    var n := op.Effect().outputs;
    var mid, outs := Boxed(vals, op, sorted, n);
    OwnUnfolded(mid, vals, y);
    var own;
    more, own := Boxed(mid, op, args, n);
    above := outs[OutputOf(vals[y])];
    SwappingStays(vals, more, from, to, y, j, z);
    if op.Prim? { SortedEither(vals, op, changed); }
    Joined(more, from, to, y, j, z, above, sorted, if sorted == changed then args else [args[1], args[0]], own);
  }

  lemma SortedEither(vals: seq<ValNode>, op: Op, args: seq<ValId>)
    requires WiresOk(vals) && All(args, |vals|) && |args| == op.Effect().inputs && op.Prim?
    ensures InOrder(vals, op.prim, args) == args
      || (op.prim.Commutative() && |args| == 2 && InOrder(vals, op.prim, args) == [args[1], args[0]])
  {
  }

  lemma OwnUnfolded(more: seq<ValNode>, vals: seq<ValNode>, y: ValId)
    requires WiresOk(vals) && WiresOk(more) && vals <= more && y < |vals| && (vals[y].App? || vals[y].Proj?)
    requires NodeUnfolded(vals, y)
    ensures vals[y].Below(y) && Box(vals[y].op, vals[y].args, |more|) && Unfolded(more, vals[y].op, vals[y].args)
  {
    assert vals[y].Below(y);
    UnfoldedStays(vals, more, vals[y].op, vals[y].args);
  }

  /** Down from `from` to a literal, and back up with `from` in that literal's place. */
  lemma {:induction false} ComesBack(vals: seq<ValNode>, from: ValId, y: ValId)
    returns (more: seq<ValNode>, to: ValId, z: ValId)
    requires Kept(vals) && from < |vals| && !vals[from].Lit? && y < |vals| && Beneath(vals, from, y) && !Pure(vals, y)
    ensures vals <= more && Kept(more) && to < |vals| && vals[to].Lit? && Becomes(more, from, to, y, z)
    decreases y
  {
    hide Answers; hide AllUnfolded; hide NodeUnfolded; hide Becomes; hide Distinct;
    assert vals[y].Below(y);
    if vals[y].Lit? {
      LiteralBecomes(vals, from, y);
      return vals, y, from;
    }
    var j :| 0 <= j < |vals[y].args| && !Pure(vals, vals[y].args[j]);
    BeneathArgs(vals, from, y, j);
    BeneathIsOlder(vals, from, y);
    var mid;
    mid, to, z := ComesBack(vals, from, vals[y].args[j]);
    BeneathStays(vals, mid, from, y);
    assert NodeUnfolded(mid, y) by { NodeKept(mid, y); }
    more, z := Raised(mid, from, to, y, j, z);
  }

  lemma NodeKept(vals: seq<ValNode>, y: ValId)
    requires Kept(vals) && y < |vals|
    ensures NodeUnfolded(vals, y)
  {
  }

  lemma LiteralBecomes(vals: seq<ValNode>, from: ValId, y: ValId)
    requires WiresOk(vals) && from < |vals| && y < |vals| && vals[y].Lit? && !vals[from].Lit?
    ensures Becomes(vals, from, y, y, from)
  {
  }

  // ---- exactly when ----

  /** However the arena grows, no wire comes to read `from` by having a literal written for it. */
  ghost predicate Forgettable(vals: seq<ValNode>, from: ValId) {
    forall more: seq<ValNode>, v: ValId, to: ValId, out: ValId |
      vals <= more && Kept(more) && v < |more| && to < |more| && more[to].Lit? && Substituted(more, v, from, to, out) ::
        out < |more| && !Beneath(more, out, from)
  }

  /** A wire is forgotten wherever a literal is written for it exactly if no literal is beneath it. */
  lemma ForgottenExactly(vals: seq<ValNode>, from: ValId)
    requires Kept(vals) && from < |vals|
    ensures Forgettable(vals, from) <==> Pure(vals, from)
  {
    hide Answers; hide AllUnfolded; hide Substituted; hide Distinct; hide Becomes;
    if Pure(vals, from) {
      forall more: seq<ValNode>, v: ValId, to: ValId, out: ValId |
        vals <= more && Kept(more) && v < |more| && to < |more| && more[to].Lit? && Substituted(more, v, from, to, out)
        ensures out < |more| && !Beneath(more, out, from)
      {
        PureStays(vals, more, from);
        Within(more, v, from, to, out);
        if Beneath(more, out, from) {
          SubstitutedReads(more, v, from, to, out, from);
        }
      }
    } else if vals[from].Lit? {
      ItselfWritten(vals, from);
    } else {
      assert Beneath(vals, from, from);
      var more, to, z := ComesBack(vals, from, from);
      BecomesReads(more, from, to, z);
      assert vals <= more && Kept(more) && more[to].Lit? && Substituted(more, z, from, to, from);
    }
  }

  lemma Within(vals: seq<ValNode>, v: ValId, from: ValId, to: ValId, out: ValId)
    requires WiresOk(vals) && v < |vals| && Substituted(vals, v, from, to, out)
    ensures out < |vals|
  {
  }

  lemma BecomesReads(vals: seq<ValNode>, from: ValId, to: ValId, z: ValId)
    requires WiresOk(vals) && Becomes(vals, from, to, from, z)
    ensures z < |vals| && from < |vals| && Substituted(vals, z, from, to, from) && Beneath(vals, from, from)
  {
  }

  lemma ItselfWritten(vals: seq<ValNode>, from: ValId)
    requires WiresOk(vals) && from < |vals|
    ensures Substituted(vals, from, from, from, from) && Beneath(vals, from, from)
  {
  }
}
