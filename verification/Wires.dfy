/** The arena of a string diagram: wires, decisions on wires, and what each of them computes. */
module Wires {
  import opened Values
  import opened Prims
  import opened Terms

  type ValId = nat
  type DiagId = nat

  /** What a box computes: an instruction of the machine, or whatever a sentence is read as. */
  datatype Op =
    | Prim(prim: Prim)
    | Call(target: SentenceIndex, arity: Arity)
  {
    function Effect(): Arity {
      match this
      case Prim(p) => p.Effect()
      case Call(_, arity) => arity
    }
  }

  datatype ValNode =
    | Var(i: nat)
    | Lit(v: Value)
    | App(op: Op, args: seq<ValId>)
    | Proj(index: nat, op: Op, args: seq<ValId>)
  {
    /** Arguments were interned first, and there are as many as the operation takes. */
    predicate Below(bound: nat) {
      match this
      case App(op, args) => Box(op, args, bound) && op.Effect().outputs == 1
      case Proj(index, op, args) =>
        Box(op, args, bound) && op.Effect().outputs != 1 && index < op.Effect().outputs
      case _ => true
    }
  }

  /** What a `push` leaves is a literal, and a `swap` is only wiring: neither is ever a box. */
  predicate Boxable(op: Op) {
    op.Prim? ==> !op.prim.Push? && !op.prim.Swap?
  }

  /** A box on its arguments. */
  predicate Box(op: Op, args: seq<ValId>, bound: nat) {
    |args| == op.Effect().inputs && All(args, bound) && Boxable(op)
  }

  predicate All(ids: seq<nat>, bound: nat) {
    forall k | 0 <= k < |ids| :: ids[k] < bound
  }

  datatype DiagNode =
    | Leaf(vals: seq<ValId>)
    | Branch(cond: ValId, ifTrue: DiagId, ifFalse: DiagId)
  {
    predicate Below(bound: nat, wires: nat) {
      match this
      case Leaf(vs) => All(vs, wires)
      case Branch(c, t, f) => c < wires && t < bound && f < bound && t != f
    }
  }

  datatype Arena = Arena(vals: seq<ValNode>, diags: seq<DiagNode>) {
    predicate Ok() {
      && WiresOk(vals)
      && DiagsOk(diags, |vals|)
      && forall d: DiagId | d < |diags| && diags[d].Branch? ::
        Width(diags, diags[d].ifTrue) == Width(diags, diags[d].ifFalse)
    }
  }

  /** Arms are built before the decision between them. */
  predicate Grounded(diags: seq<DiagNode>) {
    forall d | 0 <= d < |diags| && diags[d].Branch? :: diags[d].ifTrue < d && diags[d].ifFalse < d
  }

  predicate DiagsOk(diags: seq<DiagNode>, wires: nat)
    ensures DiagsOk(diags, wires) ==> Grounded(diags)
  {
    forall d | 0 <= d < |diags| :: diags[d].Below(d, wires)
  }

  /** How many wires the leaves leave; the arms of one diagram share it. */
  function Width(diags: seq<DiagNode>, d: DiagId): nat
    requires d < |diags| && Grounded(diags)
    decreases d
  {
    match diags[d]
    case Leaf(vs) => |vs|
    case Branch(_, t, _) =>
      Width(diags, t)
  }

  predicate WiresOk(vals: seq<ValNode>) {
    forall v | 0 <= v < |vals| :: vals[v].Below(v)
  }

  /** The arena only ever grows. */
  predicate Extends(a: Arena, b: Arena) {
    a.vals <= b.vals && a.diags <= b.diags
  }

  // ---- what a wire carries ----

  /** A reading of the calls, and the values on the inputs. */
  datatype World = World(calls: Interp, env: seq<Value>)

  function Input(env: seq<Value>, i: nat): Value {
    if i < |env| then env[i] else UNIT
  }

  ghost function OpAnswer(op: Op, calls: Interp, args: seq<Value>): (r: seq<Value>)
    requires |args| == op.Effect().inputs
    ensures |r| == op.Effect().outputs
  {
    match op
    case Prim(p) => Answer(p, args)
    case Call(target, arity) => CallAnswer(calls, target, arity, args)
  }

  ghost function Val(vals: seq<ValNode>, v: ValId, w: World): Value
    requires WiresOk(vals) && v < |vals|
    decreases v
  {
    assert vals[v].Below(v);
    match vals[v]
    case Var(i) => Input(w.env, i)
    case Lit(x) => x
    case App(op, args) =>
      OpAnswer(op, w.calls, seq(|args|, k requires 0 <= k < |args| => Val(vals, args[k], w)))[0]
    case Proj(index, op, args) =>
      OpAnswer(op, w.calls, seq(|args|, k requires 0 <= k < |args| => Val(vals, args[k], w)))[index]
  }

  ghost function Vals(vals: seq<ValNode>, vs: seq<ValId>, w: World): (r: seq<Value>)
    requires WiresOk(vals) && All(vs, |vals|)
    ensures |r| == |vs| && forall k | 0 <= k < |vs| :: r[k] == Val(vals, vs[k], w)
  {
    seq(|vs|, k requires 0 <= k < |vs| => Val(vals, vs[k], w))
  }

  lemma ValOfApp(vals: seq<ValNode>, v: ValId, w: World)
    requires WiresOk(vals) && v < |vals| && (vals[v].App? || vals[v].Proj?)
    ensures vals[v].Below(v) && All(vals[v].args, |vals|)
    ensures Val(vals, v, w)
      == OpAnswer(vals[v].op, w.calls, Vals(vals, vals[v].args, w))[if vals[v].App? then 0 else vals[v].index]
  {
    var args := vals[v].args;
    assert vals[v].Below(v);
    assert Vals(vals, args, w) == seq(|args|, k requires 0 <= k < |args| => Val(vals, args[k], w));
  }

  /** What a diagram leaves: the decisions read off the wires, then one leaf's wires. */
  ghost function Diag(a: Arena, d: DiagId, w: World): (r: seq<Value>)
    requires a.Ok() && d < |a.diags|
    ensures |r| == Width(a.diags, d)
    decreases d
  {
    assert a.diags[d].Below(d, |a.vals|);
    match a.diags[d]
    case Leaf(vs) => Vals(a.vals, vs, w)
    case Branch(c, t, f) => if Val(a.vals, c, w).Truthy() then Diag(a, t, w) else Diag(a, f, w)
  }

  // ---- growing changes nothing ----

  lemma {:induction false} ValStays(vals: seq<ValNode>, more: seq<ValNode>, v: ValId, w: World)
    requires WiresOk(vals) && WiresOk(more) && vals <= more && v < |vals|
    ensures Val(more, v, w) == Val(vals, v, w)
    decreases v
  {
    var node := vals[v];
    assert more[v] == node && node.Below(v);
    if node.App? || node.Proj? {
      forall k | 0 <= k < |node.args| ensures Val(more, node.args[k], w) == Val(vals, node.args[k], w) {
        ValStays(vals, more, node.args[k], w);
      }
      ValOfApp(vals, v, w);
      ValOfApp(more, v, w);
      assert Vals(more, node.args, w) == Vals(vals, node.args, w);
    }
  }

  lemma {:induction false} DiagStays(a: Arena, b: Arena, d: DiagId, w: World)
    requires a.Ok() && b.Ok() && Extends(a, b) && d < |a.diags|
    ensures Diag(b, d, w) == Diag(a, d, w)
    decreases d
  {
    assert a.diags[d].Below(d, |a.vals|) && b.diags[d] == a.diags[d];
    match a.diags[d]
    case Leaf(vs) =>
      forall k | 0 <= k < |vs| ensures Val(b.vals, vs[k], w) == Val(a.vals, vs[k], w) {
        ValStays(a.vals, b.vals, vs[k], w);
      }
      assert Vals(b.vals, vs, w) == Vals(a.vals, vs, w);
    case Branch(c, t, f) =>
      ValStays(a.vals, b.vals, c, w);
      DiagStays(a, b, t, w);
      DiagStays(a, b, f, w);
  }

  lemma {:induction false} WidthStays(diags: seq<DiagNode>, more: seq<DiagNode>, d: DiagId)
    requires Grounded(diags) && Grounded(more) && diags <= more && d < |diags|
    ensures Width(more, d) == Width(diags, d)
    decreases d
  {
    assert more[d] == diags[d];
    if diags[d].Branch? {
      WidthStays(diags, more, diags[d].ifTrue);
    }
  }

  /** Every wire and every diagram of the smaller arena means in the larger what it meant. */
  ghost predicate Agrees(a: Arena, b: Arena)
    requires a.Ok() && b.Ok() && Extends(a, b)
  {
    && (forall v: ValId, w: World {:trigger Val(b.vals, v, w)} | v < |a.vals| :: Val(b.vals, v, w) == Val(a.vals, v, w))
    && (forall d: DiagId, w: World {:trigger Diag(b, d, w)} | d < |a.diags| :: Diag(b, d, w) == Diag(a, d, w))
    && (forall d: DiagId {:trigger Width(b.diags, d)} | d < |a.diags| :: Width(b.diags, d) == Width(a.diags, d))
  }

  lemma ExtendsAgrees(a: Arena, b: Arena)
    requires a.Ok() && b.Ok() && Extends(a, b)
    ensures Agrees(a, b)
  {
    forall v: ValId, w: World | v < |a.vals| ensures Val(b.vals, v, w) == Val(a.vals, v, w) {
      ValStays(a.vals, b.vals, v, w);
    }
    forall d: DiagId, w: World | d < |a.diags| ensures Diag(b, d, w) == Diag(a, d, w) {
      DiagStays(a, b, d, w);
    }
    forall d: DiagId | d < |a.diags| ensures Width(b.diags, d) == Width(a.diags, d) {
      WidthStays(a.diags, b.diags, d);
    }
  }

  lemma PushOk(a: Arena, node: DiagNode)
    requires a.Ok() && node.Below(|a.diags|, |a.vals|)
    requires node.Branch? ==> Width(a.diags, node.ifTrue) == Width(a.diags, node.ifFalse)
    ensures Arena(a.vals, a.diags + [node]).Ok()
  {
    var b := Arena(a.vals, a.diags + [node]);
    forall d: DiagId | d < |b.diags| && b.diags[d].Branch?
      ensures Width(b.diags, b.diags[d].ifTrue) == Width(b.diags, b.diags[d].ifFalse)
    {
      assert b.diags[d].Below(d, |b.vals|);
      WidthStays(a.diags, b.diags, b.diags[d].ifTrue);
      WidthStays(a.diags, b.diags, b.diags[d].ifFalse);
    }
  }

  // ---- wires no instruction computes ----

  /** An input, a literal that is pushed, or an output of an opaque call on such wires. */
  predicate Spoken(vals: seq<ValNode>, v: ValId, pushed: set<Value>)
    requires WiresOk(vals) && v < |vals|
    decreases v
  {
    assert vals[v].Below(v);
    match vals[v]
    case Var(_) => true
    case Lit(x) => x in pushed
    case App(op, args) => op.Call? && forall k | 0 <= k < |args| :: Spoken(vals, args[k], pushed)
    case Proj(_, op, args) => op.Call? && forall k | 0 <= k < |args| :: Spoken(vals, args[k], pushed)
  }

  predicate AllSpoken(vals: seq<ValNode>, vs: seq<ValId>, pushed: set<Value>)
    requires WiresOk(vals) && All(vs, |vals|)
  {
    forall k | 0 <= k < |vs| :: Spoken(vals, vs[k], pushed)
  }

  /** An input, or an output of an opaque call on such wires. */
  predicate Cart(vals: seq<ValNode>, v: ValId)
    requires WiresOk(vals) && v < |vals|
  {
    Spoken(vals, v, {})
  }

  predicate AllCart(vals: seq<ValNode>, vs: seq<ValId>)
    requires WiresOk(vals) && All(vs, |vals|)
  {
    forall k | 0 <= k < |vs| :: Cart(vals, vs[k])
  }

  predicate CartLeaf(a: Arena, d: DiagId)
    requires a.Ok() && d < |a.diags|
  {
    assert a.diags[d].Below(d, |a.vals|);
    a.diags[d].Leaf? && AllCart(a.vals, a.diags[d].vals)
  }

  lemma {:induction false} SpokenStays(vals: seq<ValNode>, more: seq<ValNode>, v: ValId, pushed: set<Value>)
    requires WiresOk(vals) && WiresOk(more) && vals <= more && v < |vals|
    ensures Spoken(more, v, pushed) == Spoken(vals, v, pushed)
    decreases v
  {
    var node := vals[v];
    assert more[v] == node && node.Below(v);
    if node.App? || node.Proj? {
      forall k | 0 <= k < |node.args| ensures Spoken(more, node.args[k], pushed) == Spoken(vals, node.args[k], pushed) {
        SpokenStays(vals, more, node.args[k], pushed);
      }
    }
  }

  lemma AllCartStays(vals: seq<ValNode>, more: seq<ValNode>, vs: seq<ValId>)
    requires WiresOk(vals) && WiresOk(more) && vals <= more && All(vs, |vals|) && AllCart(vals, vs)
    ensures AllCart(more, vs)
  {
    forall k | 0 <= k < |vs| ensures Cart(more, vs[k]) {
      SpokenStays(vals, more, vs[k], {});
    }
  }
}
