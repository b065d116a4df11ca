/** What a wire or a diagram was computed from. */
module Supports {
  import opened Wires

  /** `x` is `v`, or among what `v` was computed from. */
  predicate Beneath(vals: seq<ValNode>, v: ValId, x: ValId)
    requires WiresOk(vals) && v < |vals|
    decreases v
  {
    assert vals[v].Below(v);
    || v == x
    || ((vals[v].App? || vals[v].Proj?) && exists k | 0 <= k < |vals[v].args| :: Beneath(vals, vals[v].args[k], x))
  }

  /** Computed from the inputs alone: no literal is among what `v` was computed from. */
  predicate Pure(vals: seq<ValNode>, v: ValId)
    requires WiresOk(vals) && v < |vals|
    decreases v
  {
    assert vals[v].Below(v);
    match vals[v]
    case Var(_) => true
    case Lit(_) => false
    case App(_, args) => forall k | 0 <= k < |args| :: Pure(vals, args[k])
    case Proj(_, _, args) => forall k | 0 <= k < |args| :: Pure(vals, args[k])
  }

  predicate AnyBeneath(vals: seq<ValNode>, vs: seq<ValId>, x: ValId)
    requires WiresOk(vals) && All(vs, |vals|)
  {
    exists k | 0 <= k < |vs| :: Beneath(vals, vs[k], x)
  }

  /** `x` is read somewhere in `d`, by a leaf or by a decision. */
  predicate Reads(a: Arena, d: DiagId, x: ValId)
    requires a.Ok() && d < |a.diags|
    decreases d
  {
    assert a.diags[d].Below(d, |a.vals|);
    match a.diags[d]
    case Leaf(vs) => AnyBeneath(a.vals, vs, x)
    case Branch(c, t, f) => Beneath(a.vals, c, x) || Reads(a, t, x) || Reads(a, f, x)
  }

  lemma {:induction false} BeneathIsOlder(vals: seq<ValNode>, v: ValId, x: ValId)
    requires WiresOk(vals) && v < |vals| && Beneath(vals, v, x)
    ensures x <= v
    decreases v
  {
    assert vals[v].Below(v);
    if v != x {
      var k :| 0 <= k < |vals[v].args| && Beneath(vals, vals[v].args[k], x);
      BeneathIsOlder(vals, vals[v].args[k], x);
    }
  }

  lemma {:induction false} ReadsIsThere(a: Arena, d: DiagId, x: ValId)
    requires a.Ok() && d < |a.diags| && Reads(a, d, x)
    ensures x < |a.vals|
    decreases d
  {
    assert a.diags[d].Below(d, |a.vals|);
    match a.diags[d]
    case Leaf(vs) =>
      var k :| 0 <= k < |vs| && Beneath(a.vals, vs[k], x);
      BeneathIsOlder(a.vals, vs[k], x);
    case Branch(c, t, f) =>
      if Beneath(a.vals, c, x) { BeneathIsOlder(a.vals, c, x); }
      if Reads(a, t, x) { ReadsIsThere(a, t, x); }
      if Reads(a, f, x) { ReadsIsThere(a, f, x); }
  }

  // ---- growing changes nothing ----

  lemma {:induction false} BeneathStays(vals: seq<ValNode>, more: seq<ValNode>, v: ValId, x: ValId)
    requires WiresOk(vals) && WiresOk(more) && vals <= more && v < |vals|
    ensures Beneath(more, v, x) == Beneath(vals, v, x)
    decreases v
  {
    var node := vals[v];
    assert more[v] == node && node.Below(v);
    if node.App? || node.Proj? {
      forall k | 0 <= k < |node.args| ensures Beneath(more, node.args[k], x) == Beneath(vals, node.args[k], x) {
        BeneathStays(vals, more, node.args[k], x);
      }
    }
  }

  lemma {:induction false} PureStays(vals: seq<ValNode>, more: seq<ValNode>, v: ValId)
    requires WiresOk(vals) && WiresOk(more) && vals <= more && v < |vals|
    ensures Pure(more, v) == Pure(vals, v)
    decreases v
  {
    var node := vals[v];
    assert more[v] == node && node.Below(v);
    if node.App? || node.Proj? {
      forall k | 0 <= k < |node.args| ensures Pure(more, node.args[k]) == Pure(vals, node.args[k]) {
        PureStays(vals, more, node.args[k]);
      }
    }
  }

  lemma {:induction false} ReadsStays(a: Arena, b: Arena, d: DiagId, x: ValId)
    requires a.Ok() && b.Ok() && Extends(a, b) && d < |a.diags|
    ensures Reads(b, d, x) == Reads(a, d, x)
    decreases d
  {
    assert b.diags[d] == a.diags[d] && a.diags[d].Below(d, |a.vals|);
    match a.diags[d]
    case Leaf(vs) =>
      forall k | 0 <= k < |vs| ensures Beneath(b.vals, vs[k], x) == Beneath(a.vals, vs[k], x) {
        BeneathStays(a.vals, b.vals, vs[k], x);
      }
    case Branch(c, t, f) =>
      BeneathStays(a.vals, b.vals, c, x);
      ReadsStays(a, b, t, x);
      ReadsStays(a, b, f, x);
  }

  /** `x` is not read in `d`, if it is computed from inputs alone. */
  predicate Unread(a: Arena, x: ValId, d: DiagId)
    requires a.Ok() && x < |a.vals| && d < |a.diags|
  {
    Pure(a.vals, x) ==> !Reads(a, d, x)
  }

  lemma UnreadStays(a: Arena, b: Arena, x: ValId, d: DiagId)
    requires a.Ok() && b.Ok() && Extends(a, b) && x < |a.vals| && d < |a.diags|
    ensures Unread(b, x, d) == Unread(a, x, d)
  {
    PureStays(a.vals, b.vals, x);
    ReadsStays(a, b, d, x);
  }

  /** Of the wires computed from inputs alone, `out` reads only such as `d` reads. */
  ghost predicate ReadsNoMore(a: Arena, d: DiagId, out: DiagId)
    requires a.Ok() && d < |a.diags| && out < |a.diags|
  {
    forall x: ValId | x < |a.vals| && Pure(a.vals, x) && Reads(a, out, x) :: Reads(a, d, x)
  }

  /** The same of a decision: what `out` reads, the condition or one of the arms did. */
  ghost predicate ReadsOnly(a: Arena, cond: ValId, t: DiagId, f: DiagId, out: DiagId)
    requires a.Ok() && cond < |a.vals| && t < |a.diags| && f < |a.diags| && out < |a.diags|
  {
    forall x: ValId | x < |a.vals| && Pure(a.vals, x) && Reads(a, out, x) ::
      Beneath(a.vals, cond, x) || Reads(a, t, x) || Reads(a, f, x)
  }

  lemma ReadsNoMoreStays(a: Arena, b: Arena, d: DiagId, out: DiagId)
    requires a.Ok() && b.Ok() && Extends(a, b) && d < |a.diags| && out < |a.diags| && ReadsNoMore(a, d, out)
    ensures ReadsNoMore(b, d, out)
  {
    forall x: ValId | x < |b.vals| && Pure(b.vals, x) && Reads(b, out, x) ensures Reads(b, d, x) {
      ReadsStays(a, b, out, x);
      ReadsStays(a, b, d, x);
      ReadsIsThere(a, out, x);
      PureStays(a.vals, b.vals, x);
    }
  }

  lemma ReadsOnlyStays(a: Arena, b: Arena, cond: ValId, t: DiagId, f: DiagId, out: DiagId)
    requires a.Ok() && b.Ok() && Extends(a, b) && cond < |a.vals|
    requires t < |a.diags| && f < |a.diags| && out < |a.diags| && ReadsOnly(a, cond, t, f, out)
    ensures ReadsOnly(b, cond, t, f, out)
  {
    forall x: ValId | x < |b.vals| && Pure(b.vals, x) && Reads(b, out, x)
      ensures Beneath(b.vals, cond, x) || Reads(b, t, x) || Reads(b, f, x)
    {
      ReadsStays(a, b, out, x);
      ReadsIsThere(a, out, x);
      PureStays(a.vals, b.vals, x);
      BeneathStays(a.vals, b.vals, cond, x);
      ReadsStays(a, b, t, x);
      ReadsStays(a, b, f, x);
    }
  }
}
