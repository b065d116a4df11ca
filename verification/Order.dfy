/** The one global order on wires, and the proof that it is one. */
module Order {
  import opened Wrappers
  import opened Values
  import opened Prims
  import opened Wires
  import opened Supports

  function CmpInt(x: int, y: int): Ordering {
    if x < y then Before else if x == y then Even else After
  }

  /** Texts compare by their characters, a prefix first. */
  function CmpString(s: string, t: string): Ordering {
    if s == [] || t == [] then CmpInt(|s|, |t|)
    else CmpInt(s[0] as int, t[0] as int).Then(CmpString(s[1..], t[1..]))
  }

  function Rank(v: Value): nat {
    match v
    case Bool(_) => 0
    case Int(_) => 1
    case ConstString(_) => 2
    case Tuple(_) => 3
    case Symbol(_) => 4
  }

  /** Values by kind and then by content; a symbol's content is its id. */
  function CmpValue(a: Value, b: Value): Ordering
    decreases a, 1
  {
    match (a, b)
    case (Bool(x), Bool(y)) => CmpInt(if x then 1 else 0, if y then 1 else 0)
    case (Int(x), Int(y)) => CmpInt(x, y)
    case (ConstString(x), ConstString(y)) => CmpString(x, y)
    case (Tuple(x), Tuple(y)) => CmpInt(|x|, |y|).Then(CmpElements(a, x, y))
    case (Symbol(x), Symbol(y)) => CmpInt(x, y)
    case _ => CmpInt(Rank(a), Rank(b))
  }

  /** The first pair that differs decides; `whole` is what `x` is the rest of. */
  function CmpElements(ghost whole: Value, x: seq<Value>, y: seq<Value>): Ordering
    requires forall k | 0 <= k < |x| :: x[k] < whole
    decreases whole, 0, |x|
  {
    if x == [] || y == [] then Even
    else CmpValue(x[0], y[0]).Then(CmpElements(whole, x[1..], y[1..]))
  }

  function CmpOp(a: Op, b: Op): Ordering {
    match (a, b)
    case (Prim(p), Prim(q)) => CmpString(Mnemonic(p), Mnemonic(q))
    case (Prim(_), Call(_, _)) => Before
    case (Call(_, _), Prim(_)) => After
    case (Call(s, m), Call(t, n)) =>
      CmpInt(s, t).Then(CmpInt(m.inputs, n.inputs).Then(CmpInt(m.outputs, n.outputs)))
  }

  function RankNode(n: ValNode): nat {
    match n
    case Var(_) => 0
    case Lit(_) => 1
    case App(_, _) => 2
    case Proj(_, _, _) => 3
  }

  /** Wires compare by structure, so the order is the same in every arena. */
  function CmpVal(vals: seq<ValNode>, a: ValId, b: ValId): Ordering
    requires WiresOk(vals) && a < |vals| && b < |vals|
    decreases a, 1
  {
    assert vals[a].Below(a) && vals[b].Below(b);
    if a == b then Even else
    match (vals[a], vals[b])
    case (Var(i), Var(j)) => CmpInt(i, j)
    case (Lit(v), Lit(w)) => CmpValue(v, w)
    case (App(op, args), App(oq, brgs)) =>
      CmpOp(op, oq).Then(CmpInt(|args|, |brgs|).Then(CmpArgs(vals, a, args, brgs)))
    case (Proj(i, op, args), Proj(j, oq, brgs)) =>
      CmpOp(op, oq).Then(CmpInt(|args|, |brgs|).Then(CmpArgs(vals, a, args, brgs))).Then(CmpInt(i, j))
    case (na, nb) => CmpInt(RankNode(na), RankNode(nb))
  }

  function CmpArgs(vals: seq<ValNode>, ghost bound: nat, x: seq<ValId>, y: seq<ValId>): Ordering
    requires WiresOk(vals) && bound <= |vals| && All(x, bound) && All(y, |vals|)
    decreases bound, 0, |x|
  {
    if x == [] || y == [] then Even
    else CmpVal(vals, x[0], y[0]).Then(CmpArgs(vals, bound, x[1..], y[1..]))
  }

  // ---- values ----

  lemma {:induction false} StringOrder(s: string, t: string, u: string)
    ensures CmpString(t, s) == CmpString(s, t).Flip()
    ensures CmpString(s, t).Even? <==> s == t
    ensures CmpString(s, t).Before? && CmpString(t, u).Before? ==> CmpString(s, u).Before?
    decreases |s|
  {
    if s != [] && t != [] {
      StringOrder(s[1..], t[1..], if u == [] then [] else u[1..]);
      assert s == [s[0]] + s[1..] && t == [t[0]] + t[1..];
    }
  }

  lemma {:induction false} ValueFlips(a: Value, b: Value)
    ensures CmpValue(b, a) == CmpValue(a, b).Flip()
    ensures CmpValue(a, b).Even? <==> a == b
    decreases a, 1
  {
    if a.ConstString? && b.ConstString? {
      StringOrder(a.s, b.s, []);
    } else if a.Tuple? && b.Tuple? && |a.elements| == |b.elements| {
      ElementsFlip(a, b, a.elements, b.elements);
    }
  }

  lemma {:induction false} ElementsFlip(a: Value, b: Value, x: seq<Value>, y: seq<Value>)
    requires |x| == |y| && forall k | 0 <= k < |x| :: x[k] < a && y[k] < b
    ensures CmpElements(b, y, x) == CmpElements(a, x, y).Flip()
    ensures CmpElements(a, x, y).Even? <==> x == y
    decreases a, 0, |x|
  {
    if x != [] {
      ValueFlips(x[0], y[0]);
      ElementsFlip(a, b, x[1..], y[1..]);
      assert x == [x[0]] + x[1..] && y == [y[0]] + y[1..];
    }
  }

  /** Values are totally ordered, evenly only with themselves. */
  lemma {:induction false} ValueOrder(a: Value, b: Value, c: Value)
    ensures CmpValue(b, a) == CmpValue(a, b).Flip()
    ensures CmpValue(a, b).Even? <==> a == b
    ensures CmpValue(a, b).Before? && CmpValue(b, c).Before? ==> CmpValue(a, c).Before?
    decreases a, 1
  {
    ValueFlips(a, b);
    if a.ConstString? && b.ConstString? && c.ConstString? {
      StringOrder(a.s, b.s, c.s);
    } else if a.Tuple? && b.Tuple? && c.Tuple? && |a.elements| == |b.elements| == |c.elements| {
      ElementsOrder(a, b, c, a.elements, b.elements, c.elements);
    }
  }

  lemma {:induction false} ElementsOrder(a: Value, b: Value, c: Value, x: seq<Value>, y: seq<Value>, z: seq<Value>)
    requires |x| == |y| == |z| && forall k | 0 <= k < |x| :: x[k] < a && y[k] < b && z[k] < c
    ensures CmpElements(a, x, y).Before? && CmpElements(b, y, z).Before? ==> CmpElements(a, x, z).Before?
    decreases a, 0, |x|
  {
    if x != [] {
      ValueOrder(x[0], y[0], z[0]);
      ValueFlips(y[0], z[0]);
      ElementsOrder(a, b, c, x[1..], y[1..], z[1..]);
    }
  }

  // ---- operations ----

  lemma {:induction false} DecimalInjective(m: nat, n: nat)
    requires Decimal(m) == Decimal(n)
    ensures m == n
    decreases m
  {
    assert Decimal(m)[|Decimal(m)| - 1] == Digit(m % 10);
    assert Decimal(n)[|Decimal(n)| - 1] == Digit(n % 10);
    if m >= 10 && n >= 10 {
      assert Decimal(m)[..|Decimal(m)| - 1] == Decimal(m / 10);
      assert Decimal(n)[..|Decimal(n)| - 1] == Decimal(n / 10);
      DecimalInjective(m / 10, n / 10);
    }
  }

  predicate CarriesWidth(p: Prim) {
    p.Tuple? || p.Untuple? || p.AsTuple?
  }

  /** Enough of each spelling to tell it from the others. */
  lemma Spelling(p: Prim)
    requires !CarriesWidth(p)
    ensures var s := Mnemonic(p);
      match p
      case Push(_) => |s| == 4 && s[0] == 'p'
      case Swap => |s| == 4 && s[0] == 's'
      case Equal => |s| == 5
      case Greater => |s| == 7 && s[0] == 'g'
      case Less => |s| == 4 && s[0] == 'l'
      case Add => |s| == 3 && s[0] == 'a' && s[1] == 'd'
      case Subtract => |s| == 8 && s[0] == 's'
      case Multiply => |s| == 8 && s[0] == 'm'
      case Divide => |s| == 6 && s[0] == 'd'
      case Modulo => |s| == 6 && s[0] == 'm'
      case Not => |s| == 3 && s[0] == 'n'
      case Negate => |s| == 6 && s[0] == 'n'
      case And => |s| == 3 && s[0] == 'a' && s[1] == 'n'
      case Or => |s| == 2
      case ConstStringLen => |s| == 16
      case ConstStringCharAt => |s| == 20
      case IsInt => |s| == 6 && s[0] == 'i'
      case IsBool => |s| == 7 && s[0] == 'i'
      case IsConstString => |s| == 15
      case IsSymbol => |s| == 9 && s[0] == 'i'
      case IsTuple => |s| == 8 && s[0] == 'i'
      case TupleLength => |s| == 12 && s[0] == 't' && s[5] == '_'
      case AsBool => |s| == 7 && s[0] == 'a'
      case AsInt => |s| == 6 && s[0] == 'a'
      case _ => true
  {
  }

  lemma WidthSpelling(p: Prim)
    requires CarriesWidth(p)
    ensures var s := Mnemonic(p);
      if p.Tuple? then |s| > 6 && s[0] == 't' && s[5] == ' ' && s[6..] == Decimal(p.n)
      else if p.Untuple? then |s| > 8 && s[0] == 'u' && s[8..] == Decimal(p.n)
      else |s| > 9 && s[0] == 'a' && s[9..] == Decimal(p.n)
  {
  }

  lemma SpellingInjective(p: Prim, q: Prim)
    requires !p.Push? && !q.Push? && Mnemonic(p) == Mnemonic(q)
    ensures p == q
  {
    if CarriesWidth(p) {
      WidthSpelling(p);
      if CarriesWidth(q) {
        WidthSpelling(q);
        DecimalInjective(p.n, q.n);
      } else {
        Spelling(q);
      }
    } else {
      Spelling(p);
      if CarriesWidth(q) { WidthSpelling(q); } else { Spelling(q); }
    }
  }

  lemma OpOrder(a: Op, b: Op, c: Op)
    requires !(a.Prim? && a.prim.Push?) && !(b.Prim? && b.prim.Push?)
    ensures CmpOp(b, a) == CmpOp(a, b).Flip()
    ensures CmpOp(a, b).Even? <==> a == b
    ensures CmpOp(a, b).Before? && CmpOp(b, c).Before? ==> CmpOp(a, c).Before?
  {
    if a.Prim? && b.Prim? {
      StringOrder(Mnemonic(a.prim), Mnemonic(b.prim), if c.Prim? then Mnemonic(c.prim) else []);
      if Mnemonic(a.prim) == Mnemonic(b.prim) {
        SpellingInjective(a.prim, b.prim);
      }
    }
  }

  // ---- wires ----

  /** No two wires are one computation, which is what interning keeps. */
  predicate Distinct(vals: seq<ValNode>) {
    forall i, j | 0 <= i < j < |vals| :: vals[i] != vals[j]
  }

  lemma {:induction false} WireFlips(vals: seq<ValNode>, a: ValId, b: ValId)
    requires WiresOk(vals) && Distinct(vals) && a < |vals| && b < |vals|
    ensures CmpVal(vals, b, a) == CmpVal(vals, a, b).Flip()
    ensures CmpVal(vals, a, b).Even? <==> a == b
    decreases a, 1
  {
    var na, nb := vals[a], vals[b];
    assert na.Below(a) && nb.Below(b);
    if na.Lit? && nb.Lit? {
      ValueFlips(na.v, nb.v);
    } else if (na.App? && nb.App?) || (na.Proj? && nb.Proj?) {
      OpOrder(na.op, nb.op, na.op);
      if |na.args| == |nb.args| {
        ArgsFlip(vals, a, b, na.args, nb.args);
      }
    }
  }

  lemma {:induction false} ArgsFlip(vals: seq<ValNode>, a: nat, b: nat, x: seq<ValId>, y: seq<ValId>)
    requires WiresOk(vals) && Distinct(vals) && a <= |vals| && b <= |vals|
    requires |x| == |y| && All(x, a) && All(y, b)
    ensures CmpArgs(vals, b, y, x) == CmpArgs(vals, a, x, y).Flip()
    ensures CmpArgs(vals, a, x, y).Even? <==> x == y
    decreases a, 0, |x|
  {
    if x != [] {
      WireFlips(vals, x[0], y[0]);
      ArgsFlip(vals, a, b, x[1..], y[1..]);
      assert x == [x[0]] + x[1..] && y == [y[0]] + y[1..];
    }
  }

  /** A strict total order on wires: two wires are even exactly when they are one wire. */
  lemma {:induction false} WireOrder(vals: seq<ValNode>, a: ValId, b: ValId, c: ValId)
    requires WiresOk(vals) && Distinct(vals) && a < |vals| && b < |vals| && c < |vals|
    ensures CmpVal(vals, b, a) == CmpVal(vals, a, b).Flip()
    ensures CmpVal(vals, a, b).Even? <==> a == b
    ensures CmpVal(vals, a, b).Before? && CmpVal(vals, b, c).Before? ==> CmpVal(vals, a, c).Before?
    decreases a, 1
  {
    var na, nb, nc := vals[a], vals[b], vals[c];
    assert na.Below(a) && nb.Below(b) && nc.Below(c);
    WireFlips(vals, a, b);
    WireFlips(vals, b, c);
    if a != b && b != c {
      if na.Lit? && nb.Lit? && nc.Lit? {
        ValueOrder(na.v, nb.v, nc.v);
      } else if (na.App? && nb.App? && nc.App?) || (na.Proj? && nb.Proj? && nc.Proj?) {
        OpOrder(na.op, nb.op, nc.op);
        OpOrder(nb.op, nc.op, na.op);
        if |na.args| == |nb.args| == |nc.args| {
          ArgsFlip(vals, a, b, na.args, nb.args);
          ArgsFlip(vals, b, c, nb.args, nc.args);
          ArgsOrder(vals, a, b, c, na.args, nb.args, nc.args);
        }
        WireFlips(vals, a, c);
      }
    }
  }

  lemma {:induction false} ArgsOrder(
    vals: seq<ValNode>, a: nat, b: nat, c: nat, x: seq<ValId>, y: seq<ValId>, z: seq<ValId>)
    requires WiresOk(vals) && Distinct(vals) && a <= |vals| && b <= |vals| && c <= |vals|
    requires |x| == |y| == |z| && All(x, a) && All(y, b) && All(z, c)
    ensures CmpArgs(vals, a, x, y).Before? && CmpArgs(vals, b, y, z).Before? ==> CmpArgs(vals, a, x, z).Before?
    decreases a, 0, |x|
  {
    if x != [] {
      WireOrder(vals, x[0], y[0], z[0]);
      WireFlips(vals, y[0], z[0]);
      ArgsOrder(vals, a, b, c, x[1..], y[1..], z[1..]);
    }
  }

  /** The order reads structure and nothing else, so growing the arena does not disturb it. */
  lemma {:induction false} CmpStays(vals: seq<ValNode>, more: seq<ValNode>, a: ValId, b: ValId)
    requires WiresOk(vals) && WiresOk(more) && vals <= more && a < |vals| && b < |vals|
    ensures CmpVal(more, a, b) == CmpVal(vals, a, b)
    decreases a, 1
  {
    var na, nb := vals[a], vals[b];
    assert more[a] == na && more[b] == nb && na.Below(a) && nb.Below(b);
    if (na.App? && nb.App?) || (na.Proj? && nb.Proj?) {
      CmpArgsStay(vals, more, a, na.args, nb.args);
    }
  }

  lemma {:induction false} CmpArgsStay(
    vals: seq<ValNode>, more: seq<ValNode>, bound: nat, x: seq<ValId>, y: seq<ValId>)
    requires WiresOk(vals) && WiresOk(more) && vals <= more
    requires bound <= |vals| && All(x, bound) && All(y, |vals|)
    ensures CmpArgs(more, bound, x, y) == CmpArgs(vals, bound, x, y)
    decreases bound, 0, |x|
  {
    if x != [] && y != [] {
      CmpStays(vals, more, x[0], y[0]);
      CmpArgsStay(vals, more, bound, x[1..], y[1..]);
    }
  }

  // ---- the order a case tree keeps ----

  /** If the condition is `equal` with a literal on one side: its other side, and the literal. */
  function EqualToLiteral(vals: seq<ValNode>, cond: ValId): (r: Option<(ValId, ValId)>)
    requires WiresOk(vals) && cond < |vals|
    ensures r.Some? ==> r.value.0 < |vals| && r.value.1 < |vals| && vals[r.value.1].Lit?
  {
    var node := vals[cond];
    assert node.Below(cond);
    if node.App? && node.op == Op.Prim(Prim.Equal) then
      var (a, b) := (node.args[0], node.args[1]);
      if vals[b].Lit? then Some((a, b))
      else if vals[a].Lit? then Some((b, a))
      else None
    else
      None
  }

  /**
   * None of these conditions tests a value against a literal, so deciding one writes no literal through its then
   * arm.
   */
  predicate Plain(vals: seq<ValNode>, conds: set<ValId>)
    requires WiresOk(vals)
  {
    forall c | c in conds :: c < |vals| && EqualToLiteral(vals, c).None?
  }

  /** No wire compares two values, so every condition is plain. */
  predicate EqualFree(vals: seq<ValNode>) {
    forall v: ValId | v < |vals| && vals[v].App? :: vals[v].op != Op.Prim(Prim.Equal)
  }

  lemma EqualFreeIsPlain(vals: seq<ValNode>, conds: set<ValId>)
    requires WiresOk(vals) && EqualFree(vals) && forall c | c in conds :: c < |vals|
    ensures Plain(vals, conds)
  {
  }

  /** Every condition a diagram decides on. */
  function Tests(diags: seq<DiagNode>, d: DiagId): set<ValId>
    requires d < |diags| && Grounded(diags)
    decreases d
  {
    match diags[d]
    case Leaf(_) => {}
    case Branch(c, t, f) => {c} + Tests(diags, t) + Tests(diags, f)
  }

  /** None of the conditions a diagram decides on tests a value against a literal. */
  predicate PlainDiag(a: Arena, d: DiagId)
    requires a.Ok() && d < |a.diags|
  {
    Plain(a.vals, Tests(a.diags, d))
  }

  ghost predicate AllAfter(a: Arena, c: ValId, d: DiagId)
    requires a.Ok() && d < |a.diags| && c < |a.vals|
  {
    forall x | x in Tests(a.diags, d) :: x < |a.vals| && CmpVal(a.vals, c, x).Before?
  }

  /** Conditions strictly increase along every path of this diagram. */
  ghost predicate Sorted(a: Arena, d: DiagId)
    requires a.Ok() && d < |a.diags|
    decreases d
  {
    assert a.diags[d].Below(d, |a.vals|);
    match a.diags[d]
    case Leaf(_) => true
    case Branch(c, t, f) => AllAfter(a, c, t) && AllAfter(a, c, f) && Sorted(a, t) && Sorted(a, f)
  }

  /** What `d` decides first, if anything, sorts after `c`. */
  predicate RootAfter(a: Arena, c: ValId, d: DiagId)
    requires a.Ok() && d < |a.diags| && c < |a.vals|
  {
    assert a.diags[d].Below(d, |a.vals|);
    a.diags[d].Branch? ==> CmpVal(a.vals, c, a.diags[d].cond).Before?
  }

  /**
   * No literal is decided on. What is not a test against a literal comes before the roots of its arms; what is one
   * leaves nothing in its then arm that reads the value tested.
   */
  predicate NodeSorted(a: Arena, d: DiagId)
    requires a.Ok() && d < |a.diags|
  {
    assert a.diags[d].Below(d, |a.vals|);
    match a.diags[d]
    case Leaf(_) => true
    case Branch(c, t, f) =>
      && !a.vals[c].Lit? && (EqualToLiteral(a.vals, c).None? ==> RootAfter(a, c, t) && RootAfter(a, c, f))
      && Spent(a, c, t)
  }

  /** An arm that is taken only where a value is a literal does not read the value. */
  predicate Spent(a: Arena, c: ValId, t: DiagId)
    requires a.Ok() && c < |a.vals| && t < |a.diags|
  {
    match EqualToLiteral(a.vals, c)
    case Some((from, _)) => Unread(a, from, t)
    case None => true
  }

  predicate NodesSorted(a: Arena)
    requires a.Ok()
  {
    forall d: DiagId | d < |a.diags| :: NodeSorted(a, d)
  }

  function RootCond(diags: seq<DiagNode>, d: DiagId): Option<ValId>
    requires d < |diags|
  {
    match diags[d]
    case Leaf(_) => None
    case Branch(c, _, _) => Some(c)
  }

  lemma {:induction false} TestsAreWires(a: Arena, d: DiagId)
    requires a.Ok() && d < |a.diags|
    ensures forall x | x in Tests(a.diags, d) :: x < |a.vals|
    decreases d
  {
    assert a.diags[d].Below(d, |a.vals|);
    if a.diags[d].Branch? {
      TestsAreWires(a, a.diags[d].ifTrue);
      TestsAreWires(a, a.diags[d].ifFalse);
    }
  }

  lemma {:induction false} TestsStay(a: Arena, b: Arena, d: DiagId)
    requires a.Ok() && b.Ok() && Extends(a, b) && d < |a.diags|
    ensures Tests(b.diags, d) == Tests(a.diags, d)
    decreases d
  {
    assert b.diags[d] == a.diags[d] && a.diags[d].Below(d, |a.vals|);
    if a.diags[d].Branch? {
      TestsStay(a, b, a.diags[d].ifTrue);
      TestsStay(a, b, a.diags[d].ifFalse);
    }
  }

  /** For a diagram of plain conditions, being before its root is being before all of it. */
  lemma {:induction false} RootDecides(a: Arena, c: ValId, d: DiagId)
    requires a.Ok() && Distinct(a.vals) && NodesSorted(a) && d < |a.diags| && c < |a.vals|
    requires Plain(a.vals, Tests(a.diags, d)) && RootAfter(a, c, d)
    ensures AllAfter(a, c, d)
    decreases d
  {
    TestsAreWires(a, d);
    assert NodeSorted(a, d) && a.diags[d].Below(d, |a.vals|);
    if a.diags[d].Branch? {
      var r := a.diags[d].cond;
      assert r in Tests(a.diags, d);
      var (t, f) := (a.diags[d].ifTrue, a.diags[d].ifFalse);
      if a.diags[t].Branch? {
        WireOrder(a.vals, c, r, a.diags[t].cond);
      }
      if a.diags[f].Branch? {
        WireOrder(a.vals, c, r, a.diags[f].cond);
      }
      RootDecides(a, c, t);
      RootDecides(a, c, f);
      assert Tests(a.diags, d) == {r} + Tests(a.diags, t) + Tests(a.diags, f);
    }
  }

  /** A diagram whose own conditions are plain is sorted, whatever else is in the arena. */
  lemma {:induction false} PlainIsSorted(a: Arena, d: DiagId)
    requires a.Ok() && Distinct(a.vals) && NodesSorted(a) && d < |a.diags| && Plain(a.vals, Tests(a.diags, d))
    ensures Sorted(a, d)
    decreases d
  {
    assert NodeSorted(a, d) && a.diags[d].Below(d, |a.vals|);
    if a.diags[d].Branch? {
      var (c, t, f) := (a.diags[d].cond, a.diags[d].ifTrue, a.diags[d].ifFalse);
      assert c in Tests(a.diags, d);
      RootDecides(a, c, t);
      RootDecides(a, c, f);
      PlainIsSorted(a, t);
      PlainIsSorted(a, f);
    }
  }

  lemma LiteralStays(vals: seq<ValNode>, more: seq<ValNode>, c: ValId)
    requires WiresOk(vals) && WiresOk(more) && vals <= more && c < |vals|
    ensures EqualToLiteral(more, c) == EqualToLiteral(vals, c)
  {
    assert vals[c].Below(c) && more[c] == vals[c];
  }

  lemma PlainStays(vals: seq<ValNode>, more: seq<ValNode>, conds: set<ValId>)
    requires WiresOk(vals) && WiresOk(more) && vals <= more && forall c | c in conds :: c < |vals|
    ensures Plain(more, conds) == Plain(vals, conds)
  {
    forall c | c in conds ensures EqualToLiteral(more, c) == EqualToLiteral(vals, c) {
      LiteralStays(vals, more, c);
    }
  }

  lemma NodeStaysSorted(a: Arena, b: Arena, d: DiagId)
    requires a.Ok() && b.Ok() && Extends(a, b) && d < |a.diags| && NodeSorted(a, d)
    ensures NodeSorted(b, d)
  {
    assert b.diags[d] == a.diags[d] && a.diags[d].Below(d, |a.vals|);
    if a.diags[d].Branch? {
      var (c, t, f) := (a.diags[d].cond, a.diags[d].ifTrue, a.diags[d].ifFalse);
      LiteralStays(a.vals, b.vals, c);
      RootAfterStays(a, b, c, t);
      RootAfterStays(a, b, c, f);
      SpentStays(a, b, c, t);
    }
  }

  lemma SpentStays(a: Arena, b: Arena, c: ValId, t: DiagId)
    requires a.Ok() && b.Ok() && Extends(a, b) && c < |a.vals| && t < |a.diags|
    ensures Spent(b, c, t) == Spent(a, c, t)
  {
    LiteralStays(a.vals, b.vals, c);
    match EqualToLiteral(a.vals, c)
    case Some((from, _)) => UnreadStays(a, b, from, t);
    case None =>
  }

  lemma RootAfterStays(a: Arena, b: Arena, c: ValId, d: DiagId)
    requires a.Ok() && b.Ok() && Extends(a, b) && d < |a.diags| && c < |a.vals|
    ensures RootAfter(b, c, d) == RootAfter(a, c, d)
  {
    assert b.diags[d] == a.diags[d] && a.diags[d].Below(d, |a.vals|);
    if a.diags[d].Branch? {
      CmpStays(a.vals, b.vals, c, a.diags[d].cond);
    }
  }

  // ---- canonicity ----

  /** The leaf a diagram chooses when exactly the conditions in `truth` hold. */
  ghost function Choose(diags: seq<DiagNode>, d: DiagId, truth: iset<ValId>): (leaf: DiagId)
    requires d < |diags| && Grounded(diags)
    ensures leaf < |diags| && diags[leaf].Leaf?
    decreases d
  {
    match diags[d]
    case Leaf(_) => d
    case Branch(c, t, f) => if c in truth then Choose(diags, t, truth) else Choose(diags, f, truth)
  }

  lemma {:induction false} ChooseStays(diags: seq<DiagNode>, more: seq<DiagNode>, d: DiagId, truth: iset<ValId>)
    requires Grounded(diags) && Grounded(more) && diags <= more && d < |diags|
    ensures Choose(more, d, truth) == Choose(diags, d, truth)
    decreases d
  {
    assert more[d] == diags[d];
    if diags[d].Branch? {
      ChooseStays(diags, more, diags[d].ifTrue, truth);
      ChooseStays(diags, more, diags[d].ifFalse, truth);
    }
  }

  lemma {:induction false} ChooseIgnores(diags: seq<DiagNode>, d: DiagId, truth: iset<ValId>, c: ValId)
    requires d < |diags| && Grounded(diags) && c !in Tests(diags, d)
    ensures Choose(diags, d, truth + iset{c}) == Choose(diags, d, truth)
    ensures Choose(diags, d, truth - iset{c}) == Choose(diags, d, truth)
    decreases d
  {
    if diags[d].Branch? {
      ChooseIgnores(diags, diags[d].ifTrue, truth, c);
      ChooseIgnores(diags, diags[d].ifFalse, truth, c);
    }
  }

  predicate DistinctDiags(diags: seq<DiagNode>) {
    forall i, j | 0 <= i < j < |diags| :: diags[i] != diags[j]
  }

  /**
   * The canonical form: two diagrams of plain conditions that choose the same leaf under every assignment
   * of truth to conditions are one diagram.
   */
  lemma {:induction false} Canonical(a: Arena, d: DiagId, e: DiagId)
    requires a.Ok() && Distinct(a.vals) && DistinctDiags(a.diags) && NodesSorted(a)
    requires d < |a.diags| && e < |a.diags| && Plain(a.vals, Tests(a.diags, d)) && Plain(a.vals, Tests(a.diags, e))
    requires forall truth: iset<ValId> :: Choose(a.diags, d, truth) == Choose(a.diags, e, truth)
    ensures d == e
    decreases if d < e then e else d, 1
  {
    var ds := a.diags;
    assert ds[d].Below(d, |a.vals|) && ds[e].Below(e, |a.vals|);
    if ds[d].Leaf? && ds[e].Leaf? {
      assert Choose(ds, d, iset{}) == d && Choose(ds, e, iset{}) == e;
    } else if ds[d].Branch? && (ds[e].Leaf? || CmpVal(a.vals, ds[d].cond, ds[e].cond).Before?) {
      RootDecides(a, ds[d].cond, e);
      ArmsDiffer(a, d, e);
    } else if ds[e].Branch? && (ds[d].Leaf? || CmpVal(a.vals, ds[e].cond, ds[d].cond).Before?) {
      RootDecides(a, ds[e].cond, d);
      ArmsDiffer(a, e, d);
    } else {
      WireFlips(a.vals, ds[d].cond, ds[e].cond);
      var c := ds[d].cond;
      NotInArms(a, d);
      NotInArms(a, e);
      forall truth: iset<ValId>
        ensures Choose(ds, ds[d].ifTrue, truth) == Choose(ds, ds[e].ifTrue, truth)
        ensures Choose(ds, ds[d].ifFalse, truth) == Choose(ds, ds[e].ifFalse, truth)
      {
        forall arm | arm in {ds[d].ifTrue, ds[d].ifFalse, ds[e].ifTrue, ds[e].ifFalse}
          ensures Choose(ds, arm, truth + iset{c}) == Choose(ds, arm, truth) == Choose(ds, arm, truth - iset{c})
        {
          ChooseIgnores(ds, arm, truth, c);
        }
        assert Choose(ds, d, truth + iset{c}) == Choose(ds, e, truth + iset{c});
        assert Choose(ds, d, truth - iset{c}) == Choose(ds, e, truth - iset{c});
      }
      Canonical(a, ds[d].ifTrue, ds[e].ifTrue);
      Canonical(a, ds[d].ifFalse, ds[e].ifFalse);
    }
  }

  lemma NotInArms(a: Arena, d: DiagId)
    requires a.Ok() && Distinct(a.vals) && NodesSorted(a) && d < |a.diags| && a.diags[d].Branch?
    requires Plain(a.vals, Tests(a.diags, d))
    ensures a.diags[d].Below(d, |a.vals|)
    ensures a.diags[d].cond !in Tests(a.diags, a.diags[d].ifTrue)
    ensures a.diags[d].cond !in Tests(a.diags, a.diags[d].ifFalse)
  {
    assert a.diags[d].Below(d, |a.vals|);
    PlainIsSorted(a, d);
  }

  /** A decision the other diagram does not make matters to some assignment, since no node has two arms that agree. */
  lemma {:induction false} ArmsDiffer(a: Arena, d: DiagId, e: DiagId)
    requires a.Ok() && Distinct(a.vals) && DistinctDiags(a.diags) && NodesSorted(a)
    requires d < |a.diags| && e < |a.diags| && a.diags[d].Branch? && a.diags[d].cond < |a.vals|
    requires Plain(a.vals, Tests(a.diags, d)) && Plain(a.vals, Tests(a.diags, e))
    requires AllAfter(a, a.diags[d].cond, e)
    ensures exists truth: iset<ValId> :: Choose(a.diags, d, truth) != Choose(a.diags, e, truth)
    decreases if d < e then e else d, 0
  {
    var ds := a.diags;
    var c := ds[d].cond;
    NotInArms(a, d);
    assert c !in Tests(ds, e);
    if forall truth: iset<ValId> :: Choose(ds, d, truth) == Choose(ds, e, truth) {
      forall truth: iset<ValId> ensures Choose(ds, ds[d].ifTrue, truth) == Choose(ds, ds[d].ifFalse, truth) {
        ChooseIgnores(ds, ds[d].ifTrue, truth, c);
        ChooseIgnores(ds, ds[d].ifFalse, truth, c);
        ChooseIgnores(ds, e, truth, c);
        assert Choose(ds, d, truth + iset{c}) == Choose(ds, e, truth + iset{c});
        assert Choose(ds, d, truth - iset{c}) == Choose(ds, e, truth - iset{c});
      }
      Canonical(a, ds[d].ifTrue, ds[d].ifFalse);
      assert false;
    }
  }
}
