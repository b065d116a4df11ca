/** Every local instruction answers on every value, and what its answers keep to. */
module Totality {
  import opened Values
  import opened Prims

  // ---- 64-bit arithmetic ----

  /** Wrapping changes a number by whole turns, and is the only 64-bit number that does. */
  lemma WrapTurns(n: int, i: i64)
    ensures (i - n) % TWO_64 == 0 <==> i == Wrap(n)
  {
    assert (n + TWO_63) % TWO_64 - TWO_63 == Wrap(n);
    var turns := (n + TWO_63) / TWO_64;
    assert Wrap(n) == n - turns * TWO_64;
    if (i - n) % TWO_64 == 0 {
      var k := (i - n) / TWO_64;
      assert i == n + k * TWO_64;
      NearTurns(i - Wrap(n), k + turns);
    } else if i == Wrap(n) {
      Turns(-turns);
    }
  }

  lemma Turns(k: int)
    ensures (k * TWO_64) % TWO_64 == 0
  {
  }

  lemma NearTurns(d: int, k: int)
    requires d == k * TWO_64 && -TWO_64 < d < TWO_64
    ensures d == 0
  {
    assert k < 1;
    assert k > -1;
  }

  lemma Divides(a: nat, b: nat)
    requires b > 0
    ensures a == b * (a / b) + a % b && 0 <= a % b < b
  {
  }

  lemma Signs(y: int, q: int)
    ensures y * q == if y < 0 then -(Abs(y) * q) else Abs(y) * q
    ensures y * -q == -(y * q)
  {
  }

  /** Division and remainder truncate toward zero: they rebuild the dividend, and the remainder has its sign. */
  lemma TruncationRebuilds(x: int, y: int)
    requires y != 0
    ensures x == y * TruncDiv(x, y) + TruncRem(x, y)
    ensures Abs(TruncRem(x, y)) < Abs(y)
    ensures x >= 0 ==> TruncRem(x, y) >= 0
    ensures x <= 0 ==> TruncRem(x, y) <= 0
  {
    var a: nat, b: nat := Abs(x), Abs(y);
    Divides(a, b);
    var q: int, m: int := a / b, a % b;
    Signs(y, q);
    assert TruncDiv(x, y) == if (x < 0) != (y < 0) then -q else q;
    assert TruncRem(x, y) == if x < 0 then -m else m;
  }

  lemma WrapAdds(m: int, n: int)
    ensures Wrap(Wrap(m) + n) == Wrap(m + n) == Wrap(m + Wrap(n))
  {
    SameTurn(m, n);
    SameTurn(n, m);
  }

  lemma SameTurn(m: int, n: int)
    ensures Wrap(Wrap(m) + n) == Wrap(m + n)
  {
    var turns := (m + TWO_63) / TWO_64;
    assert Wrap(m) == m - turns * TWO_64;
    WholeTurns(m + n + TWO_63, -turns);
  }

  lemma WholeTurns(n: int, k: int)
    ensures (n + k * TWO_64) % TWO_64 == n % TWO_64
  {
    var q := n / TWO_64;
    assert n == q * TWO_64 + n % TWO_64;
    Unique(n + k * TWO_64, q + k, n % TWO_64);
  }

  lemma Unique(n: int, q: int, r: int)
    requires n == q * TWO_64 + r && 0 <= r < TWO_64
    ensures n % TWO_64 == r
  {
    var p, s := n / TWO_64, n % TWO_64;
    assert n == p * TWO_64 + s;
    NearTurns(s - r, q - p);
  }

  lemma WrapTimes(m: int, n: int)
    ensures Wrap(Wrap(m) * n) == Wrap(m * n)
  {
    var turns := (m + TWO_63) / TWO_64;
    assert Wrap(m) == m - turns * TWO_64;
    assert Wrap(m) * n == m * n + (-turns * n) * TWO_64;
    WholeTurns(m * n + TWO_63, -turns * n);
  }

  /** On the machine, wrap-around and all: a quotient times its divisor plus the remainder is the dividend. */
  lemma QuotientAndRemainder(x: i64, y: i64)
    requires y != 0
    ensures Answer(Add, Answer(Multiply, Answer(Divide, [Int(x), Int(y)]) + [Int(y)])
      + Answer(Modulo, [Int(x), Int(y)])) == [Int(x)]
  {
    hide Answer; hide Wrap; hide TruncDiv; hide TruncRem;
    var (q, r) := (TruncDiv(x, y), TruncRem(x, y));
    TruncationRebuilds(x, y);
    OnIntegers(Divide, x, y);
    OnIntegers(Modulo, x, y);
    OnIntegers(Multiply, Wrap(q), y);
    OnIntegers(Add, Wrap(Wrap(q) * y), Wrap(r));
    assert [Int(Wrap(q))] + [Int(y)] == [Int(Wrap(q)), Int(y)];
    assert [Int(Wrap(Wrap(q) * y))] + [Int(Wrap(r))] == [Int(Wrap(Wrap(q) * y)), Int(Wrap(r))];
    assert Wrap(Wrap(Wrap(q) * y) + Wrap(r)) == x by {
      WrapTimes(q, y);
      WrapAdds(q * y, r);
      WrapAdds(Wrap(q * y), r);
      InRange(x);
      assert q * y + r == x;
    }
  }

  /**
   * What `divide` and `modulo` answer on integers, the divisor not 0: the remainder is nearer 0 than the divisor and on
   * the dividend's side of it, and the two rebuild the dividend, but for the one quotient that is out of range and
   * wraps.
   */
  lemma DivisionTruncates(x: i64, y: i64, q: i64, r: i64)
    requires y != 0 && Answer(Divide, [Int(x), Int(y)]) == [Int(q)] && Answer(Modulo, [Int(x), Int(y)]) == [Int(r)]
    ensures Abs(r) < Abs(y) && (x >= 0 ==> r >= 0) && (x <= 0 ==> r <= 0)
    ensures if x == -TWO_63 && y == -1 then q == x && r == 0 else x == y * q + r
  {
    hide Answer; hide Wrap; hide TruncDiv; hide TruncRem;
    var d, m := TruncDiv(x, y), TruncRem(x, y);
    OnIntegers(Divide, x, y);
    OnIntegers(Modulo, x, y);
    assert [Int(q)][0] == [Int(Wrap(d))][0] && [Int(r)][0] == [Int(Wrap(m))][0];
    TruncationRebuilds(x, y);
    InRange(m);
    if x == -TWO_63 && y == -1 {
      assert d == TWO_63 && m == 0 && Wrap(TWO_63) == -TWO_63 by { LeastByMinusOne(); }
    } else {
      QuotientInRange(x, y);
      InRange(d);
    }
  }

  lemma LeastByMinusOne()
    ensures TruncDiv(-TWO_63, -1) == TWO_63 && TruncRem(-TWO_63, -1) == 0 && Wrap(TWO_63) == -TWO_63
  {
  }

  lemma QuotientInRange(x: i64, y: i64)
    requires y != 0 && !(x == -TWO_63 && y == -1)
    ensures -TWO_63 <= TruncDiv(x, y) < TWO_63
  {
    var a: nat, b: nat := Abs(x), Abs(y);
    Divides(a, b);
    if b > 1 {
      Halves(a, b);
    }
  }

  lemma Halves(a: nat, b: nat)
    requires b > 1
    ensures a / b <= a / 2
  {
    Divides(a, b);
    Divides(a, 2);
    AtLeastTwice(b, a / b);
  }

  lemma AtLeastTwice(b: nat, q: nat)
    requires b > 1
    ensures b * q >= 2 * q
  {
    assert b * q == 2 * q + (b - 2) * q;
  }

  lemma InRange(x: i64)
    ensures Wrap(x) == x
  {
  }

  lemma OnIntegers(p: Prim, x: i64, y: i64)
    requires p.Add? || p.Subtract? || p.Multiply? || ((p.Divide? || p.Modulo?) && y != 0)
    ensures Answer(p, [Int(x), Int(y)])
      == [Int(Wrap(if p.Add? then x + y else if p.Subtract? then x - y else if p.Multiply? then x * y
                   else if p.Divide? then TruncDiv(x, y) else TruncRem(x, y)))]
  {
    hide Wrap; hide TruncDiv; hide TruncRem;
  }

  /** Sum, difference and product are the 64-bit numbers whole turns away from the true ones. */
  lemma RingUpToTurns(x: i64, y: i64, i: i64)
    ensures Answer(Add, [Int(x), Int(y)]) == [Int(i)] <==> (i - (x + y)) % TWO_64 == 0
    ensures Answer(Subtract, [Int(x), Int(y)]) == [Int(i)] <==> (i - (x - y)) % TWO_64 == 0
    ensures Answer(Multiply, [Int(x), Int(y)]) == [Int(i)] <==> (i - x * y) % TWO_64 == 0
  {
    OnIntegers(Add, x, y);
    OnIntegers(Subtract, x, y);
    OnIntegers(Multiply, x, y);
    hide Wrap; hide Answer;
    WrapTurns(x + y, i);
    WrapTurns(x - y, i);
    WrapTurns(x * y, i);
  }

  /** A value and its negation make 0, nothing else does with that number, and negating twice is the coercion. */
  lemma NegationInverts(v: Value, y: i64)
    ensures Answer(Add, [v] + Answer(Negate, [v])) == [Int(0)]
    ensures Answer(Negate, Answer(Negate, [v])) == Answer(AsInt, [v])
    ensures v.Int? && Answer(Add, [v, Int(y)]) == [Int(0)] ==> Answer(Negate, [v]) == [Int(y)]
    ensures !v.Int? ==> Answer(Negate, [v]) == [Int(0)]
  {
    hide Answer;
    OffIntegers(v);
    if v.Int? {
      hide Wrap;
      var n := Wrap(-(v.i as int));
      Negates(v.i);
      Negates(n);
      assert [v] + [Int(n)] == [v, Int(n)];
      OneNegative(v.i, n);
      OneNegative(n, v.i);
      OneNegative(v.i, y);
      RingUpToTurns(v.i, n, 0);
      RingUpToTurns(v.i, y, 0);
    }
  }

  lemma Negates(x: i64)
    ensures Answer(Negate, [Int(x)]) == [Int(Wrap(-(x as int)))] && Answer(AsInt, [Int(x)]) == [Int(x)]
  {
    hide Wrap;
  }

  lemma OffIntegers(v: Value)
    ensures !v.Int? ==> Answer(Negate, [v]) == [Int(0)] && Answer(AsInt, [v]) == [Int(0)]
    ensures !v.Int? ==> Answer(Add, [v] + [Int(0)]) == [Int(0)] && Answer(Negate, [Int(0)]) == [Int(0)]
  {
  }

  /** The negative of a number is the one 64-bit number that with it makes a whole turn. */
  lemma OneNegative(x: i64, n: i64)
    ensures n == Wrap(-(x as int)) <==> (0 - (x + n)) % TWO_64 == 0
  {
    hide Wrap;
    WrapTurns(-(x as int), n);
    Opposites(x + n);
    assert n - (-(x as int)) == x + n;
  }

  lemma Opposites(n: int)
    ensures n % TWO_64 == 0 <==> (0 - n) % TWO_64 == 0
  {
    if n % TWO_64 == 0 { Turns(-(n / TWO_64)); }
    if (0 - n) % TWO_64 == 0 { Turns(-((0 - n) / TWO_64)); }
  }

  /** Arithmetic that has no answer answers 0: off the integers, and by zero. */
  lemma NoAnswerIsZero(p: Prim, a: Value, b: Value)
    requires p.Add? || p.Subtract? || p.Multiply? || p.Divide? || p.Modulo?
    ensures !(a.Int? && b.Int?) ==> Answer(p, [a, b]) == [Int(0)]
    ensures (p.Divide? || p.Modulo?) && b == Int(0) ==> Answer(p, [a, b]) == [Int(0)]
  {
  }

  /** Where there is an order, exactly one of less, equal and greater; where there is none, neither of the two. */
  lemma Trichotomy(a: Value, b: Value)
    ensures Answer(Greater, [a, b]) == Answer(Less, [b, a])
    ensures a.Int? && b.Int? ==>
      Answer(Less, [a, b]) == [Bool(a.i < b.i)] && Answer(Equal, [a, b]) == [Bool(a.i == b.i)]
      && Answer(Greater, [a, b]) == [Bool(a.i > b.i)]
    ensures !(a.Int? && b.Int?) ==> Answer(Less, [a, b]) == Answer(Greater, [a, b]) == [Bool(false)]
  {
  }

  // ---- truth ----

  /** The connectives are dual on every value, not only on booleans. */
  lemma DeMorgan(a: Value, b: Value)
    ensures Answer(Not, Answer(And, [a, b])) == Answer(Or, Answer(Not, [a]) + Answer(Not, [b]))
    ensures Answer(Not, Answer(Or, [a, b])) == Answer(And, Answer(Not, [a]) + Answer(Not, [b]))
  {
  }

  /** Every value is true but one, and a connective asks that of each operand on its own. */
  lemma TruthOfEach(a: Value, b: Value)
    ensures Answer(And, [a, b]) == Answer(And, Answer(AsBool, [a]) + Answer(AsBool, [b]))
    ensures Answer(Not, Answer(Not, [a])) == Answer(AsBool, [a])
    ensures Answer(Not, [a]) == [Bool(true)] <==> a == Bool(false)
  {
  }

  /** `equal` is equality; the connectives are the truth tables of what their operands count as. */
  lemma TruthTables(a: Value, b: Value)
    ensures Answer(Equal, [a, b]) == [Bool(true)] <==> a == b
    ensures Answer(Equal, [a, b]) == [Bool(false)] <==> a != b
    ensures Answer(And, [a, b]) == [Bool(true)] <==> a != Bool(false) && b != Bool(false)
    ensures Answer(And, [a, b]) == [Bool(false)] <==> a == Bool(false) || b == Bool(false)
    ensures Answer(Or, [a, b]) == [Bool(false)] <==> a == b == Bool(false)
    ensures Answer(Or, [a, b]) == [Bool(true)] <==> a != Bool(false) || b != Bool(false)
  {
  }

  // ---- types ----

  /** The five that ask what type a value is of. */
  predicate TypeTest(p: Prim) {
    p.IsInt? || p.IsBool? || p.IsConstString? || p.IsTuple? || p.IsSymbol?
  }

  predicate Passes(p: Prim, v: Value)
    requires TypeTest(p)
  {
    Answer(p, [v]) == [Bool(true)]
  }

  /** Every value passes one type test and fails the others. */
  lemma OneType(v: Value, p: Prim, q: Prim)
    requires TypeTest(p) && TypeTest(q)
    ensures Passes(p, v) || Answer(p, [v]) == [Bool(false)]
    ensures Passes(p, v) && Passes(q, v) ==> p == q
    ensures Passes(IsInt, v) || Passes(IsBool, v) || Passes(IsConstString, v) || Passes(IsTuple, v)
      || Passes(IsSymbol, v)
  {
    TestAnswers(p, v);
    TestAnswers(q, v);
    TestAnswers(IsInt, v);
    TestAnswers(IsBool, v);
    TestAnswers(IsConstString, v);
    TestAnswers(IsTuple, v);
    TestAnswers(IsSymbol, v);
    hide Answer;
  }

  lemma TestAnswers(p: Prim, v: Value)
    requires TypeTest(p)
    ensures Answer(p, [v]) == [Bool(if p.IsInt? then v.Int? else if p.IsBool? then v.Bool?
                                    else if p.IsConstString? then v.ConstString? else if p.IsTuple? then v.Tuple?
                                    else v.Symbol?)]
  {
  }

  /** A value passes the test of its type, which is the one whose coercion leaves it alone. */
  lemma TestsKnowTypes(v: Value)
    ensures Passes(IsInt, v) <==> Answer(AsInt, [v]) == [v]
    ensures Passes(IsBool, v) <==> Answer(AsBool, [v]) == [v]
    ensures Passes(IsTuple, v) <==> v.Tuple? && Answer(AsTuple(|v.elements|), [v]) == [v]
    ensures Passes(IsConstString, v) <==> v.ConstString?
    ensures Passes(IsSymbol, v) <==> v.Symbol?
  {
    TestAnswers(IsInt, v);
    TestAnswers(IsBool, v);
    TestAnswers(IsConstString, v);
    TestAnswers(IsTuple, v);
    TestAnswers(IsSymbol, v);
    CoercionsSettle(AsInt, v);
    CoercionsSettle(AsBool, v);
    if v.Tuple? { CoercionsSettle(AsTuple(|v.elements|), v); }
    hide Answer;
  }

  // ---- coercions ----

  predicate Coerces(p: Prim) {
    p.AsBool? || p.AsInt? || p.AsTuple?
  }

  /** What a coercion names: the values it leaves alone. */
  predicate OfItsType(p: Prim, v: Value)
    requires Coerces(p)
  {
    if p.AsBool? then v.Bool? else if p.AsInt? then v.Int? else v.Tuple? && |v.elements| == p.n
  }

  /** The default of the type an instruction computes. */
  function Default(p: Prim): Value
    requires Coerces(p)
  {
    if p.AsBool? then Bool(true) else if p.AsInt? then Int(0) else Value.Tuple(Units(p.n))
  }

  /**
   * A coercion lands in its type, changes a value exactly when the value is not of it, then answers with
   * one fixed value, and has nothing left to do a second time.
   */
  lemma CoercionsSettle(p: Prim, v: Value)
    requires Coerces(p)
    ensures |Answer(p, [v])| == 1 && OfItsType(p, Answer(p, [v])[0])
    ensures Answer(p, [v]) == [v] <==> OfItsType(p, v)
    ensures !OfItsType(p, v) ==> Answer(p, [v]) == [Default(p)]
    ensures Answer(p, Answer(p, [v])) == Answer(p, [v])
  {
  }

  /** Taking apart is coercing and then taking apart, and rebuilding that is the coercion. */
  lemma UntuplingCoerces(n: nat, v: Value)
    ensures Answer(Untuple(n), [v]) == Answer(Untuple(n), Answer(AsTuple(n), [v]))
    ensures Answer(Prim.Tuple(n), Answer(Untuple(n), [v])) == Answer(AsTuple(n), [v])
  {
  }

  /** Tupling and taking apart are inverse, the deepest value being element 0. */
  lemma TuplingComesApart(args: seq<Value>)
    ensures Answer(Untuple(|args|), Answer(Prim.Tuple(|args|), args)) == args
  {
  }

  /** What `tuple` made has as many elements as it was given, up to the turns a length wraps by. */
  lemma TuplingCounts(args: seq<Value>, v: Value, i: i64)
    ensures Answer(TupleLength, Answer(Prim.Tuple(|args|), args)) == [Int(i)] <==> (i - |args|) % TWO_64 == 0
    ensures !v.Tuple? ==> Answer(TupleLength, [v]) == [Int(0)]
  {
    WrapTurns(|args|, i);
  }

  // ---- strings ----

  /** The length of a string, and its characters at the indices below that; off the string and off its type, 0. */
  lemma StringsByIndex(s: string, i: i64, v: Value)
    ensures Answer(ConstStringLen, [ConstString(s)]) == [Int(i)] <==> (i - |s|) % TWO_64 == 0
    ensures 0 <= i < |s| ==> Answer(ConstStringCharAt, [ConstString(s), Int(i)]) == [Int(s[i] as int)]
    ensures i < 0 || i >= |s| ==> Answer(ConstStringCharAt, [ConstString(s), Int(i)]) == [Int(0)]
    ensures !v.ConstString? ==>
      Answer(ConstStringLen, [v]) == [Int(0)] && Answer(ConstStringCharAt, [v, Int(i)]) == [Int(0)]
    ensures !v.Int? ==> Answer(ConstStringCharAt, [ConstString(s), v]) == [Int(0)]
  {
    WrapTurns(|s|, i);
  }

  /** A string is its length and its characters: two that no length and no index tells apart are one. */
  lemma StringsAreTheirCharacters(s: string, t: string)
    requires |s| < TWO_63 && |t| < TWO_63
    requires Answer(ConstStringLen, [ConstString(s)]) == Answer(ConstStringLen, [ConstString(t)])
    requires forall i: i64 ::
      Answer(ConstStringCharAt, [ConstString(s), Int(i)]) == Answer(ConstStringCharAt, [ConstString(t), Int(i)])
    ensures s == t
  {
    StringsByIndex(s, |s|, UNIT);
    StringsByIndex(t, |s|, UNIT);
    LengthsAgree(s, t);
    forall k | 0 <= k < |s| ensures s[k] == t[k] {
      var i: i64 := k;
      StringsByIndex(s, i, UNIT);
      StringsByIndex(t, i, UNIT);
    }
  }

  lemma LengthsAgree(s: string, t: string)
    requires |s| < TWO_63 && |t| < TWO_63
    requires Answer(ConstStringLen, [ConstString(s)]) == Answer(ConstStringLen, [ConstString(t)])
    ensures |s| == |t|
  {
    InRange(|s|);
    InRange(|t|);
    assert Answer(ConstStringLen, [ConstString(s)])[0] == Int(Wrap(|s|));
    assert Answer(ConstStringLen, [ConstString(t)])[0] == Int(Wrap(|t|));
  }

  // ---- the two lists the folds rest on ----

  /** The commutative instructions are exactly the ones the list names. */
  lemma CommutativeExactly(p: Prim)
    requires p.Effect() == Arity(2, 1)
    ensures p.Commutative() <==> forall a, b :: Answer(p, [a, b]) == Answer(p, [b, a])
  {
    if p.Commutative() {
      forall a, b ensures Answer(p, [a, b]) == Answer(p, [b, a]) {
        CommutativeAnswers(p, a, b);
      }
    } else if p.ConstStringCharAt? {
      assert Answer(p, [ConstString("a"), Int(0)]) != Answer(p, [Int(0), ConstString("a")]);
    } else {
      OneAndTwo(p);
    }
  }

  lemma OneAndTwo(p: Prim)
    requires p.Subtract? || p.Divide? || p.Modulo? || p.Greater? || p.Less? || p == Prim.Tuple(2)
    ensures Answer(p, [Int(1), Int(2)]) != Answer(p, [Int(2), Int(1)])
  {
    assert [Int(1), Int(2)] != [Int(2), Int(1)] by {
      assert [Int(1), Int(2)][0] != [Int(2), Int(1)][0];
    }
    assert TruncDiv(1, 2) == 0 && TruncDiv(2, 1) == 2 && TruncRem(1, 2) == 1 && TruncRem(2, 1) == 0;
  }

  /** The instructions that always leave a `Bool` are exactly the ones the list names. */
  lemma YieldsBoolExactly(p: Prim)
    requires p.Effect().outputs == 1 && !p.Push?
    ensures p.YieldsBool() <==> forall args: seq<Value> | |args| == p.Effect().inputs :: Answer(p, args)[0].Bool?
  {
    if p.YieldsBool() {
      forall args: seq<Value> | |args| == p.Effect().inputs ensures Answer(p, args)[0].Bool? {
        YieldsBoolAnswers(p, args);
      }
    } else {
      var args := Units(p.Effect().inputs);
      assert !Answer(p, args)[0].Bool?;
    }
  }
}
