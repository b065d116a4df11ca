/** The checks generated for type specifications, and that each answers exactly whether its value matches. */
module TypeChecks {
  import opened Wrappers
  import opened Values
  import opened Prims
  import opened Terms
  import opened Libraries
  import opened Machine
  import opened Meanings
  import opened Surface
  import opened Expansions
  import opened Settling
  import opened Assembling

  datatype PrimitiveType = IntType | BoolType | ConstStringType | SymbolType | TupleType

  datatype TypeSpec =
    | Primitive(primitive: PrimitiveType)
    | Literal(v: Value)
    | Path(item: Item)
    | Shape(elements: seq<TypeSpec>)
    | Union(variants: seq<TypeSpec>)

  // ---- what a specification says of a value ----

  predicate IsOf(v: Value, primitive: PrimitiveType) {
    match primitive
    case IntType => v.Int?
    case BoolType => v.Bool?
    case ConstStringType => v.ConstString?
    case SymbolType => v.Symbol?
    case TupleType => v.Tuple?
  }

  /** A path to a constant matches that value; a path to a sentence matches what `named` says it accepts. */
  ghost predicate Matches(v: Value, spec: TypeSpec, named: (SentenceIndex, Value) -> bool)
    decreases spec
  {
    match spec
    case Primitive(primitive) => IsOf(v, primitive)
    case Literal(w) => v == w
    case Path(Const(w)) => v == w
    case Path(Sentence(s)) => named(s, v)
    case Shape(elements) =>
      v.Tuple? && |v.elements| == |elements|
      && forall i | 0 <= i < |elements| :: Matches(v.elements[i], elements[i], named)
    case Union(variants) => exists i :: 0 <= i < |variants| && Matches(v, variants[i], named)
  }

  // ---- the generated checks ----

  function TestOf(primitive: PrimitiveType): Prim {
    match primitive
    case IntType => IsInt
    case BoolType => IsBool
    case ConstStringType => IsConstString
    case SymbolType => IsSymbol
    case TupleType => IsTuple
  }

  function CompileSpec(spec: TypeSpec): Body
    decreases spec, 0
  {
    match spec
    case Primitive(primitive) => [Plain(TestOf(primitive))]
    case Literal(v) => [Plain(Push(v)), Plain(Equal)]
    case Path(item) => [Word.Check(item)]
    case Union(variants) => CompileUnion(variants)
    case Shape(elements) =>
      if elements == [] then [Plain(Push(UNIT)), Plain(Equal)]
      else
        [Word.Pick(0), Word.Pick(0), Plain(AsTuple(|elements|)), Plain(Equal),
         Word.Branch(Inline(ElementChecks(elements)), Inline(Answering(false)))]
  }

  /** The value taken apart, its last element checked, and the others in frames under the answer so far. */
  function ElementChecks(elements: seq<TypeSpec>): Body
    requires elements != []
    decreases elements, 1
  {
    var last := |elements| - 1;
    [Plain(Untuple(|elements|))] + CompileSpec(elements[last]) + EarlierChecks(elements[..last])
  }

  function EarlierChecks(elements: seq<TypeSpec>): Body
    decreases elements, 0
  {
    if elements == [] then []
    else
      var last := |elements| - 1;
      [Word.Dip(1, Inline(CompileSpec(elements[last]))), Plain(And)] + EarlierChecks(elements[..last])
  }

  function CompileUnion(variants: seq<TypeSpec>): Body
    decreases variants, 0
  {
    if variants == [] then Answering(false)
    else if |variants| == 1 then CompileSpec(variants[0])
    else
      [Word.Pick(0)] + CompileSpec(variants[0])
      + [Word.Branch(Inline(Answering(true)), Inline(CompileUnion(variants[1..])))]
  }

  function Answering(b: bool): Body {
    [Word.Drop(0), Plain(Push(Bool(b)))]
  }

  // ---- they never leave early ----

  lemma {:induction false} SpecIsStraight(spec: TypeSpec)
    ensures Straight(CompileSpec(spec))
    decreases spec, 0
  {
    if spec.Union? {
      UnionIsStraight(spec.variants);
    }
  }

  lemma {:induction false} UnionIsStraight(variants: seq<TypeSpec>)
    ensures Straight(CompileUnion(variants))
    decreases variants, 0
  {
    if variants != [] {
      SpecIsStraight(variants[0]);
    }
  }

  // ---- they are always accepted ----

  /** Every sentence a specification names is there, and ranked below `r`. */
  predicate NamesBelow(spec: TypeSpec, rank: seq<nat>, r: nat)
    decreases spec
  {
    match spec
    case Path(Sentence(s)) => s < |rank| && rank[s] < r
    case Shape(elements) => forall i | 0 <= i < |elements| :: NamesBelow(elements[i], rank, r)
    case Union(variants) => forall i | 0 <= i < |variants| :: NamesBelow(variants[i], rank, r)
    case _ => true
  }

  /** Level, calling only what is ranked below `r`, never early, and `net` taller afterwards, all checks being level. */
  predicate Fits(rank: seq<nat>, r: nat, body: Body, net: int) {
    var nets := Zeros(|rank|);
    && Level(nets, body) && CallsBelow(rank, r, body) && NetOf(nets, body) == net
    && Straight(body) && TailsOf(body) == []
  }

  function Zeros(n: nat): seq<int> {
    seq(n, _ => 0)
  }

  lemma {:induction false} NetJoins(nets: seq<int>, a: Body, b: Body)
    ensures NetOf(nets, a + b) == NetOf(nets, a) + NetOf(nets, b)
    decreases |a|
  {
    if a == [] {
      assert a + b == b;
    } else {
      assert (a + b)[0] == a[0] && (a + b)[1..] == a[1..] + b;
      NetJoins(nets, a[1..], b);
    }
  }

  lemma FitsJoins(rank: seq<nat>, r: nat, a: Body, m: int, b: Body, n: int)
    requires Fits(rank, r, a, m) && Fits(rank, r, b, n)
    ensures Fits(rank, r, a + b, m + n)
  {
    hide LevelWord; hide WordBelow;
    NetJoins(Zeros(|rank|), a, b);
    TailsJoin(a, b);
    forall k | 0 <= k < |a + b| ensures LevelWord(Zeros(|rank|), (a + b)[k]) && WordBelow(rank, r, (a + b)[k]) {
      assert (a + b)[k] == if k < |a| then a[k] else b[k - |a|];
    }
  }

  lemma FitsWord(rank: seq<nat>, r: nat, word: Word, net: int)
    requires LevelWord(Zeros(|rank|), word) && WordBelow(rank, r, word) && NetOfWord(Zeros(|rank|), word) == net
    requires !word.Try? && TailsOfWord(word) == []
    ensures Fits(rank, r, [word], net)
  {
    assert TailsOf([word]) == TailsOfWord(word) + TailsOf([word][1..]);
    assert NetOf(Zeros(|rank|), [word]) == NetOfWord(Zeros(|rank|), word) + NetOf(Zeros(|rank|), [word][1..]);
  }

  lemma FitsPlain(rank: seq<nat>, r: nat, prim: Prim)
    ensures Fits(rank, r, [Plain(prim)], prim.Effect().Net())
  {
    FitsWord(rank, r, Plain(prim), prim.Effect().Net());
  }

  lemma FitsBranch(rank: seq<nat>, r: nat, yes: Body, no: Body, net: int)
    requires Fits(rank, r, yes, net) && Fits(rank, r, no, net)
    ensures Fits(rank, r, [Word.Branch(Inline(yes), Inline(no))], net - 1)
  {
    FitsWord(rank, r, Word.Branch(Inline(yes), Inline(no)), net - 1);
  }

  lemma AnsweringFits(rank: seq<nat>, r: nat, b: bool)
    ensures Fits(rank, r, Answering(b), 0)
  {
    FitsWord(rank, r, Word.Drop(0), -1);
    FitsPlain(rank, r, Push(Bool(b)));
    assert Answering(b) == [Word.Drop(0)] + [Plain(Push(Bool(b)))];
    FitsJoins(rank, r, [Word.Drop(0)], -1, [Plain(Push(Bool(b)))], 1);
  }

  lemma LiteralFits(rank: seq<nat>, r: nat, v: Value)
    ensures Fits(rank, r, [Plain(Push(v)), Plain(Equal)], 0)
  {
    FitsPlain(rank, r, Push(v));
    FitsPlain(rank, r, Equal);
    assert [Plain(Push(v)), Plain(Equal)] == [Plain(Push(v))] + [Plain(Equal)];
    FitsJoins(rank, r, [Plain(Push(v))], 1, [Plain(Equal)], -1);
  }

  /** A check is level, and replaces one value by one. */
  lemma {:induction false} SpecFits(spec: TypeSpec, rank: seq<nat>, r: nat)
    requires NamesBelow(spec, rank, r)
    ensures Fits(rank, r, CompileSpec(spec), 0)
    decreases spec, 1
  {
    hide Fits;
    match spec
    case Primitive(primitive) => FitsPlain(rank, r, TestOf(primitive));
    case Literal(v) => LiteralFits(rank, r, v);
    case Path(item) => FitsWord(rank, r, Word.Check(item), 0);
    case Union(variants) => UnionFits(variants, rank, r);
    case Shape(elements) =>
      if elements == [] {
        LiteralFits(rank, r, UNIT);
      } else {
        ElementsFit(elements, rank, r);
        ShapeFits(elements, rank, r);
      }
  }

  lemma ShapeFits(elements: seq<TypeSpec>, rank: seq<nat>, r: nat)
    requires elements != [] && Fits(rank, r, ElementChecks(elements), 0)
    ensures Fits(rank, r, CompileSpec(Shape(elements)), 0)
  {
    var n := |elements|;
    var branch := [Word.Branch(Inline(ElementChecks(elements)), Inline(Answering(false)))];
    AnsweringFits(rank, r, false);
    FitsBranch(rank, r, ElementChecks(elements), Answering(false), 0);
    FitsWord(rank, r, Word.Pick(0), 1);
    FitsPlain(rank, r, AsTuple(n));
    FitsPlain(rank, r, Equal);
    assert CompileSpec(Shape(elements))
      == [Word.Pick(0)] + ([Word.Pick(0)] + ([Plain(AsTuple(n))] + ([Plain(Equal)] + branch)));
    hide Fits;
    FitsJoins(rank, r, [Plain(Equal)], -1, branch, -1);
    FitsJoins(rank, r, [Plain(AsTuple(n))], 0, [Plain(Equal)] + branch, -2);
    FitsJoins(rank, r, [Word.Pick(0)], 1, [Plain(AsTuple(n))] + ([Plain(Equal)] + branch), -2);
    FitsJoins(rank, r, [Word.Pick(0)], 1, [Word.Pick(0)] + ([Plain(AsTuple(n))] + ([Plain(Equal)] + branch)), -1);
  }

  lemma {:induction false} ElementsFit(elements: seq<TypeSpec>, rank: seq<nat>, r: nat)
    requires elements != [] && forall i | 0 <= i < |elements| :: NamesBelow(elements[i], rank, r)
    ensures Fits(rank, r, ElementChecks(elements), 0)
    decreases elements, 1
  {
    hide Fits;
    var n, last := |elements|, |elements| - 1;
    var check, earlier := CompileSpec(elements[last]), EarlierChecks(elements[..last]);
    SpecFits(elements[last], rank, r);
    EarlierFits(elements[..last], rank, r);
    FitsPlain(rank, r, Untuple(n));
    FitsJoins(rank, r, [Plain(Untuple(n))], n - 1, check, 0);
    FitsJoins(rank, r, [Plain(Untuple(n))] + check, n - 1, earlier, 1 - n);
  }

  lemma {:induction false} EarlierFits(elements: seq<TypeSpec>, rank: seq<nat>, r: nat)
    requires forall i | 0 <= i < |elements| :: NamesBelow(elements[i], rank, r)
    ensures Fits(rank, r, EarlierChecks(elements), -|elements|)
    decreases elements, 0
  {
    hide Fits;
    if elements == [] {
      FitsNothing(rank, r);
    } else {
      var last := |elements| - 1;
      var check, earlier := CompileSpec(elements[last]), EarlierChecks(elements[..last]);
      SpecFits(elements[last], rank, r);
      EarlierFits(elements[..last], rank, r);
      FitsFrame(rank, r, check);
      FitsJoins(rank, r, [Word.Dip(1, Inline(check)), Plain(And)], -1, earlier, -last);
    }
  }

  lemma FitsNothing(rank: seq<nat>, r: nat)
    ensures Fits(rank, r, [], 0)
  {
  }

  lemma FitsFrame(rank: seq<nat>, r: nat, check: Body)
    requires Fits(rank, r, check, 0)
    ensures Fits(rank, r, [Word.Dip(1, Inline(check)), Plain(And)], -1)
  {
    FitsWord(rank, r, Word.Dip(1, Inline(check)), 0);
    FitsPlain(rank, r, And);
    assert [Word.Dip(1, Inline(check)), Plain(And)] == [Word.Dip(1, Inline(check))] + [Plain(And)];
    FitsJoins(rank, r, [Word.Dip(1, Inline(check))], 0, [Plain(And)], -1);
  }

  lemma {:induction false} UnionFits(variants: seq<TypeSpec>, rank: seq<nat>, r: nat)
    requires forall i | 0 <= i < |variants| :: NamesBelow(variants[i], rank, r)
    ensures Fits(rank, r, CompileUnion(variants), 0)
    decreases variants, 0
  {
    hide Fits;
    if variants == [] {
      AnsweringFits(rank, r, false);
    } else {
      SpecFits(variants[0], rank, r);
      if |variants| > 1 {
        var others := CompileUnion(variants[1..]);
        UnionFits(variants[1..], rank, r);
        AnsweringFits(rank, r, true);
        FitsBranch(rank, r, Answering(true), others, 0);
        FitsWord(rank, r, Word.Pick(0), 1);
        FitsJoins(rank, r, [Word.Pick(0)], 1, CompileSpec(variants[0]), 0);
        FitsJoins(rank, r, [Word.Pick(0)] + CompileSpec(variants[0]), 1,
          [Word.Branch(Inline(Answering(true)), Inline(others))], -1);
      }
    }
  }

  /** A program of checks that name each other in an order settles: nothing but an annotation can refuse it. */
  lemma ChecksSettle(program: seq<Written>, specs: seq<TypeSpec>, rank: seq<nat>)
    requires |program| == |specs| == |rank|
    requires forall s | 0 <= s < |program| ::
      program[s].body == CompileSpec(specs[s]) && NamesBelow(specs[s], rank, rank[s])
    ensures Settled(program)
  {
    hide Level; hide CallsBelow; hide NetOf; hide NamesBelow; hide CompileSpec; hide TailsOf; hide Straight;
    var top: seq<nat> := Zeros(|rank|);
    forall s | 0 <= s < |program| ensures SettlesAt(program[s].body, s, Zeros(|rank|), rank, top) {
      SpecFits(specs[s], rank, rank[s]);
      LevelIsBelow(Zeros(|rank|), top, 1, program[s].body);
    }
    assert Settles(Bodies(program), Zeros(|rank|), rank, top);
  }

  // ---- they answer ----

  /** On any stack, `body` replaces the top value by the answer `b`. */
  ghost predicate Answers(p: Program, body: Body, v: Value, b: bool, fuel: nat) {
    forall below: seq<Value> :: Means(p, body, below + [v], fuel) == Done(below + [Bool(b)])
  }

  /** The sentences a specification names answer as `named` says they do. */
  ghost predicate NamedAnswer(p: Program, spec: TypeSpec, named: (SentenceIndex, Value) -> bool, fuel: nat)
    decreases spec
  {
    match spec
    case Path(Sentence(s)) => forall v :: Answers(p, [Word.Check(Item.Sentence(s))], v, named(s, v), fuel)
    case Shape(elements) => forall i | 0 <= i < |elements| :: NamedAnswer(p, elements[i], named, fuel)
    case Union(variants) => forall i | 0 <= i < |variants| :: NamedAnswer(p, variants[i], named, fuel)
    case _ => true
  }

  /** Two bodies in turn, the first leaving what the second starts from. */
  lemma Then(p: Program, a: Body, b: Body, stack: seq<Value>, between: seq<Value>, fuel: nat)
    requires Straight(a) && Means(p, a, stack, fuel) == Done(between)
    ensures Means(p, a + b, stack, fuel) == Means(p, b, between, fuel)
  {
    MeansJoins(p, a, b, stack, fuel);
  }

  lemma PlainMeans(p: Program, prim: Prim, below: seq<Value>, args: seq<Value>, fuel: nat)
    requires |args| == prim.Effect().inputs
    ensures Means(p, [Plain(prim)], below + args, fuel) == Done(below + Answer(prim, args))
  {
    hide Answer;
    OneWord(p, Plain(prim), below + args, fuel);
    assert (below + args)[..|below|] == below && (below + args)[|below|..] == args;
  }

  lemma CopyMeans(p: Program, below: seq<Value>, v: Value, fuel: nat)
    ensures Means(p, [Word.Pick(0)], below + [v], fuel) == Done(below + [v] + [v])
  {
    OneWord(p, Word.Pick(0), below + [v], fuel);
  }

  lemma AnsweringMeans(p: Program, below: seq<Value>, v: Value, b: bool, fuel: nat)
    ensures Means(p, Answering(b), below + [v], fuel) == Done(below + [Bool(b)])
  {
    OneWord(p, Word.Drop(0), below + [v], fuel);
    assert (below + [v])[..|below|] + (below + [v])[|below| + 1..] == below;
    assert Answering(b) == [Word.Drop(0)] + [Plain(Push(Bool(b)))];
    Then(p, [Word.Drop(0)], [Plain(Push(Bool(b)))], below + [v], below, fuel);
    PlainMeans(p, Push(Bool(b)), below, [], fuel);
    assert below + [] == below;
  }

  /** A value compared with a constant. */
  lemma EqualMeans(p: Program, below: seq<Value>, v: Value, w: Value, fuel: nat)
    ensures Means(p, [Plain(Push(w)), Plain(Equal)], below + [v], fuel) == Done(below + [Bool(v == w)])
  {
    PlainMeans(p, Push(w), below + [v], [], fuel);
    assert below + [v] + [] == below + [v] && below + [v] + [w] == below + [v, w];
    assert [Plain(Push(w)), Plain(Equal)] == [Plain(Push(w))] + [Plain(Equal)];
    Then(p, [Plain(Push(w))], [Plain(Equal)], below + [v], below + [v] + [w], fuel);
    PlainMeans(p, Equal, below, [v, w], fuel);
  }

  lemma BranchRuns(p: Program, t: Body, f: Body, below: seq<Value>, b: bool, fuel: nat)
    ensures Means(p, [Word.Branch(Inline(t), Inline(f))], below + [Bool(b)], fuel)
      == Means(p, if b then t else f, below, fuel)
  {
    OneWord(p, Word.Branch(Inline(t), Inline(f)), below + [Bool(b)], fuel);
    assert (below + [Bool(b)])[..|below|] == below;
  }

  /** The check of a specification answers whether the value matches, and leaves the rest of the stack alone. */
  lemma {:induction false} SpecAnswers(
    p: Program, spec: TypeSpec, named: (SentenceIndex, Value) -> bool, v: Value, below: seq<Value>, fuel: nat)
    requires NamedAnswer(p, spec, named, fuel)
    ensures Means(p, CompileSpec(spec), below + [v], fuel) == Done(below + [Bool(Matches(v, spec, named))])
    decreases spec, 0
  {
    hide Means;
    match spec
    case Primitive(primitive) => PlainMeans(p, TestOf(primitive), below, [v], fuel);
    case Literal(w) => EqualMeans(p, below, v, w, fuel);
    case Path(item) =>
      match item {
        case Sentence(s) => assert Answers(p, [Word.Check(Item.Sentence(s))], v, named(s, v), fuel);
        case Const(w) => ConstAnswers(p, below, v, w, fuel);
      }
    case Union(variants) => UnionAnswers(p, variants, named, v, below, fuel);
    case Shape(elements) =>
      if elements == [] {
        EqualMeans(p, below, v, UNIT, fuel);
      } else {
        ShapeAsked(p, elements, below, v, fuel);
        if v.Tuple? && |v.elements| == |elements| {
          ElementsAnswer(p, elements, named, v.elements, below, fuel);
        } else {
          AnsweringMeans(p, below, v, false, fuel);
        }
      }
  }

  lemma ConstAnswers(p: Program, below: seq<Value>, v: Value, w: Value, fuel: nat)
    ensures Means(p, [Word.Check(Item.Const(w))], below + [v], fuel) == Done(below + [Bool(v == w)])
  {
    OneWord(p, Word.Check(Item.Const(w)), below + [v], fuel);
    assert (below + [v])[..|below|] == below;
  }

  /** `as_tuple` of a width leaves alone the tuples of that width and nothing else. */
  lemma ShapeAsked(p: Program, elements: seq<TypeSpec>, below: seq<Value>, v: Value, fuel: nat)
    requires elements != []
    ensures Means(p, CompileSpec(Shape(elements)), below + [v], fuel)
      == Means(p, if v.Tuple? && |v.elements| == |elements|
        then ElementChecks(elements) else Answering(false), below + [v], fuel)
  {
    hide Means; hide ElementChecks; hide Answering;
    var n := |elements|;
    var coerced := Value.Tuple(TakenApart(n, v));
    var shaped := v.Tuple? && |v.elements| == n;
    var (t, f) := (ElementChecks(elements), Answering(false));
    var branch := [Word.Branch(Inline(t), Inline(f))];
    assert CompileSpec(Shape(elements))
      == [Word.Pick(0)] + ([Word.Pick(0)] + ([Plain(AsTuple(n))] + ([Plain(Equal)] + branch)));
    CopyMeans(p, below, v, fuel);
    Then(p, [Word.Pick(0)], [Word.Pick(0)] + ([Plain(AsTuple(n))] + ([Plain(Equal)] + branch)), below + [v],
      below + [v] + [v], fuel);
    CopyMeans(p, below + [v], v, fuel);
    Then(p, [Word.Pick(0)], [Plain(AsTuple(n))] + ([Plain(Equal)] + branch), below + [v] + [v],
      below + [v] + [v] + [v], fuel);
    PlainMeans(p, AsTuple(n), below + [v] + [v], [v], fuel);
    Then(p, [Plain(AsTuple(n))], [Plain(Equal)] + branch, below + [v] + [v] + [v], below + [v] + [v] + [coerced], fuel);
    PlainMeans(p, Equal, below + [v], [v, coerced], fuel);
    assert below + [v] + [v] + [coerced] == below + [v] + [v, coerced];
    Then(p, [Plain(Equal)], branch, below + [v] + [v, coerced], below + [v] + [Bool(v == coerced)], fuel);
    BranchRuns(p, t, f, below + [v], v == coerced, fuel);
    assert (v == coerced) == shaped;
  }

  /** The elements that match, all of them. */
  ghost predicate AllMatch(xs: seq<Value>, elements: seq<TypeSpec>, named: (SentenceIndex, Value) -> bool)
    requires |xs| == |elements|
  {
    forall i | 0 <= i < |elements| :: Matches(xs[i], elements[i], named)
  }

  lemma {:induction false} ElementsAnswer(
    p: Program, elements: seq<TypeSpec>, named: (SentenceIndex, Value) -> bool, xs: seq<Value>, below: seq<Value>,
    fuel: nat)
    requires elements != [] && |xs| == |elements| && forall i | 0 <= i < |elements| ::
      NamedAnswer(p, elements[i], named, fuel)
    ensures Means(p, ElementChecks(elements), below + [Value.Tuple(xs)], fuel)
      == Done(below + [Bool(AllMatch(xs, elements, named))])
    decreases elements, 1
  {
    hide Means;
    var n, last := |elements|, |elements| - 1;
    var check, earlier := CompileSpec(elements[last]), EarlierChecks(elements[..last]);
    PlainMeans(p, Untuple(n), below, [Value.Tuple(xs)], fuel);
    assert ElementChecks(elements) == [Plain(Untuple(n))] + (check + earlier);
    Then(p, [Plain(Untuple(n))], check + earlier, below + [Value.Tuple(xs)], below + xs, fuel);
    assert below + xs == below + xs[..last] + [xs[last]];
    SpecAnswers(p, elements[last], named, xs[last], below + xs[..last], fuel);
    SpecIsStraight(elements[last]);
    var soFar := Matches(xs[last], elements[last], named);
    Then(p, check, earlier, below + xs, below + xs[..last] + [Bool(soFar)], fuel);
    EarlierAnswer(p, elements[..last], named, xs[..last], below, soFar, fuel);
    LastMatches(xs, elements, named);
  }

  lemma LastMatches(xs: seq<Value>, elements: seq<TypeSpec>, named: (SentenceIndex, Value) -> bool)
    requires elements != [] && |xs| == |elements|
    ensures var last := |elements| - 1;
      AllMatch(xs, elements, named)
        == (AllMatch(xs[..last], elements[..last], named) && Matches(xs[last], elements[last], named))
  {
    var last := |elements| - 1;
    if AllMatch(xs[..last], elements[..last], named) && Matches(xs[last], elements[last], named) {
      forall i | 0 <= i < |elements| ensures Matches(xs[i], elements[i], named) {
        assert i < last ==> Matches(xs[..last][i], elements[..last][i], named);
      }
    }
    if AllMatch(xs, elements, named) {
      forall i | 0 <= i < last ensures Matches(xs[..last][i], elements[..last][i], named) {
        assert Matches(xs[i], elements[i], named);
      }
    }
  }

  /** One element checked in a frame that hides the answer so far, and the two answers joined. */
  lemma EarlierStep(
    p: Program, check: Body, earlier: Body, under: seq<Value>, x: Value, here: bool, soFar: bool, fuel: nat)
    requires Means(p, check, under + [x], fuel) == Done(under + [Bool(here)])
    ensures Means(p, [Word.Dip(1, Inline(check)), Plain(And)] + earlier, under + [x] + [Bool(soFar)], fuel)
      == Means(p, earlier, under + [Bool(here && soFar)], fuel)
  {
    hide Means;
    var framed := Word.Dip(1, Inline(check));
    var stack := under + [x] + [Bool(soFar)];
    FrameMeans(p, 1, check, under + [x], [Bool(soFar)], fuel);
    OneWord(p, framed, stack, fuel);
    assert under + [Bool(here)] + [Bool(soFar)] == under + [Bool(here), Bool(soFar)];
    assert [framed, Plain(And)] + earlier == [framed] + ([Plain(And)] + earlier);
    Then(p, [framed], [Plain(And)] + earlier, stack, under + [Bool(here), Bool(soFar)], fuel);
    PlainMeans(p, And, under, [Bool(here), Bool(soFar)], fuel);
    Then(p, [Plain(And)], earlier, under + [Bool(here), Bool(soFar)], under + [Bool(here && soFar)], fuel);
  }

  lemma {:induction false} EarlierAnswer(
    p: Program, elements: seq<TypeSpec>, named: (SentenceIndex, Value) -> bool, xs: seq<Value>, below: seq<Value>,
    soFar: bool, fuel: nat)
    requires |xs| == |elements| && forall i | 0 <= i < |elements| :: NamedAnswer(p, elements[i], named, fuel)
    ensures Means(p, EarlierChecks(elements), below + xs + [Bool(soFar)], fuel)
      == Done(below + [Bool(AllMatch(xs, elements, named) && soFar)])
    decreases elements, 0
  {
    if elements == [] {
      assert below + xs == below;
    } else {
      hide Means; hide Matches;
      var last := |elements| - 1;
      var check, earlier := CompileSpec(elements[last]), EarlierChecks(elements[..last]);
      var under, here := below + xs[..last], Matches(xs[last], elements[last], named);
      assert below + xs == under + [xs[last]];
      SpecAnswers(p, elements[last], named, xs[last], under, fuel);
      EarlierStep(p, check, earlier, under, xs[last], here, soFar, fuel);
      EarlierAnswer(p, elements[..last], named, xs[..last], below, here && soFar, fuel);
      LastMatches(xs, elements, named);
    }
  }

  lemma {:induction false} UnionAnswers(
    p: Program, variants: seq<TypeSpec>, named: (SentenceIndex, Value) -> bool, v: Value, below: seq<Value>, fuel: nat)
    requires forall i | 0 <= i < |variants| :: NamedAnswer(p, variants[i], named, fuel)
    ensures Means(p, CompileUnion(variants), below + [v], fuel)
      == Done(below + [Bool(exists i :: 0 <= i < |variants| && Matches(v, variants[i], named))])
    decreases variants, 0
  {
    hide Means;
    if variants == [] {
      AnsweringMeans(p, below, v, false, fuel);
    } else {
      var first, here := CompileSpec(variants[0]), Matches(v, variants[0], named);
      if |variants| == 1 {
        SpecAnswers(p, variants[0], named, v, below, fuel);
      } else {
        var others := CompileUnion(variants[1..]);
        var branch := [Word.Branch(Inline(Answering(true)), Inline(others))];
        assert CompileUnion(variants) == [Word.Pick(0)] + (first + branch);
        CopyMeans(p, below, v, fuel);
        Then(p, [Word.Pick(0)], first + branch, below + [v], below + [v] + [v], fuel);
        SpecAnswers(p, variants[0], named, v, below + [v], fuel);
        SpecIsStraight(variants[0]);
        Then(p, first, branch, below + [v] + [v], below + [v] + [Bool(here)], fuel);
        BranchRuns(p, Answering(true), others, below + [v], here, fuel);
        AnsweringMeans(p, below, v, true, fuel);
        UnionAnswers(p, variants[1..], named, v, below, fuel);
        MatchesFirstOrLater(variants, named, v);
      }
    }
  }

  lemma MatchesFirstOrLater(variants: seq<TypeSpec>, named: (SentenceIndex, Value) -> bool, v: Value)
    requires variants != []
    ensures (exists i :: 0 <= i < |variants| && Matches(v, variants[i], named))
      <==> Matches(v, variants[0], named) || exists i :: 0 <= i < |variants[1..]| && Matches(v, variants[1..][i], named)
  {
    forall i | 0 <= i < |variants| && Matches(v, variants[i], named)
      ensures i == 0 || (0 <= i - 1 < |variants[1..]| && Matches(v, variants[1..][i - 1], named))
    {
    }
    forall i | 0 <= i < |variants[1..]| && Matches(v, variants[1..][i], named)
      ensures Matches(v, variants[i + 1], named)
    {
    }
  }

  /** On the machine: a program's `check` sentence replaces any value, on any stack, by whether it matches. */
  lemma CheckRuns(
    program: seq<Written>, ok: Value, err: Value, lib: Library, c: Certificate, s: SentenceIndex, spec: TypeSpec,
    named: (SentenceIndex, Value) -> bool, v: Value, below: seq<Value>)
    requires RunsAsWritten(program, ok, err, lib, c) && s < |program| && s in c.arities && s in c.ranks
    requires program[s].body == CompileSpec(spec)
    requires NamedAnswer(Words(program, c, ok, err), spec, named, c.ranks[s] + 1)
    ensures exists n ::
      RunFor(lib, State(below + [v], [], s, 0), n) == Finished(below + [Bool(Matches(v, spec, named))])
  {
    hide *;
    var stack, fuel := below + [v], c.ranks[s] + 1;
    AsWritten(program, ok, err, lib, c, s, stack, fuel);
    SpecAnswers(Words(program, c, ok, err), spec, named, v, below, fuel);
    OfDone(RunFrom(lib, c, s, 0, stack), below + [Bool(Matches(v, spec, named))]);
    MachineFinishes(lib, c, s, stack);
  }

  lemma OfDone(r: Option<seq<Value>>, stack: seq<Value>)
    requires Of(r) == Done(stack)
    ensures r == Some(stack)
  {
  }
}
