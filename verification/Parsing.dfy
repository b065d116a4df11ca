/** Text read back as terms. */
module Parsing {
  import opened Wrappers
  import opened Values
  import opened Prims
  import opened Terms
  import opened Printing

  datatype ParseError =
    | Unexpected(at: string)
    | Expected(what: string)
    | Unknown(name: string)
    | Ambiguous(name: string)
    | IllFormed(error: Terms.Error)
    | Overflow
    | NotANumber

  datatype Read<+T> = Got(value: T, rest: string) | Refused(error: ParseError)

  // ---- characters ----

  function TrimStart(text: string): (r: string)
    ensures |r| <= |text| && (r != "" ==> !IsSpace(r[0]))
  {
    if text != "" && IsSpace(text[0]) then TrimStart(text[1..]) else text
  }

  function RunOf(text: string, wanted: char -> bool): (n: nat)
    ensures n <= |text| && forall k | 0 <= k < n :: wanted(text[k])
    ensures n < |text| ==> !wanted(text[n])
  {
    if text != "" && wanted(text[0]) then 1 + RunOf(text[1..], wanted) else 0
  }

  /** Splits trimmed text after its leading word characters; the word may be empty. */
  function TakeWord(text: string): (r: (string, string))
    ensures |r.0| + |r.1| <= |text|
  {
    var t := TrimStart(text);
    var n := RunOf(t, IsWordChar);
    (t[..n], t[n..])
  }

  predicate Starts(text: string, c: char) {
    text != "" && text[0] == c
  }

  function DigitOf(c: char): (d: nat)
    requires IsDigit(c)
    ensures d < 10 && Digit(d) == c
  {
    c as nat - '0' as nat
  }

  function DigitsValue(s: string): nat
    requires forall k | 0 <= k < |s| :: IsDigit(s[k])
  {
    if s == "" then 0 else 10 * DigitsValue(s[..|s| - 1]) + DigitOf(s[|s| - 1])
  }

  /** A run of digits; one that does not fit the host's word stops the reader. */
  function Number(text: string): (r: Read<nat>)
    ensures r.Got? ==> |r.rest| < |text|
  {
    var n := RunOf(text, IsDigit);
    if n == 0 then Refused(NotANumber)
    else if DigitsValue(text[..n]) >= WORD then Refused(Overflow)
    else Got(DigitsValue(text[..n]), text[n..])
  }

  /**
   * The digits reinterpreted in 64 bits, and times minus one if there was a sign, which for the least integer
   * overflows.
   */
  function Signed(checked: bool, text: string): (r: Read<i64>)
    ensures r.Got? ==> |r.rest| < |text|
  {
    var negative := Starts(text, '-');
    match Number(if negative then text[1..] else text)
    case Refused(e) => Refused(e)
    case Got(n, rest) =>
      var i := Wrap(n);
      if !negative then Got(i, rest)
      else if i == -TWO_63 then (if checked then Refused(Overflow) else Got(i, rest))
      else Got(-i, rest)
  }

  // ---- names ----

  function Answering(names: set<string>, path: string): set<string> {
    set name | name in names && AnswersTo(name, path)
  }

  /** The name that answers to `path`, if exactly one does. */
  function UniqueName(names: set<string>, path: string): (r: Result<string, ParseError>)
    ensures r.Ok? ==> r.value in names && AnswersTo(r.value, path)
  {
    var found := Answering(names, path);
    if found == {} then Err(Unknown(path))
    else if |found| > 1 then Err(Ambiguous(path))
    else
      OnlyOne(found);
      var name :| name in found;
      Ok(name)
  }

  lemma OnlyOne(s: set<string>)
    requires |s| == 1
    ensures forall a, b | a in s && b in s :: a == b
  {
    forall a, b | a in s && b in s ensures a == b {
      assert |s - {a}| == 0;
      assert b !in s - {a};
    }
  }

  function FirstNamed(names: seq<string>, name: string): (k: nat)
    requires name in names
    ensures k < |names| && names[k] == name && forall j | 0 <= j < k :: names[j] != name
  {
    if names[0] == name then 0 else 1 + FirstNamed(names[1..], name)
  }

  function SentenceNamed(scope: Scope, path: string): (r: Result<SentenceIndex, ParseError>)
    ensures r.Ok? ==> r.value < |scope.names|
  {
    if path == "" then Err(Expected("the name of a sentence"))
    else
      match UniqueName(Set(scope.names), path)
      case Err(e) => Err(e)
      case Ok(name) => Ok(FirstNamed(scope.names, name))
  }

  // ---- literals ----

  function FindQuote(text: string): (r: Option<nat>)
    ensures r.Some? ==> r.value < |text| && text[r.value] == '"' && forall k | 0 <= k < r.value :: text[k] != '"'
    ensures r.None? ==> forall k | 0 <= k < |text| :: text[k] != '"'
  {
    if text == "" then None
    else if text[0] == '"' then Some(0)
    else match FindQuote(text[1..]) case Some(n) => Some(n + 1) case None => None
  }

  /** A pushed value, in the spelling values print in. */
  function Literal(scope: Scope, text: string): (r: Read<Value>)
    ensures r.Got? ==> |r.rest| < |text|
    decreases |text|, 1
  {
    var t := TrimStart(text);
    if Starts(t, '"') then
      match FindQuote(t[1..])
      case None => Refused(Expected("a closing quote"))
      case Some(end) => Got(ConstString(t[1..][..end]), t[1..][end + 1..])
    else if Starts(t, '(') then
      match Elements(scope, TrimStart(t[1..]))
      case Got(elements, rest) => Got(Value.Tuple(elements), rest)
      case Refused(e) => Refused(e)
    else
      match Signed(scope.host.checked, t)
      case Got(n, rest) => Got(Int(n), rest)
      case Refused(Overflow) => Refused(Overflow)
      case Refused(_) => LiteralWord(scope, TakeWord(t).0, TakeWord(t).1)
  }

  function LiteralWord(scope: Scope, head: string, rest: string): (r: Read<Value>)
    ensures r.Got? ==> head != "" && r.rest == rest
  {
    if head == "" then Refused(Expected("a value"))
    else if head == "true" then Got(Bool(true), rest)
    else if head == "false" then Got(Bool(false), rest)
    else
      match UniqueName(scope.symbols.Keys, head)
      case Ok(name) => Got(scope.symbols[name], rest)
      case Err(e) => Refused(e)
  }

  /** The elements up to the closing parenthesis, commas between them and perhaps one after. */
  function Elements(scope: Scope, text: string): (r: Read<seq<Value>>)
    ensures r.Got? ==> |r.rest| < |text|
    decreases |text|, 2
  {
    if Starts(text, ')') then Got([], text[1..])
    else
      match Literal(scope, text)
      case Refused(e) => Refused(e)
      case Got(element, tail) =>
        match Elements(scope, AfterComma(tail))
        case Got(elements, rest) => Got([element] + elements, rest)
        case Refused(e) => Refused(e)
  }

  function AfterComma(tail: string): (r: string)
    ensures |r| <= |tail|
  {
    var t := TrimStart(tail);
    TrimStart(if Starts(t, ',') then t[1..] else t)
  }

  // ---- terms ----

  function AllPrims(): seq<Prim> {
    [Push(Int(1)), Swap, Equal, Greater, Less, Add, Subtract, Multiply, Divide, Modulo, Not, Negate, And, Or,
     Prim.Tuple(3), Untuple(4), ConstStringLen, ConstStringCharAt, IsInt, IsBool, IsConstString, IsSymbol, IsTuple,
     TupleLength, AsBool, AsInt, AsTuple(5)]
  }

  function FindSpelled(scope: Scope, prims: seq<Prim>, word: string): Option<Prim> {
    if prims == [] then None
    else if WriteOp(scope, prims[0]) == word then Some(prims[0])
    else FindSpelled(scope, prims[1..], word)
  }

  function WidthCarrying(word: string, n: nat): Option<Prim> {
    if word == "tuple" then Some(Prim.Tuple(n))
    else if word == "untuple" then Some(Untuple(n))
    else if word == "as_tuple" then Some(AsTuple(n))
    else None
  }

  /** The `(n)` of a block leaf. */
  function Width(text: string): (r: Read<nat>)
    ensures r.Got? ==> |r.rest| < |text|
  {
    var t := TrimStart(text);
    if !Starts(t, '(') then Refused(Expected("a width in parentheses"))
    else
      match Number(TrimStart(t[1..]))
      case Refused(e) => Refused(e)
      case Got(n, rest) => if Starts(TrimStart(rest), ')') then Got(n, TrimStart(rest)[1..]) else Refused(Expected(")"))
  }

  /** Reads an instruction by its mnemonic, with a value after `push` and a width where there is one. */
  function Operation(scope: Scope, word: string, rest: string): (r: Read<Tree>)
    ensures r.Got? ==> r.value.Ok() && |r.rest| <= |rest|
  {
    if WidthCarrying(word, 0).Some? then
      match Number(TrimStart(rest))
      case Got(n, after) => Got(Tree.Op(WidthCarrying(word, n).value), after)
      case Refused(e) => Refused(e)
    else
      match FindSpelled(scope, AllPrims(), word)
      case Some(prim) => Got(Tree.Op(prim), rest)
      case None => Refused(Unknown(word))
  }

  function Leaf(scope: Scope, word: string, rest: string): (r: Read<Tree>)
    ensures r.Got? ==> r.value.Ok() && |r.rest| <= |rest|
  {
    if word == "id" || word == "drop" || word == "copy" then
      match Width(rest)
      case Got(n, after) => Got(if word == "id" then Tree.Id(n) else if word == "drop"
        then Tree.Drop(n) else Tree.Copy(n), after)
      case Refused(e) => Refused(e)
    else if word == "call" then
      var (path, after) := TakeWord(TrimStart(rest));
      match SentenceNamed(scope, path)
      case Err(e) => Refused(e)
      case Ok(target) =>
        if target < |scope.arities|
          && scope.arities[target].Some? then Got(Tree.Call(target, scope.arities[target].value), after)
        else Refused(IllFormed(NoArity(target)))
    else if word == "push" then
      match Literal(scope, rest)
      case Got(v, after) => Got(Tree.Op(Push(v)), after)
      case Refused(e) => Refused(e)
    else Operation(scope, word, rest)
  }

  function Atom(scope: Scope, text: string): (r: Read<Tree>)
    ensures r.Got? ==> r.value.Ok() && |r.rest| < |text|
    decreases |text|, 1
  {
    var t := TrimStart(text);
    if Starts(t, '(') then
      match Composition(scope, t[1..])
      case Refused(e) => Refused(e)
      case Got(term, rest) => if Starts(TrimStart(rest), ')') then Got(term,
        TrimStart(rest)[1..]) else Refused(Expected(")"))
    else
      var (word, rest) := TakeWord(t);
      if word == "" then Refused(Unexpected(t))
      else if word == "branch" then
        match Arm(scope, rest)
        case Refused(e) => Refused(e)
        case Got(yes, between) =>
          match Arm(scope, between)
          case Refused(e) => Refused(e)
          case Got(no, after) =>
            if yes.Effect() == no.Effect() then Got(Tree.Branch(yes, no), after)
            else Refused(IllFormed(ArmsDiffer(yes.Effect(), no.Effect())))
      else Leaf(scope, word, rest)
  }

  /** One branch arm, in braces. */
  function Arm(scope: Scope, text: string): (r: Read<Tree>)
    ensures r.Got? ==> r.value.Ok() && |r.rest| < |text|
    decreases |text|, 0
  {
    var t := TrimStart(text);
    if !Starts(t, '{') then Refused(Expected("a branch arm in braces"))
    else
      match Composition(scope, t[1..])
      case Refused(e) => Refused(e)
      case Got(term, rest) => if Starts(TrimStart(rest), '}') then Got(term,
        TrimStart(rest)[1..]) else Refused(Expected("}"))
  }

  /** Factors joined by `*`, grouped to the left. */
  function Parallel(scope: Scope, text: string): (r: Read<Tree>)
    ensures r.Got? ==> r.value.Ok() && |r.rest| < |text|
    decreases |text|, 2
  {
    match Atom(scope, text)
    case Got(term, rest) => ParallelTail(scope, term, rest)
    case Refused(e) => Refused(e)
  }

  function ParallelTail(scope: Scope, term: Tree, rest: string): (r: Read<Tree>)
    requires term.Ok()
    ensures r.Got? ==> r.value.Ok() && |r.rest| <= |rest|
    decreases |rest|, 2
  {
    var t := TrimStart(rest);
    if !Starts(t, '*') then Got(term, rest)
    else
      match Atom(scope, t[1..])
      case Got(next, tail) => ParallelTail(scope, Tree.Par(term, next), tail)
      case Refused(e) => Refused(e)
  }

  /** `a ; b ; c`, left-associated; halves that do not meet are refused rather than padded. */
  function Composition(scope: Scope, text: string): (r: Read<Tree>)
    ensures r.Got? ==> r.value.Ok() && |r.rest| < |text|
    decreases |text|, 3
  {
    match Parallel(scope, text)
    case Got(term, rest) => CompositionTail(scope, term, rest)
    case Refused(e) => Refused(e)
  }

  function CompositionTail(scope: Scope, term: Tree, rest: string): (r: Read<Tree>)
    requires term.Ok()
    ensures r.Got? ==> r.value.Ok() && |r.rest| <= |rest|
    decreases |rest|, 3
  {
    var t := TrimStart(rest);
    if !Starts(t, ';') then Got(term, rest)
    else
      match Parallel(scope, t[1..])
      case Refused(e) => Refused(e)
      case Got(next, tail) =>
        if term.Effect().outputs == next.Effect().inputs then CompositionTail(scope, Tree.Compose(term, next), tail)
        else Refused(IllFormed(Mismatch(term.Effect(), next.Effect())))
  }

  /** A whole text: one term and nothing after it. */
  function Term(scope: Scope, text: string): (r: Result<Tree, ParseError>)
    ensures r.Ok? ==> r.value.Ok()
  {
    match Composition(scope, text)
    case Refused(e) => Err(e)
    case Got(term, rest) => if TrimStart(rest) == "" then Ok(term) else Err(Unexpected(TrimStart(rest)))
  }
}
