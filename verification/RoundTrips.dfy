/** What is printed is read back as the same tree. */
module RoundTrips {
  import opened Wrappers
  import opened Values
  import opened Prims
  import opened Terms
  import opened Order
  import opened Printing
  import opened Parsing

  // ---- words and numbers ----

  /** Nothing here would be taken as more of the word before it. */
  predicate Ends(rest: string) {
    rest == "" || !IsWordChar(rest[0])
  }

  lemma {:induction false} RunExact(a: string, rest: string, wanted: char -> bool)
    requires forall k | 0 <= k < |a| :: wanted(a[k])
    requires rest == "" || !wanted(rest[0])
    ensures RunOf(a + rest, wanted) == |a|
  {
    if a == "" {
      assert a + rest == rest;
    } else {
      assert (a + rest)[0] == a[0] && (a + rest)[1..] == a[1..] + rest;
      RunExact(a[1..], rest, wanted);
    }
  }

  /** Text that does not start with a space is not trimmed. */
  lemma NoTrim(a: string, rest: string)
    requires a != "" && !IsSpace(a[0])
    ensures TrimStart(a + rest) == a + rest
  {
    assert (a + rest)[0] == a[0];
  }

  lemma TrimsOne(text: string)
    ensures TrimStart(" " + text) == TrimStart(text)
  {
    assert (" " + text)[1..] == text;
  }

  lemma NameTaken(name: string, rest: string)
    requires IsName(name) && Ends(rest)
    ensures TakeWord(name + rest) == (name, rest)
  {
    NoTrim(name, rest);
    RunExact(name, rest, IsWordChar);
    assert (name + rest)[..|name|] == name && (name + rest)[|name|..] == rest;
  }

  lemma {:induction false} DecimalDigits(n: nat)
    ensures forall k | 0 <= k < |Decimal(n)| :: IsDigit(Decimal(n)[k])
    ensures DigitsValue(Decimal(n)) == n
    decreases n
  {
    if n < 10 {
      assert Decimal(n)[..0] == "";
    } else {
      DecimalDigits(n / 10);
      var d := Decimal(n);
      assert d[..|d| - 1] == Decimal(n / 10) && d[|d| - 1] == Digit(n % 10);
    }
  }

  lemma NumberRead(n: nat, rest: string)
    requires n < WORD && (rest == "" || !IsDigit(rest[0]))
    ensures Number(Decimal(n) + rest) == Got(n, rest)
  {
    DecimalDigits(n);
    RunExact(Decimal(n), rest, IsDigit);
    assert (Decimal(n) + rest)[..|Decimal(n)|] == Decimal(n) && (Decimal(n) + rest)[|Decimal(n)|..] == rest;
  }

  lemma WrapFits(n: int)
    requires 0 <= n < TWO_63
    ensures Wrap(n) == n
  {
  }

  lemma SignedOf(checked: bool, text: string, n: i64, rest: string)
    requires n >= 0 && Number(text) == Got(n, rest)
    ensures !Starts(text, '-') ==> Signed(checked, text) == Got(n, rest)
    ensures Signed(checked, "-" + text) == Got(-n, rest)
  {
    WrapFits(n);
    hide Wrap; hide Number;
    assert ("-" + text)[1..] == text;
  }

  lemma SignedRead(checked: bool, i: i64, rest: string)
    requires i > -TWO_63 && (rest == "" || !IsDigit(rest[0]))
    ensures Signed(checked, WriteInt(i) + rest) == Got(i, rest)
  {
    var n: i64 := if i < 0 then -i else i;
    FirstDigit(n, rest);
    IntText(i, rest);
    hide *;
    NumberRead(n, rest);
    SignedOf(checked, Decimal(n) + rest, n, rest);
  }

  lemma FirstDigit(n: nat, rest: string)
    ensures Decimal(n) != "" && IsDigit(Decimal(n)[0]) && !Starts(Decimal(n) + rest, '-')
  {
    DecimalDigits(n);
    hide Decimal;
    assert (Decimal(n) + rest)[0] == Decimal(n)[0];
  }

  lemma IntText(i: int, rest: string)
    ensures i < 0 ==> WriteInt(i) + rest == "-" + (Decimal(-i) + rest)
    ensures i >= 0 ==> WriteInt(i) + rest == Decimal(i) + rest
  {
    hide Decimal;
  }

  lemma NotSigned(checked: bool, text: string)
    requires text == "" || (text[0] != '-' && !IsDigit(text[0]))
    ensures Signed(checked, text) == Refused(NotANumber)
  {
    assert RunOf(text, IsDigit) == 0;
  }

  // ---- names ----

  lemma UnambiguousNamed(names: set<string>, name: string)
    requires Unambiguous(names, name)
    ensures UniqueName(names, name) == Ok(name)
  {
    assert Answering(names, name) == {name};
  }

  /** A whole path, or what comes after one of the `::` in it. */
  ghost predicate IsTail(path: string, name: string) {
    name == path || exists front: string :: name == front + "::" + path
  }

  lemma AnswersToTails(name: string, path: string)
    ensures AnswersTo(name, path) <==> IsTail(path, name)
  {
    var suffix := "::" + path;
    if EndsWith(name, suffix) {
      var front := name[..|name| - |suffix|];
      assert name == front + suffix && front + suffix == front + "::" + path;
    }
    if front: string :| name == front + "::" + path {
      assert front + "::" + path == front + suffix && (front + suffix)[|front|..] == suffix;
    }
  }

  /** This sentence is one whose path has that tail, no other path has it, and no earlier sentence has the same path. */
  ghost predicate OnlyTail(names: seq<string>, path: string, target: SentenceIndex) {
    && target < |names| && IsTail(path, names[target])
    && (forall k | 0 <= k < |names| && IsTail(path, names[k]) :: names[k] == names[target])
    && (forall k | 0 <= k < target :: names[k] != names[target])
  }

  /** A sentence is named by whatever tail of its path it alone has. */
  lemma NamedByTail(scope: Scope, path: string, target: SentenceIndex)
    requires path != ""
    ensures SentenceNamed(scope, path) == Ok(target) <==> OnlyTail(scope.names, path, target)
  {
    hide IsTail; hide AnswersTo;
    forall name ensures AnswersTo(name, path) <==> IsTail(path, name) {
      AnswersToTails(name, path);
    }
    var found := Answering(Set(scope.names), path);
    assert forall k | 0 <= k < |scope.names| :: scope.names[k] in Set(scope.names);
    if OnlyTail(scope.names, path, target) {
      assert found == {scope.names[target]};
    }
    if SentenceNamed(scope, path) == Ok(target) {
      assert |found| == 1;
      OnlyOne(found);
      forall k | 0 <= k < |scope.names| && IsTail(path, scope.names[k]) ensures scope.names[k] == scope.names[target] {
        assert scope.names[k] in found && scope.names[target] in found;
      }
    }
  }

  lemma WholeIsTail(scope: Scope, target: SentenceIndex, arity: Arity)
    requires LegibleCall(scope, target, arity)
    ensures OnlyTail(scope.names, scope.names[target], target)
  {
    hide IsTail; hide AnswersTo;
    var name := scope.names[target];
    AnswersToTails(name, name);
    assert IsTail(name, name) by { WholePath(name); }
    forall k | 0 <= k < |scope.names| && IsTail(name, scope.names[k]) ensures scope.names[k] == name {
      AnswersToTails(scope.names[k], name);
      assert scope.names[k] in Set(scope.names);
    }
  }

  lemma WholePath(name: string)
    ensures IsTail(name, name)
  {
  }

  // ---- literals ----

  lemma {:induction false} PlainText(printable: set<char>, s: string)
    requires Unescaped(printable, s)
    ensures AllEscaped(printable, s) == s && forall k | 0 <= k < |s| :: s[k] != '"'
  {
    if s != "" {
      assert Escaped(printable, s[0]) == [s[0]];
      forall k | 0 <= k < |s[1..]| ensures Escaped(printable, s[1..][k]) == [s[1..][k]] {
        assert s[1..][k] == s[k + 1];
      }
      PlainText(printable, s[1..]);
      forall k | 0 <= k < |s| ensures s[k] != '"' {
        assert Escaped(printable, s[k]) == [s[k]];
      }
    }
  }

  lemma QuoteFound(s: string, rest: string)
    requires forall k | 0 <= k < |s| :: s[k] != '"'
    ensures FindQuote(s + "\"" + rest) == Some(|s|)
  {
    var text := s + "\"" + rest;
    assert text[|s|] == '"' && forall k | 0 <= k < |s| :: text[k] == s[k];
  }

  /** How a legible value's text starts: never with a space, nor with what would end or continue a tuple. */
  lemma ValueStarts(scope: Scope, v: Value)
    requires Legible(scope, v)
    ensures var s := WriteValue(scope, v); s != "" && !IsSpace(s[0]) && s[0] != ')' && s[0] != ','
  {
    match v
    case Int(i) =>
      var n: int := i;
      DecimalDigits(if n < 0 then -n else n);
      assert i >= 0 ==> IsDigit(Decimal(i)[0]);
    case Symbol(id) => assert IsWordChar(PathOf(scope, id)[0]);
    case _ =>
  }

  lemma LiteralTrims(scope: Scope, text: string)
    ensures Literal(scope, " " + text) == Literal(scope, text)
  {
    TrimsOne(text);
  }

  /** A legible value, printed, is read back. */
  lemma {:induction false} LiteralRead(scope: Scope, v: Value, rest: string)
    requires Legible(scope, v) && Ends(rest)
    ensures Literal(scope, WriteValue(scope, v) + rest) == Got(v, rest)
    decreases v, 0
  {
    hide Literal; hide Elements; hide WriteElements;
    match v
    case Bool(b) => BoolRead(scope, b, rest);
    case Int(i) => IntRead(scope, i, rest);
    case ConstString(s) => StringRead(scope, s, rest);
    case Tuple(elements) =>
      ElementsRead(scope, elements, if |elements| == 1 then "," else "", rest);
      TupleRead(scope, elements, rest);
    case Symbol(id) => SymbolRead(scope, id, rest);
  }

  lemma IntRead(scope: Scope, i: i64, rest: string)
    requires Legible(scope, Int(i)) && Ends(rest)
    ensures Literal(scope, WriteInt(i) + rest) == Got(Int(i), rest)
  {
    IntStarts(i);
    var checked := scope.host.checked;
    assert checked ==> i > -TWO_63;
    hide *;
    IntSigned(checked, i, rest);
    SignedLiteral(scope, WriteInt(i), i, rest);
  }

  lemma IntStarts(i: int)
    ensures WriteInt(i) != "" && !IsSpace(WriteInt(i)[0]) && WriteInt(i)[0] != '"' && WriteInt(i)[0] != '('
  {
    FirstDigit(if i < 0 then -i else i, "");
    hide Decimal;
  }

  lemma IntSigned(checked: bool, i: i64, rest: string)
    requires (checked ==> i > -TWO_63) && Ends(rest)
    ensures Signed(checked, WriteInt(i) + rest) == Got(i, rest)
  {
    assert Ends(rest) ==> rest == "" || !IsDigit(rest[0]);
    hide *;
    if i > -TWO_63 {
      SignedRead(checked, i, rest);
    } else {
      LeastSigned(checked, i, rest);
    }
  }

  lemma SignedLiteral(scope: Scope, digits: string, i: i64, rest: string)
    requires digits != "" && !IsSpace(digits[0]) && digits[0] != '"' && digits[0] != '('
    requires Signed(scope.host.checked, digits + rest) == Got(i, rest)
    ensures Literal(scope, digits + rest) == Got(Int(i), rest)
  {
    hide Signed;
    NoTrim(digits, rest);
    assert (digits + rest)[0] == digits[0];
  }

  lemma SymbolRead(scope: Scope, id: nat, rest: string)
    requires Legible(scope, Symbol(id)) && Ends(rest)
    ensures Literal(scope, PathOf(scope, id) + rest) == Got(Symbol(id), rest)
  {
    var path := PathOf(scope, id);
    assert IsWordChar(path[0]);
    NoTrim(path, rest);
    assert (path + rest)[0] == path[0];
    NotSigned(scope.host.checked, path + rest);
    NameTaken(path, rest);
    UnambiguousNamed(scope.symbols.Keys, path);
    hide Signed; hide TakeWord; hide UniqueName; hide Unambiguous;
  }

  lemma TupleText(scope: Scope, elements: seq<Value>, rest: string)
    ensures WriteValue(scope, Value.Tuple(elements)) + rest
      == "(" + (WriteElements(scope, elements) + (if |elements| == 1 then "," else "") + ")" + rest)
  {
    hide WriteElements;
  }

  lemma LiteralOfTuple(scope: Scope, inside: string, elements: seq<Value>, rest: string)
    requires TrimStart(inside) == inside && Elements(scope, inside) == Got(elements, rest)
    ensures Literal(scope, "(" + inside) == Got(Value.Tuple(elements), rest)
  {
    hide Elements;
    NoTrim("(", inside);
    assert ("(" + inside)[1..] == inside;
  }

  /** The parentheses around elements that are read back. */
  lemma TupleRead(scope: Scope, elements: seq<Value>, rest: string)
    requires Legible(scope, Value.Tuple(elements))
    requires var trailing := if |elements| == 1 then "," else "";
      Elements(scope, WriteElements(scope, elements) + trailing + ")" + rest) == Got(elements, rest)
    ensures Literal(scope, WriteValue(scope, Value.Tuple(elements)) + rest) == Got(Value.Tuple(elements), rest)
  {
    var trailing := if |elements| == 1 then "," else "";
    ElementsStart(scope, elements, trailing, rest);
    hide *;
    TupleText(scope, elements, rest);
    LiteralOfTuple(scope, WriteElements(scope, elements) + trailing + ")" + rest, elements, rest);
  }

  lemma BoolRead(scope: Scope, b: bool, rest: string)
    requires Ends(rest)
    ensures Literal(scope, (if b then "true" else "false") + rest) == Got(Bool(b), rest)
  {
    var word := if b then "true" else "false";
    NoTrim(word, rest);
    assert (word + rest)[0] == word[0];
    NotSigned(scope.host.checked, word + rest);
    NameTaken(word, rest);
  }

  lemma StringRead(scope: Scope, s: string, rest: string)
    requires Legible(scope, ConstString(s))
    ensures Literal(scope, WriteValue(scope, ConstString(s)) + rest) == Got(ConstString(s), rest)
  {
    PlainText(scope.host.printable, s);
    var text := WriteValue(scope, ConstString(s)) + rest;
    assert text[1..] == s + "\"" + rest;
    NoTrim("\"", s + "\"" + rest);
    assert text == "\"" + (s + "\"" + rest);
    QuoteFound(s, rest);
    assert (s + "\"" + rest)[..|s|] == s && (s + "\"" + rest)[|s| + 1..] == rest;
  }

  lemma ElementsStart(scope: Scope, elements: seq<Value>, trailing: string, rest: string)
    requires forall k | 0 <= k < |elements| :: Legible(scope, elements[k])
    requires trailing == (if |elements| == 1 then "," else "") || (trailing == "" && elements != [])
    ensures var text := WriteElements(scope, elements) + trailing + ")" + rest;
      TrimStart(text) == text && (elements != [] ==> !Starts(text, ')'))
  {
    var text := WriteElements(scope, elements) + trailing + ")" + rest;
    if elements == [] {
      assert text == ")" + rest;
    } else {
      ValueStarts(scope, elements[0]);
      assert text[0] == WriteValue(scope, elements[0])[0];
    }
  }

  lemma {:induction false} ElementsRead(scope: Scope, elements: seq<Value>, trailing: string, rest: string)
    requires forall k | 0 <= k < |elements| :: Legible(scope, elements[k])
    requires trailing == (if |elements| == 1 then "," else "") || (trailing == "" && elements != [])
    ensures Elements(scope, WriteElements(scope, elements) + trailing + ")" + rest) == Got(elements, rest)
    decreases elements, 1
  {
    ElementsStart(scope, elements, trailing, rest);
    ElementsText(scope, elements, trailing, rest);
    hide *;
    if elements == [] {
      NoElements(scope, rest);
    } else {
      var after, others := trailing + ")" + rest, WriteElements(scope, elements[1..]) + trailing + ")" + rest;
      AfterLast(trailing, rest);
      if |elements| == 1 {
        LiteralRead(scope, elements[0], after);
        NoElements(scope, rest);
        ElementsOf(scope, WriteValue(scope, elements[0]) + after, elements[0], after, [], rest);
      } else {
        LiteralRead(scope, elements[0], ", " + others);
        ElementsStart(scope, elements[1..], trailing, rest);
        AfterEach(others);
        ElementsRead(scope, elements[1..], trailing, rest);
        ElementsOf(scope, WriteValue(scope, elements[0]) + (", " + others), elements[0], ", " + others,
          elements[1..], rest);
      }
      assert elements == [elements[0]] + elements[1..];
    }
  }

  lemma NoElements(scope: Scope, rest: string)
    ensures Elements(scope, ")" + rest) == Got([], rest)
  {
    assert (")" + rest)[1..] == rest;
  }

  lemma ElementsOf(scope: Scope, text: string, v: Value, tail: string, others: seq<Value>, rest: string)
    requires !Starts(text, ')') && Literal(scope, text) == Got(v, tail)
    requires Elements(scope, AfterComma(tail)) == Got(others, rest)
    ensures Elements(scope, text) == Got([v] + others, rest)
  {
    hide Literal; hide AfterComma;
  }

  lemma ElementsText(scope: Scope, elements: seq<Value>, trailing: string, rest: string)
    ensures elements == [] ==> trailing != "" || WriteElements(scope, elements) + trailing + ")" + rest == ")" + rest
    ensures elements != [] ==> var text := WriteElements(scope, elements) + trailing + ")" + rest;
      if |elements| == 1 then text == WriteValue(scope, elements[0]) + (trailing + ")" + rest)
      else
        var others := WriteElements(scope, elements[1..]) + trailing + ")" + rest;
        text == WriteValue(scope, elements[0]) + (", " + others)
  {
    hide WriteValue;
  }

  lemma AfterLast(trailing: string, rest: string)
    requires trailing == "" || trailing == ","
    ensures AfterComma(trailing + ")" + rest) == ")" + rest && Ends(trailing + ")" + rest)
  {
    NoTrim(")", rest);
    if trailing == "," {
      NoTrim(",", ")" + rest);
      assert trailing + ")" + rest == "," + (")" + rest);
      assert ("," + (")" + rest))[1..] == ")" + rest;
    } else {
      assert trailing + ")" + rest == ")" + rest;
    }
  }

  lemma AfterEach(others: string)
    requires TrimStart(others) == others
    ensures AfterComma(", " + others) == others
  {
    assert ", " + others == "," + (" " + others);
    NoTrim(",", " " + others);
    assert ("," + (" " + others))[1..] == " " + others;
    TrimsOne(others);
  }

  // ---- operations ----

  lemma ArithmeticNames(p: Prim)
    requires p.Swap? || p.Equal? || p.Greater? || p.Less? || p.Add? || p.Subtract?
    ensures IsName(Mnemonic(p))
  {
  }

  lemma LogicNames(p: Prim)
    requires p.Multiply? || p.Divide? || p.Modulo? || p.Not? || p.Negate? || p.And? || p.Or?
    ensures IsName(Mnemonic(p))
  {
  }

  lemma TypeNames(p: Prim)
    requires p.IsInt? || p.IsBool? || p.IsSymbol? || p.IsTuple? || p.AsBool? || p.AsInt?
    ensures IsName(Mnemonic(p))
  {
  }

  lemma StringNames(p: Prim)
    requires p.ConstStringLen? || p.ConstStringCharAt?
    ensures IsName(Mnemonic(p))
  {
  }

  lemma LongNames(p: Prim)
    requires p.IsConstString? || p.TupleLength?
    ensures IsName(Mnemonic(p))
  {
  }

  lemma Listed(p: Prim)
    requires !CarriesWidth(p) && !p.Push?
    ensures p in AllPrims()
  {
  }

  /** The spelling of an operation that carries nothing is one word, and one of the list. */
  lemma NullaryWord(p: Prim)
    requires !CarriesWidth(p) && !p.Push?
    ensures IsName(Mnemonic(p)) && p in AllPrims()
  {
    hide Mnemonic; hide AllPrims;
    Listed(p);
    if p.Swap? || p.Equal? || p.Greater? || p.Less? || p.Add? || p.Subtract? { ArithmeticNames(p); }
    if p.Multiply? || p.Divide? || p.Modulo? || p.Not? || p.Negate? || p.And? || p.Or? { LogicNames(p); }
    if p.IsInt? || p.IsBool? || p.IsSymbol? || p.IsTuple? || p.AsBool? || p.AsInt? { TypeNames(p); }
    if p.ConstStringLen? || p.ConstStringCharAt? { StringNames(p); }
    if p.IsConstString? || p.TupleLength? { LongNames(p); }
  }

  predicate Reserved(word: string) {
    || word == "id" || word == "drop" || word == "copy" || word == "branch" || word == "call" || word == "push"
    || word == "tuple" || word == "untuple" || word == "as_tuple"
  }

  lemma NotReserved(p: Prim)
    requires !CarriesWidth(p) && !p.Push?
    ensures !Reserved(Mnemonic(p))
  {
    var s := Mnemonic(p);
    if p.Swap? || p.Less? {
      assert |s| == 4 && (s[0] == 's' || s[0] == 'l');
    } else if p.Greater? || p.IsBool? || p.AsBool? {
      assert |s| == 7 && s[0] != 'u';
    } else if p.Equal? {
      assert |s| == 5 && s[0] == 'e';
    } else if p.Subtract? || p.Multiply? || p.IsTuple? {
      assert |s| == 8 && s[0] != 'a';
    } else if p.Divide? || p.Modulo? || p.Negate? || p.IsInt? || p.AsInt? {
      assert |s| == 6 && s[0] != 'b';
    } else if p.Or? {
      assert |s| == 2 && s[0] == 'o';
    }
  }

  lemma PushIsNoName(scope: Scope, v: Value)
    ensures !IsName(WriteOp(scope, Push(v)))
  {
    assert WriteOp(scope, Push(v))[4] == ' ';
  }

  lemma {:induction false} FoundByItsSpelling(scope: Scope, prims: seq<Prim>, p: Prim)
    requires !CarriesWidth(p) && !p.Push? && IsName(Mnemonic(p)) && p in prims
    ensures FindSpelled(scope, prims, Mnemonic(p)) == Some(p)
  {
    var first := prims[0];
    if first != p {
      if first.Push? {
        PushIsNoName(scope, first.v);
      }
      if WriteOp(scope, first) == Mnemonic(p) {
        if !first.Push? {
          SpellingInjective(first, p);
        }
      }
      FoundByItsSpelling(scope, prims[1..], p);
    }
  }

  lemma NullaryRead(scope: Scope, p: Prim, rest: string)
    requires !CarriesWidth(p) && !p.Push? && Ends(rest)
    ensures Leaf(scope, Mnemonic(p), rest) == Got(Tree.Op(p), rest)
    ensures TakeWord(Mnemonic(p) + rest) == (Mnemonic(p), rest)
  {
    NullaryWord(p);
    NotReserved(p);
    NameTaken(Mnemonic(p), rest);
    FoundByItsSpelling(scope, AllPrims(), p);
    hide Mnemonic; hide AllPrims; hide FindSpelled;
  }

  /** The word of an operation that carries a width. */
  function WidthWord(p: Prim): string
    requires CarriesWidth(p)
  {
    if p.Tuple? then "tuple" else if p.Untuple? then "untuple" else "as_tuple"
  }

  lemma WidthWords(p: Prim)
    requires CarriesWidth(p)
    ensures Mnemonic(p) == WidthWord(p) + " " + Decimal(p.n) && IsName(WidthWord(p))
    ensures WidthCarrying(WidthWord(p), p.n) == Some(p) && WidthCarrying(WidthWord(p), 0).Some?
    ensures WidthWord(p) != "id" && WidthWord(p) != "drop" && WidthWord(p) != "copy" && WidthWord(p) != "branch"
    ensures WidthWord(p) != "call" && WidthWord(p) != "push"
  {
    var w := WidthWord(p);
    assert |w| == 5 || |w| == 7 || |w| == 8;
  }

  lemma WidthRead(scope: Scope, p: Prim, rest: string)
    requires CarriesWidth(p) && LegibleOp(scope, p) && Ends(rest)
    ensures TakeWord(Mnemonic(p) + rest) == (WidthWord(p), " " + Decimal(p.n) + rest)
    ensures Leaf(scope, WidthWord(p), " " + Decimal(p.n) + rest) == Got(Tree.Op(p), rest)
  {
    WidthWords(p);
    hide Mnemonic; hide WidthWord; hide WidthCarrying;
    var after := " " + Decimal(p.n) + rest;
    assert Mnemonic(p) + rest == WidthWord(p) + after;
    NameTaken(WidthWord(p), after);
    SpacedNumber(p.n, rest);
  }

  lemma SpacedNumber(n: nat, rest: string)
    requires n < WORD && (rest == "" || !IsDigit(rest[0]))
    ensures Number(TrimStart(" " + Decimal(n) + rest)) == Got(n, rest)
  {
    NumberRead(n, rest);
    FirstDigit(n, rest);
    hide Decimal; hide Number;
    assert " " + Decimal(n) + rest == " " + (Decimal(n) + rest);
    TrimsOne(Decimal(n) + rest);
    NoTrim(Decimal(n), rest);
  }

  lemma PushRead(scope: Scope, v: Value, rest: string)
    requires Legible(scope, v) && Ends(rest)
    ensures var after := " " + WriteValue(scope, v) + rest;
      TakeWord("push " + WriteValue(scope, v) + rest) == ("push", after)
      && Leaf(scope, "push", after) == Got(Tree.Op(Push(v)), rest)
  {
    hide Literal; hide WriteValue;
    var after := " " + WriteValue(scope, v) + rest;
    assert "push " + WriteValue(scope, v) + rest == "push" + after;
    NameTaken("push", after);
    assert after == " " + (WriteValue(scope, v) + rest);
    LiteralTrims(scope, WriteValue(scope, v) + rest);
    LiteralRead(scope, v, rest);
  }

  lemma CallRead(scope: Scope, path: string, target: SentenceIndex, arity: Arity, rest: string)
    requires IsName(path) && OnlyTail(scope.names, path, target) && Ends(rest)
    requires target < |scope.arities| && scope.arities[target] == Some(arity)
    ensures var after := " " + path + rest;
      TakeWord("call " + path + rest) == ("call", after)
      && Leaf(scope, "call", after) == Got(Tree.Call(target, arity), rest)
  {
    var after := " " + path + rest;
    NamedByTail(scope, path, target);
    hide SentenceNamed; hide OnlyTail;
    assert "call " + path + rest == "call" + after && after == " " + (path + rest);
    NameTaken("call", after);
    assert IsWordChar(path[0]);
    TrimsOne(path + rest);
    NoTrim(path, rest);
    NameTaken(path, rest);
  }

  /** The word a block leaf is written under. */
  predicate Block(word: string, n: nat, t: Tree) {
    || (word == "id" && t == Tree.Id(n))
    || (word == "drop" && t == Tree.Drop(n))
    || (word == "copy" && t == Tree.Copy(n))
  }

  lemma BlockRead(scope: Scope, word: string, n: nat, t: Tree, rest: string)
    requires n < WORD && Block(word, n, t)
    ensures IsName(word) && word != "branch"
    ensures var after := "(" + Decimal(n) + ")" + rest; Leaf(scope, word, after) == Got(t, rest)
  {
    var after := "(" + Decimal(n) + ")" + rest;
    ParenthesizedNumber(n, rest);
    hide Width; hide Decimal;
    assert |word| == 2 || (|word| == 4 && word[0] == (if t.Drop? then 'd' else 'c'));
  }

  lemma ParenthesizedNumber(n: nat, rest: string)
    requires n < WORD
    ensures Width("(" + Decimal(n) + ")" + rest) == Got(n, rest)
  {
    var inside := Decimal(n) + (")" + rest);
    NumberRead(n, ")" + rest);
    FirstDigit(n, ")" + rest);
    hide Decimal; hide Number;
    assert "(" + Decimal(n) + ")" + rest == "(" + inside && ("(" + inside)[1..] == inside;
    NoTrim("(", inside);
    NoTrim(Decimal(n), ")" + rest);
    NoTrim(")", rest);
    assert (")" + rest)[1..] == rest;
  }

  // ---- terms ----

  /** Neither more of the word before, nor another factor beside it. */
  predicate Closes(rest: string) {
    Ends(rest) && !Starts(TrimStart(rest), '*')
  }

  lemma AtomOfLeaf(scope: Scope, text: string, word: string, after: string, t: Tree, rest: string)
    requires TakeWord(text) == (word, after) && Leaf(scope, word, after) == Got(t, rest)
    requires text != "" && IsWordChar(text[0]) && word != "" && word != "branch"
    ensures Atom(scope, text) == Got(t, rest)
  {
    hide TakeWord; hide Leaf; hide Composition; hide Arm;
    assert TrimStart(text) == text;
  }

  lemma AtomOfParens(scope: Scope, inside: string, t: Tree, rest: string)
    requires Composition(scope, inside) == Got(t, ")" + rest)
    ensures Atom(scope, "(" + inside) == Got(t, rest)
  {
    hide Composition; hide Arm; hide Leaf;
    NoTrim("(", inside);
    assert ("(" + inside)[1..] == inside;
    NoTrim(")", rest);
    assert (")" + rest)[1..] == rest;
  }

  lemma ArmOf(scope: Scope, inside: string, t: Tree, rest: string)
    requires Composition(scope, inside) == Got(t, " }" + rest)
    ensures Arm(scope, " {" + inside) == Got(t, rest)
  {
    hide Composition;
    assert " {" + inside == " " + ("{" + inside);
    TrimsOne("{" + inside);
    NoTrim("{", inside);
    assert ("{" + inside)[1..] == inside;
    assert " }" + rest == " " + ("}" + rest);
    TrimsOne("}" + rest);
    NoTrim("}", rest);
    assert ("}" + rest)[1..] == rest;
  }

  lemma AtomOfBranch(scope: Scope, text: string, after: string, between: string, yes: Tree, no: Tree, rest: string)
    requires text == "branch" + after && Ends(after)
    requires Arm(scope, after) == Got(yes, between) && Arm(scope, between) == Got(no, rest)
    requires yes.Effect() == no.Effect()
    ensures Atom(scope, text) == Got(Tree.Branch(yes, no), rest)
  {
    NameTaken("branch", after);
    NoTrim("branch", after);
    hide TakeWord; hide Arm; hide Leaf; hide Composition;
    assert text[0] == 'b';
  }

  lemma AtomTrims(scope: Scope, text: string)
    ensures Atom(scope, " " + text) == Atom(scope, text)
  {
    hide Composition; hide Arm; hide Leaf; hide TakeWord;
    TrimsOne(text);
  }

  lemma ParallelTrims(scope: Scope, text: string)
    ensures Parallel(scope, " " + text) == Parallel(scope, text)
  {
    hide Atom; hide ParallelTail;
    AtomTrims(scope, text);
  }

  lemma CompositionTrims(scope: Scope, text: string)
    ensures Composition(scope, " " + text) == Composition(scope, text)
  {
    hide Parallel; hide CompositionTail;
    ParallelTrims(scope, text);
  }

  lemma ParallelTailMore(scope: Scope, l: Tree, r: Tree, text: string, rest: string)
    requires l.Ok() && Atom(scope, text) == Got(r, rest)
    ensures r.Ok() && ParallelTail(scope, l, " * " + text) == ParallelTail(scope, Tree.Par(l, r), rest)
  {
    hide Atom;
    assert " * " + text == " " + ("*" + (" " + text));
    TrimsOne("*" + (" " + text));
    NoTrim("*", " " + text);
    assert ("*" + (" " + text))[1..] == " " + text;
    AtomTrims(scope, text);
  }

  lemma ParallelTailEnds(scope: Scope, t: Tree, rest: string)
    requires t.Ok() && !Starts(TrimStart(rest), '*')
    ensures ParallelTail(scope, t, rest) == Got(t, rest)
  {
    hide Atom;
  }

  lemma CompositionTailMore(scope: Scope, l: Tree, r: Tree, text: string, rest: string)
    requires Tree.Compose(l, r).Ok() && Parallel(scope, text) == Got(r, rest)
    ensures CompositionTail(scope, l, " ; " + text) == CompositionTail(scope, Tree.Compose(l, r), rest)
  {
    hide Parallel;
    assert " ; " + text == " " + (";" + (" " + text));
    TrimsOne(";" + (" " + text));
    NoTrim(";", " " + text);
    assert (";" + (" " + text))[1..] == " " + text;
    ParallelTrims(scope, text);
  }

  lemma CompositionTailEnds(scope: Scope, t: Tree, rest: string)
    requires t.Ok() && !Starts(TrimStart(rest), ';')
    ensures CompositionTail(scope, t, rest) == Got(t, rest)
  {
    hide Parallel;
  }

  lemma ParallelOf(scope: Scope, text: string, t: Tree, rest: string)
    requires Atom(scope, text) == Got(t, rest)
    ensures t.Ok() && Parallel(scope, text) == ParallelTail(scope, t, rest)
  {
    hide Atom; hide ParallelTail;
  }

  lemma CompositionOf(scope: Scope, text: string, t: Tree, rest: string)
    requires Parallel(scope, text) == Got(t, rest)
    ensures t.Ok() && Composition(scope, text) == CompositionTail(scope, t, rest)
  {
    hide Parallel; hide CompositionTail;
  }

  // ---- reading what was written, at each of the three places a term can stand ----

  /** As a factor: an atom, or anything in parentheses. */
  lemma {:induction false} FactorRead(scope: Scope, t: Tree, rest: string)
    requires t.Ok() && Readable(scope, t) && Ends(rest)
    ensures Atom(scope, Write(scope, t, ATOMIC) + rest) == Got(t, rest)
    decreases t, if t.Compose? then 2 else if t.Par? then 3 else 1
  {
    if t.Compose? || t.Par? {
      var inside := WriteBare(scope, t) + (")" + rest);
      assert Write(scope, t, ATOMIC) + rest == "(" + inside by { ParensText(WriteBare(scope, t), rest); }
      Closers(rest);
      hide *;
      TermRead(scope, t, ")" + rest);
      CompositionTailEnds(scope, t, ")" + rest);
      AtomOfParens(scope, inside, t, rest);
    } else if t.Branch? {
      BranchRead(scope, t.ifTrue, t.ifFalse, rest);
    } else {
      LeafRead(scope, t, rest);
    }
  }

  lemma ParensText(bare: string, rest: string)
    ensures "(" + bare + ")" + rest == "(" + (bare + (")" + rest))
  {
  }

  lemma Closers(rest: string)
    ensures Closes(")" + rest) && !Starts(TrimStart(")" + rest), ';')
    ensures Closes(" }" + rest) && !Starts(TrimStart(" }" + rest), ';')
  {
    NoTrim(")", rest);
    assert " }" + rest == " " + ("}" + rest);
    TrimsOne("}" + rest);
    NoTrim("}", rest);
  }

  lemma LeafRead(scope: Scope, t: Tree, rest: string)
    requires Readable(scope, t) && Ends(rest) && !t.Compose? && !t.Par? && !t.Branch?
    ensures Atom(scope, WriteBare(scope, t) + rest) == Got(t, rest)
  {
    hide Atom; hide Decimal; hide WriteOp; hide LegibleOp; hide LegibleCall;
    match t
    case Id(n) => BlockAtom(scope, "id", n, t, rest);
    case Drop(n) => BlockAtom(scope, "drop", n, t, rest);
    case Copy(n) => BlockAtom(scope, "copy", n, t, rest);
    case Op(prim) => OpAtom(scope, prim, rest);
    case Call(target, arity) => CallAtom(scope, target, arity, rest);
  }

  lemma BlockAtom(scope: Scope, word: string, n: nat, t: Tree, rest: string)
    requires n < WORD && Block(word, n, t)
    ensures Atom(scope, WriteBare(scope, t) + rest) == Got(t, rest)
  {
    var after := "(" + Decimal(n) + ")" + rest;
    BlockRead(scope, word, n, t, rest);
    BlockText(scope, word, n, t, rest);
    hide *;
    NameTaken(word, after);
    AtomOfLeaf(scope, word + after, word, after, t, rest);
  }

  lemma BlockText(scope: Scope, word: string, n: nat, t: Tree, rest: string)
    requires Block(word, n, t) && IsName(word)
    ensures var after := "(" + Decimal(n) + ")" + rest;
      && WriteBare(scope, t) + rest == word + after && Ends(after)
      && word + after != "" && IsWordChar((word + after)[0]) && word != ""
  {
    hide Decimal;
    var after := "(" + Decimal(n) + ")" + rest;
    assert (word + after)[0] == word[0];
    assert "id(" == "id" + "(" && "drop(" == "drop" + "(" && "copy(" == "copy" + "(";
    assert WriteBare(scope, t) == word + "(" + Decimal(n) + ")";
  }

  lemma OpAtom(scope: Scope, prim: Prim, rest: string)
    requires LegibleOp(scope, prim) && Ends(rest)
    ensures Atom(scope, WriteOp(scope, prim) + rest) == Got(Tree.Op(prim), rest)
  {
    hide Leaf; hide TakeWord; hide Atom; hide Decimal; hide WriteValue;
    var text := WriteOp(scope, prim) + rest;
    if prim.Push? {
      PushRead(scope, prim.v, rest);
      assert text[0] == 'p';
      AtomOfLeaf(scope, text, "push", " " + WriteValue(scope, prim.v) + rest, Tree.Op(prim), rest);
    } else if CarriesWidth(prim) {
      WidthRead(scope, prim, rest);
      WidthWords(prim);
      hide Mnemonic;
      assert text[0] == WidthWord(prim)[0];
      AtomOfLeaf(scope, text, WidthWord(prim), " " + Decimal(prim.n) + rest, Tree.Op(prim), rest);
    } else {
      NullaryRead(scope, prim, rest);
      NullaryWord(prim);
      NotReserved(prim);
      hide Mnemonic;
      assert text[0] == Mnemonic(prim)[0];
      AtomOfLeaf(scope, text, Mnemonic(prim), rest, Tree.Op(prim), rest);
    }
  }

  /** A call written by any tail of a path that only its sentence has is read as that call. */
  lemma CallByTail(scope: Scope, path: string, target: SentenceIndex, arity: Arity, rest: string)
    requires IsName(path) && OnlyTail(scope.names, path, target) && Ends(rest)
    requires target < |scope.arities| && scope.arities[target] == Some(arity)
    ensures Atom(scope, "call " + path + rest) == Got(Tree.Call(target, arity), rest)
  {
    hide Leaf; hide TakeWord; hide Atom; hide OnlyTail;
    var text := "call " + path + rest;
    CallRead(scope, path, target, arity, rest);
    assert text[0] == 'c';
    AtomOfLeaf(scope, text, "call", " " + path + rest, Tree.Call(target, arity), rest);
  }

  lemma CallAtom(scope: Scope, target: SentenceIndex, arity: Arity, rest: string)
    requires LegibleCall(scope, target, arity) && Ends(rest)
    ensures Atom(scope, WriteBare(scope, Tree.Call(target, arity)) + rest) == Got(Tree.Call(target, arity), rest)
  {
    hide Leaf; hide TakeWord; hide Atom; hide Unambiguous; hide OnlyTail;
    WholeIsTail(scope, target, arity);
    CallByTail(scope, scope.names[target], target, arity, rest);
  }

  lemma {:induction false} BranchRead(scope: Scope, yes: Tree, no: Tree, rest: string)
    requires Tree.Branch(yes, no).Ok() && Readable(scope, yes) && Readable(scope, no) && Ends(rest)
    ensures Atom(scope, WriteBare(scope, Tree.Branch(yes, no)) + rest) == Got(Tree.Branch(yes, no), rest)
    decreases Tree.Branch(yes, no), 0
  {
    var between := " {" + (" " + (Write(scope, no, 0) + (" }" + rest)));
    var after := " {" + (" " + (Write(scope, yes, 0) + (" }" + between)));
    BranchText(Write(scope, yes, 0), Write(scope, no, 0), rest);
    hide *;
    ArmRead(scope, no, rest);
    ArmRead(scope, yes, between);
    BranchParts(scope, yes, no, after, between, rest);
  }

  lemma BranchText(yes: string, no: string, rest: string)
    ensures "branch { " + yes + " } { " + no + " }" + rest
      == "branch" + (" {" + (" " + (yes + (" }" + (" {" + (" " + (no + (" }" + rest))))))))
  {
    var tail := " }" + rest;
    assert " } { " == " }" + (" {" + " ") && "branch { " == "branch" + (" {" + " ");
    assert "branch { " + yes + " } { " + no + " }" + rest == "branch { " + (yes + (" } { " + (no + tail)));
  }

  lemma BranchParts(scope: Scope, yes: Tree, no: Tree, after: string, between: string, rest: string)
    requires Tree.Branch(yes, no).Ok()
    requires WriteBare(scope, Tree.Branch(yes, no)) + rest == "branch" + after && after != "" && after[0] == ' '
    requires Arm(scope, after) == Got(yes, between) && Arm(scope, between) == Got(no, rest)
    ensures Atom(scope, WriteBare(scope, Tree.Branch(yes, no)) + rest) == Got(Tree.Branch(yes, no), rest)
  {
    hide Arm; hide Atom; hide WriteBare;
    AtomOfBranch(scope, "branch" + after, after, between, yes, no, rest);
  }

  lemma {:induction false} ArmRead(scope: Scope, t: Tree, rest: string)
    requires t.Ok() && Readable(scope, t)
    ensures Arm(scope, " {" + (" " + (Write(scope, t, 0) + (" }" + rest)))) == Got(t, rest)
    decreases t, 4
  {
    BareAtTop(scope, t);
    Closers(rest);
    hide *;
    TermRead(scope, t, " }" + rest);
    CompositionTailEnds(scope, t, " }" + rest);
    CompositionTrims(scope, Write(scope, t, 0) + (" }" + rest));
    ArmOf(scope, " " + (Write(scope, t, 0) + (" }" + rest)), t, rest);
  }

  /** Nothing binds more loosely than the whole of a text. */
  lemma BareAtTop(scope: Scope, t: Tree)
    ensures Write(scope, t, 0) == Write(scope, t, COMPOSING) == WriteBare(scope, t)
    ensures !t.Compose? ==> Write(scope, t, PARALLEL) == WriteBare(scope, t)
    ensures !t.Compose? && !t.Par? ==> Write(scope, t, ATOMIC) == WriteBare(scope, t)
    ensures t.Compose? ==> Write(scope, t, PARALLEL) == Write(scope, t, ATOMIC)
  {
    hide WriteBare;
  }

  /** As one side of a `;`: factors side by side, read as far as they go. */
  lemma {:induction false} SideRead(scope: Scope, t: Tree, rest: string)
    requires t.Ok() && Readable(scope, t) && Ends(rest)
    ensures Parallel(scope, Write(scope, t, PARALLEL) + rest) == ParallelTail(scope, t, rest)
    decreases t, if t.Compose? then 3 else if t.Par? then 1 else 2
  {
    BareAtTop(scope, t);
    if t.Par? {
      ParRead(scope, t.left, t.right, rest);
    } else {
      hide *;
      FactorRead(scope, t, rest);
      ParallelOf(scope, Write(scope, t, PARALLEL) + rest, t, rest);
    }
  }

  lemma {:induction false} ParRead(scope: Scope, l: Tree, r: Tree, rest: string)
    requires l.Ok() && r.Ok() && Readable(scope, l) && Readable(scope, r) && Ends(rest)
    ensures Parallel(scope, WriteBare(scope, Tree.Par(l, r)) + rest) == ParallelTail(scope, Tree.Par(l, r), rest)
    decreases Tree.Par(l, r), 0
  {
    var right := Write(scope, r, ATOMIC) + rest;
    ParText(scope, l, r, rest);
    assert Ends(" * " + right);
    hide *;
    SideRead(scope, l, " * " + right);
    FactorRead(scope, r, rest);
    ParallelTailMore(scope, l, r, right, rest);
  }

  lemma ParText(scope: Scope, l: Tree, r: Tree, rest: string)
    ensures WriteBare(scope, Tree.Par(l, r)) + rest
      == Write(scope, l, PARALLEL) + (" * " + (Write(scope, r, ATOMIC) + rest))
  {
    hide Write;
  }

  lemma ComposeText(scope: Scope, l: Tree, r: Tree, rest: string)
    ensures WriteBare(scope, Tree.Compose(l, r)) + rest
      == Write(scope, l, COMPOSING) + (" ; " + (Write(scope, r, PARALLEL) + rest))
  {
    hide Write;
  }

  /** At the top: sides composed, read as far as they go. */
  lemma {:induction false} TermRead(scope: Scope, t: Tree, rest: string)
    requires t.Ok() && Readable(scope, t) && Closes(rest)
    ensures Composition(scope, WriteBare(scope, t) + rest) == CompositionTail(scope, t, rest)
    decreases t, if t.Compose? then 1 else if t.Par? then 2 else 3
  {
    BareAtTop(scope, t);
    if t.Compose? {
      ComposeRead(scope, t.left, t.right, rest);
    } else {
      assert Ends(rest) && !Starts(TrimStart(rest), '*');
      hide *;
      SideRead(scope, t, rest);
      ParallelTailEnds(scope, t, rest);
      CompositionOf(scope, WriteBare(scope, t) + rest, t, rest);
    }
  }

  lemma {:induction false} ComposeRead(scope: Scope, l: Tree, r: Tree, rest: string)
    requires Tree.Compose(l, r).Ok() && Readable(scope, l) && Readable(scope, r) && Closes(rest)
    ensures Composition(scope, WriteBare(scope, Tree.Compose(l, r)) + rest)
      == CompositionTail(scope, Tree.Compose(l, r), rest)
    decreases Tree.Compose(l, r), 0
  {
    var right := Write(scope, r, PARALLEL) + rest;
    BareAtTop(scope, l);
    ComposeText(scope, l, r, rest);
    SemicolonCloses(right);
    ComposeShape(l, r);
    assert Ends(rest) && !Starts(TrimStart(rest), '*');
    hide *;
    TermRead(scope, l, " ; " + right);
    SideRead(scope, r, rest);
    ParallelTailEnds(scope, r, rest);
    CompositionTailMore(scope, l, r, right, rest);
  }

  lemma SemicolonCloses(text: string)
    ensures Closes(" ; " + text)
  {
    assert " ; " + text == " " + (";" + (" " + text));
    TrimsOne(";" + (" " + text));
    NoTrim(";", " " + text);
  }

  /** Printing and then parsing gives back the identical tree, associativity and parentheses included. */
  lemma PrintedIsRead(scope: Scope, t: Tree)
    requires t.Ok() && Readable(scope, t)
    ensures Parsing.Term(scope, Write(scope, t, 0)) == Ok(t)
  {
    BareAtTop(scope, t);
    assert Closes("") && !Starts(TrimStart(""), ';');
    assert WriteBare(scope, t) + "" == WriteBare(scope, t);
    hide WriteBare; hide Composition;
    TermRead(scope, t, "");
    CompositionTailEnds(scope, t, "");
  }

  /** Nothing but spaces. */
  predicate Blank(s: string) {
    forall k | 0 <= k < |s| :: IsSpace(s[k])
  }

  lemma {:induction false} BlankTrims(blank: string, text: string)
    requires Blank(blank)
    ensures TrimStart(blank + text) == TrimStart(text)
  {
    if blank == "" {
      assert blank + text == text;
    } else {
      assert (blank + text)[0] == blank[0] && (blank + text)[1..] == blank[1..] + text;
      BlankTrims(blank[1..], text);
    }
  }

  lemma BlankBefore(scope: Scope, blank: string, text: string)
    requires Blank(blank)
    ensures Composition(scope, blank + text) == Composition(scope, text)
  {
    hide ParallelTail; hide CompositionTail; hide Arm; hide Leaf;
    BlankTrims(blank, text);
    assert Atom(scope, blank + text) == Atom(scope, text) by {
      hide Composition;
      assert TakeWord(TrimStart(blank + text)) == TakeWord(TrimStart(text));
    }
    hide Atom;
  }

  lemma BlankAfter(blank: string)
    requires Blank(blank)
    ensures Closes(blank) && TrimStart(blank) == "" && Closes(")" + blank)
    ensures !Starts(TrimStart(")" + blank), ';')
  {
    BlankTrims(blank, "");
    assert blank + "" == blank;
    Closers(blank);
  }

  /** However it is spaced off, and in parentheses that nothing calls for, a printed term is read back. */
  lemma SpacedIsRead(scope: Scope, t: Tree, before: string, after: string)
    requires t.Ok() && Readable(scope, t) && Blank(before) && Blank(after)
    ensures Parsing.Term(scope, before + (Write(scope, t, 0) + after)) == Ok(t)
    ensures Parsing.Term(scope, before + ("(" + (Write(scope, t, 0) + (")" + after)))) == Ok(t)
  {
    hide Readable; hide Write; hide WriteBare; hide Composition; hide CompositionTail; hide Closes; hide Blank;
    hide TrimStart; hide Tree.Ok;
    var bare := WriteBare(scope, t);
    BareAtTop(scope, t);
    BlankAfter(after);
    assert !Starts("", ';');
    TermRead(scope, t, after);
    CompositionTailEnds(scope, t, after);
    BlankBefore(scope, before, bare + after);
    TermRead(scope, t, ")" + after);
    CompositionTailEnds(scope, t, ")" + after);
    ParenthesesRead(scope, bare + (")" + after), t, after);
    BlankBefore(scope, before, "(" + (bare + (")" + after)));
  }

  lemma ParenthesesRead(scope: Scope, inside: string, t: Tree, rest: string)
    requires Composition(scope, inside) == Got(t, ")" + rest) && Closes(rest) && !Starts(TrimStart(rest), ';')
    ensures Composition(scope, "(" + inside) == Got(t, rest)
  {
    hide Composition;
    AtomOfParens(scope, inside, t, rest);
    ParallelOf(scope, "(" + inside, t, rest);
    ParallelTailEnds(scope, t, rest);
    CompositionOf(scope, "(" + inside, t, rest);
    CompositionTailEnds(scope, t, rest);
  }

  /** So the text says which tree it came from. */
  lemma PrintingTellsApart(scope: Scope, a: Tree, b: Tree)
    requires a.Ok() && b.Ok() && Readable(scope, a) && Readable(scope, b)
    requires Write(scope, a, 0) == Write(scope, b, 0)
    ensures a == b
  {
    PrintedIsRead(scope, a);
    PrintedIsRead(scope, b);
  }

  // ---- where reading back stops short ----

  /** The least integer prints, and its digits are read; only where overflow stops the reader are they refused. */
  lemma IntegersReadExactly(scope: Scope, i: i64, rest: string)
    requires Ends(rest)
    ensures Literal(scope, WriteInt(i) + rest) == Got(Int(i), rest) <==> (scope.host.checked ==> i > -TWO_63)
  {
    hide Literal; hide WriteInt;
    if scope.host.checked ==> i > -TWO_63 {
      IntRead(scope, i, rest);
    } else {
      LeastIsRefused(scope, i, rest);
    }
  }

  /** The digits of the least integer wrap round to it, and so does taking it times minus one. */
  lemma LeastSigned(checked: bool, i: i64, rest: string)
    requires i == -TWO_63 && Ends(rest)
    ensures Signed(checked, WriteInt(i) + rest) == if checked then Refused(Overflow) else Got(i, rest)
  {
    var n: nat := TWO_63;
    IntText(i, rest);
    assert Ends(rest) ==> rest == "" || !IsDigit(rest[0]);
    hide *;
    NumberRead(n, rest);
    NoNegation(checked, Decimal(n) + rest, rest);
  }

  lemma LeastIsRefused(scope: Scope, i: i64, rest: string)
    requires i == -TWO_63 && Ends(rest) && scope.host.checked
    ensures Literal(scope, WriteInt(i) + rest) == Refused(Overflow)
  {
    var n: nat := TWO_63;
    IntText(i, rest);
    LeastSigned(scope.host.checked, i, rest);
    hide *;
    RefusedWhole(scope, Decimal(n) + rest);
  }

  lemma NoNegation(checked: bool, text: string, rest: string)
    requires Number(text) == Got(TWO_63, rest)
    ensures Signed(checked, "-" + text) == if checked then Refused(Overflow) else Got(-TWO_63, rest)
  {
    hide Number;
    assert Wrap(TWO_63) == -TWO_63;
    assert ("-" + text)[1..] == text;
  }

  lemma RefusedWhole(scope: Scope, text: string)
    requires Signed(scope.host.checked, "-" + text) == Refused(Overflow)
    ensures Literal(scope, "-" + text) == Refused(Overflow)
  {
    hide Signed;
    NoTrim("-", text);
  }

  lemma {:induction false} EscapedLength(printable: set<char>, s: string)
    ensures |AllEscaped(printable, s)| >= |s|
    ensures |AllEscaped(printable, s)| == |s| <==> Unescaped(printable, s)
  {
    if s != "" {
      EscapedLength(printable, s[1..]);
      assert |Escaped(printable, s[0])| == 1 <==> Escaped(printable, s[0]) == [s[0]];
      UnescapedSplits(printable, s);
    }
  }

  lemma UnescapedSplits(printable: set<char>, s: string)
    requires s != ""
    ensures Unescaped(printable, s) <==> Escaped(printable, s[0]) == [s[0]] && Unescaped(printable, s[1..])
  {
    hide Escaped;
    if Escaped(printable, s[0]) == [s[0]] && Unescaped(printable, s[1..]) {
      forall k | 0 <= k < |s| ensures Escaped(printable, s[k]) == [s[k]] {
        assert k > 0 ==> s[1..][k - 1] == s[k];
      }
    }
    if Unescaped(printable, s) {
      forall k | 0 <= k < |s[1..]| ensures Escaped(printable, s[1..][k]) == [s[1..][k]] {
        assert s[1..][k] == s[k + 1];
      }
    }
  }

  /**
   * The printer escapes and the reader does not: whichever characters the host prints as they are, a string
   * literal is read back exactly when all of its characters are among them and none has an escape of its own.
   */
  lemma StringsReadExactly(scope: Scope, s: string, rest: string)
    ensures Literal(scope, WriteValue(scope, ConstString(s)) + rest) == Got(ConstString(s), rest)
      <==> forall k | 0 <= k < |s| :: s[k] in scope.host.printable && s[k] !in {'"', '\\', '\n', '\t', '\r', '\0'}
  {
    var printable := scope.host.printable;
    UnescapedMeans(printable, s);
    hide Escaped; hide Unescaped; hide Literal; hide AllEscaped;
    if Unescaped(printable, s) {
      StringRead(scope, s, rest);
    } else {
      EscapedLength(printable, s);
      var text := AllEscaped(printable, s) + "\"" + rest;
      assert WriteValue(scope, ConstString(s)) + rest == "\"" + text;
      LiteralOfString(scope, text);
      if FindQuote(text).Some? && text[FindQuote(text).value + 1..] == rest {
        assert FindQuote(text).value == |AllEscaped(printable, s)|;
        assert text[..|AllEscaped(printable, s)|] == AllEscaped(printable, s);
      }
    }
  }

  lemma UnescapedMeans(printable: set<char>, s: string)
    ensures Unescaped(printable, s)
      <==> forall k | 0 <= k < |s| :: s[k] in printable && s[k] !in {'"', '\\', '\n', '\t', '\r', '\0'}
  {
    forall k | 0 <= k < |s|
      ensures Escaped(printable, s[k]) == [s[k]]
        <==> s[k] in printable && s[k] !in {'"', '\\', '\n', '\t', '\r', '\0'}
    {
      hide Hex;
      assert |Escaped(printable, s[k])| == 1 ==> s[k] in printable;
    }
  }

  lemma LiteralOfString(scope: Scope, text: string)
    ensures Literal(scope, "\"" + text)
      == match FindQuote(text)
         case Some(end) => Got(ConstString(text[..end]), text[end + 1..])
         case None => Refused(Expected("a closing quote"))
  {
    NoTrim("\"", text);
    assert ("\"" + text)[1..] == text;
  }
}
