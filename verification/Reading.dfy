/** The reader itself: recursive descent over text, building in an arena as it goes. */
module Reading {
  import opened Wrappers
  import opened Prims
  import opened Terms
  import opened Printing
  import opened Parsing
  import opened RoundTrips

  /** What was built is what the text says, or was refused for what the text says. */
  ghost predicate Built(ctx: Context, spec: Read<Tree>, r: Read<TermIndex>)
    reads ctx
    requires ctx.Valid()
  {
    match spec
    case Got(t, rest) => r.Got? && ctx.Has(r.value) && ctx.At(r.value) == t && r.rest == rest
    case Refused(e) => r == Refused(e)
  }

  /** `a ; b ; c`, left-associated: each side composed as it is read. */
  method ReadComposition(ctx: Context, scope: Scope, text: string) returns (r: Read<TermIndex>)
    requires ctx.Valid()
    modifies ctx
    ensures ctx.Grew() && Built(ctx, Composition(scope, text), r)
    decreases |text|, 3
  {
    hide Parallel; hide TreeAt; hide Ordered; hide Tree.Effect;
    var first := ReadParallel(ctx, scope, text);
    if first.Refused? {
      return first;
    }
    var term, rest := first.value, first.rest;
    while Starts(TrimStart(rest), ';')
      invariant ctx.Grew() && ctx.Has(term) && ctx.At(term).Ok() && |rest| < |text|
      invariant Composition(scope, text) == CompositionTail(scope, ctx.At(term), rest)
      decreases |rest|
    {
      ghost var before := ctx.At(term);
      var next := ReadParallel(ctx, scope, TrimStart(rest)[1..]);
      if next.Refused? {
        return next;
      }
      assert ctx.At(term) == before;
      ComposeShape(ctx.At(term), ctx.At(next.value));
      var made := ctx.Compose(term, next.value);
      if made.Err? {
        return Refused(IllFormed(made.error));
      }
      term, rest := made.value, next.rest;
    }
    r := Got(term, rest);
  }

  /** `a * b * c`, left-associated. */
  method ReadParallel(ctx: Context, scope: Scope, text: string) returns (r: Read<TermIndex>)
    requires ctx.Valid()
    modifies ctx
    ensures ctx.Grew() && Built(ctx, Parallel(scope, text), r)
    decreases |text|, 2
  {
    hide Atom; hide TreeAt; hide Ordered; hide Tree.Effect;
    var first := ReadAtom(ctx, scope, text);
    if first.Refused? {
      return first;
    }
    var term, rest := first.value, first.rest;
    while Starts(TrimStart(rest), '*')
      invariant ctx.Grew() && ctx.Has(term) && ctx.At(term).Ok() && |rest| < |text|
      invariant Parallel(scope, text) == ParallelTail(scope, ctx.At(term), rest)
      decreases |rest|
    {
      ghost var before := ctx.At(term);
      var next := ReadAtom(ctx, scope, TrimStart(rest)[1..]);
      if next.Refused? {
        return next;
      }
      assert ctx.At(term) == before;
      ParShape(ctx.At(term), ctx.At(next.value));
      term := ctx.Push(Term.Par(term, next.value));
      rest := next.rest;
    }
    r := Got(term, rest);
  }

  method ReadAtom(ctx: Context, scope: Scope, text: string) returns (r: Read<TermIndex>)
    requires ctx.Valid()
    modifies ctx
    ensures ctx.Grew() && Built(ctx, Atom(scope, text), r)
    decreases |text|, 1
  {
    hide Composition; hide Arm; hide Leaf; hide TakeWord; hide TreeAt; hide Ordered; hide Tree.Effect; hide Tree.Ok;
    var t := TrimStart(text);
    if Starts(t, '(') {
      var inner := ReadComposition(ctx, scope, t[1..]);
      if inner.Refused? {
        return inner;
      }
      var rest := TrimStart(inner.rest);
      return if Starts(rest, ')') then Got(inner.value, rest[1..]) else Refused(Expected(")"));
    }
    var (word, rest) := TakeWord(t);
    if word == "" {
      r := Refused(Unexpected(t));
    } else if word == "branch" {
      var yes := ReadArm(ctx, scope, rest);
      if yes.Refused? {
        return yes;
      }
      ghost var thenArm := ctx.At(yes.value);
      var no := ReadArm(ctx, scope, yes.rest);
      if no.Refused? {
        return no;
      }
      assert ctx.At(yes.value) == thenArm;
      var made := ctx.Branch(yes.value, no.value);
      r := match made case Ok(i) => Got(i, no.rest) case Err(e) => Refused(IllFormed(e));
    } else {
      r := ReadLeaf(ctx, scope, word, rest);
    }
  }

  /** One brace-delimited branch arm. */
  method ReadArm(ctx: Context, scope: Scope, text: string) returns (r: Read<TermIndex>)
    requires ctx.Valid()
    modifies ctx
    ensures ctx.Grew() && Built(ctx, Arm(scope, text), r)
    decreases |text|, 0
  {
    hide Composition; hide TreeAt; hide Ordered;
    var t := TrimStart(text);
    if !Starts(t, '{') {
      return Refused(Expected("a branch arm in braces"));
    }
    var inner := ReadComposition(ctx, scope, t[1..]);
    if inner.Refused? {
      return inner;
    }
    var rest := TrimStart(inner.rest);
    r := if Starts(rest, '}') then Got(inner.value, rest[1..]) else Refused(Expected("}"));
  }

  /** A leaf: everything a word begins except a branch. */
  method ReadLeaf(ctx: Context, scope: Scope, word: string, rest: string) returns (r: Read<TermIndex>)
    requires ctx.Valid()
    modifies ctx
    ensures ctx.Grew() && Built(ctx, Leaf(scope, word, rest), r)
  {
    hide Literal; hide Operation; hide Width; hide SentenceNamed; hide TakeWord; hide Ordered; hide Tree.Effect;
    if word == "id" || word == "drop" || word == "copy" {
      var n := Width(rest);
      if n.Refused? {
        return Refused(n.error);
      }
      var node := if word == "id" then Term.Id(n.value) else if word == "drop"
        then Term.Drop(n.value) else Term.Copy(n.value);
      var i := ctx.Push(node);
      r := Got(i, n.rest);
    } else if word == "call" {
      var (path, after) := TakeWord(TrimStart(rest));
      var target := SentenceNamed(scope, path);
      if target.Err? {
        return Refused(target.error);
      }
      if target.value >= |scope.arities| || scope.arities[target.value].None? {
        return Refused(IllFormed(NoArity(target.value)));
      }
      var i := ctx.Push(Term.Call(target.value, scope.arities[target.value].value));
      r := Got(i, after);
    } else if word == "push" {
      var v := Literal(scope, rest);
      if v.Refused? {
        return Refused(v.error);
      }
      var i := ctx.Push(Term.Op(Push(v.value)));
      r := Got(i, v.rest);
    } else {
      r := ReadOperation(ctx, scope, word, rest);
    }
  }

  method ReadOperation(ctx: Context, scope: Scope, word: string, rest: string) returns (r: Read<TermIndex>)
    requires ctx.Valid()
    modifies ctx
    ensures ctx.Grew() && Built(ctx, Operation(scope, word, rest), r)
  {
    hide Number; hide FindSpelled; hide AllPrims; hide Ordered;
    if WidthCarrying(word, 0).Some? {
      var n := Number(TrimStart(rest));
      if n.Refused? {
        return Refused(n.error);
      }
      var i := ctx.Push(Term.Op(WidthCarrying(word, n.value).value));
      r := Got(i, n.rest);
    } else {
      var prim := FindSpelled(scope, AllPrims(), word);
      if prim.None? {
        return Refused(Unknown(word));
      }
      var i := ctx.Push(Term.Op(prim.value));
      r := Got(i, rest);
    }
  }

  /** A whole text, with nothing after the term. What is built is always well formed. */
  method ParseTerm(ctx: Context, scope: Scope, text: string) returns (r: Result<TermIndex, ParseError>)
    requires ctx.Valid()
    modifies ctx
    ensures ctx.Grew()
    ensures match Parsing.Term(scope, text)
      case Ok(t) => r.Ok? && ctx.Has(r.value) && ctx.At(r.value) == t && t.Ok()
      case Err(e) => r == Err(e)
  {
    hide Composition; hide TreeAt; hide Ordered;
    var read := ReadComposition(ctx, scope, text);
    if read.Refused? {
      return Err(read.error);
    }
    var rest := TrimStart(read.rest);
    r := if rest == "" then Ok(read.value) else Err(Unexpected(rest));
  }

  /** A term printed and read into any arena is there as the identical tree. */
  method ReadBack(ctx: Context, scope: Scope, ghost t: Tree, text: string) returns (i: TermIndex)
    requires ctx.Valid() && t.Ok() && Readable(scope, t) && text == Write(scope, t, 0)
    modifies ctx
    ensures ctx.Grew() && ctx.Has(i) && ctx.At(i) == t
  {
    PrintedIsRead(scope, t);
    var r := ParseTerm(ctx, scope, text);
    i := r.value;
  }
}
