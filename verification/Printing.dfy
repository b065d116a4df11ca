/** Terms and values as text. */
module Printing {
  import opened Wrappers
  import opened Values
  import opened Prims
  import opened Terms

  /** What the host decides: which characters it prints as they are, and whether an overflow stops the program. */
  datatype Host = Host(printable: set<char>, checked: bool)

  /** What text may name: sentences, with what a call to each does to the stack, and symbols. */
  datatype Scope = Scope(
    host: Host, names: seq<string>, arities: seq<Option<Arity>>, symbols: map<string, Value>, paths: map<nat, string>)

  // ---- values ----

  /** A character of a string literal, as the host's debug printing spells it. */
  function Escaped(printable: set<char>, c: char): (s: string)
    ensures s != ""
  {
    if c == '"' then "\\\"" else if c == '\\' then "\\\\"
    else if c == '\n' then "\\n" else if c == '\t' then "\\t" else if c == '\r' then "\\r" else if c == '\0' then "\\0"
    else if c in printable then [c]
    else "\\u{" + Hex(c as nat) + "}"
  }

  function Hex(n: nat): (s: string)
    ensures s != ""
  {
    (if n < 16 then "" else Hex(n / 16)) + ["0123456789abcdef"[n % 16]]
  }

  function AllEscaped(printable: set<char>, s: string): string {
    if s == "" then "" else Escaped(printable, s[0]) + AllEscaped(printable, s[1..])
  }

  /** Text the host prints as it is. */
  predicate Unescaped(printable: set<char>, s: string) {
    forall k | 0 <= k < |s| :: Escaped(printable, s[k]) == [s[k]]
  }

  function WriteInt(i: int): string {
    if i < 0 then "-" + Decimal(-i) else Decimal(i)
  }

  function PathOf(scope: Scope, id: nat): string {
    if id in scope.paths then scope.paths[id] else ""
  }

  function WriteValue(scope: Scope, v: Value): string
    decreases v
  {
    match v
    case Bool(b) => if b then "true" else "false"
    case Int(i) => WriteInt(i)
    case ConstString(s) => "\"" + AllEscaped(scope.host.printable, s) + "\""
    case Symbol(id) => PathOf(scope, id)
    case Tuple(elements) => "(" + WriteElements(scope, elements) + (if |elements| == 1 then "," else "") + ")"
  }

  function WriteElements(scope: Scope, elements: seq<Value>): string
    decreases elements
  {
    if elements == [] then ""
    else if |elements| == 1 then WriteValue(scope, elements[0])
    else WriteValue(scope, elements[0]) + ", " + WriteElements(scope, elements[1..])
  }

  // ---- terms ----

  const COMPOSING: nat := 1
  const PARALLEL: nat := 2
  const ATOMIC: nat := 3

  function Precedence(t: Tree): nat {
    match t
    case Compose(_, _) => COMPOSING
    case Par(_, _) => PARALLEL
    case _ => ATOMIC
  }

  function WriteOp(scope: Scope, prim: Prim): string {
    if prim.Push? then "push " + WriteValue(scope, prim.v) else Mnemonic(prim)
  }

  /**
   * The text of `t` where precedence `context` or tighter is called for. The right side of an operator asks
   * for one level more than the left, so grouping to the left needs no parentheses and to the right does.
   */
  function Write(scope: Scope, t: Tree, context: nat): string
    decreases t, 1
  {
    if Precedence(t) < context then "(" + WriteBare(scope, t) + ")" else WriteBare(scope, t)
  }

  function WriteBare(scope: Scope, t: Tree): string
    decreases t, 0
  {
    match t
    case Id(n) => "id(" + Decimal(n) + ")"
    case Drop(n) => "drop(" + Decimal(n) + ")"
    case Copy(n) => "copy(" + Decimal(n) + ")"
    case Op(prim) => WriteOp(scope, prim)
    case Call(target, _) =>
      if target < |scope.names| then "call " + scope.names[target] else "call #" + Decimal(target)
    case Compose(l, r) => Write(scope, l, COMPOSING) + " ; " + Write(scope, r, COMPOSING + 1)
    case Par(l, r) => Write(scope, l, PARALLEL) + " * " + Write(scope, r, PARALLEL + 1)
    case Branch(yes, no) => "branch { " + Write(scope, yes, 0) + " } { " + Write(scope, no, 0) + " }"
  }

  // ---- what is written so that it can be read ----

  predicate IsSpace(c: char) {
    c == ' ' || c == '\t' || c == '\n' || c == '\r'
  }

  predicate IsDigit(c: char) {
    '0' <= c <= '9'
  }

  predicate IsWordChar(c: char) {
    IsDigit(c) || 'a' <= c <= 'z' || 'A' <= c <= 'Z' || c == '_' || c == ':'
  }

  /** The host's word: no width and no spelled number reaches it. */
  const WORD: nat := TWO_64

  predicate IsName(s: string) {
    s != "" && forall k | 0 <= k < |s| :: IsWordChar(s[k])
  }

  predicate EndsWith(s: string, suffix: string) {
    |suffix| <= |s| && s[|s| - |suffix|..] == suffix
  }

  /** A name answers to itself and to any trailing part of its path. */
  predicate AnswersTo(name: string, path: string) {
    name == path || EndsWith(name, "::" + path)
  }

  /** Of all the names, only this one answers to it. */
  predicate Unambiguous(names: set<string>, name: string) {
    name in names && forall other | other in names && AnswersTo(other, name) :: other == name
  }

  /**
   * Literals whose text is read back: no escapes, no `i64::MIN` where overflow stops, and symbols that can be
   * named.
   */
  predicate Legible(scope: Scope, v: Value)
    decreases v
  {
    match v
    case Bool(_) => true
    case Int(i) => scope.host.checked ==> i > -TWO_63
    case ConstString(s) => Unescaped(scope.host.printable, s)
    case Tuple(elements) => forall k | 0 <= k < |elements| :: Legible(scope, elements[k])
    case Symbol(id) =>
      var path := PathOf(scope, id);
      && IsName(path) && !IsDigit(path[0]) && path != "true" && path != "false"
      && Unambiguous(scope.symbols.Keys, path) && scope.symbols[path] == v
  }

  function Set(names: seq<string>): set<string> {
    set k | 0 <= k < |names| :: names[k]
  }

  predicate LegibleCall(scope: Scope, target: SentenceIndex, arity: Arity) {
    && target < |scope.names| == |scope.arities| && IsName(scope.names[target])
    && Unambiguous(Set(scope.names), scope.names[target])
    && (forall k | 0 <= k < target :: scope.names[k] != scope.names[target])
    && scope.arities[target] == Some(arity)
  }

  predicate LegibleOp(scope: Scope, prim: Prim) {
    match prim
    case Push(v) => Legible(scope, v)
    case Tuple(n) => n < WORD
    case Untuple(n) => n < WORD
    case AsTuple(n) => n < WORD
    case _ => true
  }

  /** Terms whose text is read back. */
  predicate Readable(scope: Scope, t: Tree) {
    match t
    case Id(n) => n < WORD
    case Drop(n) => n < WORD
    case Copy(n) => n < WORD
    case Op(prim) => LegibleOp(scope, prim)
    case Call(target, arity) => LegibleCall(scope, target, arity)
    case Compose(l, r) => Readable(scope, l) && Readable(scope, r)
    case Par(l, r) => Readable(scope, l) && Readable(scope, r)
    case Branch(yes, no) => Readable(scope, yes) && Readable(scope, no)
  }
}
