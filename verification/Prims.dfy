/** The local instructions: what each takes, leaves and answers. */
module Prims {
  import opened Wrappers
  import opened Values

  datatype Arity = Arity(inputs: nat, outputs: nat) {
    function Net(): int {
      outputs - inputs
    }
  }

  /** Every instruction but the five the term algebra says structurally. */
  datatype Prim =
    | Push(v: Value)
    | Swap
    | Equal | Greater | Less
    | Add | Subtract | Multiply | Divide | Modulo
    | Not | Negate | And | Or
    | Tuple(n: nat) | Untuple(n: nat)
    | ConstStringLen | ConstStringCharAt
    | IsInt | IsBool | IsConstString | IsSymbol | IsTuple
    | TupleLength
    | AsBool | AsInt | AsTuple(n: nat)
  {
    function Effect(): Arity {
      match this
      case Push(_) => Arity(0, 1)
      case Swap => Arity(2, 2)
      case Equal | And | Or | Greater | Less => Arity(2, 1)
      case Add | Subtract | Multiply | Divide | Modulo | ConstStringCharAt => Arity(2, 1)
      case Not | Negate | ConstStringLen | TupleLength => Arity(1, 1)
      case IsInt | IsBool | IsConstString | IsSymbol | IsTuple => Arity(1, 1)
      case AsBool | AsInt | AsTuple(_) => Arity(1, 1)
      case Tuple(n) => Arity(n, 1)
      case Untuple(n) => Arity(1, n)
    }

    /** The list of instructions whose operands may be exchanged; `CommutativeAnswers` says it is right. */
    predicate Commutative() {
      Add? || Multiply? || And? || Or? || Equal?
    }

    /** What this leaves is always a `Bool`. */
    predicate YieldsBool() {
      Equal? || Greater? || Less? || Not? || And? || Or? || IsInt? || IsBool? || IsConstString?
      || IsSymbol? || IsTuple? || AsBool?
    }
  }

  /** `untuple n` answers with these: the elements, or as many units. */
  function TakenApart(n: nat, x: Value): (r: seq<Value>)
    ensures |r| == n
  {
    if x.Tuple? && |x.elements| == n then x.elements else Units(n)
  }

  function Arithmetic(p: Prim, x: i64, y: i64): i64 {
    match p
    case Add => Wrap(x + y)
    case Subtract => Wrap(x - y)
    case Multiply => Wrap(x * y)
    case Divide => if y == 0 then 0 else Wrap(TruncDiv(x, y))
    case Modulo => if y == 0 then 0 else Wrap(TruncRem(x, y))
    case _ => 0
  }

  function CharAt(s: Value, index: Value): Value {
    if s.ConstString? && index.Int? && 0 <= index.i < |s.s| then
      Int(s.s[index.i] as int)
    else
      Int(0)
  }

  /** The one value a two-operand prim leaves, `a` being the deeper operand. */
  function Answer2(p: Prim, a: Value, b: Value): Value {
    match p
    case Equal => Bool(a == b)
    case Greater => Bool(NumericCmp(a, b) == Some(After))
    case Less => Bool(NumericCmp(a, b) == Some(Before))
    case And => Bool(a.Truthy() && b.Truthy())
    case Or => Bool(a.Truthy() || b.Truthy())
    case ConstStringCharAt => CharAt(a, b)
    case _ => if a.Int? && b.Int? then Int(Arithmetic(p, a.i, b.i)) else Int(0)
  }

  /** The one value a one-operand prim leaves. */
  function Answer1(p: Prim, x: Value): Value {
    match p
    case Not => Bool(!x.Truthy())
    case Negate => Int(if x.Int? then Wrap(-(x.i as int)) else 0)
    case ConstStringLen => Int(if x.ConstString? then Wrap(|x.s|) else 0)
    case TupleLength => Int(if x.Tuple? then Wrap(|x.elements|) else 0)
    case IsInt => Bool(x.Int?)
    case IsBool => Bool(x.Bool?)
    case IsConstString => Bool(x.ConstString?)
    case IsSymbol => Bool(x.Symbol?)
    case IsTuple => Bool(x.Tuple?)
    case AsBool => Bool(x.Truthy())
    case AsInt => if x.Int? then x else Int(0)
    case AsTuple(n) => Value.Tuple(TakenApart(n, x))
    case _ => x
  }

  /** What a prim leaves in place of its operands, deepest first; the machine and the folds share it. */
  function Answer(p: Prim, args: seq<Value>): (r: seq<Value>)
    requires |args| == p.Effect().inputs
    ensures |r| == p.Effect().outputs
  {
    if p.Push? then [p.v]
    else if p.Swap? then [args[1], args[0]]
    else if p.Tuple? then [Value.Tuple(args)]
    else if p.Untuple? then TakenApart(p.n, args[0])
    else if |args| == 2 then [Answer2(p, args[0], args[1])]
    else [Answer1(p, args[0])]
  }

  /** Operand order does not matter to a commutative prim, junk answers included. */
  lemma CommutativeAnswers(p: Prim, a: Value, b: Value)
    requires p.Commutative()
    ensures Answer(p, [a, b]) == Answer(p, [b, a])
  {
    if a.Int? && b.Int? {
      assert a.i * b.i == b.i * a.i;
    }
  }

  lemma YieldsBoolAnswers(p: Prim, args: seq<Value>)
    requires p.YieldsBool() && |args| == p.Effect().inputs
    ensures |Answer(p, args)| == 1 && Answer(p, args)[0].Bool?
  {
  }

  // ---- mnemonics ----

  function Digit(d: nat): char
    requires d < 10
  {
    "0123456789"[d]
  }

  function Decimal(n: nat): (s: string)
    ensures |s| > 0
  {
    if n < 10 then [Digit(n)] else Decimal(n / 10) + [Digit(n % 10)]
  }

  /** The spelling an instruction prints under, which is what orders one operation against another. */
  function Mnemonic(p: Prim): string {
    match p
    case Push(_) => "push"
    case Swap => "swap"
    case Equal => "equal"
    case Greater => "greater"
    case Less => "less"
    case Add => "add"
    case Subtract => "subtract"
    case Multiply => "multiply"
    case Divide => "divide"
    case Modulo => "modulo"
    case Not => "not"
    case Negate => "negate"
    case And => "and"
    case Or => "or"
    case Tuple(n) => "tuple " + Decimal(n)
    case Untuple(n) => "untuple " + Decimal(n)
    case ConstStringLen => "const_string_len"
    case ConstStringCharAt => "const_string_char_at"
    case IsInt => "is_int"
    case IsBool => "is_bool"
    case IsConstString => "is_const_string"
    case IsSymbol => "is_symbol"
    case IsTuple => "is_tuple"
    case TupleLength => "tuple_length"
    case AsBool => "as_bool"
    case AsInt => "as_int"
    case AsTuple(n) => "as_tuple " + Decimal(n)
  }
}
