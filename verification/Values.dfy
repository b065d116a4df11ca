/** Results that may be absent, and results that may be an error. */
module Wrappers {
  datatype Option<+T> = None | Some(value: T)

  datatype Result<+T, +E> = Ok(value: T) | Err(error: E)

  datatype Ordering = Before | Even | After {
    function Then(next: Ordering): Ordering {
      if Even? then next else this
    }

    function Flip(): Ordering {
      match this
      case Before => After
      case Even => Even
      case After => Before
    }
  }
}

/** The values the machine computes with. */
module Values {
  import opened Wrappers

  const TWO_63 := 0x8000_0000_0000_0000
  const TWO_64 := 0x1_0000_0000_0000_0000

  /** A signed 64-bit integer. */
  type i64 = n: int | -0x8000_0000_0000_0000 <= n < 0x8000_0000_0000_0000

  /** Two's-complement wrap-around, the `wrapping_*` family. */
  function Wrap(n: int): i64 {
    (n + TWO_63) % TWO_64 - TWO_63
  }

  /** Division truncating toward zero, which is what the machine's host does. */
  function TruncDiv(x: int, y: int): int
    requires y != 0
  {
    var q := Abs(x) / Abs(y);
    if (x < 0) != (y < 0) then -q else q
  }

  /** The remainder that goes with `TruncDiv`: it takes the sign of the dividend. */
  function TruncRem(x: int, y: int): int
    requires y != 0
  {
    var m := Abs(x) % Abs(y);
    if x < 0 then -m else m
  }

  function Abs(x: int): nat {
    if x < 0 then -x else x
  }

  /** A symbol is its `id` and nothing else; the path it prints as takes no part in equality. */
  datatype Value =
    | Bool(b: bool)
    | Int(i: i64)
    | ConstString(s: string)
    | Tuple(elements: seq<Value>)
    | Symbol(id: nat)
  {
    /** Everything except `Bool(false)` is true. */
    predicate Truthy() {
      this != Bool(false)
    }
  }

  const UNIT: Value := Value.Tuple([])

  function Units(n: nat): (r: seq<Value>)
    ensures |r| == n
  {
    seq(n, _ => UNIT)
  }

  /** `None` exactly when an operand is not a number. */
  function NumericCmp(a: Value, b: Value): Option<Ordering> {
    if a.Int? && b.Int? then
      Some(if a.i < b.i then Before else if a.i == b.i then Even else After)
    else
      None
  }
}
