/** Small shared vocabulary: optional values, position sides and the exact
    counterparts of the rounding modes used on Decimal values. */
module Common {

  datatype Option<+T> = None | Some(value: T) {
    function GetOr(default: T): T {
      match this
      case Some(v) => v
      case None => default
    }
  }

  datatype Result<+T, +E> = Ok(value: T) | Err(error: E)

  /** Direction of a held position (PositionSide). */
  datatype Side = Long | Short

  function Flip(s: Side): Side {
    if s == Long then Short else Long
  }

  /** +1 for a long, -1 for a short. */
  function Direction(s: Side): real {
    if s == Long then 1.0 else -1.0
  }

  function Max(a: real, b: real): real {
    if a >= b then a else b
  }

  function Min(a: real, b: real): real {
    if a <= b then a else b
  }

  function Abs(a: real): real {
    if a < 0.0 then -a else a
  }

  function MaxInt(a: int, b: int): int {
    if a >= b then a else b
  }

  /** Decimal.to_integral_value with ROUND_CEILING. */
  function Ceil(x: real): int {
    -((-x).Floor)
  }

  /** Decimal.to_integral_value with ROUND_DOWN (towards zero). */
  function Truncate(x: real): int {
    if x >= 0.0 then x.Floor else -((-x).Floor)
  }

  /** Decimal.to_integral_value with ROUND_HALF_UP (ties away from zero). */
  function HalfUp(x: real): int {
    if x >= 0.0 then (x + 0.5).Floor else -((-x + 0.5).Floor)
  }

  /** Python's `value or default` on an optional Decimal: zero counts as absent. */
  function OrElse(o: Option<real>, default: real): real {
    if o.Some? && o.value != 0.0 then o.value else default
  }

  function Sum(s: seq<real>): real {
    if s == [] then 0.0 else s[0] + Sum(s[1..])
  }

  lemma {:induction false} SumSnoc(s: seq<real>, x: real)
    ensures Sum(s + [x]) == Sum(s) + x
  {
    if s == [] {
    } else {
      assert (s + [x])[1..] == s[1..] + [x];
      SumSnoc(s[1..], x);
    }
  }

  lemma {:induction false} SumConcat(a: seq<real>, b: seq<real>)
    ensures Sum(a + b) == Sum(a) + Sum(b)
  {
    if a == [] {
      assert a + b == b;
    } else {
      assert (a + b)[1..] == a[1..] + b;
      SumConcat(a[1..], b);
    }
  }
}
