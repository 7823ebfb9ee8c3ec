/** Small shared vocabulary: optional values, real minimum and maximum, rounding up. */
module Common {
  datatype Option<+T> = None | Some(value: T) {
    function GetOr(default: T): T {
      if Some? then value else default
    }
  }

  function Min(a: real, b: real): real {
    if a <= b then a else b
  }

  function Max(a: real, b: real): real {
    if a <= b then b else a
  }

  function MaxInt(a: int, b: int): int {
    if a <= b then b else a
  }

  function MinInt(a: int, b: int): int {
    if a <= b then a else b
  }

  /** The least integer that is not below x, as `math.ceil` computes it. */
  function Ceil(x: real): (c: int)
    ensures x <= c as real < x + 1.0
  {
    -((-x).Floor)
  }

  function MapOr<K, V>(m: map<K, V>, k: K, default: V): V {
    if k in m then m[k] else default
  }
}
