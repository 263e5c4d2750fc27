/** Small numeric helpers and value types shared by the scoring components. */
module Common {

  datatype Option<T> = None | Some(value: T)

  /** The three text/bar colours the components paint a score with. */
  datatype Colour = Red | Yellow | Green

  function Abs(x: real): (r: real)
    ensures r >= 0.0 && (r == x || r == -x)
  {
    if x < 0.0 then -x else x
  }

  function Min(a: real, b: real): (r: real)
    ensures r <= a && r <= b && (r == a || r == b)
  {
    if a <= b then a else b
  }

  function Max(a: real, b: real): (r: real)
    ensures r >= a && r >= b && (r == a || r == b)
  {
    if a >= b then a else b
  }

  predicate InUnit(x: real) {
    0.0 <= x <= 1.0
  }

  /** `Math.max(0, Math.min(1, x))` */
  function Clamp01(x: real): (r: real)
    ensures InUnit(r)
    ensures InUnit(x) ==> r == x
    ensures x < 0.0 ==> r == 0.0
    ensures x > 1.0 ==> r == 1.0
  {
    Max(0.0, Min(1.0, x))
  }

  /** A three-way threshold chain `v < lo ? red : v < hi ? yellow : green`. */
  function Band(value: real, lo: real, hi: real): (c: Colour)
    requires lo <= hi
    ensures c == Red <==> value < lo
    ensures c == Yellow <==> lo <= value < hi
    ensures c == Green <==> hi <= value
  {
    if value < lo then Red else if value < hi then Yellow else Green
  }

  /** The 0.3 / 0.7 colour bands of the live facial and speech panels. */
  function LiveColorClass(value: real): (c: Colour)
    ensures c == Red <==> value < 0.3
    ensures c == Yellow <==> 0.3 <= value < 0.7
    ensures c == Green <==> 0.7 <= value
  {
    Band(value, 0.3, 0.7)
  }

  /** Three feedback sentences, for the red, yellow and green band. */
  datatype Tiers = Tiers(low: string, mid: string, high: string)

  function Pick(t: Tiers, c: Colour): string {
    match c
    case Red => t.low
    case Yellow => t.mid
    case Green => t.high
  }
}
