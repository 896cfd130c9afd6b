/** Vocabulary shared by every simulated dashboard: random draws, clamped
    random walks and the three-level severity. */
module Sim {

  /** One value of `Math.random()`: uniform in [0, 1). Every random call of
      the dashboards becomes a parameter of this type. */
  type Draw = r: real | 0.0 <= r < 1.0

  datatype Option<+T> = None | Some(value: T)

  /** The severity tag of a truck or an office room: "normal" | "warning" | "danger". */
  datatype Level = Normal | Warning | Danger {
    /** Position in the severity order, Normal lowest. */
    function Rank(): (k: nat)
      ensures k <= 2
      ensures (k == 0) == Normal? && (k == 2) == Danger?
    {
      match this
      case Normal => 0
      case Warning => 1
      case Danger => 2
    }
  }

  function Abs(x: real): (a: real)
    ensures a >= 0.0
    ensures a == x || a == -x
  {
    if x < 0.0 then -x else x
  }

  function Min(a: int, b: int): (m: int)
    ensures m <= a && m <= b
    ensures m == a || m == b
  {
    if a < b then a else b
  }

  /** `Math.max(lo, Math.min(hi, x))` on reals. */
  function Clamp(lo: real, hi: real, x: real): (r: real)
    ensures r >= lo
    ensures lo <= hi ==> r <= hi
    ensures lo <= x <= hi ==> r == x
    ensures x < lo ==> r == lo
    ensures lo <= hi && x > hi ==> r == hi
  {
    var m := if x < hi then x else hi;
    if m > lo then m else lo
  }

  /** `Math.max(lo, Math.min(hi, x))` on integers. */
  function ClampInt(lo: int, hi: int, x: int): (r: int)
    ensures r >= lo
    ensures lo <= hi ==> r <= hi
    ensures lo <= x <= hi ==> r == x
    ensures x < lo ==> r == lo
    ensures lo <= hi && x > hi ==> r == hi
  {
    var m := if x < hi then x else hi;
    if m > lo then m else lo
  }

  /** A clamped walk started inside its range moves no further than the step. */
  lemma ClampedStepIsBounded(lo: real, hi: real, v: real, step: real)
    ensures lo <= v <= hi ==> Abs(Clamp(lo, hi, v + step) - v) <= Abs(step)
  {
  }

  /** The integer version of ClampedStepIsBounded, for steps in [-bound, bound]. */
  lemma ClampedIntStepIsBounded(lo: int, hi: int, v: int, step: int, bound: int)
    requires -bound <= step <= bound
    ensures lo <= v <= hi ==> -bound <= ClampInt(lo, hi, v + step) - v <= bound
  {
  }

  /** `(Math.random() - 0.5) * width`: a symmetric step of at most width/2. */
  function Centered(r: Draw, width: real): (d: real)
    requires width > 0.0
    ensures -width / 2.0 <= d < width / 2.0
  {
    (r - 0.5) * width
  }

  /** `Math.floor(Math.random() * n)`: an index into a list of length n. */
  function PickIndex(r: Draw, n: nat): (k: int)
    requires n > 0
    ensures 0 <= k < n
  {
    var x := r * n as real;
    assert 0.0 <= x < n as real;
    x.Floor
  }
}
