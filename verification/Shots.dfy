/** internal/shortform/pilot/helpers.go: the durations of the three visual shots, over the
    reals. */
module Shots {

  const DEFAULT_TOTAL := 45.0

  /** Conversion of a float to an int: towards zero. */
  function Truncate(x: real): int {
    if x >= 0.0 then x.Floor else -((-x).Floor)
  }

  function Tenths(v: real): int {
    Truncate(v * 10.0 + 0.5)
  }

  function Round1(v: real): real {
    Tenths(v) as real / 10.0
  }

  function Total(requested: real): real {
    if requested <= 0.0 then DEFAULT_TOTAL else requested
  }

  /** buildShotRequests: the last shot takes what the first two leave. */
  function ShotDurations(requested: real): (d: seq<real>)
    ensures |d| == 3
  {
    var total := Total(requested);
    var first, second := Round1(total * 0.34), Round1(total * 0.33);
    [first, second, Round1(total - first - second)]
  }

  function Distance(x: real, y: real): real {
    if x >= y then x - y else y - x
  }

  predicate InTenths(x: real) {
    (x * 10.0).Floor as real == x * 10.0
  }

  /** round1 rounds to the nearest tenth exactly where it need not truncate a negative
      fraction: below -0.05 it mostly goes wrong. */
  lemma RoundsWhen(v: real)
    ensures Distance(Round1(v), v) <= 0.05 <==>
      v >= -0.05 || (v * 10.0 + 0.5).Floor as real == v * 10.0 + 0.5
  {
    var x := v * 10.0 + 0.5;
    if x < 0.0 {
      assert (-x).Floor as real <= -x < (-x).Floor as real + 1.0;
    } else {
      assert x.Floor as real <= x < x.Floor as real + 1.0;
    }
  }

  lemma TenthsBounds(v: real)
    requires v >= 0.0
    ensures 0 <= Tenths(v) && Tenths(v) as real <= v * 10.0 + 0.5 < Tenths(v) as real + 1.0
  {}

  /** What is left for the last shot is never so negative that truncation shows. */
  lemma RestRounds(total: real)
    requires total > 0.0
    ensures Tenths(total * 0.34) + Tenths(total * 0.33) <= Tenths(total)
  {
    var a, b := Tenths(total * 0.34), Tenths(total * 0.33);
    TenthsBounds(total * 0.34);
    TenthsBounds(total * 0.33);
    TenthsBounds(total);
    if total < 0.1515 {
      assert b < 1 && a < 2;
    }
  }

  lemma WholeTenths(k: int)
    ensures InTenths(k as real / 10.0)
  {}

  lemma FloorShift(x: real, n: int)
    ensures (x - n as real).Floor == x.Floor - n
  {}

  lemma RestTenths(total: real, a: int, b: int)
    requires total > 0.0 && a + b <= Tenths(total)
    ensures Tenths(total - a as real / 10.0 - b as real / 10.0) == Tenths(total) - (a + b)
  {
    var rest := total - a as real / 10.0 - b as real / 10.0;
    assert rest * 10.0 + 0.5 == (total * 10.0 + 0.5) - (a + b) as real;
    FloorShift(total * 10.0 + 0.5, a + b);
  }

  /** For every requested duration the shots are whole numbers of tenths, none is negative,
      and together they last exactly the total rounded to a tenth: within 0.05 of it. */
  lemma ShotsAddUp(requested: real)
    ensures var d := ShotDurations(requested);
      && d[0] + d[1] + d[2] == Round1(Total(requested))
      && Distance(d[0] + d[1] + d[2], Total(requested)) <= 0.05
      && forall i | 0 <= i < 3 :: d[i] >= 0.0 && InTenths(d[i])
  {
    hide Tenths, InTenths;
    var total := Total(requested);
    var a, b := Tenths(total * 0.34), Tenths(total * 0.33);
    RestRounds(total);
    TenthsBounds(total * 0.34);
    TenthsBounds(total * 0.33);
    TenthsBounds(total);
    var rest := total - Round1(total * 0.34) - Round1(total * 0.33);
    RestTenths(total, a, b);
    RoundsWhen(total);
    WholeTenths(a);
    WholeTenths(b);
    WholeTenths(Tenths(rest));
    assert ShotDurations(requested) == [a as real / 10.0, b as real / 10.0, Tenths(rest) as real / 10.0];
  }
}
