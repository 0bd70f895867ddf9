/**
 * `SensorReader.get_danger_zones`: the sonar array reduced to one danger
 * value per zone, with Python's slice and `min()` semantics written out.
 */
module SensorReader {
  import opened Wrappers

  /** The danger values of the left, center and right zones (smaller = closer). */
  datatype Danger = Danger(left: real, center: real, right: real)

  /** `m` is the minimum of the two-reading window `a`, `b`. */
  predicate IsWindowMin(m: real, a: real, b: real) {
    m <= a && m <= b && (m == a || m == b)
  }

  function MinNat(a: nat, b: nat): nat {
    if a <= b then a else b
  }

  /**
   * Python's `s[lo:hi]` for `0 <= lo <= hi`: both bounds are clipped to
   * the length, so a slice past the end is shorter or empty, never an error.
   */
  function Slice(s: seq<real>, lo: nat, hi: nat): (t: seq<real>)
    requires lo <= hi
    ensures |t| == if |s| <= lo then 0 else MinNat(hi, |s|) - lo
    ensures forall i :: 0 <= i < |t| ==> t[i] == s[lo + i]
  {
    var n := |s|;
    s[MinNat(lo, n)..MinNat(hi, n)]
  }

  /**
   * Python's `min()` over a non-empty sequence: a left-to-right scan that
   * replaces the current minimum only by a strictly smaller element.
   */
  function Min(s: seq<real>): (m: real)
    requires |s| > 0
    ensures m in s
    ensures forall i :: 0 <= i < |s| ==> m <= s[i]
  {
    if |s| == 1 then s[0]
    else
      var m' := Min(s[..|s| - 1]);
      if s[|s| - 1] < m' then s[|s| - 1] else m'
  }

  /** Python's `min()` on any sequence: an empty one raises `ValueError`. */
  function MinOf(s: seq<real>): (r: Result<real>)
    ensures r.Ok? <==> |s| > 0
    ensures r.Ok? ==> r.value in s && forall i :: 0 <= i < |s| ==> r.value <= s[i]
  {
    if |s| == 0 then Err(EmptySequence) else Ok(Min(s))
  }

  /**
   * `get_danger_zones`: the minimum of readings [2,4), [4,6) and [6,8), each
   * computed in turn; the first empty window raises.
   */
  function GetDangerZones(readings: seq<real>): (r: Result<Danger>)
    ensures r.Ok? <==> |readings| >= 7
    ensures r.Ok? && |readings| >= 8 ==>
              && IsWindowMin(r.value.left, readings[2], readings[3])
              && IsWindowMin(r.value.center, readings[4], readings[5])
              && IsWindowMin(r.value.right, readings[6], readings[7])
  {
    var left :- MinOf(Slice(readings, 2, 4));
    var center :- MinOf(Slice(readings, 4, 6));
    var right :- MinOf(Slice(readings, 6, 8));
    Ok(Danger(left, center, right))
  }

  /**
   * With seven readings the right window `readings[6:8]` holds one reading,
   * so the call succeeds and the right danger value is that reading.
   */
  lemma SevenReadings(readings: seq<real>)
    requires |readings| == 7
    ensures GetDangerZones(readings).Ok?
    ensures GetDangerZones(readings).value.right == readings[6]
    ensures IsWindowMin(GetDangerZones(readings).value.left, readings[2], readings[3])
    ensures IsWindowMin(GetDangerZones(readings).value.center, readings[4], readings[5])
  {
  }

  /** The danger triple is a function of readings [2,8) alone. */
  lemma DependsOnlyOnWindows(r1: seq<real>, r2: seq<real>)
    requires |r1| >= 8 && |r2| >= 8
    requires r1[2..8] == r2[2..8]
    ensures GetDangerZones(r1) == GetDangerZones(r2)
  {
    assert forall i :: 2 <= i < 8 ==> r1[i] == r1[2..8][i - 2] == r2[2..8][i - 2] == r2[i];
  }

  /**
   * Overwriting one reading outside [2,8) leaves the outcome unchanged, for
   * arrays of every length, including the ones that raise.
   */
  lemma UpdateOutsideWindows(readings: seq<real>, i: nat, v: real)
    requires i < |readings| && !(2 <= i < 8)
    ensures GetDangerZones(readings[i := v]) == GetDangerZones(readings)
  {
  }
}
