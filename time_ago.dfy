/** Elapsed-time bucketing shared by the walker list ("last seen") and the
    favourite-request cards ("time ago"). Both components compute a minute
    count from a millisecond difference and pick one of four labels; the
    labels themselves are Korean display text and are represented here by
    the constructors of `Elapsed`. */
module TimeAgo {

  const MsPerMinute: int := 1000 * 60
  const MsPerHour: int := MsPerMinute * 60
  const MsPerDay: int := MsPerMinute * 1440

  /** "just now", "n minutes ago", "n hours ago", "n days ago". */
  datatype Elapsed = JustNow | Minutes(n: int) | Hours(n: int) | Days(n: int)

  /** `Math.floor(a / b)` for a positive divisor: the largest q with q*b <= a.
      (Dafny's `/` rounds toward negative infinity when the divisor is
      positive, so this is exact for negative differences too.) */
  function FloorDiv(a: int, b: int): (q: int)
    requires b > 0
    ensures q * b <= a < q * b + b
  {
    a / b
  }

  /** Reference definition, stated directly on milliseconds: the label is the
      largest whole unit that has elapsed, with anything under a minute
      (including a negative difference, i.e. a time in the future) read as
      "just now". */
  function Classify(diffMs: int): (e: Elapsed)
    ensures e.JustNow? <==> diffMs < MsPerMinute
    ensures e.Minutes? ==> 1 <= e.n < 60 && e.n * MsPerMinute <= diffMs < (e.n + 1) * MsPerMinute
    ensures e.Hours? ==> 1 <= e.n <= 23 && e.n * MsPerHour <= diffMs < (e.n + 1) * MsPerHour
    ensures e.Days? ==> 1 <= e.n && e.n * MsPerDay <= diffMs < (e.n + 1) * MsPerDay
  {
    if diffMs < MsPerMinute then JustNow
    else if diffMs < MsPerHour then Minutes(FloorDiv(diffMs, MsPerMinute))
    else if diffMs < MsPerDay then Hours(FloorDiv(diffMs, MsPerHour))
    else Days(FloorDiv(diffMs, MsPerDay))
  }

  /** Floor of a floor: whole hours counted from whole minutes equal whole
      hours counted from milliseconds. */
  lemma MinutesThenHours(diffMs: int)
    ensures FloorDiv(FloorDiv(diffMs, MsPerMinute), 60) == FloorDiv(diffMs, MsPerHour)
  {
    var m := FloorDiv(diffMs, MsPerMinute);
    var h := FloorDiv(m, 60);
    assert h * MsPerHour <= m * MsPerMinute <= diffMs;
    assert diffMs < m * MsPerMinute + MsPerMinute <= (h * 60 + 59) * MsPerMinute + MsPerMinute == (h + 1) * MsPerHour;
  }

  /** Whole days counted from whole minutes equal whole days counted from
      milliseconds. */
  lemma MinutesThenDays(diffMs: int)
    ensures FloorDiv(FloorDiv(diffMs, MsPerMinute), 1440) == FloorDiv(diffMs, MsPerDay)
  {
    var m := FloorDiv(diffMs, MsPerMinute);
    var d := FloorDiv(m, 1440);
    assert d * MsPerDay <= m * MsPerMinute <= diffMs;
    assert diffMs < m * MsPerMinute + MsPerMinute <= (d * 1440 + 1439) * MsPerMinute + MsPerMinute == (d + 1) * MsPerDay;
  }
}
