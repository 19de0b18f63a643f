/**
 * Run: one finished workout as the history list shows it, with the numeric
 * parts of its duration and pace labels. The same hours/minutes/seconds split
 * is used by the map screen's time label.
 */
module RunSummary {
  import opened CoreLocation

  datatype Run = Run(
    id: string,
    date: real,
    distance: real,   // km
    calories: real,   // kcal
    duration: real,   // s
    pace: real,       // min/km
    coordinates: seq<Coordinate>)

  /** Swift `Int(x)` for a Double: truncation toward zero. */
  function Trunc(x: real): (n: int)
    ensures x >= 0.0 ==> n as real <= x < n as real + 1.0
    ensures x < 0.0 ==> n as real - 1.0 < x <= n as real
  {
    if x >= 0.0 then x.Floor else -((-x).Floor)
  }

  /** Swift `a / b` on Int: the quotient truncated toward zero. */
  function Quot(a: int, b: int): int
    requires b > 0
  {
    if a >= 0 then a / b else -((-a) / b)
  }

  /** Swift `a % b` on Int: the remainder takes the sign of `a`. */
  function Rem(a: int, b: int): (r: int)
    requires b > 0
    ensures a == Quot(a, b) * b + r
    ensures a >= 0 ==> 0 <= r < b
    ensures a < 0 ==> -b < r <= 0
  {
    if a >= 0 then a % b else -((-a) % b)
  }

  datatype Clock = Clock(hours: int, minutes: int, seconds: int)

  /** `Int(t) / 3600`, `(Int(t) % 3600) / 60`, `Int(t) % 60`. */
  function DurationParts(t: real): (c: Clock)
    ensures c.hours * 3600 + c.minutes * 60 + c.seconds == Trunc(t)
    ensures t >= 0.0 ==> c.hours >= 0 && 0 <= c.minutes < 60 && 0 <= c.seconds < 60
    ensures t < 0.0 ==> c.hours <= 0 && -60 < c.minutes <= 0 && -60 < c.seconds <= 0
  {
    var n := Trunc(t);
    var c := Clock(Quot(n, 3600), Quot(Rem(n, 3600), 60), Rem(n, 60));
    RemOfRem(n);
    c
  }

  /** Taking the remainder by 3600 first does not change the remainder by 60. */
  lemma RemOfRem(n: int)
    ensures Rem(Rem(n, 3600), 60) == Rem(n, 60)
    ensures Rem(n, 3600) == Quot(Rem(n, 3600), 60) * 60 + Rem(n, 60)
    ensures n >= 0 ==> 0 <= Quot(Rem(n, 3600), 60) < 60
    ensures n < 0 ==> -60 < Quot(Rem(n, 3600), 60) <= 0
  {
    var m := if n >= 0 then n else -n;
    var q := m / 3600;
    assert m == q * 3600 + m % 3600;
    assert m % 60 == (m % 3600) % 60 by {
      assert m == (q * 60) * 60 + m % 3600;
      LemmaModShift(m % 3600, q * 60);
    }
  }

  /** Adding whole minutes does not change the seconds digit. */
  lemma LemmaModShift(r: nat, k: nat)
    ensures (k * 60 + r) % 60 == r % 60
  {
    var a := k * 60 + r;
    var q, rr := r / 60, r % 60;
    assert a == (k + q) * 60 + rr;
    UniqueDivision(a, k + q, rr);
  }

  lemma UniqueDivision(a: int, q: int, r: int)
    requires a == q * 60 + r && 0 <= r < 60
    ensures a % 60 == r
  {
    var q', r' := a / 60, a % 60;
    assert (q - q') * 60 == r' - r;
  }

  /** `formattedDuration`'s numbers. */
  function FormattedDuration(run: Run): Clock
  {
    DurationParts(run.duration)
  }

  /** The pace label: a fixed placeholder, or minutes and seconds per km. */
  datatype PaceLabel = Placeholder | MinutesSeconds(minutes: int, seconds: int)

  /** `formattedPace` (non-finite paces are out of the model). */
  function FormattedPace(run: Run): (p: PaceLabel)
    ensures run.pace < 0.0 <==> p.Placeholder?
    ensures p.MinutesSeconds? ==>
      0 <= p.seconds < 60 && p.minutes >= 0 &&
      p.minutes == run.pace.Floor &&
      p.minutes * 60 + p.seconds == (run.pace * 60.0).Floor
  {
    if run.pace < 0.0 then Placeholder
    else
      var minutes := Trunc(run.pace);
      var seconds := Trunc((run.pace - minutes as real) * 60.0);
      PaceSplit(run.pace, minutes, seconds);
      MinutesSeconds(minutes, seconds)
  }

  lemma PaceSplit(pace: real, minutes: int, seconds: int)
    requires pace >= 0.0
    requires minutes == Trunc(pace)
    requires seconds == Trunc((pace - minutes as real) * 60.0)
    ensures minutes == pace.Floor && minutes >= 0
    ensures 0 <= seconds < 60
    ensures minutes * 60 + seconds == (pace * 60.0).Floor
  {
    var f := pace - minutes as real;
    assert 0.0 <= f < 1.0;
    assert 0.0 <= f * 60.0 < 60.0;
    assert seconds as real <= f * 60.0 < seconds as real + 1.0;
    var total := minutes * 60 + seconds;
    assert pace * 60.0 == minutes as real * 60.0 + f * 60.0;
    assert total as real <= pace * 60.0 < total as real + 1.0;
  }
}
