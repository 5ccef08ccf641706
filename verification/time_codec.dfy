/**
 * Durations of the daily report. Every duration the form can produce is a
 * whole number of half hours, so a duration is kept as an integer count of
 * half hours: the decimal hour value `d` of the program is `t / 2` here, which
 * is exact (sums of multiples of 0.5 never round).
 */
module TimeCodec {
  import opened Wrappers
  import opened Text

  /** `Math.floor` of the decimal hours that `t` half hours stand for. */
  function WholeHours(t: int): int {
    t / 2   // Euclidean division by 2 is the floor, negative `t` included
  }

  /** `(d - Math.floor(d)) * 60` for the decimal hours `d` that `t` half hours stand for. */
  function MinutePart(t: int): nat {
    30 * (t % 2)
  }

  /**
   * `tiempoDecimal(horas, minutos)`: the hours plus half an hour when the
   * minute field is exactly 30; every other minute value adds nothing.
   * Result in half hours: its whole hours are `h` and its minute part is the
   * 30-minute choice.
   */
  function TiempoDecimal(h: int, m: int): (t: int)
    ensures WholeHours(t) == h
    ensures MinutePart(t) == (if m == 30 then 30 else 0)
  {
    if m == 30 then 2 * h + 1 else 2 * h
  }

  /** The encoding grows with the hours and, within an hour, with the 30-minute choice. */
  lemma TiempoDecimalMonotonic(h1: int, m1: int, h2: int, m2: int)
    requires m1 == 0 || m1 == 30
    requires m2 == 0 || m2 == 30
    ensures TiempoDecimal(h1, m1) < TiempoDecimal(h2, m2) <==> (h1 < h2 || (h1 == h2 && m1 < m2))
  {
  }

  // ---------------------------------------------------------------------------
  // Rendering: formatTime

  /** The template `${hours}h ${minutes}m`. */
  function Render(hours: nat, minutes: nat): string {
    ShowNat(hours) + "h " + ShowNat(minutes) + "m"
  }

  /** `formatTime(decimalTime)` on `t` half hours. */
  function FormatTime(t: nat): string {
    Render(WholeHours(t), MinutePart(t))
  }

  /**
   * The text `formatTime` renders reads back as the floor of the hours and a
   * minute part of 0 or 30, and those two together give back `t`.
   */
  lemma FormatTimeReadsBack(t: nat)
    ensures ParseClock(FormatTime(t)).Some?
    ensures ParseClock(FormatTime(t)).value.0 == t / 2
    ensures ParseClock(FormatTime(t)).value.1 == 0 || ParseClock(FormatTime(t)).value.1 == 30
    ensures ParseTime(FormatTime(t)) == Some(t)
  {
    var h, m := WholeHours(t), MinutePart(t);
    assert m == 0 || m == 30;
    RenderRoundTrip(h, m);
    ParseTimeOfClock(FormatTime(t), h, m);
    assert (if m == 0 then 2 * h else 2 * h + 1) == t;
  }

  /** `ParseTime` turns the two numbers `ParseClock` reads into half hours. */
  lemma ParseTimeOfClock(s: string, h: nat, m: nat)
    requires ParseClock(s) == Some((h, m))
    requires m == 0 || m == 30
    ensures ParseTime(s) == Some(if m == 0 then 2 * h else 2 * h + 1)
  {
  }

  /** Two durations with the same text are the same duration. */
  lemma FormatTimeInjective(a: nat, b: nat)
    requires FormatTime(a) == FormatTime(b)
    ensures a == b
  {
    FormatTimeReadsBack(a);
    FormatTimeReadsBack(b);
  }

  /** Encoding an hour/minute choice and rendering it shows that very choice. */
  lemma FormatTiempoDecimal(h: nat, m: int)
    requires m == 0 || m == 30
    ensures TiempoDecimal(h, m) >= 0
    ensures ParseClock(FormatTime(TiempoDecimal(h, m))) == Some((h, m as nat))
  {
    FormatTimeReadsBack(TiempoDecimal(h, m));
  }

  // ---------------------------------------------------------------------------
  // Reading rendered durations back

  /** The position of the first `c` in `s`, or `|s|` if there is none. */
  function IndexOf(s: string, c: char): (i: nat)
    ensures i <= |s|
    ensures i < |s| ==> s[i] == c
    ensures forall k :: 0 <= k < i ==> s[k] != c
  {
    if s == [] then 0
    else if s[0] == c then 0
    else 1 + IndexOf(s[1..], c)
  }

  /** Splits `{hours}h {minutes}m` into its two numbers; None for any other shape. */
  function ParseClock(s: string): Option<(nat, nat)> {
    var i := IndexOf(s, 'h');
    if i + 3 <= |s| && s[i + 1] == ' ' && s[|s| - 1] == 'm' then
      var hours := ParseNat(s[..i]);
      var minutes := ParseNat(s[i + 2..|s| - 1]);
      if hours.Some? && minutes.Some? then Some((hours.value, minutes.value)) else None
    else
      None
  }

  /** A rendered duration back in half hours; None unless the minute part is 0 or 30. */
  function ParseTime(s: string): Option<nat> {
    match ParseClock(s)
    case Some((h, m)) =>
      if m == 0 then Some(2 * h) else if m == 30 then Some(2 * h + 1) else None
    case None => None
  }

  /** Reading back the template gives the numbers that were put into it. */
  lemma RenderRoundTrip(hours: nat, minutes: nat)
    ensures ParseClock(Render(hours, minutes)) == Some((hours, minutes))
  {
    var a := ShowNat(hours);
    var b := ShowNat(minutes);
    var s := Render(hours, minutes);
    assert s == a + ['h', ' '] + b + ['m'];
    assert forall k :: 0 <= k < |a| ==> s[k] == a[k] && IsDigit(a[k]);
    assert s[|a|] == 'h';
    assert IndexOf(s, 'h') == |a|;
    assert s[..|a|] == a;
    assert s[|a| + 2..|s| - 1] == b;
    ShowNatRoundTrip(hours);
    ShowNatRoundTrip(minutes);
  }
}
