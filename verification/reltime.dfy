/** formatRelativeTime: an offset rounded again and again through seconds, minutes, hours, days
    and weeks, and how far the shown number can be from the truth. */
module RelativeTime {
  import opened Domain

  datatype Unit = Second | Minute | Hour | Day | Week

  /** RELATIVE_UNITS: each unit with the count at which the next one takes over. */
  const UNITS: seq<(Unit, int)> := [(Second, 60), (Minute, 60), (Hour, 24), (Day, 7)]

  datatype Shown = Shown(count: int, unit: Unit)

  /** Math.round(n / d): the nearest integer, halves up. */
  function Round(n: int, d: int): int
    requires d > 0
  {
    (2 * n + d) / (2 * d)
  }

  /** The rounded quotient is nearest, for every divisor, and a half goes up. */
  lemma RoundIsNearest(n: int, d: int)
    requires d > 0
    ensures -d <= 2 * (n - d * Round(n, d)) < d
  {
    var q := (2 * n + d) / (2 * d);
    assert 2 * n + d == 2 * d * q + (2 * n + d) % (2 * d);
    assert 2 * d * q == 2 * (d * q);
  }

  function Abs(x: int): nat {
    if x < 0 then -x else x
  }

  /** The units still to try from position k on. */
  function Ladder(delta: int, k: nat): Shown
    requires k <= 4
    decreases 4 - k
  {
    if k == 4 then Shown(delta, Week)
    else if Abs(delta) < UNITS[k].1 then Shown(delta, UNITS[k].0)
    else Ladder(Round(delta, UNITS[k].1), k + 1)
  }

  function Display(seconds: int): Shown {
    Ladder(seconds, 0)
  }

  function Seconds(unit: Unit): int {
    match unit
    case Second => 1
    case Minute => 60
    case Hour => 3600
    case Day => 86400
    case Week => 604800
  }

  /** The error each unit may show, in seconds: half of every rounding on the way to it. */
  function Slack(unit: Unit): int {
    match unit
    case Second => 0
    case Minute => 30
    case Hour => 1830
    case Day => 45030
    case Week => 304230
  }

  /** The counts the ladder climbs through. */
  function Minutes(s: int): int { Round(s, 60) }
  function Hours(s: int): int { Round(Minutes(s), 60) }
  function Days(s: int): int { Round(Hours(s), 24) }
  function Weeks(s: int): int { Round(Days(s), 7) }

  lemma DisplayUnrolls(s: int)
    ensures Display(s)
            == if Abs(s) < 60 then Shown(s, Second)
               else if Abs(Minutes(s)) < 60 then Shown(Minutes(s), Minute)
               else if Abs(Hours(s)) < 24 then Shown(Hours(s), Hour)
               else if Abs(Days(s)) < 7 then Shown(Days(s), Day)
               else Shown(Weeks(s), Week)
  {
  }

  lemma Halves(s: int)
    ensures -60 <= 2 * (s - 60 * Minutes(s)) < 60
    ensures -60 <= 2 * (Minutes(s) - 60 * Hours(s)) < 60
    ensures -24 <= 2 * (Hours(s) - 24 * Days(s)) < 24
    ensures -7 <= 2 * (Days(s) - 7 * Weeks(s)) < 7
  {
  }

  /** The shown count, in its unit, is never further from the offset than the slack of that unit,
      and never shows a zero above seconds. */
  lemma NestedRoundingStaysAccurate(s: int)
    ensures var d := Display(s);
            && -Slack(d.unit) <= d.count * Seconds(d.unit) - s <= Slack(d.unit)
            && (d.unit != Second ==> d.count != 0 && (d.count > 0 <==> s > 0))
  {
    DisplayUnrolls(s);
    Halves(s);
  }

  /** Times in milliseconds; None is a timestamp that does not parse, shown as 'unknown'. The loop starts
      from the nearest second, on its side of now, and what it shows is off by the slack of its unit and
      half a second at most. */
  method FormatRelativeTime(timestamp: Option<int>, now: int) returns (shown: Option<Shown>, ghost seconds: int)
    ensures shown.None? <==> timestamp.None?
    ensures timestamp.Some? ==>
              -1000 <= 2 * ((timestamp.value - now) - 1000 * seconds) < 1000 && shown.value == Display(seconds)
    ensures timestamp.Some? ==>
              var off := 1000 * (shown.value.count * Seconds(shown.value.unit)) - (timestamp.value - now);
              -1000 * Slack(shown.value.unit) - 500 <= off <= 1000 * Slack(shown.value.unit) + 500
  {
    if timestamp.None? {
      return None, 0;
    }
    var delta := Round(timestamp.value - now, 1000);
    seconds := delta;
    RoundIsNearest(timestamp.value - now, 1000);
    NestedRoundingStaysAccurate(seconds);
    hide Round, Slack, Seconds;
    for k := 0 to |UNITS|
      invariant Ladder(delta, k) == Display(seconds)
    {
      var (unit, size) := UNITS[k];
      if Abs(delta) < size {
        return Some(Shown(delta, unit)), seconds;
      }
      delta := Round(delta, size);
    }
    return Some(Shown(delta, Week)), seconds;
  }

  lemma FineBounds()
    ensures Display(90) == Shown(2, Minute) && Display(5370) == Shown(2, Hour)
  {
    hide Ladder;
    DisplayUnrolls(90);
    DisplayUnrolls(5370);
  }

  lemma CoarseBounds()
    ensures Display(127770) == Shown(2, Day) && Display(905370) == Shown(2, Week)
  {
    assert Minutes(127770) == 2130 && Minutes(905370) == 15090;
    assert Hours(127770) == 36 && Hours(905370) == 252;
    assert Days(127770) == 2 && Days(905370) == 11;
    assert Weeks(905370) == 2;
    hide Ladder, Minutes, Hours, Days, Weeks, Round;
    DisplayUnrolls(127770);
    DisplayUnrolls(905370);
  }

  /** No smaller bound would do. */
  lemma BoundsAreReached()
    ensures Display(90) == Shown(2, Minute) && 2 * 60 - 90 == Slack(Minute)
    ensures Display(5370) == Shown(2, Hour) && 2 * 3600 - 5370 == Slack(Hour)
    ensures Display(127770) == Shown(2, Day) && 2 * 86400 - 127770 == Slack(Day)
    ensures Display(905370) == Shown(2, Week) && 2 * 604800 - 905370 == Slack(Week)
  {
    hide Display;
    FineBounds();
    CoarseBounds();
  }

  /** The unit by closed intervals of the offset. Past and future differ by the rounding of halves. */
  function UnitOf(s: int): Unit {
    if -60 < s < 60 then Second
    else if -3570 <= s < 3570 then Minute
    else if -84630 <= s < 84570 then Hour
    else if -563430 <= s < 559770 then Day
    else Week
  }

  lemma UnitIsByInterval(s: int)
    ensures Display(s).unit == UnitOf(s)
  {
    DisplayUnrolls(s);
    Halves(s);
  }

  function Rank(unit: Unit): nat {
    match unit
    case Second => 0
    case Minute => 1
    case Hour => 2
    case Day => 3
    case Week => 4
  }

  /** Lexicographic order on (unit, size of the count). */
  predicate NoLonger(a: Shown, b: Shown) {
    Rank(a.unit) < Rank(b.unit) || (a.unit == b.unit && Abs(a.count) <= Abs(b.count))
  }

  lemma RoundKeepsOrder(a: int, b: int, d: int)
    requires a <= b && (d == 60 || d == 24 || d == 7)
    ensures Round(a, d) <= Round(b, d) && Round(0, d) == 0
  {
  }

  lemma LadderIsMonotone(a: int, b: int)
    requires a <= b
    ensures Minutes(a) <= Minutes(b) && Hours(a) <= Hours(b) && Days(a) <= Days(b) && Weeks(a) <= Weeks(b)
    ensures Minutes(0) == Hours(0) == Days(0) == Weeks(0) == 0
  {
    hide Round;
    RoundKeepsOrder(a, b, 60);
    RoundKeepsOrder(Minutes(a), Minutes(b), 60);
    RoundKeepsOrder(Hours(a), Hours(b), 24);
    RoundKeepsOrder(Days(a), Days(b), 7);
  }

  /** The count shown for s when the unit is known. */
  function CountIn(s: int, unit: Unit): int {
    match unit
    case Second => s
    case Minute => Minutes(s)
    case Hour => Hours(s)
    case Day => Days(s)
    case Week => Weeks(s)
  }

  lemma ShownAs(s: int)
    ensures Display(s) == Shown(CountIn(s, UnitOf(s)), UnitOf(s))
  {
    UnitIsByInterval(s);
    DisplayUnrolls(s);
  }

  lemma CountsKeepOrder(a: int, b: int, unit: Unit)
    requires a <= b
    ensures CountIn(a, unit) <= CountIn(b, unit) && CountIn(0, unit) == 0
  {
    hide Minutes, Hours, Days, Weeks;
    LadderIsMonotone(a, b);
  }

  /** On each side of now, the further away a moment is the longer it is shown to be. */
  lemma FurtherNeverShowsShorter(a: int, b: int)
    requires 0 <= a <= b || b <= a <= 0
    ensures NoLonger(Display(a), Display(b))
  {
    hide Minutes, Hours, Days, Weeks, Ladder;
    ShownAs(a);
    ShownAs(b);
    var unit := UnitOf(a);
    if a <= b {
      CountsKeepOrder(a, b, unit);
      if 0 <= a { CountsKeepOrder(0, a, unit); } else { CountsKeepOrder(b, 0, unit); }
    } else {
      CountsKeepOrder(b, a, unit);
      CountsKeepOrder(a, 0, unit);
    }
  }
}
