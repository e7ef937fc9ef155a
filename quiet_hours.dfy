/** `AviationTracker.is_quiet_hours`: whether the current `%H:%M` time falls in the
    configured quiet window, compared as Python compares strings. */
module QuietHours {
  import opened Wrappers
  import opened PyText
  import opened PyConfig

  const DefaultStart: string := "23:00"
  const DefaultEnd: string := "06:00"

  /** The window is `start <= now <= end` when `start <= end`, and otherwise wraps past
      midnight: `now >= start or now <= end`. A disabled block is never quiet. */
  function IsQuietHours(q: QuietSection, now: string): bool {
    if !q.enabled then false
    else
      var start := q.start.GetOr(DefaultStart);
      var end := q.end.GetOr(DefaultEnd);
      if LexLe(start, end) then LexLe(start, now) && LexLe(now, end)
      else LexLe(start, now) || LexLe(now, end)
  }

  predicate IsDigit(c: char) {
    '0' <= c <= '9'
  }

  function Digit(c: char): int {
    c as int - '0' as int
  }

  /** Text as `strftime('%H:%M')` writes it: two digits, a colon, two digits of which
      the first is at most 5. */
  predicate IsClock(t: string) {
    |t| == 5 && IsDigit(t[0]) && IsDigit(t[1]) && t[2] == ':' && '0' <= t[3] <= '5' && IsDigit(t[4])
  }

  /** Minutes since midnight. */
  function Minutes(t: string): int
    requires IsClock(t)
  {
    (10 * Digit(t[0]) + Digit(t[1])) * 60 + 10 * Digit(t[3]) + Digit(t[4])
  }

  /** On clock texts, string order is time order, so comparing the texts compares the
      times of day. */
  lemma ClockOrder(a: string, b: string)
    requires IsClock(a) && IsClock(b)
    ensures LexLe(a, b) <==> Minutes(a) <= Minutes(b)
  {
    if a != b {
      var j := if a[0] != b[0] then 0 else if a[1] != b[1] then 1 else if a[3] != b[3] then 3 else 4;
      assert a[..j] == b[..j];
      LexLessAt(a, b, j);
    }
  }

  /** With well-formed times, quiet hours are the minute window from start to end
      inclusive, wrapping past midnight when start is later than end. */
  lemma QuietByMinutes(q: QuietSection, now: string)
    requires IsClock(q.start.GetOr(DefaultStart)) && IsClock(q.end.GetOr(DefaultEnd)) && IsClock(now)
    ensures var s := Minutes(q.start.GetOr(DefaultStart));
      var e := Minutes(q.end.GetOr(DefaultEnd));
      var m := Minutes(now);
      IsQuietHours(q, now) <==> q.enabled && (if s <= e then s <= m <= e else m >= s || m <= e)
  {
    var start := q.start.GetOr(DefaultStart);
    var end := q.end.GetOr(DefaultEnd);
    ClockOrder(start, end);
    ClockOrder(start, now);
    ClockOrder(now, end);
  }

  /** An enabled block without start and end is quiet from 23:00 to 06:00 inclusive. */
  lemma DefaultWindow(now: string)
    requires IsClock(now)
    ensures IsQuietHours(QuietSection(true, None, None), now) <==> Minutes(now) >= 23 * 60 || Minutes(now) <= 6 * 60
  {
    QuietByMinutes(QuietSection(true, None, None), now);
  }

  /** An overnight window is quiet at every time except those strictly between its end
      and its start. */
  lemma OvernightComplement(q: QuietSection, now: string)
    requires q.enabled && LexLess(q.end.GetOr(DefaultEnd), q.start.GetOr(DefaultStart))
    ensures IsQuietHours(q, now) <==>
      !(LexLess(q.end.GetOr(DefaultEnd), now) && LexLess(now, q.start.GetOr(DefaultStart)))
  {
    var start := q.start.GetOr(DefaultStart);
    var end := q.end.GetOr(DefaultEnd);
    LexLeIffNotLess(start, end);
    LexLeIffNotLess(start, now);
    LexLeIffNotLess(now, end);
  }

  /** An overnight window always contains midnight. */
  lemma OvernightHasMidnight(q: QuietSection)
    requires q.enabled && IsClock(q.end.GetOr(DefaultEnd))
    requires LexLess(q.end.GetOr(DefaultEnd), q.start.GetOr(DefaultStart))
    ensures IsQuietHours(q, "00:00")
  {
    ClockOrder("00:00", q.end.GetOr(DefaultEnd));
    LexLessStrict(q.end.GetOr(DefaultEnd), q.start.GetOr(DefaultStart));
  }
}
