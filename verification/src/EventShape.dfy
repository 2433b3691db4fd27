/** The provider-visible shape of a calendar event, and reading it back
    (apps/api/src/sync_service.rs:1128-1358). */
module EventShape {
  import opened Prelude
  import opened CivilTime
  import opened Strings

  datatype Cadence = Once | Daily | Weekly | Monthly | Yearly

  datatype EventText = EventText(title: string, description: string, location: string, attendees: seq<string>)

  /** `start` and `end` are instants in seconds; day boundaries are multiples of 86400. */
  datatype Span = Span(start: int, end: int, allDay: bool, timezone: string)

  datatype EventRule = EventRule(cadence: Cadence, until: Option<Moment>)

  datatype EventBody = EventBody(text: EventText, span: Span, rule: EventRule)

  datatype EventTime = EventTime(dateTime: Option<int>, date: Option<int>, zone: Option<string>)

  /** What is sent, and what an untouched event is read back as. */
  datatype Wire = Wire(
    summary: Option<string>,
    description: string,
    start: Option<EventTime>,
    end: Option<EventTime>,
    place: (string, seq<string>),
    recurrence: seq<string>)

  function Day(instant: int): int {
    instant / 86400
  }

  function WireTime(instant: int, span: Span): EventTime {
    if span.allDay then EventTime(None, Some(Day(instant)), None)
    else EventTime(Some(instant), None, Some(span.timezone))
  }

  function CadenceName(c: Cadence): string {
    match c
    case Once => "NONE"
    case Daily => "DAILY"
    case Weekly => "WEEKLY"
    case Monthly => "MONTHLY"
    case Yearly => "YEARLY"
  }

  /** `%Y`: four digits, or a sign and as many digits as needed, at least four. */
  function YearText(year: int): string {
    if 0 <= year <= 9999 then Digits(year, 4) else [YearSign(year)] + LongYear(year)
  }

  function YearSign(year: int): char {
    if year < 0 then '-' else '+'
  }

  function LongYear(year: int): (s: string)
    ensures forall i :: 0 <= i < |s| ==> IsDigit(s[i])
  {
    var size := if year < 0 then -year else year;
    Digits(size, if size <= 9999 then 4 else if size <= 99999 then 5 else 6)
  }

  /** `T%H%M%SZ` */
  function ClockText(second: nat): string {
    "T" + (Digits(second / 3600, 2) + (Digits(second / 60 % 60, 2) + (Digits(second % 60, 2) + "Z")))
  }

  /** `%Y%m%dT%H%M%SZ` */
  function StampText(t: Moment): string {
    YearText(t.year) + (Digits(t.month, 2) + (Digits(t.day, 2) + ClockText(t.second)))
  }

  function RuleHead(c: Cadence): string {
    "RRULE:" + ("FREQ=" + CadenceName(c))
  }

  function RecurrenceRule(rule: EventRule): seq<string> {
    if rule.cadence.Once? then []
    else if rule.until.None? then [RuleHead(rule.cadence)]
    else [RuleHead(rule.cadence) + (";UNTIL=" + StampText(rule.until.value))]
  }

  function FromLocal(e: EventBody): Wire {
    Wire(Some(e.text.title), e.text.description,
         Some(WireTime(e.span.start, e.span)), Some(WireTime(e.span.end, e.span)),
         (e.text.location, e.text.attendees),
         RecurrenceRule(e.rule))
  }

  // ---- reading ----

  function Expect(s: string, c: char): Option<string> {
    if s != "" && s[0] == c then Some(s[1..]) else None
  }

  /** A year without sign takes at most four digits; with a sign it takes every digit that
      follows, which leaves none for the month. */
  function ScanYear(s: string): Option<(int, string)> {
    if s != "" && (s[0] == '+' || s[0] == '-') then ScanNumber(s[1..], |s|) else ScanNumber(s, 4)
  }

  datatype Fields = Fields(year: int, month: int, day: int, hour: int, minute: int, second: int)

  function ScanClock(date: (int, int, int), s: string): Option<Fields> {
    var t := Expect(s, 'T');
    if t.None? then None else
    var h := ScanNumber(t.value, 2);
    if h.None? then None else
    var m := ScanNumber(h.value.1, 2);
    if m.None? then None else
    var sec := ScanNumber(m.value.1, 2);
    if sec.None? || sec.value.1 != "Z" then None
    else Some(Fields(date.0, date.1, date.2, h.value.0, m.value.0, sec.value.0))
  }

  function ScanDate(year: int, s: string): Option<Fields> {
    var m := ScanNumber(s, 2);
    if m.None? then None else
    var d := ScanNumber(m.value.1, 2);
    if d.None? then None else ScanClock((year, m.value.0, d.value.0), d.value.1)
  }

  function ScanStamp(s: string): Option<Fields> {
    var y := ScanYear(s);
    if y.None? then None else ScanDate(y.value.0, y.value.1)
  }

  function ToDateTime(f: Fields): Option<Moment> {
    if !(f.hour < 24 && f.minute < 60 && f.second < 60) then None
    else
      var t := DateTime(f.year, f.month, f.day, 3600 * f.hour + 60 * f.minute + f.second);
      if Valid(t) then Some(t) else None
  }

  function ParseStamp(s: string): Option<Moment> {
    match ScanStamp(s)
    case None => None
    case Some(f) => ToDateTime(f)
  }

  function FirstRule(values: seq<string>): Option<string> {
    if values == [] then None
    else if StartsWith(values[0], "RRULE:") then Some(values[0])
    else FirstRule(values[1..])
  }

  function FirstUntil(parts: seq<string>): Option<string> {
    if parts == [] then None
    else if StartsWith(parts[0], "UNTIL=") then Some(parts[0][6..])
    else FirstUntil(parts[1..])
  }

  function ParseCadence(rule: string): Cadence {
    if Contains(rule, "FREQ=DAILY") then Daily
    else if Contains(rule, "FREQ=WEEKLY") then Weekly
    else if Contains(rule, "FREQ=MONTHLY") then Monthly
    else if Contains(rule, "FREQ=YEARLY") then Yearly
    else Once
  }

  function ParseRecurrence(values: seq<string>): EventRule {
    match FirstRule(values)
    case None => EventRule(Once, None)
    case Some(rule) =>
      var until := FirstUntil(Split(rule, ';'));
      EventRule(ParseCadence(rule), if until.None? then None else ParseStamp(until.value))
  }

  function ReadTime(t: EventTime): Option<int> {
    if t.dateTime.Some? then t.dateTime
    else if t.date.Some? then Some(86400 * t.date.value)
    else None
  }

  /** `normalize_event`; None stands for its error. */
  function Normalize(w: Wire): Option<EventBody> {
    if w.start.None? || w.end.None? || ReadTime(w.start.value).None? || ReadTime(w.end.value).None? then None
    else
      var title := if w.summary.Some? then w.summary.value else "Untitled event";
      var zone := if w.start.value.zone.Some? then w.start.value.zone.value else "UTC";
      Some(EventBody(
        EventText(title, w.description, w.place.0, w.place.1),
        Span(ReadTime(w.start.value).value, ReadTime(w.end.value).value, w.start.value.dateTime.None?, zone),
        ParseRecurrence(w.recurrence)))
  }

  // ---- what is read back from a written rule ----

  /** The `UNTIL` date survives being written. */
  predicate Representable(rule: EventRule) {
    rule.cadence.Once? || rule.until.None? || 0 <= rule.until.value.year <= 9999
  }

  lemma ClockParts(second: nat)
    requires second < 86400
    ensures 0 <= second / 3600 < 24 && 0 <= second / 60 % 60 < 60 && 0 <= second % 60 < 60
    ensures 3600 * (second / 3600) + 60 * (second / 60 % 60) + second % 60 == second
    ensures Pow10(2) == 100
  {
    assert Pow10(1) == 10;
  }

  lemma ScanOfClock(second: nat, date: (int, int, int))
    requires second < 86400
    ensures ScanClock(date, ClockText(second)) ==
              Some(Fields(date.0, date.1, date.2, second / 3600, second / 60 % 60, second % 60))
  {
    ClockParts(second);
    var tail := Digits(second % 60, 2) + "Z";
    var middle := Digits(second / 60 % 60, 2) + tail;
    var clock := Digits(second / 3600, 2) + middle;
    assert ClockText(second)[1..] == clock;
    ScanOfDigits(second / 3600, 2, middle);
    ScanOfDigits(second / 60 % 60, 2, tail);
    ScanOfDigits(second % 60, 2, "Z");
  }

  lemma ScanOfYear(year: int, rest: string)
    requires 0 <= year <= 9999
    ensures ScanYear(YearText(year) + rest) == Some((year, rest))
  {
    assert Pow10(1) == 10 && Pow10(2) == 100 && Pow10(3) == 1000 && Pow10(4) == 10000;
    var digits := Digits(year, 4);
    assert (digits + rest)[0] == digits[0] && IsDigit(digits[0]);
    ScanOfDigits(year, 4, rest);
  }

  lemma ScanOfDate(year: int, month: int, day: int, clock: string)
    requires 0 <= month < 100 && 0 <= day < 100
    ensures ScanDate(year, Digits(month, 2) + (Digits(day, 2) + clock)) == ScanClock((year, month, day), clock)
  {
    assert Pow10(1) == 10 && Pow10(2) == 100;
    ScanOfDigits(month, 2, Digits(day, 2) + clock);
    ScanOfDigits(day, 2, clock);
  }

  lemma ScanOfStamp(t: Moment)
    requires 0 <= t.year <= 9999
    ensures ScanStamp(StampText(t)) ==
              Some(Fields(t.year, t.month, t.day, t.second / 3600, t.second / 60 % 60, t.second % 60))
  {
    var clock := ClockText(t.second);
    var date := Digits(t.month, 2) + (Digits(t.day, 2) + clock);
    ScanOfYear(t.year, date);
    ScanOfDate(t.year, t.month, t.day, clock);
    ScanOfClock(t.second, (t.year, t.month, t.day));
  }

  lemma FieldsOfDateTime(t: Moment)
    ensures ToDateTime(Fields(t.year, t.month, t.day, t.second / 3600, t.second / 60 % 60, t.second % 60)) == Some(t)
  {
    ClockParts(t.second);
  }

  lemma ParseOfStamp(t: Moment)
    requires 0 <= t.year <= 9999
    ensures ParseStamp(StampText(t)) == Some(t)
  {
    var s := StampText(t);
    assert ScanStamp(s) == Some(Fields(t.year, t.month, t.day, t.second / 3600, t.second / 60 % 60, t.second % 60)) by {
      ScanOfStamp(t);
    }
    FieldsOfDateTime(t);
  }

  /** After a sign the year swallows every digit that follows, and leaves none for the month. */
  lemma SignedScan(sign: char, digits: string, clock: string)
    requires sign == '+' || sign == '-'
    requires forall i :: 0 <= i < |digits| ==> IsDigit(digits[i])
    requires clock != "" && clock[0] == 'T'
    ensures ScanStamp([sign] + (digits + clock)) == None
  {
    var s := [sign] + (digits + clock);
    assert s[1..] == digits + clock;
    GreedyScan(digits, clock, |s|);
  }

  lemma Regroup(a: string, b: string, c: string, d: string, e: string)
    ensures (a + b) + (c + (d + e)) == a + ((b + (c + d)) + e)
  {
  }

  lemma AllDigits(a: string, b: string)
    requires (forall i :: 0 <= i < |a| ==> IsDigit(a[i])) && (forall i :: 0 <= i < |b| ==> IsDigit(b[i]))
    ensures forall i :: 0 <= i < |a + b| ==> IsDigit((a + b)[i])
  {
  }

  lemma SignedStamp(t: Moment) returns (sign: char, digits: string)
    requires !(0 <= t.year <= 9999)
    ensures sign == '+' || sign == '-'
    ensures forall i :: 0 <= i < |digits| ==> IsDigit(digits[i])
    ensures StampText(t) == [sign] + (digits + ClockText(t.second))
  {
    sign := YearSign(t.year);
    var year := LongYear(t.year);
    var month, day := Digits(t.month, 2), Digits(t.day, 2);
    digits := year + (month + day);
    AllDigits(month, day);
    AllDigits(year, month + day);
    Regroup([sign], year, month, day, ClockText(t.second));
  }

  lemma SignedYearIsLost(t: Moment)
    requires !(0 <= t.year <= 9999)
    ensures ParseStamp(StampText(t)) == None
  {
    var sign, digits := SignedStamp(t);
    SignedScan(sign, digits, ClockText(t.second));
  }

  lemma GreedyScan(digits: string, rest: string, limit: nat)
    requires forall i :: 0 <= i < |digits| ==> IsDigit(digits[i])
    requires |digits| < limit && rest != "" && rest[0] == 'T'
    ensures DigitRun(digits + rest, limit) == |digits|
    ensures (digits + rest)[|digits|..] == rest
    ensures ScanNumber(rest, 2) == None
  {
    var s := digits + rest;
    assert forall i :: 0 <= i < |digits| ==> s[i] == digits[i];
    assert s[|digits|] == 'T';
  }

  lemma StampAvoids(t: Moment, c: char)
    requires (c == 'F' || c == ';')
    ensures c !in StampText(t)
  {
    assert c !in YearText(t.year) && c !in ClockText(t.second);
  }

  /** The text of a rule: its head, or its head and an end date. */
  function RuleText(c: Cadence, stamp: Option<string>): string {
    if stamp.None? then RuleHead(c) else RuleHead(c) + (";UNTIL=" + stamp.value)
  }

  /** The rule text around its first letter F. */
  function AfterF(c: Cadence, stamp: Option<string>): string {
    "REQ=" + (CadenceName(c) + (if stamp.None? then "" else ";UNTIL=" + stamp.value))
  }

  lemma SplitAtF(name: string, tail: string)
    ensures ("RRULE:" + ("FREQ=" + name)) + tail == "RRULE:" + ("F" + ("REQ=" + (name + tail)))
    ensures "RRULE:" + ("FREQ=" + name) == "RRULE:" + ("F" + ("REQ=" + (name + "")))
    ensures ("RRULE:" + ("FREQ=" + name)) + tail == "RRULE:" + (("FREQ=" + name) + tail)
  {
    assert "FREQ=" == "F" + "REQ=";
    assert "FREQ=" + name == "F" + ("REQ=" + name);
  }

  lemma RuleTextAroundF(c: Cadence, stamp: Option<string>)
    ensures RuleText(c, stamp) == "RRULE:" + ("F" + AfterF(c, stamp))
  {
    SplitAtF(CadenceName(c), if stamp.None? then "" else ";UNTIL=" + stamp.value);
  }

  lemma AfterFAvoidsF(c: Cadence, stamp: Option<string>)
    requires stamp.Some? ==> 'F' !in stamp.value
    requires !c.Once?
    ensures 'F' !in AfterF(c, stamp)
  {
    assert 'F' !in CadenceName(c);
    assert stamp.Some? ==> 'F' !in ";UNTIL=" + stamp.value;
  }

  lemma OneF(a: string, b: string, needle: string, i: int)
    requires 'F' !in a && 'F' !in b && |needle| > 5 && needle[0] == 'F'
    requires OccursAt(a + ("F" + b), needle, i)
    ensures i == |a| && |b| > 4 && needle[5] == b[4]
  {
    var s := a + ("F" + b);
    var found := s[i..i + |needle|];
    assert found[0] == s[i] && found[5] == s[i + 5];
    assert forall k :: 0 <= k < |a| ==> s[k] == a[k];
    assert forall k :: |a| < k < |s| ==> s[k] == b[k - |a| - 1];
  }

  lemma OtherFrequency(c: Cadence, stamp: Option<string>, other: Cadence)
    requires !c.Once? && !other.Once? && (stamp.Some? ==> 'F' !in stamp.value)
    requires Contains(RuleText(c, stamp), "FREQ=" + CadenceName(other))
    ensures other == c
  {
    var needle := "FREQ=" + CadenceName(other);
    RuleTextAroundF(c, stamp);
    AfterFAvoidsF(c, stamp);
    var i :| 0 <= i <= |RuleText(c, stamp)| && OccursAt(RuleText(c, stamp), needle, i);
    OneF("RRULE:", AfterF(c, stamp), needle, i);
    assert needle[5] == CadenceName(other)[0] && AfterF(c, stamp)[4] == CadenceName(c)[0];
  }

  lemma OwnFrequency(c: Cadence, stamp: Option<string>)
    ensures Contains(RuleText(c, stamp), "FREQ=" + CadenceName(c))
  {
    var needle := "FREQ=" + CadenceName(c);
    var tail := if stamp.None? then "" else ";UNTIL=" + stamp.value;
    SplitAtF(CadenceName(c), tail);
    OccursAfter("RRULE:", needle, tail);
    assert needle + "" == needle;
  }

  lemma OccursAfter(a: string, needle: string, b: string)
    ensures Contains(a + (needle + b), needle)
  {
    assert OccursAt(a + (needle + b), needle, |a|);
  }

  /** The only frequency a written rule mentions is its own. */
  lemma CadenceOfRule(c: Cadence, stamp: Option<string>)
    requires !c.Once? && (stamp.Some? ==> 'F' !in stamp.value)
    ensures ParseCadence(RuleText(c, stamp)) == c
  {
    OwnFrequency(c, stamp);
    forall other: Cadence | !other.Once? && Contains(RuleText(c, stamp), "FREQ=" + CadenceName(other))
      ensures other == c
    {
      OtherFrequency(c, stamp, other);
    }
    assert "FREQ=" + CadenceName(Daily) == "FREQ=DAILY" && "FREQ=" + CadenceName(Weekly) == "FREQ=WEEKLY";
    assert "FREQ=" + CadenceName(Monthly) == "FREQ=MONTHLY" && "FREQ=" + CadenceName(Yearly) == "FREQ=YEARLY";
  }

  lemma UntilOfParts(head: string, stamp: string)
    requires head != "" && head[0] == 'R' && ';' !in head && ';' !in stamp
    ensures FirstUntil(Split(head + [';'] + ("UNTIL=" + stamp), ';')) == Some(stamp)
    ensures FirstUntil(Split(head, ';')) == None
  {
    var tail := "UNTIL=" + stamp;
    SplitOfTwo(head, tail, ';');
    NoUntil(head);
    assert [head, tail][1..] == [tail];
    assert tail[..6] == "UNTIL=" && tail[6..] == stamp;
  }

  lemma NoUntil(head: string)
    requires head != "" && head[0] == 'R'
    ensures !StartsWith(head, "UNTIL=")
  {
    assert "UNTIL="[0] == 'U';
    assert |head| >= 6 ==> head[..6][0] == 'R';
  }

  lemma JoinUntil(head: string, stamp: string)
    ensures head + (";UNTIL=" + stamp) == head + [';'] + ("UNTIL=" + stamp)
  {
    assert ";UNTIL=" == [';'] + "UNTIL=";
    assert ";UNTIL=" + stamp == [';'] + ("UNTIL=" + stamp);
  }

  lemma HeadShape(c: Cadence)
    requires !c.Once?
    ensures RuleHead(c) != "" && RuleHead(c)[0] == 'R' && ';' !in RuleHead(c)
  {
    assert ';' !in CadenceName(c);
    assert ';' !in "FREQ=" + CadenceName(c);
  }

  lemma UntilOfRule(c: Cadence, stamp: Option<string>)
    requires !c.Once? && (stamp.Some? ==> ';' !in stamp.value)
    ensures FirstUntil(Split(RuleText(c, stamp), ';')) == stamp
  {
    HeadShape(c);
    var text := if stamp.Some? then stamp.value else "";
    UntilOfParts(RuleHead(c), text);
    JoinUntil(RuleHead(c), text);
  }

  lemma ParseOfText(c: Cadence, stamp: Option<string>)
    requires !c.Once? && (stamp.Some? ==> 'F' !in stamp.value && ';' !in stamp.value)
    ensures ParseRecurrence([RuleText(c, stamp)]) == EventRule(c, if stamp.None? then None else ParseStamp(stamp.value))
  {
    assert RuleText(c, stamp)[..6] == "RRULE:";
    CadenceOfRule(c, stamp);
    UntilOfRule(c, stamp);
  }

  lemma TextOfRule(rule: EventRule)
    requires !rule.cadence.Once?
    ensures RecurrenceRule(rule) ==
              [RuleText(rule.cadence, if rule.until.None? then None else Some(StampText(rule.until.value)))]
  {
  }

  /** Reading a written rule gives the rule back, less an end date that has no four-digit year. */
  lemma ParseOfRule(rule: EventRule)
    ensures ParseRecurrence(RecurrenceRule(rule)) == EchoRule(rule)
  {
    if !rule.cadence.Once? {
      TextOfRule(rule);
      if rule.until.None? {
        ParseOfText(rule.cadence, None);
      } else {
        StampAvoids(rule.until.value, 'F');
        StampAvoids(rule.until.value, ';');
        ParseOfText(rule.cadence, Some(StampText(rule.until.value)));
        if Representable(rule) {
          ParseOfStamp(rule.until.value);
        } else {
          SignedYearIsLost(rule.until.value);
        }
      }
    }
  }

  // ---- the fixpoint ----

  function EchoRule(rule: EventRule): EventRule {
    if rule.cadence.Once? then EventRule(Once, None)
    else EventRule(rule.cadence, if Representable(rule) then rule.until else None)
  }

  /** All-day events are read back at the start of their days, in UTC. */
  function EchoSpan(span: Span): Span {
    if span.allDay then Span(86400 * Day(span.start), 86400 * Day(span.end), true, "UTC") else span
  }

  /** What Google's untouched copy of an event is read as. */
  lemma EchoOf(e: EventBody)
    ensures Normalize(FromLocal(e)) == Some(EventBody(e.text, EchoSpan(e.span), EchoRule(e.rule)))
  {
    ParseOfRule(e.rule);
  }

  lemma RulesDiffer(rule: EventRule)
    ensures RecurrenceRule(EchoRule(rule)) == RecurrenceRule(rule) <==> Representable(rule)
  {
    if !Representable(rule) {
      TextOfRule(rule);
      assert RecurrenceRule(EchoRule(rule))[0] == RuleHead(rule.cadence);
      assert |RecurrenceRule(rule)[0]| > |RuleHead(rule.cadence)|;
    }
  }

  /** Apart from its rule, an event's echo projects to the same shape. */
  lemma ShapeOfEcho(e: EventBody, rule: EventRule)
    ensures FromLocal(EventBody(e.text, EchoSpan(e.span), rule)) == FromLocal(e).(recurrence := RecurrenceRule(rule))
  {
    assert Day(86400 * Day(e.span.start)) == Day(e.span.start);
    assert Day(86400 * Day(e.span.end)) == Day(e.span.end);
  }

  lemma ShapeDiffersInRule(w: Wire, recurrence: seq<string>)
    ensures w.(recurrence := recurrence) == w <==> recurrence == w.recurrence
  {
  }

  /** Projecting, reading Google's echo and projecting again gives the same write shape, and so
      the same fingerprint, exactly when the recurrence end is representable. */
  lemma WriteShapeFixpoint(e: EventBody)
    ensures Normalize(FromLocal(e)).Some?
    ensures FromLocal(Normalize(FromLocal(e)).value) == FromLocal(e) <==> Representable(e.rule)
  {
    EchoOf(e);
    ShapeOfEcho(e, EchoRule(e.rule));
    ShapeDiffersInRule(FromLocal(e), RecurrenceRule(EchoRule(e.rule)));
    RulesDiffer(e.rule);
  }

  /** After that first echo nothing changes any more, for every event. */
  lemma EchoSettles(e: EventBody)
    ensures Normalize(FromLocal(e)).Some?
    ensures var once := Normalize(FromLocal(e)).value; Normalize(FromLocal(once)) == Some(once)
  {
    EchoOf(e);
    EchoOf(EventBody(e.text, EchoSpan(e.span), EchoRule(e.rule)));
  }

  /** A recurrence that ends in the year 10000 loses its end. */
  lemma FiveDigitYearIsLost()
    ensures var e := EventBody(EventText("t", "", "", []), Span(0, 60, false, "UTC"),
                               EventRule(Weekly, Some(DateTime(10000, 1, 1, 0))));
            && Normalize(FromLocal(e)).Some?
            && Normalize(FromLocal(e)).value.rule == EventRule(Weekly, None)
  {
    EchoOf(EventBody(EventText("t", "", "", []), Span(0, 60, false, "UTC"),
                     EventRule(Weekly, Some(DateTime(10000, 1, 1, 0)))));
  }
}
