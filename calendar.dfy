/** The calendar block: events classified by their start, grouped by date in
    fetch order, the dates sorted, and the date headings and event lines laid
    out down the right side of the canvas until the cursor runs out of room. */
module Calendar {
  import opened Common
  import opened Render
  import opened Config

  type Hour = h: int | 0 <= h < 24
  type Minute = m: int | 0 <= m < 60

  /** A time of day as parsed from an ISO-8601 date-time. */
  datatype Clock = Clock(hour: Hour, minute: Minute)

  /** A parsed date-time: the date and the time of day as written, in the
      timestamp's own offset. */
  datatype Instant = Instant(date: Date, clock: Clock)

  /** A start field: absent or falsy, present but rejected by ISO-8601 parsing, or parsed. */
  datatype Stamp<T> = Blank | Malformed | Parsed(value: T)

  /** The `start` object of an event; an absent `start` has both fields blank. */
  datatype Start = Start(dateTime: Stamp<Instant>, date: Stamp<Date>)

  /** The `summary` field: absent, present as JSON null, or a text. */
  datatype SummaryField = NoSummary | NullSummary | HasSummary(text: string)

  datatype Event = Event(summary: SummaryField, start: Start)

  const CalendarsPrefix: string := "calendars/"
  const HeadingX: int := 450
  const EventX: int := 460
  const CursorStart: int := 120
  /** A date heading is drawn only while the cursor is at most this. */
  const HeadingLimit: int := ImgHeight - 50
  /** An event line is drawn only while the cursor is at most this. */
  const EventLimit: int := ImgHeight - 40

  // ---------------------------------------------------------------------
  // Classification and grouping

  /** The date an event is filed under: a truthy `dateTime` wins over a truthy
      `date`; neither drops the event; an unparsable one raises. */
  function Classify(e: Event): (r: Result<Option<Date>, Error>)
    ensures r.Failure? ==> r.error == BadTimestamp
    ensures e.start.dateTime.Parsed? ==> r == Success(Some(e.start.dateTime.value.date))
    ensures e.start.dateTime.Blank? && e.start.date.Parsed? ==> r == Success(Some(e.start.date.value))
    ensures r == Success(None) <==> e.start.dateTime.Blank? && e.start.date.Blank?
    ensures r.Failure? <==> e.start.dateTime.Malformed? || (e.start.dateTime.Blank? && e.start.date.Malformed?)
  {
    match e.start.dateTime
    case Parsed(t) => Success(Some(t.date))
    case Malformed => Failure(BadTimestamp)
    case Blank =>
      match e.start.date
      case Parsed(d) => Success(Some(d))
      case Malformed => Failure(BadTimestamp)
      case Blank => Success(None)
  }

  predicate On(e: Event, d: Date)
  {
    Classify(e) == Success(Some(d))
  }

  predicate AllParse(events: seq<Event>)
  {
    forall i :: 0 <= i < |events| ==> Classify(events[i]).Success?
  }

  predicate Distinct<T(==)>(s: seq<T>)
  {
    forall i, j :: 0 <= i < j < |s| ==> s[i] != s[j]
  }

  /** The events filed under `d`, in fetch order. */
  function EventsOn(events: seq<Event>, d: Date): (r: seq<Event>)
    ensures |r| <= |events|
    ensures forall k :: 0 <= k < |r| ==> On(r[k], d)
  {
    if events == [] then []
    else
      var last := events[|events| - 1];
      EventsOn(events[..|events| - 1], d) + (if On(last, d) then [last] else [])
  }

  /** Where in the fetched list each event filed under `d` sits. */
  function IndicesOn(events: seq<Event>, d: Date): (idx: seq<nat>)
  {
    if events == [] then []
    else
      var n := |events| - 1;
      IndicesOn(events[..n], d) + (if On(events[n], d) then [n] else [])
  }

  /** The positions are strictly increasing, cover every event on `d` and pick
      out exactly the listed events. So the events under a date are exactly the
      fetched ones for that date, in fetch order. */
  lemma {:induction false} FetchOrderKept(events: seq<Event>, d: Date)
    ensures var idx := IndicesOn(events, d);
      |idx| == |EventsOn(events, d)| &&
      (forall k :: 0 <= k < |idx| ==> idx[k] < |events| && events[idx[k]] == EventsOn(events, d)[k]) &&
      (forall k, l :: 0 <= k < l < |idx| ==> idx[k] < idx[l]) &&
      (forall i :: 0 <= i < |events| && On(events[i], d) ==> i in idx)
  {
    if events != [] {
      var n := |events| - 1;
      var prior := IndicesOn(events[..n], d);
      FetchOrderKept(events[..n], d);
      assert forall k :: 0 <= k < |prior| ==> events[prior[k]] == events[..n][prior[k]];
      assert forall i :: 0 <= i < n ==> events[..n][i] == events[i];
    }
  }

  /** An event with neither a `dateTime` nor a `date` is listed under no date. */
  lemma DroppedNeverListed(events: seq<Event>, e: Event, d: Date)
    requires Classify(e) == Success(None)
    ensures e !in EventsOn(events, d)
  {
  }

  /** The dates of the filed events, each once, in order of first appearance:
      the insertion order of the grouping dictionary. */
  function FirstSeen(events: seq<Event>): (r: seq<Date>)
    ensures Distinct(r)
  {
    if events == [] then []
    else
      var n := |events| - 1;
      var prior := FirstSeen(events[..n]);
      match Classify(events[n])
      case Success(Some(d)) => if d in prior then prior else prior + [d]
      case _ => prior
  }

  /** A date is among the first-seen dates exactly when some event is filed under it. */
  lemma {:induction false} FirstSeenDates(events: seq<Event>, d: Date)
    ensures d in FirstSeen(events) <==> exists i :: 0 <= i < |events| && On(events[i], d)
  {
    if events != [] {
      var n := |events| - 1;
      FirstSeenDates(events[..n], d);
      assert forall i :: 0 <= i < n ==> events[..n][i] == events[i];
    }
  }

  /** One more event extends the events of its own date and no other. */
  lemma EventsOnStep(events: seq<Event>, i: int, d: Date)
    requires 0 <= i < |events|
    ensures On(events[i], d) ==> EventsOn(events[..i + 1], d) == EventsOn(events[..i], d) + [events[i]]
    ensures !On(events[i], d) ==> EventsOn(events[..i + 1], d) == EventsOn(events[..i], d)
  {
    assert events[..i + 1][..i] == events[..i];
    assert EventsOn(events[..i], d) + [] == EventsOn(events[..i], d);
  }

  /** One more event adds its date to the first-seen dates when it is new. */
  lemma FirstSeenStep(events: seq<Event>, i: int)
    requires 0 <= i < |events|
    ensures FirstSeen(events[..i + 1]) ==
      match Classify(events[i])
      case Success(Some(d)) => if d in FirstSeen(events[..i]) then FirstSeen(events[..i]) else FirstSeen(events[..i]) + [d]
      case _ => FirstSeen(events[..i])
  {
    assert events[..i + 1][..i] == events[..i];
  }

  /** A date that never appears has no events. */
  lemma {:induction false} NoEventsOnUnseen(events: seq<Event>, d: Date)
    requires d !in FirstSeen(events)
    ensures EventsOn(events, d) == []
  {
    if events != [] {
      var n := |events| - 1;
      assert forall i :: 0 <= i < n ==> events[..n][i] == events[i];
      NoEventsOnUnseen(events[..n], d);
    }
  }

  /** The grouping as a function of the events: each first-seen date
      maps to its events in fetch order. */
  function GroupsOf(events: seq<Event>): map<Date, seq<Event>>
  {
    map d | d in FirstSeen(events) :: EventsOn(events, d)
  }

  datatype Grouping = Grouping(order: seq<Date>, groups: map<Date, seq<Event>>)

  /** Every date in `groups` holds exactly the events on it, in order. */
  predicate Filed(groups: map<Date, seq<Event>>, events: seq<Event>)
  {
    forall d :: d in groups ==> groups[d] == EventsOn(events, d)
  }

  /** Filing event `i` under its date keeps the dictionary in step. */
  lemma FileEvent(groups: map<Date, seq<Event>>, events: seq<Event>, i: int, d: Date)
    requires 0 <= i < |events| && On(events[i], d) && Filed(groups, events[..i])
    ensures Filed(groups[d := EventsOn(events[..i], d) + [events[i]]], events[..i + 1])
  {
    forall x {
      EventsOnStep(events, i, x);
    }
  }

  /** The loop's state after a prefix of the events: the dates in first-seen
      order, a key for each of them and no other, and each key's events. */
  ghost predicate Tracks(order: seq<Date>, groups: map<Date, seq<Event>>, events: seq<Event>)
  {
    order == FirstSeen(events) && (forall d :: d in groups <==> d in order) && Filed(groups, events)
  }

  /** An event without a start changes neither the dates nor their lists. */
  lemma SkipEvent(order: seq<Date>, groups: map<Date, seq<Event>>, events: seq<Event>, i: int)
    requires 0 <= i < |events| && Classify(events[i]) == Success(None) && Tracks(order, groups, events[..i])
    ensures Tracks(order, groups, events[..i + 1])
  {
    FirstSeenStep(events, i);
    forall x {
      EventsOnStep(events, i, x);
    }
  }

  /** An event on a date already seen joins the end of that date's list. */
  lemma AppendEvent(order: seq<Date>, groups: map<Date, seq<Event>>, events: seq<Event>, i: int, d: Date)
    requires 0 <= i < |events| && On(events[i], d) && d in groups && Tracks(order, groups, events[..i])
    ensures Tracks(order, groups[d := groups[d] + [events[i]]], events[..i + 1])
  {
    FirstSeenStep(events, i);
    FileEvent(groups, events, i, d);
  }

  /** An event on a new date adds the date, with the event as its only entry. */
  lemma NewDate(order: seq<Date>, groups: map<Date, seq<Event>>, events: seq<Event>, i: int, d: Date)
    requires 0 <= i < |events| && On(events[i], d) && d !in groups && Tracks(order, groups, events[..i])
    ensures Tracks(order + [d], groups[d := [events[i]]], events[..i + 1])
  {
    FirstSeenStep(events, i);
    FileEvent(groups, events, i, d);
    NoEventsOnUnseen(events[..i], d);
    assert [] + [events[i]] == [events[i]];
  }

  /** The grouping loop: files each event under its date by appending to the
      date's list, remembering the order in which dates first appear, and
      raises at the first unparsable start. */
  method GroupEvents(events: seq<Event>) returns (r: Result<Grouping, Error>)
    ensures r.Failure? <==> !AllParse(events)
    ensures r.Failure? ==> r.error == BadTimestamp
    ensures r.Success? ==> r.value.order == FirstSeen(events)
    ensures r.Success? ==> forall d :: d in r.value.groups <==> d in FirstSeen(events)
    ensures r.Success? ==> forall d :: d in r.value.groups ==> r.value.groups[d] == EventsOn(events, d)
  {
    var groups: map<Date, seq<Event>> := map[];
    var order: seq<Date> := [];
    var i := 0;
    while i < |events|
      invariant 0 <= i <= |events|
      invariant forall k :: 0 <= k < i ==> Classify(events[k]).Success?
      invariant Tracks(order, groups, events[..i])
    {
      var e := events[i];
      match Classify(e) {
        case Failure(err) =>
          return Failure(err);
        case Success(None) =>
          SkipEvent(order, groups, events, i);
        case Success(Some(d)) =>
          if d in groups {
            AppendEvent(order, groups, events, i, d);
            groups := groups[d := groups[d] + [e]];
          } else {
            NewDate(order, groups, events, i, d);
            groups := groups[d := [e]];
            order := order + [d];
          }
      }
      i := i + 1;
    }
    assert events[..i] == events;
    r := Success(Grouping(order, groups));
  }

  // ---------------------------------------------------------------------
  // Sorting the dates

  /** Chronological order of dates: by year, then month, then day. */
  predicate Before(a: Date, b: Date)
  {
    a.year < b.year || (a.year == b.year && (a.month < b.month || (a.month == b.month && a.day < b.day)))
  }

  predicate Ascending(s: seq<Date>)
  {
    forall i, j :: 0 <= i < j < |s| ==> Before(s[i], s[j])
  }

  function Insert(d: Date, s: seq<Date>): (r: seq<Date>)
    requires Ascending(s) && d !in s
    ensures Ascending(r)
    ensures multiset(r) == multiset(s) + multiset{d}
  {
    if s == [] then [d]
    else if Before(d, s[0]) then [d] + s
    else
      var rest := Insert(d, s[1..]);
      assert s == [s[0]] + s[1..];
      InsertedAfterHead(d, s, rest);
      AscendingCons(s[0], rest);
      [s[0]] + rest
  }

  lemma AscendingCons(a: Date, t: seq<Date>)
    requires Ascending(t)
    requires forall x :: x in t ==> Before(a, x)
    ensures Ascending([a] + t)
  {
    forall i, j | 0 <= i < j < |[a] + t| ensures Before(([a] + t)[i], ([a] + t)[j]) {
      if i == 0 {
        assert ([a] + t)[j] == t[j - 1];
      } else {
        assert ([a] + t)[i] == t[i - 1];
        assert ([a] + t)[j] == t[j - 1];
      }
    }
  }

  /** When `d` does not go first, everything inserted after the head comes after it. */
  lemma InsertedAfterHead(d: Date, s: seq<Date>, rest: seq<Date>)
    requires Ascending(s) && d !in s && s != [] && !Before(d, s[0])
    requires multiset(rest) == multiset(s[1..]) + multiset{d}
    ensures forall x :: x in rest ==> Before(s[0], x)
  {
    forall x | x in rest ensures Before(s[0], x) {
      assert x in multiset(rest);
      if x != d {
        assert x in multiset(s[1..]);
        var j :| 0 <= j < |s[1..]| && s[1..][j] == x;
        assert s[j + 1] == x;
      }
    }
  }

  /** The tail of a list without repeats has none either and lacks the head. */
  lemma DistinctTail(s: seq<Date>)
    requires Distinct(s) && s != []
    ensures Distinct(s[1..]) && s[0] !in s[1..]
  {
    forall x | x in s[1..] ensures x != s[0] {
      var j :| 0 <= j < |s[1..]| && s[1..][j] == x;
      assert s[j + 1] == x;
    }
  }

  /** `sorted()` of distinct dates: strictly ascending, the same dates. */
  function SortDates(s: seq<Date>): (r: seq<Date>)
    requires Distinct(s)
    ensures Ascending(r)
    ensures multiset(r) == multiset(s)
    ensures forall x :: x in r <==> x in s
  {
    if s == [] then []
    else
      DistinctTail(s);
      var rest := SortDates(s[1..]);
      assert s == [s[0]] + s[1..];
      var r := Insert(s[0], rest);
      assert forall x :: x in r <==> x in multiset(r);
      assert forall x :: x in s <==> x in multiset(s);
      r
  }

  // ---------------------------------------------------------------------
  // Event lines

  /** `%I`: the hour on the 12-hour clock, 12 for midnight and noon. */
  function TwelveHour(h: Hour): (r: int)
    ensures 1 <= r <= 12
  {
    if h % 12 == 0 then 12 else h % 12
  }

  /** `%p` in the C locale. */
  function Meridiem(h: Hour): string
  {
    if h < 12 then "AM" else "PM"
  }

  /** Two decimal digits with a leading zero, as `%I` and `%M` print. */
  function Pad2(n: int): (s: string)
    requires 0 <= n < 100
    ensures |s| == 2 && IsDigit(s[0]) && IsDigit(s[1])
  {
    [DigitChar(n / 10), DigitChar(n % 10)]
  }

  /** `strftime("%I:%M %p")` */
  function TimeText(c: Clock): (s: string)
    ensures |s| == 8
  {
    Pad2(TwelveHour(c.hour)) + ":" + Pad2(c.minute) + " " + Meridiem(c.hour)
  }

  /** Reads a time printed as "hh:mm AM" or "hh:mm PM" back into a clock. */
  function ParseTime(s: string): Option<Clock>
  {
    if |s| == 8 && IsDigit(s[0]) && IsDigit(s[1]) && s[2] == ':' && IsDigit(s[3]) && IsDigit(s[4])
       && s[5] == ' ' && (s[6..] == "AM" || s[6..] == "PM")
    then
      var h12 := DigitValue(s[0]) * 10 + DigitValue(s[1]);
      var m := DigitValue(s[3]) * 10 + DigitValue(s[4]);
      if 1 <= h12 <= 12 && m < 60 then
        Some(Clock(if s[6..] == "PM" then h12 % 12 + 12 else h12 % 12, m))
      else None
    else None
  }

  lemma Pad2Value(n: int)
    requires 0 <= n < 100
    ensures DigitValue(Pad2(n)[0]) * 10 + DigitValue(Pad2(n)[1]) == n
  {
  }

  /** The printed time of day determines the time of day: the 12-hour hour
      and the AM/PM marker together give back the 24-hour hour. */
  lemma TimeTextRoundTrip(c: Clock)
    ensures ParseTime(TimeText(c)) == Some(c)
  {
    var s := TimeText(c);
    Pad2Value(TwelveHour(c.hour));
    Pad2Value(c.minute);
    assert s[0..2] == Pad2(TwelveHour(c.hour));
    assert s[3..5] == Pad2(c.minute);
    assert s[6..] == Meridiem(c.hour);
    assert "AM" != "PM";
  }

  /** `summary` as printed: an absent one reads "No Title", a JSON null reads "None". */
  function SummaryText(f: SummaryField): string
  {
    match f
    case NoSummary => "No Title"
    case NullSummary => "None"
    case HasSummary(t) => t
  }

  /** The line drawn for an event: the time is added only for a timed event. */
  function EventText(e: Event): string
  {
    match e.start.dateTime
    case Parsed(t) => "- " + SummaryText(e.summary) + " at " + TimeText(t.clock)
    case _ => "- " + SummaryText(e.summary)
  }

  /** Every event line is "- " and the summary; an all-day line stops there, a
      timed one goes on with " at " and its start time, which can be read back;
      an all-day event without a summary reads "- No Title". */
  lemma EventLineShape(e: Event)
    ensures |EventText(e)| >= 2 + |SummaryText(e.summary)| && EventText(e)[..2] == "- "
    ensures EventText(e)[2..2 + |SummaryText(e.summary)|] == SummaryText(e.summary)
    ensures e.start.dateTime.Parsed? ==>
      |EventText(e)| >= 8 &&
      ParseTime(EventText(e)[|EventText(e)| - 8..]) == Some(e.start.dateTime.value.clock)
    ensures !e.start.dateTime.Parsed? ==> |EventText(e)| == 2 + |SummaryText(e.summary)|
    ensures e.start.dateTime.Parsed? ==>
      |EventText(e)| == 2 + |SummaryText(e.summary)| + 12 &&
      EventText(e)[2 + |SummaryText(e.summary)|..|EventText(e)| - 8] == " at "
    ensures !e.start.dateTime.Parsed? && e.summary == NoSummary ==> EventText(e) == "- No Title"
  {
    if e.start.dateTime.Parsed? {
      var c := e.start.dateTime.value.clock;
      var s := EventText(e);
      assert s[|s| - 8..] == TimeText(c);
      TimeTextRoundTrip(c);
    }
  }

  // ---------------------------------------------------------------------
  // Layout

  /** The event lines of one date, 25 pixels apart from `y`. */
  function EventLines(evs: seq<Event>, y: int): (r: seq<Draw>)
    ensures |r| == |evs|
  {
    if evs == [] then [] else [Text(EventX, y, EventText(evs[0]))] + EventLines(evs[1..], y + 25)
  }

  /** `events_by_date[d]` of the default dictionary: a date without events has an empty list. */
  function Listed(groups: map<Date, seq<Event>>, d: Date): seq<Event>
  {
    if d in groups then groups[d] else []
  }

  /** The whole calendar as it would be laid out on an endless canvas: per date,
      a heading, its event lines, and 10 more pixels. */
  function FullLayout(dates: seq<Date>, groups: map<Date, seq<Event>>, y: int): (r: seq<Draw>)
    ensures |r| >= |dates|
    ensures dates != [] ==> r[0] == DateText(HeadingX, y, dates[0])
  {
    if dates == [] then []
    else
      var evs := Listed(groups, dates[0]);
      [DateText(HeadingX, y, dates[0])] + EventLines(evs, y + 30)
        + FullLayout(dates[1..], groups, y + 30 + 25 * |evs| + 10)
  }

  /** Whether a calendar line is drawn where its cursor stands. */
  predicate Fits(d: Draw)
  {
    match d
    case DateText(_, y, _) => y <= HeadingLimit
    case Text(_, y, _) => y <= EventLimit
    case _ => false
  }

  /** The lines up to the first one that does not fit. */
  function FitPrefix(s: seq<Draw>): seq<Draw>
  {
    if s == [] || !Fits(s[0]) then [] else [s[0]] + FitPrefix(s[1..])
  }

  /** The lines kept are a prefix, every one of them fits, and the first line
      left out does not: the longest prefix that fits. */
  lemma {:induction false} LongestFit(s: seq<Draw>)
    ensures FitPrefix(s) <= s
    ensures forall k :: 0 <= k < |FitPrefix(s)| ==> Fits(FitPrefix(s)[k])
    ensures |FitPrefix(s)| < |s| ==> !Fits(s[|FitPrefix(s)|])
  {
    if s != [] && Fits(s[0]) {
      LongestFit(s[1..]);
      var r := FitPrefix(s);
      assert r == [s[0]] + FitPrefix(s[1..]);
      forall k | 0 <= k < |r| ensures Fits(r[k]) {
        if k > 0 {
          assert r[k] == FitPrefix(s[1..])[k - 1];
        }
      }
    }
  }

  /** A heading that fits is kept, followed by what is kept of its event lines and the later dates. */
  lemma HeadingStep(dates: seq<Date>, groups: map<Date, seq<Event>>, y: int)
    requires dates != [] && y <= HeadingLimit
    ensures FitPrefix(FullLayout(dates, groups, y)) ==
      [DateText(HeadingX, y, dates[0])] +
      FitPrefix(EventLines(Listed(groups, dates[0]), y + 30)
                + FullLayout(dates[1..], groups, y + 30 + 25 * |Listed(groups, dates[0])| + 10))
  {
    var evs := Listed(groups, dates[0]);
    var heading := DateText(HeadingX, y, dates[0]);
    var lines := EventLines(evs, y + 30);
    var later := FullLayout(dates[1..], groups, y + 30 + 25 * |evs| + 10);
    assert FullLayout(dates, groups, y) == [heading] + lines + later;
    Assoc([heading], lines, later);
    FitCons(heading, lines + later);
  }

  /** A line that fits, put in front, is kept in front of what is kept after it. */
  lemma FitCons(x: Draw, rest: seq<Draw>)
    requires Fits(x)
    ensures FitPrefix([x] + rest) == [x] + FitPrefix(rest)
  {
    assert ([x] + rest)[1..] == rest;
  }

  /** An event line that fits is kept, followed by what is kept of the rest. */
  lemma EventStep(evs: seq<Event>, rest: seq<Draw>, y: int)
    requires evs != [] && y <= EventLimit
    ensures FitPrefix(EventLines(evs, y) + rest) ==
      [Text(EventX, y, EventText(evs[0]))] + FitPrefix(EventLines(evs[1..], y + 25) + rest)
  {
    var s := EventLines(evs, y) + rest;
    assert s == [Text(EventX, y, EventText(evs[0]))] + (EventLines(evs[1..], y + 25) + rest);
    assert s[1..] == EventLines(evs[1..], y + 25) + rest;
  }

  /** A heading below its limit ends the kept lines. */
  lemma StopsAtHeading(dates: seq<Date>, groups: map<Date, seq<Event>>, y: int)
    requires y > HeadingLimit
    ensures FitPrefix(FullLayout(dates, groups, y)) == []
  {
  }

  /** An event line below its limit ends the kept lines. */
  lemma StopsAtEvent(evs: seq<Event>, rest: seq<Draw>, y: int)
    requires evs != [] && y > EventLimit
    ensures FitPrefix(EventLines(evs, y) + rest) == []
  {
    assert (EventLines(evs, y) + rest)[0] == Text(EventX, y, EventText(evs[0]));
  }

  /** Proof helper for the layout steps: regrouping a concatenation of drawing lists. */
  lemma Assoc(a: seq<Draw>, b: seq<Draw>, c: seq<Draw>)
    ensures a + (b + c) == (a + b) + c
  {
  }

  /** Moving the first pending line onto the lines drawn keeps the whole. */
  lemma Advance(lines: seq<Draw>, x: Draw, pending: seq<Draw>, later: seq<Draw>, target: seq<Draw>)
    requires lines + pending == target && pending == [x] + later
    ensures (lines + [x]) + later == target
  {
    Assoc(lines, [x], later);
  }

  /** Drawing the heading of `dates[i]` at `y`: the pending layout becomes
      the date's event lines followed by the later dates. */
  lemma DrawHeading(lines: seq<Draw>, dates: seq<Date>, groups: map<Date, seq<Event>>, i: int, y: int, target: seq<Draw>)
    requires 0 <= i < |dates| && y <= HeadingLimit
    requires lines + FitPrefix(FullLayout(dates[i..], groups, y)) == target
    ensures (lines + [DateText(HeadingX, y, dates[i])]) +
      FitPrefix(EventLines(Listed(groups, dates[i]), y + 30)
                + FullLayout(dates[i + 1..], groups, y + 30 + 25 * |Listed(groups, dates[i])| + 10)) == target
  {
    var ds := dates[i..];
    assert ds[0] == dates[i] && ds[1..] == dates[i + 1..];
    HeadingStep(ds, groups, y);
    var evs := Listed(groups, ds[0]);
    Advance(lines, DateText(HeadingX, y, ds[0]), FitPrefix(FullLayout(ds, groups, y)),
            FitPrefix(EventLines(evs, y + 30) + FullLayout(ds[1..], groups, y + 30 + 25 * |evs| + 10)), target);
  }

  /** Laying out a date's event lines and then whatever follows: what follows
      is reached only when every event line fitted. */
  lemma {:induction false} EventsThen(evs: seq<Event>, y: int, tail: seq<Draw>)
    ensures FitPrefix(EventLines(evs, y) + tail) ==
      FitPrefix(EventLines(evs, y)) + (if |FitPrefix(EventLines(evs, y))| == |evs| then FitPrefix(tail) else [])
  {
    if evs == [] {
      assert EventLines(evs, y) + tail == tail;
    } else if y > EventLimit {
      StopsAtEvent(evs, tail, y);
      StopsAtEvent(evs, [], y);
      assert EventLines(evs, y) + [] == EventLines(evs, y);
    } else {
      var line := Text(EventX, y, EventText(evs[0]));
      var more := EventLines(evs[1..], y + 25);
      EventStep(evs, tail, y);
      EventStep(evs, [], y);
      assert EventLines(evs, y) + [] == EventLines(evs, y);
      assert more + [] == more;
      assert FitPrefix(EventLines(evs, y)) == [line] + FitPrefix(more);
      EventsThen(evs[1..], y + 25, tail);
      Assoc([line], FitPrefix(more), if |FitPrefix(more)| == |evs| - 1 then FitPrefix(tail) else []);
    }
  }

  /** Drawing the event line of `evs[j]` at `y`. */
  lemma DrawEvent(lines: seq<Draw>, evs: seq<Event>, j: int, y: int, target: seq<Draw>)
    requires 0 <= j < |evs| && y <= EventLimit
    requires lines + FitPrefix(EventLines(evs[j..], y)) == target
    ensures (lines + [Text(EventX, y, EventText(evs[j]))]) + FitPrefix(EventLines(evs[j + 1..], y + 25)) == target
  {
    var es := evs[j..];
    assert es[0] == evs[j] && es[1..] == evs[j + 1..];
    EventStep(es, [], y);
    assert EventLines(es, y) + [] == EventLines(es, y);
    assert EventLines(es[1..], y + 25) + [] == EventLines(es[1..], y + 25);
    Advance(lines, Text(EventX, y, EventText(es[0])), FitPrefix(EventLines(es, y)),
            FitPrefix(EventLines(es[1..], y + 25)), target);
  }

  /** Running out of room for an event line ends the date's event lines. */
  lemma NoRoomForEvent(lines: seq<Draw>, evs: seq<Event>, j: int, y: int, target: seq<Draw>)
    requires 0 <= j < |evs| && y > EventLimit
    requires lines + FitPrefix(EventLines(evs[j..], y)) == target
    ensures lines == target
  {
    StopsAtEvent(evs[j..], [], y);
    assert EventLines(evs[j..], y) + [] == EventLines(evs[j..], y);
    assert lines + [] == lines;
  }

  /** After the event lines of a date: on to the next date, 10 pixels lower;
      when an event line did not fit, no later heading fits either. */
  lemma NextDate(lines: seq<Draw>, after: seq<Date>, groups: map<Date, seq<Event>>, evs: seq<Event>,
                 y0: int, drawn: seq<Draw>, y: int, target: seq<Draw>)
    requires lines + FitPrefix(EventLines(evs, y0) + FullLayout(after, groups, y0 + 25 * |evs| + 10)) == target
    requires drawn == FitPrefix(EventLines(evs, y0))
    requires y == y0 + 25 * |drawn|
    requires |drawn| < |evs| ==> y > EventLimit
    ensures (lines + drawn) + FitPrefix(FullLayout(after, groups, y + 10)) == target
  {
    EventsThen(evs, y0, FullLayout(after, groups, y0 + 25 * |evs| + 10));
    LongestFit(EventLines(evs, y0));
    if |drawn| == |evs| {
      Assoc(lines, drawn, FitPrefix(FullLayout(after, groups, y + 10)));
    } else {
      StopsAtHeading(after, groups, y + 10);
      assert drawn + [] == drawn;
      assert (lines + drawn) + [] == lines + drawn;
    }
  }

  /** One pass of the outer loop: the heading of `dates[i]`, the event lines
      the inner loop drew, and the cursor 10 pixels below them. */
  lemma DateStep(lines: seq<Draw>, dates: seq<Date>, groups: map<Date, seq<Event>>, i: int, y: int,
                 drawn: seq<Draw>, below: int, target: seq<Draw>)
    requires 0 <= i < |dates| && y <= HeadingLimit
    requires lines + FitPrefix(FullLayout(dates[i..], groups, y)) == target
    requires drawn == FitPrefix(EventLines(Listed(groups, dates[i]), y + 30))
    requires below == y + 30 + 25 * |drawn|
    requires |drawn| < |Listed(groups, dates[i])| ==> below > EventLimit
    ensures lines + [DateText(HeadingX, y, dates[i])] + drawn + FitPrefix(FullLayout(dates[i + 1..], groups, below + 10)) == target
  {
    DrawHeading(lines, dates, groups, i, y, target);
    NextDate(lines + [DateText(HeadingX, y, dates[i])], dates[i + 1..], groups, Listed(groups, dates[i]), y + 30, drawn, below, target);
  }

  /** Running out of room for a heading ends the whole layout. */
  lemma NoRoomForHeading(lines: seq<Draw>, dates: seq<Date>, groups: map<Date, seq<Event>>, i: int, y: int, target: seq<Draw>)
    requires 0 <= i <= |dates| && y > HeadingLimit
    requires lines + FitPrefix(FullLayout(dates[i..], groups, y)) == target
    ensures lines == target
  {
    StopsAtHeading(dates[i..], groups, y);
    assert lines + [] == lines;
  }

  /** With every date laid out, nothing is pending. */
  lemma NoDateLeft(lines: seq<Draw>, dates: seq<Date>, groups: map<Date, seq<Event>>, y: int, target: seq<Draw>)
    requires lines + FitPrefix(FullLayout(dates[|dates|..], groups, y)) == target
    ensures lines == target
  {
    assert dates[|dates|..] == [];
    assert lines + [] == lines;
  }

  /** The inner layout loop: the event lines of one date from cursor `y0`,
      each 25 pixels below the last, stopping at the first whose cursor is
      past 440. */
  method LayOutEvents(evs: seq<Event>, y0: int) returns (lines: seq<Draw>, y: int)
    ensures lines == FitPrefix(EventLines(evs, y0))
    ensures y == y0 + 25 * |lines|
    ensures |lines| < |evs| ==> y > EventLimit
  {
    ghost var target := FitPrefix(EventLines(evs, y0));
    lines := [];
    y := y0;
    var j := 0;
    assert evs[0..] == evs;
    while j < |evs|
      invariant 0 <= j <= |evs| && |lines| == j && y == y0 + 25 * j
      invariant lines + FitPrefix(EventLines(evs[j..], y)) == target
    {
      if y > EventLimit {
        NoRoomForEvent(lines, evs, j, y, target);
        return;
      }
      DrawEvent(lines, evs, j, y, target);
      lines := lines + [Text(EventX, y, EventText(evs[j]))];
      y := y + 25;
      j := j + 1;
    }
    assert evs[j..] == [];
    assert lines + [] == lines;
  }

  /** The outer layout loop: the cursor starts at 120; a heading is drawn
      while the cursor is at most 430 and moves it 30 down, then the date's
      event lines, then 10 more. The lines drawn are the longest prefix of
      the endless layout that fits. */
  method LayOut(dates: seq<Date>, groups: map<Date, seq<Event>>) returns (lines: seq<Draw>)
    ensures lines == FitPrefix(FullLayout(dates, groups, CursorStart))
  {
    ghost var target := FitPrefix(FullLayout(dates, groups, CursorStart));
    lines := [];
    var y := CursorStart;
    var i := 0;
    assert dates[0..] == dates;
    while i < |dates|
      invariant 0 <= i <= |dates|
      invariant lines + FitPrefix(FullLayout(dates[i..], groups, y)) == target
    {
      if y > HeadingLimit {
        NoRoomForHeading(lines, dates, groups, i, y, target);
        return;
      }
      var d := dates[i];
      var drawn, below := LayOutEvents(Listed(groups, d), y + 30);
      DateStep(lines, dates, groups, i, y, drawn, below, target);
      lines := lines + [DateText(HeadingX, y, d)] + drawn;
      y := below + 10;
      i := i + 1;
    }
    NoDateLeft(lines, dates, groups, y, target);
  }

  /** The dates of the headings among some drawn lines, in drawing order. */
  function Headings(s: seq<Draw>): seq<Date>
  {
    if s == [] then [] else (if s[0].DateText? then [s[0].date] else []) + Headings(s[1..])
  }

  lemma {:induction false} HeadingsConcat(a: seq<Draw>, b: seq<Draw>)
    ensures Headings(a + b) == Headings(a) + Headings(b)
  {
    if a == [] {
      assert a + b == b;
    } else {
      assert (a + b)[1..] == a[1..] + b;
      HeadingsConcat(a[1..], b);
    }
  }

  lemma {:induction false} NoHeadingsAmongEvents(evs: seq<Event>, y: int)
    ensures Headings(EventLines(evs, y)) == []
  {
    if evs != [] {
      NoHeadingsAmongEvents(evs[1..], y + 25);
    }
  }

  /** The endless layout has one heading per date, in the order of the dates. */
  lemma {:induction false} HeadingsOfLayout(dates: seq<Date>, groups: map<Date, seq<Event>>, y: int)
    ensures Headings(FullLayout(dates, groups, y)) == dates
  {
    if dates != [] {
      var evs := Listed(groups, dates[0]);
      var next := y + 30 + 25 * |evs| + 10;
      HeadingsConcat([DateText(HeadingX, y, dates[0])] + EventLines(evs, y + 30), FullLayout(dates[1..], groups, next));
      HeadingsConcat([DateText(HeadingX, y, dates[0])], EventLines(evs, y + 30));
      NoHeadingsAmongEvents(evs, y + 30);
      HeadingsOfLayout(dates[1..], groups, next);
      assert dates == [dates[0]] + dates[1..];
    }
  }

  lemma {:induction false} HeadingsOfPrefix(p: seq<Draw>, s: seq<Draw>)
    requires p <= s
    ensures Headings(p) <= Headings(s)
  {
    if p != [] {
      assert p[1..] <= s[1..];
      HeadingsOfPrefix(p[1..], s[1..]);
    }
  }

  /** The drawn headings are the first dates in order: a prefix of the dates,
      so strictly ascending when the dates are. */
  lemma DrawnHeadings(dates: seq<Date>, groups: map<Date, seq<Event>>)
    ensures Headings(FitPrefix(FullLayout(dates, groups, CursorStart))) <= dates
    ensures Ascending(dates) ==> Ascending(Headings(FitPrefix(FullLayout(dates, groups, CursorStart))))
  {
    var full := FullLayout(dates, groups, CursorStart);
    LongestFit(full);
    HeadingsOfPrefix(FitPrefix(full), full);
    HeadingsOfLayout(dates, groups, CursorStart);
  }

  // ---------------------------------------------------------------------
  // The block

  const Upcoming: Draw := Text(HeadingX, 80, "Upcoming Events")
  const NoEvents: Draw := Text(HeadingX, 70, "No upcoming events.")
  const CalendarFallback: Draw := Text(HeadingX, 30, "Calendar Unavailable")

  /** The body of the calendar block's `try`. `query` is the start/end window
      appended to the request, built from the clock. The title is drawn before
      the events are grouped, so a bad timestamp fails after the title. */
  function CalendarAttempt(cfg: Settings, query: string, reply: Result<seq<Event>, Error>): (r: Result<seq<Draw>, Interrupted>)
    ensures r.Success? ==> |r.value| >= 1 && r.value[0] == Upcoming
    ensures r.Failure? ==> r.error.drawn == [] || r.error.drawn == [Upcoming]
    ensures r.Failure? && r.error.drawn == [Upcoming] ==> r.error.cause == BadTimestamp
  {
    if !Truthy(cfg.calendarEntity) then Failure(Interrupted([], Unset("CALENDAR_ENTITY")))
    else
      var fetched := Fetch(GetRequest(cfg, CalendarsPrefix + cfg.calendarEntity.value + query), reply);
      if fetched.Failure? then Failure(Interrupted([], fetched.error))
      else
        var events := fetched.value;
        if events == [] then Success([Upcoming, NoEvents])
        else if !AllParse(events) then Failure(Interrupted([Upcoming], BadTimestamp))
        else Success([Upcoming] + FitPrefix(FullLayout(SortDates(FirstSeen(events)), GroupsOf(events), CursorStart)))
  }

  /** The calendar block as drawn, its `except` included. */
  function CalendarPlan(cfg: Settings, query: string, reply: Result<seq<Event>, Error>): (r: seq<Draw>)
    ensures |r| >= 1
    ensures r == [CalendarFallback] || r[0] == Upcoming
  {
    Settle(CalendarAttempt(cfg, query, reply), CalendarFallback)
  }

  /** The calendar block: fetch, title, then either the empty notice or the
      grouped, sorted and truncated event list. */
  method DrawCalendar(cfg: Settings, query: string, reply: Result<seq<Event>, Error>) returns (drawn: seq<Draw>)
    ensures drawn == CalendarPlan(cfg, query, reply)
  {
    if !Truthy(cfg.calendarEntity) {
      return [CalendarFallback];
    }
    var fetched := Fetch(GetRequest(cfg, CalendarsPrefix + cfg.calendarEntity.value + query), reply);
    if fetched.Failure? {
      return [CalendarFallback];
    }
    var events := fetched.value;
    drawn := [Upcoming];
    if events == [] {
      drawn := drawn + [NoEvents];
      return;
    }
    var grouping := GroupEvents(events);
    if grouping.Failure? {
      drawn := drawn + [CalendarFallback];
      return;
    }
    var order := grouping.value.order;
    var groups := grouping.value.groups;
    assert groups == GroupsOf(events);
    var dates := SortDates(order);
    assert forall d :: d in dates ==> d in groups by {
      forall d | d in dates ensures d in groups {
        assert d in multiset(dates);
      }
    }
    var lines := LayOut(dates, groups);
    drawn := drawn + lines;
  }

  /** The block falls back exactly when the entity or token is unset, the call
      fails, or some fetched start cannot be parsed. Only the last happens after
      the title is drawn, so the title stays and the label follows it. */
  lemma CalendarFallbackCases(cfg: Settings, query: string, reply: Result<seq<Event>, Error>)
    ensures var attempt := CalendarAttempt(cfg, query, reply);
      attempt.Failure? <==>
        !Truthy(cfg.calendarEntity) || !Truthy(cfg.haToken) || reply.Failure? ||
        (reply.value != [] && !AllParse(reply.value))
    ensures !Truthy(cfg.calendarEntity) || !Truthy(cfg.haToken) || reply.Failure? ==>
      CalendarPlan(cfg, query, reply) == [CalendarFallback]
    ensures (Truthy(cfg.calendarEntity) && Truthy(cfg.haToken) && reply.Success? &&
             reply.value != [] && !AllParse(reply.value)) ==>
      CalendarPlan(cfg, query, reply) == [Upcoming, CalendarFallback]
  {
  }

  /** An empty reply draws the title and the empty notice, and no date or event line. */
  lemma EmptyCalendar(cfg: Settings, query: string)
    requires Truthy(cfg.calendarEntity) && Truthy(cfg.haToken)
    ensures CalendarPlan(cfg, query, Success([])) == [Upcoming, NoEvents]
  {
  }

  /** Without a calendar entity the block is only the fallback label. */
  lemma CalendarUnset(cfg: Settings, query: string, reply: Result<seq<Event>, Error>)
    requires !Truthy(cfg.calendarEntity)
    ensures CalendarPlan(cfg, query, reply) == [CalendarFallback]
  {
  }

  /** With events to show, the lines after the title carry headings for the
      first dates in strictly ascending order, each line fits its limit, and
      the list stops only where the next line would not fit. */
  lemma CalendarOrder(cfg: Settings, query: string, events: seq<Event>)
    requires Truthy(cfg.calendarEntity) && Truthy(cfg.haToken)
    requires events != [] && AllParse(events)
    ensures var drawn := CalendarPlan(cfg, query, Success(events));
      var dates := SortDates(FirstSeen(events));
      var full := FullLayout(dates, GroupsOf(events), CursorStart);
      |drawn| >= 1 && drawn[0] == Upcoming && drawn[1..] <= full &&
      Headings(drawn[1..]) <= dates && Ascending(Headings(drawn[1..])) &&
      (forall k :: 1 <= k < |drawn| ==> Fits(drawn[k])) &&
      (|drawn| - 1 < |full| ==> !Fits(full[|drawn| - 1]))
  {
    var dates := SortDates(FirstSeen(events));
    var groups := GroupsOf(events);
    var full := FullLayout(dates, groups, CursorStart);
    var drawn := CalendarPlan(cfg, query, Success(events));
    assert drawn == [Upcoming] + FitPrefix(full);
    assert drawn[1..] == FitPrefix(full);
    LongestFit(full);
    DrawnHeadings(dates, groups);
  }
}
