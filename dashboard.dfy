/** One run of the generator: the start-up check of the required settings,
    then the canvas drawn block by block — the date headline, the weather
    block on the left, the calendar block on the right and the AI footer —
    each block catching its own failure. */
module Dashboard {
  import opened Common
  import opened Render
  import opened Config
  import Weather
  import Calendar
  import Ai

  /** What the network answered to each call of one run. */
  datatype Replies = Replies(
    weatherState: Result<Option<int>, Error>,
    forecast: Result<map<string, seq<Weather.ForecastEntry>>, Error>,
    calendar: Result<seq<Calendar.Event>, Error>,
    ai: Result<Ai.AiData, Error>)

  const HeadlineY: int := 20

  /** The whole canvas: the headline, then the three blocks in drawing order.
      `headline` is today's date as printed and `query` the calendar window,
      both taken from the clock. */
  function RenderPlan(cfg: Settings, headline: string, query: string, replies: Replies): (r: seq<Draw>)
    ensures |r| == 1 + |Weather.WeatherBlock(cfg, replies.weatherState, replies.forecast)|
      + |Calendar.CalendarPlan(cfg, query, replies.calendar)| + |Ai.AiBlock(cfg, replies.ai)|
    ensures r[0] == CenteredText(HeadlineY, headline)
  {
    [CenteredText(HeadlineY, headline)]
      + Weather.WeatherBlock(cfg, replies.weatherState, replies.forecast)
      + Calendar.CalendarPlan(cfg, query, replies.calendar)
      + Ai.AiBlock(cfg, replies.ai)
  }

  /** `generate_image`: draws the blocks one after the other on one canvas. */
  method GenerateImage(cfg: Settings, headline: string, query: string, replies: Replies) returns (drawn: seq<Draw>)
    ensures drawn == RenderPlan(cfg, headline, query, replies)
  {
    drawn := [CenteredText(HeadlineY, headline)];
    drawn := drawn + Weather.WeatherBlock(cfg, replies.weatherState, replies.forecast);
    var calendar := Calendar.DrawCalendar(cfg, query, replies.calendar);
    drawn := drawn + calendar;
    drawn := drawn + Ai.AiBlock(cfg, replies.ai);
  }

  /** The entry point: refuses to run unless the four required settings are
      set, and otherwise draws the canvas. */
  method Launch(cfg: Settings, headline: string, query: string, replies: Replies) returns (r: Result<seq<Draw>, Error>)
    ensures r.Failure? <==>
      !(Truthy(cfg.haUrl) && Truthy(cfg.haToken) && Truthy(cfg.weatherEntity) && Truthy(cfg.calendarEntity))
    ensures r.Failure? ==> r.error == RequiredUnset
    ensures r.Success? ==> r.value == RenderPlan(cfg, headline, query, replies)
  {
    var check := CheckRequired(cfg);
    if check.Failure? {
      return Failure(check.error);
    }
    var drawn := GenerateImage(cfg, headline, query, replies);
    r := Success(drawn);
  }

  /** The weather and calendar blocks always draw something, their data or
      their fallback label, and the AI footer draws at most one thing. */
  lemma RegionsAlwaysDrawn(cfg: Settings, headline: string, query: string, replies: Replies)
    ensures |Weather.WeatherBlock(cfg, replies.weatherState, replies.forecast)| >= 1
    ensures |Calendar.CalendarPlan(cfg, query, replies.calendar)| >= 1
    ensures |Ai.AiBlock(cfg, replies.ai)| <= 1
    ensures 3 <= |RenderPlan(cfg, headline, query, replies)|
  {
  }

  /** Proof helper for `BlocksIndependent`: two canvases joined from a
      headline and three parts share the parts' places when the parts agree. */
  lemma Segments(h: seq<Draw>, w1: seq<Draw>, c1: seq<Draw>, a1: seq<Draw>,
                 w2: seq<Draw>, c2: seq<Draw>, a2: seq<Draw>)
    ensures var p1, p2, k := h + w1 + c1 + a1, h + w2 + c2 + a2, |h| + |w1|;
      w1 == w2 ==> k <= |p1| && k <= |p2| && p1[..k] == p2[..k]
    ensures var p1, k := h + w1 + c1 + a1, |h| + |w1|;
      k <= |p1| - |a1| && p1[k..|p1| - |a1|] == c1
    ensures var p1, p2 := h + w1 + c1 + a1, h + w2 + c2 + a2;
      a1 == a2 ==> |a1| <= |p1| && |a1| <= |p2| && p1[|p1| - |a1|..] == p2[|p2| - |a1|..]
  {
    var p1, p2 := h + w1 + c1 + a1, h + w2 + c2 + a2;
    assert p1[..|h| + |w1|] == h + w1;
    assert p2[..|h| + |w2|] == h + w2;
    assert p1[|h| + |w1|..|p1| - |a1|] == c1;
    assert p1[|p1| - |a1|..] == a1;
    assert p2[|p2| - |a2|..] == a2;
  }

  /** A failing block does not disturb the others: two runs whose weather
      replies agree draw the same headline and weather block, the calendar
      block sits between the weather block and the footer whatever the other
      replies are, and two runs whose AI replies agree end with the same
      footer. */
  lemma BlocksIndependent(cfg: Settings, headline: string, query: string, r1: Replies, r2: Replies)
    ensures var k := 1 + |Weather.WeatherBlock(cfg, r1.weatherState, r1.forecast)|;
      r1.weatherState == r2.weatherState && r1.forecast == r2.forecast ==>
        k <= |RenderPlan(cfg, headline, query, r1)| && k <= |RenderPlan(cfg, headline, query, r2)| &&
        RenderPlan(cfg, headline, query, r1)[..k] == RenderPlan(cfg, headline, query, r2)[..k]
    ensures var p := RenderPlan(cfg, headline, query, r1);
      var k := 1 + |Weather.WeatherBlock(cfg, r1.weatherState, r1.forecast)|;
      var m := |Ai.AiBlock(cfg, r1.ai)|;
      k <= |p| - m && p[k..|p| - m] == Calendar.CalendarPlan(cfg, query, r1.calendar)
    ensures var p1 := RenderPlan(cfg, headline, query, r1);
      var p2 := RenderPlan(cfg, headline, query, r2);
      var m := |Ai.AiBlock(cfg, r1.ai)|;
      r1.ai == r2.ai ==> m <= |p1| && m <= |p2| && p1[|p1| - m..] == p2[|p2| - m..]
  {
    var h := [CenteredText(HeadlineY, headline)];
    var w1, c1, a1 := Weather.WeatherBlock(cfg, r1.weatherState, r1.forecast),
      Calendar.CalendarPlan(cfg, query, r1.calendar), Ai.AiBlock(cfg, r1.ai);
    var w2, c2, a2 := Weather.WeatherBlock(cfg, r2.weatherState, r2.forecast),
      Calendar.CalendarPlan(cfg, query, r2.calendar), Ai.AiBlock(cfg, r2.ai);
    assert RenderPlan(cfg, headline, query, r1) == h + w1 + c1 + a1;
    assert RenderPlan(cfg, headline, query, r2) == h + w2 + c2 + a2;
    Segments(h, w1, c1, a1, w2, c2, a2);
  }

  /** The weather block reads only the URL, the token and the weather entity. */
  lemma WeatherReadsOwnSettings(c1: Settings, c2: Settings, replies: Replies)
    requires c1.haUrl == c2.haUrl && c1.haToken == c2.haToken && c1.weatherEntity == c2.weatherEntity
    ensures Weather.WeatherBlock(c1, replies.weatherState, replies.forecast) ==
      Weather.WeatherBlock(c2, replies.weatherState, replies.forecast)
  {
    assert Weather.WeatherAttempt(c1, replies.weatherState, replies.forecast) ==
      Weather.WeatherAttempt(c2, replies.weatherState, replies.forecast);
  }

  /** The calendar block reads only the URL, the token and the calendar entity. */
  lemma CalendarReadsOwnSettings(c1: Settings, c2: Settings, query: string, replies: Replies)
    requires c1.haUrl == c2.haUrl && c1.haToken == c2.haToken && c1.calendarEntity == c2.calendarEntity
    ensures Calendar.CalendarPlan(c1, query, replies.calendar) == Calendar.CalendarPlan(c2, query, replies.calendar)
  {
    assert Calendar.CalendarAttempt(c1, query, replies.calendar) == Calendar.CalendarAttempt(c2, query, replies.calendar);
  }

  /** The AI footer reads only the URL, the token and the two AI settings. */
  lemma AiReadsOwnSettings(c1: Settings, c2: Settings, replies: Replies)
    requires c1.haUrl == c2.haUrl && c1.haToken == c2.haToken
    requires c1.aiEntityId == c2.aiEntityId && c1.aiInstructions == c2.aiInstructions
    ensures Ai.AiBlock(c1, replies.ai) == Ai.AiBlock(c2, replies.ai)
  {
    assert AiTaskRequest(c1) == AiTaskRequest(c2);
    assert Ai.AiAttempt(c1, replies.ai) == Ai.AiAttempt(c2, replies.ai);
  }

  /** Without a calendar entity only the calendar block falls back; the
      headline, the weather block and the footer are drawn as usual. */
  lemma CalendarUnsetAlone(cfg: Settings, headline: string, query: string, replies: Replies)
    ensures RenderPlan(cfg.(calendarEntity := None), headline, query, replies) ==
      [CenteredText(HeadlineY, headline)] + Weather.WeatherBlock(cfg, replies.weatherState, replies.forecast)
        + [Calendar.CalendarFallback] + Ai.AiBlock(cfg, replies.ai)
  {
    WeatherReadsOwnSettings(cfg.(calendarEntity := None), cfg, replies);
    AiReadsOwnSettings(cfg.(calendarEntity := None), cfg, replies);
    Calendar.CalendarUnset(cfg.(calendarEntity := None), query, replies.calendar);
  }
}
