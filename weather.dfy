/** The weather block: the condition, high and low picked from a twice-daily
    forecast, the icon looked up from the condition, and the text lines drawn
    on the left of the canvas. */
module Weather {
  import opened Common
  import opened Strings
  import opened Render
  import opened Config

  /** Weather condition codes, normalised (lower case, no hyphens), to Material icon names. */
  const IconMap: map<string, string> := map[
    "clearnight" := "nightlight",
    "cloudy" := "cloud",
    "exceptional" := "warning",
    "fog" := "cloud",
    "hail" := "grain",
    "lightning" := "flash_on",
    "lightningrainy" := "thunderstorm",
    "partlycloudy" := "partly_cloudy_day",
    "pouring" := "water_drop",
    "rainy" := "umbrella",
    "snowy" := "ac_unit",
    "snowyrainy" := "cloudy_snowing",
    "sunny" := "wb_sunny",
    "windy" := "air",
    "windyvariant" := "air"
  ]

  /** The icon for a condition the map does not know. */
  const DefaultIcon: string := "help_outline"

  const StatesPrefix: string := "states/"
  const ForecastEndpoint: string := "services/weather/get_forecasts"

  /** One slot of the twice-daily forecast. `isDaytime` is the truthiness of
      its `is_daytime` field; an absent field or a JSON null is `None`. */
  datatype ForecastEntry = ForecastEntry(condition: Option<string>, isDaytime: bool, temperature: Option<int>)

  /** What the block displays: the condition and the high and low temperatures. */
  datatype Summary = Summary(condition: Option<string>, high: Option<int>, low: Option<int>)

  /** The lookup key of a condition: lowered, every hyphen removed. */
  function Normalize(condition: string): (key: string)
    ensures '-' !in key
    ensures forall i :: 0 <= i < |key| ==> !IsUpper(key[i])
    ensures |key| <= |condition|
  {
    WithoutOfLower(condition, '-');
    WithoutOmits(Lower(condition), '-');
    Without(Lower(condition), '-')
  }

  /** The key is built piece by piece: the key of a concatenation is the keys
      of its parts run together. */
  lemma NormalizeConcat(a: string, b: string)
    ensures Normalize(a + b) == Normalize(a) + Normalize(b)
  {
    LowerConcat(a, b);
    WithoutConcat(Lower(a), Lower(b), '-');
  }

  /** The key of one character: nothing for a hyphen, the lowered character otherwise.
      With `NormalizeConcat` this fixes the key of every condition. */
  lemma NormalizeChar(c: char)
    ensures Normalize([c]) == if c == '-' then [] else [ToLower(c)]
  {
    assert Lower([c]) == [ToLower(c)];
    assert Without([ToLower(c)], '-') == (if ToLower(c) == '-' then [] else [ToLower(c)]) + Without([], '-');
  }

  /** Normalising a key again changes nothing. */
  lemma NormalizeIdempotent(condition: string)
    ensures Normalize(Normalize(condition)) == Normalize(condition)
  {
    var key := Normalize(condition);
    LowerOfLowered(key);
    WithoutTwice(key, '-');
  }

  /** The icon name for a displayed condition; an absent or empty condition has key "". */
  function IconFor(condition: Option<string>): (name: string)
    ensures name == DefaultIcon || name in IconMap.Values
  {
    var key := if Truthy(condition) then Normalize(condition.value) else "";
    if key in IconMap then IconMap[key] else DefaultIcon
  }

  /** The lookup ignores case and hyphens, and falls back on the default icon
      exactly for keys outside the map. */
  lemma IconLookup(condition: string)
    ensures IconFor(Some(condition)) == IconFor(Some(Normalize(condition)))
    ensures Normalize(condition) in IconMap ==> IconFor(Some(condition)) == IconMap[Normalize(condition)]
    ensures Normalize(condition) !in IconMap ==> IconFor(Some(condition)) == DefaultIcon
    ensures IconFor(None) == DefaultIcon
  {
    NormalizeIdempotent(condition);
    assert "" !in IconMap;
  }

  /** A lower-case, hyphen-free string is its own key. */
  predicate IsKey(s: string)
  {
    forall i :: 0 <= i < |s| ==> !IsUpper(s[i]) && s[i] != '-'
  }

  lemma KeyIsNormal(key: string)
    requires IsKey(key)
    ensures Normalize(key) == key
  {
    LowerOfLowered(key);
    WithoutTwice(key, '-');
  }

  /** Lowering two key parts joined by a hyphen changes nothing. */
  lemma LowerOfJoin(a: string, b: string)
    requires IsKey(a) && IsKey(b)
    ensures Lower(a + "-" + b) == a + "-" + b
  {
    LowerConcat(a + "-", b);
    LowerConcat(a, "-");
    LowerOfLowered(a);
    LowerOfLowered(b);
    assert Lower("-") == "-";
  }

  lemma KeyHasNoHyphen(key: string)
    requires IsKey(key)
    ensures '-' !in key
  {
  }

  /** Two key parts joined by a hyphen normalise to the parts run together. */
  lemma HyphenatedKey(a: string, b: string)
    requires IsKey(a) && IsKey(b)
    ensures Normalize(a + "-" + b) == a + b
  {
    LowerOfJoin(a, b);
    KeyHasNoHyphen(a);
    KeyHasNoHyphen(b);
    WithoutJoined(a, b, '-');
  }

  /** A condition written with a hyphen, such as "clear-night", gets the icon
      of its hyphen-free key. */
  lemma HyphenatedCondition(a: string, b: string)
    requires IsKey(a) && IsKey(b) && a + b in IconMap
    ensures IconFor(Some(a + "-" + b)) == IconMap[a + b]
  {
    HyphenatedKey(a, b);
  }

  /** A key starts with the lowered first character of its condition, unless that is a hyphen. */
  lemma NormalizeHead(condition: string)
    requires condition != [] && condition[0] != '-'
    ensures Normalize(condition) != [] && Normalize(condition)[0] == ToLower(condition[0])
  {
    var lowered := Lower(condition);
    assert lowered == [ToLower(condition[0])] + Lower(condition[1..]);
    assert Without(lowered, '-') == [lowered[0]] + Without(lowered[1..], '-');
  }

  /** Proof helper for `UnavailableIcon`: no key of the map begins with "u",
      the first letter of the placeholder's key. */
  lemma NoKeyStartsWithU()
    ensures forall key :: key in IconMap ==> key != [] && key[0] != 'u'
  {
  }

  /** The placeholder condition of an empty forecast has no icon of its own. */
  lemma UnavailableIcon()
    ensures IconFor(Some("Unavailable")) == DefaultIcon
  {
    NormalizeHead("Unavailable");
    NoKeyStartsWithU();
  }

  /** "sunny" is its own key. */
  lemma SunnyKey()
    ensures Normalize("sunny") == "sunny"
  {
    KeyIsNormal("sunny");
  }

  /** The map sends "sunny" to the sun icon. */
  lemma SunnyIsAKey()
    ensures "sunny" in IconMap && IconMap["sunny"] == "wb_sunny"
  {
  }

  /** Title-casing "sunny" raises only its first letter. */
  lemma SunnyTitle()
    ensures Title("sunny") == "Sunny"
  {
    assert TitleFrom("y", true) == "y";
    assert TitleFrom("ny", true) == "ny";
    assert TitleFrom("nny", true) == "nny";
    assert TitleFrom("unny", true) == "unny";
  }

  /** "sunny" draws the sun icon and the label "Sunny". */
  lemma SunnyIcon()
    ensures IconFor(Some("sunny")) == "wb_sunny"
    ensures ConditionLabel("sunny") == "Sunny"
  {
    SunnyKey();
    SunnyIsAKey();
    SunnyTitle();
    ReplaceAbsent("sunny", '-', ' ');
  }

  /** A hyphen of the condition shows as a space in its label. */
  function Spaced(c: char): char
  {
    if c == '-' then ' ' else c
  }

  /** The label drawn beside the icon: hyphens become spaces, then title case. */
  function ConditionLabel(condition: string): (shown: string)
    ensures |shown| == |condition|
    ensures '-' !in shown
    ensures forall i :: 0 <= i < |condition| ==>
      shown[i] == if i == 0 || !IsCased(condition[i - 1]) then ToUpper(Spaced(condition[i])) else ToLower(Spaced(condition[i]))
    ensures forall i :: 0 <= i < |condition| && condition[i] == '-' ==> shown[i] == ' '
  {
    var spaced := Replace(condition, '-', ' ');
    ReplaceAt(condition, '-', ' ');
    var titled := Title(spaced);
    TitleFromAt(spaced, false);
    forall i | 0 <= i < |condition|
      ensures titled[i] ==
        if i == 0 || !IsCased(condition[i - 1]) then ToUpper(Spaced(condition[i])) else ToLower(Spaced(condition[i]))
      ensures condition[i] == '-' ==> titled[i] == ' '
    {
      assert spaced[i] == Spaced(condition[i]);
      if i > 0 {
        assert spaced[i - 1] == Spaced(condition[i - 1]);
      }
    }
    assert forall i :: 0 <= i < |titled| ==> titled[i] != '-' by {
      TitleKeepsHyphenFree(spaced, false);
    }
    titled
  }

  lemma {:induction false} TitleKeepsHyphenFree(s: string, afterCased: bool)
    requires forall i :: 0 <= i < |s| ==> s[i] != '-'
    ensures forall i :: 0 <= i < |TitleFrom(s, afterCased)| ==> TitleFrom(s, afterCased)[i] != '-'
  {
    if s != [] {
      TitleKeepsHyphenFree(s[1..], IsCased(s[0]));
    }
  }

  /** A label is its own label. */
  lemma LabelIsFixedPoint(condition: string)
    ensures ConditionLabel(ConditionLabel(condition)) == ConditionLabel(condition)
  {
    var shown := ConditionLabel(condition);
    ReplaceAbsent(shown, '-', ' ');
    TitleIdempotent(Replace(condition, '-', ' '));
  }

  /** The index of the first daytime (or first night-time) slot, if there is one. */
  function FirstOfKind(forecast: seq<ForecastEntry>, daytime: bool): (r: Option<nat>)
    ensures r.Some? ==> r.value < |forecast| && forecast[r.value].isDaytime == daytime
    ensures r.Some? ==> forall j :: 0 <= j < r.value ==> forecast[j].isDaytime != daytime
    ensures r.None? ==> forall j :: 0 <= j < |forecast| ==> forecast[j].isDaytime != daytime
  {
    if forecast == [] then None
    else if forecast[0].isDaytime == daytime then Some(0)
    else
      match FirstOfKind(forecast[1..], daytime)
      case None => None
      case Some(i) => Some(i + 1)
  }

  /** The temperature of the first slot of a kind; absent when there is no such slot. */
  function TempOfFirst(forecast: seq<ForecastEntry>, daytime: bool): (t: Option<int>)
    ensures forall i :: (0 <= i < |forecast| && forecast[i].isDaytime == daytime &&
                         (forall k :: 0 <= k < i ==> forecast[k].isDaytime != daytime)) ==>
                        t == forecast[i].temperature
    ensures (forall i :: 0 <= i < |forecast| ==> forecast[i].isDaytime != daytime) ==> t.None?
  {
    match FirstOfKind(forecast, daytime)
    case None => None
    case Some(i) => forecast[i].temperature
  }

  /** The condition of the first slot, the first daytime temperature as the high
      and the first night-time one as the low, each standing in for the other
      when it is missing. An empty forecast leaves the condition "Unavailable". */
  function Summarise(forecast: seq<ForecastEntry>): (s: Summary)
    ensures forecast == [] ==> s == Summary(Some("Unavailable"), None, None)
    ensures forecast != [] ==> s.condition == forecast[0].condition
    ensures s.high.None? <==> s.low.None?
  {
    if forecast == [] then Summary(Some("Unavailable"), None, None)
    else
      var high := TempOfFirst(forecast, true);
      var low := TempOfFirst(forecast, false);
      Summary(forecast[0].condition,
              if high.None? then low else high,
              if low.None? then high else low)
  }

  /** Wherever the first daytime slot `i` and the first night-time slot `j`
      sit in the list, the high comes from `i` and the low from `j`. */
  lemma HighLowSelection(forecast: seq<ForecastEntry>, i: nat, j: nat)
    requires i < |forecast| && forecast[i].isDaytime && forall k :: 0 <= k < i ==> !forecast[k].isDaytime
    requires j < |forecast| && !forecast[j].isDaytime && forall k :: 0 <= k < j ==> forecast[k].isDaytime
    requires forecast[i].temperature.Some? && forecast[j].temperature.Some?
    ensures Summarise(forecast).high == forecast[i].temperature
    ensures Summarise(forecast).low == forecast[j].temperature
  {
    FirstIsUnique(forecast, true, i);
    FirstIsUnique(forecast, false, j);
  }

  lemma FirstIsUnique(forecast: seq<ForecastEntry>, daytime: bool, i: nat)
    requires i < |forecast| && forecast[i].isDaytime == daytime
    requires forall k :: 0 <= k < i ==> forecast[k].isDaytime != daytime
    ensures FirstOfKind(forecast, daytime) == Some(i)
  {
  }

  /** With only one of the two temperatures found, both show it; with neither, both are absent. */
  lemma Mirroring(forecast: seq<ForecastEntry>)
    ensures TempOfFirst(forecast, true).Some? && TempOfFirst(forecast, false).None? ==>
      Summarise(forecast).high == Summarise(forecast).low == TempOfFirst(forecast, true)
    ensures TempOfFirst(forecast, true).None? && TempOfFirst(forecast, false).Some? ==>
      Summarise(forecast).high == Summarise(forecast).low == TempOfFirst(forecast, false)
    ensures TempOfFirst(forecast, true).None? && TempOfFirst(forecast, false).None? ==>
      Summarise(forecast).high.None? && Summarise(forecast).low.None?
  {
  }

  /** A forecast made only of daytime slots shows the first slot's temperature as both high and low. */
  lemma OnlyDaytime(forecast: seq<ForecastEntry>)
    requires forecast != []
    requires forall k :: 0 <= k < |forecast| ==> forecast[k].isDaytime
    ensures Summarise(forecast).high == Summarise(forecast).low == forecast[0].temperature
  {
    FirstIsUnique(forecast, true, 0);
    assert FirstOfKind(forecast, false).None?;
  }

  /** How `f"{value}"` prints a temperature; a JSON null prints as "None". */
  function TempText(t: Option<int>): string
  {
    if t.Some? then IntText(t.value) else "None"
  }

  /** `f"Now: {temp}°"` */
  function NowLine(now: Option<int>): (line: string)
    ensures |line| > 6 && line[..5] == "Now: " && line[|line| - 1] == '°'
  {
    "Now: " + TempText(now) + "°"
  }

  /** The high reading, "N/A" when there is none. */
  function HighLine(high: Option<int>): (line: string)
    ensures |line| > 6 && line[..6] == "High: "
    ensures high.Some? ==> line[|line| - 1] == '°'
  {
    if high.Some? then "High: " + IntText(high.value) + "°" else "High: N/A"
  }

  /** The low reading, "N/A" when there is none. */
  function LowLine(low: Option<int>): (line: string)
    ensures |line| > 5 && line[..5] == "Low: "
    ensures low.Some? ==> line[|line| - 1] == '°'
  {
    if low.Some? then "Low: " + IntText(low.value) + "°" else "Low: N/A"
  }

  /** Only a missing high or low reads "N/A"; the current temperature never does,
      and prints as "None" when absent. A printed reading determines the temperature. */
  lemma ReadingLines(t: Option<int>)
    ensures HighLine(t) == "High: N/A" <==> t.None?
    ensures LowLine(t) == "Low: N/A" <==> t.None?
    ensures t.Some? ==> ParseInt(HighLine(t)[6..|HighLine(t)| - 1]) == t
    ensures t.Some? ==> ParseInt(LowLine(t)[5..|LowLine(t)| - 1]) == t
    ensures NowLine(t) != "Now: N/A"
    ensures t.Some? ==> ParseInt(NowLine(t)[5..|NowLine(t)| - 1]) == t
    ensures t.None? ==> NowLine(t) == "Now: None°"
  {
    if t.Some? {
      var s := IntText(t.value);
      IntTextRoundTrip(t.value);
      assert NowLine(t)[5..|NowLine(t)| - 1] == s;
      assert HighLine(t)[6..|HighLine(t)| - 1] == s;
      assert LowLine(t)[5..|LowLine(t)| - 1] == s;
      assert HighLine(t)[6] != 'N' by {
        if t.value < 0 { assert HighLine(t)[6] == '-'; } else { assert IsDigit(s[0]); }
      }
      assert LowLine(t)[5] != 'N' by {
        if t.value < 0 { assert LowLine(t)[5] == '-'; } else { assert IsDigit(s[0]); }
      }
    }
    assert NowLine(t)[|NowLine(t)| - 1] == '°';
  }

  /** The three reading lines, 40 pixels apart from y = 200. */
  function Readings(now: Option<int>, s: Summary): seq<Draw>
  {
    [Text(30, 200, NowLine(now)), Text(30, 240, HighLine(s.high)), Text(30, 280, LowLine(s.low))]
  }

  /** The forecast list of the weather entity inside the forecast action's reply. */
  function ForecastOf(reply: map<string, seq<ForecastEntry>>, entity: string): seq<ForecastEntry>
  {
    if entity in reply then reply[entity] else []
  }

  /** What the block draws once both replies are in. The icon is pasted before
      the label is formatted, so a missing condition fails after the icon is drawn. */
  function DrawWeather(now: Option<int>, s: Summary): (r: Result<seq<Draw>, Interrupted>)
    ensures r.Failure? <==> s.condition.None?
    ensures r.Failure? ==> r.error.drawn == [Icon(40, 90, DefaultIcon)] && r.error.cause == NoCondition
    ensures r.Success? ==>
      |r.value| >= 4 && r.value[0] == Icon(40, 90, IconFor(s.condition)) && r.value[|r.value| - 3..] == Readings(now, s)
  {
    var icon := [Icon(40, 90, IconFor(s.condition))];
    if s.condition == Some("Unavailable") then Success(icon + Readings(now, s))
    else if s.condition.None? then Failure(Interrupted(icon, NoCondition))
    else Success(icon + [Text(140, 125, ConditionLabel(s.condition.value))] + Readings(now, s))
  }

  /** The body of the weather block's `try`: the entity check, the state call,
      the forecast call, then the drawing. */
  function WeatherAttempt(cfg: Settings, stateReply: Result<Option<int>, Error>,
                          forecastReply: Result<map<string, seq<ForecastEntry>>, Error>): Result<seq<Draw>, Interrupted>
  {
    if !Truthy(cfg.weatherEntity) then Failure(Interrupted([], Unset("WEATHER_ENTITY")))
    else
      var entity := cfg.weatherEntity.value;
      var state := Fetch(GetRequest(cfg, StatesPrefix + entity), stateReply);
      if state.Failure? then Failure(Interrupted([], state.error))
      else
        var reply := Fetch(PostRequest(cfg, ForecastEndpoint, true), forecastReply);
        if reply.Failure? then Failure(Interrupted([], reply.error))
        else DrawWeather(state.value, Summarise(ForecastOf(reply.value, entity)))
  }

  const WeatherFallback: Draw := Text(30, 80, "Weather Unavailable")

  /** The weather block as drawn, its `except` included. */
  function WeatherBlock(cfg: Settings, stateReply: Result<Option<int>, Error>,
                        forecastReply: Result<map<string, seq<ForecastEntry>>, Error>): (r: seq<Draw>)
    ensures |r| >= 1
    ensures r == [WeatherFallback] || r[0].Icon?
  {
    Settle(WeatherAttempt(cfg, stateReply, forecastReply), WeatherFallback)
  }

  /** The attempt fails exactly when the entity is unset, the token is unset, a
      call fails, or the first slot has no condition; only in the last case has
      something (the default icon) been drawn before the failure. */
  lemma WeatherFallbackCases(cfg: Settings, stateReply: Result<Option<int>, Error>,
                             forecastReply: Result<map<string, seq<ForecastEntry>>, Error>)
    ensures var attempt := WeatherAttempt(cfg, stateReply, forecastReply);
      attempt.Failure? <==>
        !Truthy(cfg.weatherEntity) || !Truthy(cfg.haToken) || stateReply.Failure? || forecastReply.Failure?
        || (var f := ForecastOf(forecastReply.value, cfg.weatherEntity.value); f != [] && f[0].condition.None?)
    ensures var attempt := WeatherAttempt(cfg, stateReply, forecastReply);
      attempt.Failure? ==>
        if Truthy(cfg.weatherEntity) && Truthy(cfg.haToken) && stateReply.Success? && forecastReply.Success?
        then attempt.error.drawn == [Icon(40, 90, DefaultIcon)]
        else attempt.error.drawn == []
  {
    if Truthy(cfg.weatherEntity) && Truthy(cfg.haToken) && stateReply.Success? && forecastReply.Success? {
      var f := ForecastOf(forecastReply.value, cfg.weatherEntity.value);
      var s := Summarise(f);
      assert s.condition.None? <==> f != [] && f[0].condition.None?;
      assert IconFor(None) == DefaultIcon;
    }
  }

  /** An empty forecast: the default icon, no label, and "N/A" for high and low. */
  lemma EmptyForecast(now: Option<int>, forecast: seq<ForecastEntry>)
    requires |forecast| == 0
    ensures DrawWeather(now, Summarise(forecast)) ==
      Success([Icon(40, 90, DefaultIcon), Text(30, 200, NowLine(now)), Text(30, 240, "High: N/A"), Text(30, 280, "Low: N/A")])
  {
    var s := Summarise(forecast);
    PlaceholderDrawing(now, s);
    NoReadings(now, s);
    var icon := Icon(40, 90, DefaultIcon);
    JoinFour(icon, Text(30, 200, NowLine(now)), Text(30, 240, "High: N/A"), Text(30, 280, "Low: N/A"));
  }

  lemma NoReadings(now: Option<int>, s: Summary)
    requires s.high.None? && s.low.None?
    ensures Readings(now, s) == [Text(30, 200, NowLine(now)), Text(30, 240, "High: N/A"), Text(30, 280, "Low: N/A")]
  {
  }

  /** Proof helper for `EmptyForecast`: the icon in front of the three reading lines. */
  lemma JoinFour<T>(a: T, b: T, c: T, d: T)
    ensures [a] + [b, c, d] == [a, b, c, d]
  {
  }

  /** Proof helper for `SunnyDrawing`: icon and label in front of the three reading lines. */
  lemma JoinTwoThree<T>(a: T, b: T, c: T, d: T, e: T)
    ensures [a, b] + [c, d, e] == [a, b, c, d, e]
  {
  }

  /** The placeholder condition draws the default icon and the readings, and no label. */
  lemma PlaceholderDrawing(now: Option<int>, s: Summary)
    requires s.condition == Some("Unavailable")
    ensures DrawWeather(now, s) == Success([Icon(40, 90, DefaultIcon)] + Readings(now, s))
  {
    UnavailableIcon();
  }

  /** A condition the map does not know still draws its label, with the default icon. */
  lemma UnknownCondition(now: Option<int>, forecast: seq<ForecastEntry>)
    requires forecast != [] && forecast[0].condition.Some? && forecast[0].condition != Some("Unavailable")
    requires Normalize(forecast[0].condition.value) !in IconMap
    ensures var s := Summarise(forecast);
      DrawWeather(now, s) == Success([Icon(40, 90, DefaultIcon), Text(140, 125, ConditionLabel(s.condition.value))]
                                     + Readings(now, s))
  {
    var s := Summarise(forecast);
    IconLookup(forecast[0].condition.value);
    assert IconFor(s.condition) == DefaultIcon;
    assert s.condition.Some? && s.condition != Some("Unavailable");
    var shown := Text(140, 125, ConditionLabel(s.condition.value));
    assert [Icon(40, 90, IconFor(s.condition))] + [shown] == [Icon(40, 90, DefaultIcon), shown];
  }

  /** The reading lines of the example: 15 now, 20 high, 8 low. */
  lemma SunnyReadings()
    ensures NowLine(Some(15)) == "Now: 15°"
    ensures HighLine(Some(20)) == "High: 20°"
    ensures LowLine(Some(8)) == "Low: 8°"
  {
    assert IntText(15) == "15";
    assert IntText(20) == "20";
    assert IntText(8) == "8";
  }

  /** With the entity and token set and both calls answered, the attempt is the drawing. */
  lemma AttemptReachesDrawing(cfg: Settings, now: Option<int>, forecastReply: map<string, seq<ForecastEntry>>)
    requires Truthy(cfg.weatherEntity) && Truthy(cfg.haToken)
    ensures WeatherAttempt(cfg, Success(now), Success(forecastReply)) ==
      DrawWeather(now, Summarise(ForecastOf(forecastReply, cfg.weatherEntity.value)))
  {
  }

  /** A condition other than the placeholder draws its icon, its label and the readings. */
  lemma LabelledDrawing(now: Option<int>, s: Summary)
    requires s.condition.Some? && s.condition != Some("Unavailable")
    ensures DrawWeather(now, s) ==
      Success([Icon(40, 90, IconFor(s.condition)), Text(140, 125, ConditionLabel(s.condition.value))] + Readings(now, s))
  {
    var icon := Icon(40, 90, IconFor(s.condition));
    var caption := Text(140, 125, ConditionLabel(s.condition.value));
    assert [icon] + [caption] == [icon, caption];
  }

  /** A sunny day slot at 20 and a night slot at 8, with 15 now. */
  lemma SunnyDrawing(f: seq<ForecastEntry>)
    requires f == [ForecastEntry(Some("sunny"), true, Some(20)), ForecastEntry(Some("sunny"), false, Some(8))]
    ensures DrawWeather(Some(15), Summarise(f)) ==
      Success([Icon(40, 90, "wb_sunny"), Text(140, 125, "Sunny"),
               Text(30, 200, "Now: 15°"), Text(30, 240, "High: 20°"), Text(30, 280, "Low: 8°")])
  {
    var s := Summarise(f);
    HighLowSelection(f, 0, 1);
    assert s == Summary(Some("sunny"), Some(20), Some(8));
    assert "sunny" != "Unavailable" by { assert "sunny"[0] != "Unavailable"[0]; }
    LabelledDrawing(Some(15), s);
    SunnyIcon();
    SunnyReadings();
    JoinTwoThree(Icon(40, 90, "wb_sunny"), Text(140, 125, "Sunny"),
                 Text(30, 200, "Now: 15°"), Text(30, 240, "High: 20°"), Text(30, 280, "Low: 8°"));
  }

  /** An example: 15 now, a sunny day slot at 20 and a night slot at 8. */
  lemma SunnyScenario(cfg: Settings, forecastReply: map<string, seq<ForecastEntry>>)
    requires Truthy(cfg.weatherEntity) && Truthy(cfg.haToken)
    requires ForecastOf(forecastReply, cfg.weatherEntity.value) ==
      [ForecastEntry(Some("sunny"), true, Some(20)), ForecastEntry(Some("sunny"), false, Some(8))]
    ensures WeatherBlock(cfg, Success(Some(15)), Success(forecastReply)) ==
      [Icon(40, 90, "wb_sunny"), Text(140, 125, "Sunny"),
       Text(30, 200, "Now: 15°"), Text(30, 240, "High: 20°"), Text(30, 280, "Low: 8°")]
  {
    AttemptReachesDrawing(cfg, Some(15), forecastReply);
    SunnyDrawing(ForecastOf(forecastReply, cfg.weatherEntity.value));
  }
}
