# A verified model of the dashboard image generator

The image generator draws a Home Assistant dashboard on an 800x480 canvas for
an e-paper display. A run first checks that the four required settings are
present: the Home Assistant URL, the API token, the weather entity and the
calendar entity. Then it draws four things, one after the other:

- the date headline at the top;
- a weather block on the left: an icon, the condition label, and the
  Now/High/Low readings;
- a calendar block on the right: events grouped under date headings,
  truncated when the canvas runs out;
- an optional AI footer: text returned by the AI task action.

Each block catches its own failure and draws a fallback label after whatever
it had already drawn.

This model covers the decision logic of that run. It takes the replies of
the Home Assistant API as already decoded values: `Result` for a call that
may fail, `Option` for a field that may be missing. Each block produces a
**render plan**: the ordered list of drawing commands it issues (`Render.Draw`).

Modules:

- `Common`:
  - `Option`, `Result` and the error kinds;
  - Python truthiness of an optional text (`Truthy`);
  - how an f-string prints `None` (`Shown`);
  - the decimal text `str()` gives an integer, with its parser.
- `Strings`: `lower()`, single-character `replace()`, and `title()` over ASCII letters.
- `Render`:
  - the canvas size, calendar dates and drawing commands;
  - `Settle`, the `except` shared by all blocks: a failed attempt keeps what
    it had already drawn and adds its fallback label.
- `Config`:
  - the six settings and the start-up check of the four required ones;
  - the request URLs;
  - the token check made before any request;
  - the gating of the AI call.
- `Weather`:
  - the forecast summary (condition, high and low with mirroring);
  - icon lookup through the normalised key, and the condition label;
  - the reading lines and the weather block.
- `Calendar`:
  - event classification;
  - the grouping loop (`GroupEvents`, a method with loop invariants);
  - date sorting and the event lines;
  - the cursor-driven layout loop (`LayOut` and `LayOutEvents`, methods
    proved against the endless layout `FullLayout` cut by `FitPrefix`);
  - the calendar block.
- `Ai`: the two reply shapes, the text extraction, the wrap width and the AI footer.
- `Dashboard`: the whole canvas (`RenderPlan`, `GenerateImage`) and the entry point (`Launch`).

Choices worth knowing:

- **Partial drawings stay on the canvas.** A block that fails keeps the
  drawing commands it issued before the exception, and its fallback label
  is added after them. The weather icon is pasted before the condition
  label is formatted. So a first forecast slot without a condition leaves
  the default icon on the canvas beside "Weather Unavailable". Likewise,
  "Upcoming Events" (at y = 80) is drawn before the events are grouped, so
  an unparsable timestamp draws that title first and then "Calendar
  Unavailable" (at y = 30, higher on the canvas)
  (`image_generator/app.py:168-181`, `203-220`, `253-254`).
- **Temperatures are integers**, printed as Python prints an `int`.
- **Case mapping covers ASCII letters only.**
- **Summary field.** An event whose `summary` key is absent reads
  "No Title". A `summary` that is JSON null reads "None", since
  `dict.get` uses its default only for an absent key.
- **`Calendar.LayOut` and `Calendar.LayOutEvents`** are the outer and inner
  loops of the single layout loop in the source (`image_generator/app.py:227-249`).
  The inner loop is a separate method so that each loop's proof stays small.

## Model

| member | source | states |
|---|---|---|
| `Common.IntTextRoundTrip` | image_generator/app.py:185-187 | the printed temperature reads back as the same integer, so a reading line determines its temperature |
| `Common.IntTextInjective` | image_generator/app.py:185-187 | distinct temperatures print differently |
| `Strings.TitleIdempotent` | image_generator/app.py:180 | title-casing a title-cased text changes nothing |
| `Render.Settle` | image_generator/app.py:191-193 | a block that succeeded draws its commands; a failed one keeps what it drew before the failure and adds its fallback label |
| `Config.CheckRequired` | image_generator/app.py:322-323 | the run may start exactly when URL, token, weather entity and calendar entity are all set and non-empty; otherwise the required-settings error |
| `Config.AiSettingsOptional` | image_generator/app.py:321-323 | the AI settings never change the outcome of the start-up check |
| `Config.ApiUrl` | image_generator/app.py:68 | the URL is as long as the printed base, "/api/" and the endpoint, and ends with the endpoint |
| `Config.EndpointRecoverable` | image_generator/app.py:68 | a request URL is the base, then "/api/", then the endpoint, which can be read back from it |
| `Config.ApiUrlInjective` | image_generator/app.py:68 | different endpoints on one base give different URLs |
| `Config.GetRequest` | image_generator/app.py:60-70 | a GET fails with the token error exactly when the token is unset or empty; otherwise it goes to base + "/api/" + endpoint |
| `Config.PostRequest` | image_generator/app.py:72-85 | a POST fails with the token error exactly when the token is unset or empty; its URL gains "?return_response" exactly when a reply body is asked for |
| `Config.PostExtendsGet` | image_generator/app.py:80-82 | a POST without a reply body uses the GET URL; with one, the same URL plus "?return_response" |
| `Config.Fetch` | image_generator/app.py:68-70 | a call whose token check fails raises that error before any traffic; otherwise it yields the network's reply |
| `Config.AiTaskRequest` | image_generator/app.py:94-106 | no request unless the AI entity and instructions are both set; otherwise a POST to the AI task action asking for its reply |
| `Weather.Normalize` | image_generator/app.py:165 | the lookup key has no hyphen, no upper-case letter, and is no longer than the condition |
| `Weather.NormalizeConcat` | image_generator/app.py:165 | the key of a concatenation is the keys of its parts run together |
| `Weather.NormalizeChar` | image_generator/app.py:165 | a hyphen contributes nothing to the key, any other character its lower-case form; with `NormalizeConcat` this fixes the key of every condition |
| `Weather.NormalizeIdempotent` | image_generator/app.py:28 | normalising a key again changes nothing |
| `Weather.IconFor` | image_generator/app.py:166 | the icon is always the default icon or one of the map's icons |
| `Weather.IconLookup` | image_generator/app.py:165-166 | the icon depends only on the normalised key: the mapped icon when the key is in the map, "help_outline" when it is not or the condition is absent |
| `Weather.KeyIsNormal` | image_generator/app.py:28-45 | a lower-case hyphen-free text is its own lookup key |
| `Weather.HyphenatedKey` | image_generator/app.py:165 | two key parts joined by a hyphen normalise to the parts run together |
| `Weather.HyphenatedCondition` | image_generator/app.py:28-45 | a hyphenated condition such as "clear-night" gets the icon of its hyphen-free key |
| `Weather.UnavailableIcon` | image_generator/app.py:145 | the placeholder condition of an empty forecast has no icon of its own |
| `Weather.SunnyIcon` | image_generator/app.py:42 | "sunny" draws "wb_sunny" and the label "Sunny" |
| `Weather.ConditionLabel` | image_generator/app.py:180 | the label has the condition's length and no hyphen; character by character, a hyphen becomes a space, and each character is upper-cased at the start or after a non-letter and lower-cased after a letter |
| `Weather.LabelIsFixedPoint` | image_generator/app.py:180 | formatting a label again changes nothing |
| `Weather.FirstOfKind` | image_generator/app.py:150-151 | the position of the first daytime (or night-time) slot: that slot is of the kind and none before it is; absent only when no slot is |
| `Weather.Summarise` | image_generator/app.py:143-162 | an empty forecast gives condition "Unavailable" and no high or low; otherwise the first slot's condition; high and low are present together or absent together |
| `Weather.HighLowSelection` | image_generator/app.py:150-156 | wherever the first daytime and first night-time slots sit, the high is the first's temperature and the low the second's |
| `Weather.FirstIsUnique` | image_generator/app.py:150-151 | a slot of the kind with none of the kind before it is the first of its kind |
| `Weather.Mirroring` | image_generator/app.py:158-162 | with only one temperature found both show it; with neither both stay absent |
| `Weather.OnlyDaytime` | image_generator/app.py:150-162 | a non-empty forecast of daytime slots only shows the first slot's temperature, present or absent, as both high and low |
| `Weather.ReadingLines` | image_generator/app.py:185-187 | the high and low lines read "N/A" exactly when their value is absent and otherwise print it recoverably; the Now line never reads "N/A": it prints the temperature recoverably, or "None" when absent |
| `Weather.TempOfFirst` | image_generator/app.py:150-156 | the temperature of the first slot of the kind, absent when no slot is of that kind |
| `Weather.NowLine` | image_generator/app.py:185 | the Now line starts with "Now: " and ends with the degree sign |
| `Weather.HighLine` | image_generator/app.py:186 | the High line starts with "High: " and, for a present high, ends with the degree sign |
| `Weather.LowLine` | image_generator/app.py:187 | the Low line starts with "Low: " and, for a present low, ends with the degree sign |
| `Weather.DrawWeather` | image_generator/app.py:164-189 | drawing fails exactly when the condition is absent, after the default icon at (40, 90); otherwise it starts with the condition's icon and ends with the three readings |
| `Weather.WeatherBlock` | image_generator/app.py:130-193 | the weather block is either the fallback label alone or starts with the icon |
| `Weather.WeatherFallbackCases` | image_generator/app.py:130-193 | the block fails exactly when the entity or token is unset, a call fails, or the first slot has no condition; only the last leaves the default icon drawn before the fallback |
| `Weather.EmptyForecast` | image_generator/app.py:147-189 | an empty forecast draws the default icon, the Now line, "High: N/A" and "Low: N/A", and no condition label |
| `Weather.PlaceholderDrawing` | image_generator/app.py:178-189 | the "Unavailable" condition draws the icon and the readings but no label |
| `Weather.LabelledDrawing` | image_generator/app.py:165-189 | any condition other than the placeholder draws its icon, then its label, then the three readings |
| `Weather.AttemptReachesDrawing` | image_generator/app.py:130-150 | with the entity and token set and both calls answered, the block draws from the current temperature and the summary of the entity's forecast |
| `Weather.UnknownCondition` | image_generator/app.py:165-189 | a condition outside the map still draws its label, with the default icon |
| `Weather.SunnyScenario` | image_generator/app.py:130-189 | 15 now, a sunny day slot at 20 and a night slot at 8 draw the sun icon, "Sunny", "Now: 15°", "High: 20°", "Low: 8°" |
| `Calendar.EventsOn` | image_generator/app.py:209-220 | every event listed under a date is filed under that date |
| `Calendar.FetchOrderKept` | image_generator/app.py:209-220 | the events under a date are exactly the fetched events filed under it, at strictly increasing fetch positions |
| `Calendar.DroppedNeverListed` | image_generator/app.py:212-220 | an event with neither a dateTime nor a date is listed under no date |
| `Calendar.FirstSeen` | image_generator/app.py:209-220 | the grouping's dates are pairwise distinct |
| `Calendar.FirstSeenDates` | image_generator/app.py:209-220 | a date is grouped exactly when some fetched event is filed under it |
| `Calendar.NoEventsOnUnseen` | image_generator/app.py:219-220 | a date never seen has no events |
| `Calendar.Classify` | image_generator/app.py:211-218 | a parsed dateTime files the event under its date; a blank dateTime falls back to the date, filing the event under the parsed `date` value; both blank drops the event; a malformed value met first is the timestamp error |
| `Calendar.GroupEvents` | image_generator/app.py:209-220 | the grouping loop fails exactly when some start is unparsable; otherwise it yields the first-seen dates and, for each, its events in fetch order |
| `Calendar.Insert` | image_generator/app.py:223 | inserting a new date into an ascending list keeps it ascending and adds exactly that date |
| `Calendar.SortDates` | image_generator/app.py:223 | the sorted dates are strictly ascending and are the same dates |
| `Calendar.TwelveHour` | image_generator/app.py:240 | the 12-hour hour is between 1 and 12 |
| `Calendar.Pad2` | image_generator/app.py:240 | hours and minutes print as two digits |
| `Calendar.TimeTextRoundTrip` | image_generator/app.py:240 | the printed "hh:mm AM/PM" time reads back as the same 24-hour time |
| `Calendar.EventLineShape` | image_generator/app.py:237-245 | every event line is "- " and the summary text; an all-day line ends there; a timed line goes on with " at " and ends with its start time; an all-day event without a summary reads "- No Title" |
| `Calendar.FullLayout` | image_generator/app.py:227-249 | the endless layout has at least one line per date and starts with the first date's heading |
| `Calendar.LongestFit` | image_generator/app.py:227-249 | the lines kept are a prefix of the full layout, each fits its limit, and the first line left out does not |
| `Calendar.EventsThen` | image_generator/app.py:235-249 | the lines after a date's events are reached only when all its event lines fitted |
| `Calendar.LayOutEvents` | image_generator/app.py:235-248 | the inner loop draws the longest fitting prefix of a date's event lines, 25 pixels apart, and stops only past 440 |
| `Calendar.LayOut` | image_generator/app.py:204-252 | the layout loop draws exactly the longest prefix of the endless heading/event layout that fits: headings while the cursor is at most 430, events while at most 440 |
| `Calendar.HeadingsOfLayout` | image_generator/app.py:227-231 | the endless layout has one heading per date, in date order |
| `Calendar.DrawnHeadings` | image_generator/app.py:223-231 | the drawn headings are a prefix of the sorted dates, so strictly ascending |
| `Calendar.DrawCalendar` | image_generator/app.py:196-255 | the calendar block method draws exactly the calendar plan, whose cases `CalendarFallbackCases`, `EmptyCalendar` and `CalendarOrder` state: the fallback for an unset entity or token or a failed call; the title and the empty notice for no events; the title and the fallback for a bad timestamp; otherwise the title and the laid-out events |
| `Calendar.CalendarAttempt` | image_generator/app.py:196-252 | a successful attempt starts with "Upcoming Events"; a failed one drew nothing or only that title, and only a bad timestamp fails after the title |
| `Calendar.CalendarPlan` | image_generator/app.py:196-255 | the calendar block is either the fallback label alone or starts with "Upcoming Events" |
| `Calendar.CalendarFallbackCases` | image_generator/app.py:196-255 | the block fails exactly when the entity or token is unset, the call fails, or a fetched start cannot be parsed; the first three draw only "Calendar Unavailable", the last draws "Upcoming Events" and then "Calendar Unavailable" |
| `Calendar.EmptyCalendar` | image_generator/app.py:203-207 | an empty reply draws "Upcoming Events" then "No upcoming events." and no date or event line |
| `Calendar.CalendarUnset` | image_generator/app.py:197-198 | without a calendar entity only "Calendar Unavailable" is drawn |
| `Calendar.CalendarOrder` | image_generator/app.py:204-252 | with events, the title comes first; the rest is a fitting prefix of the full layout whose headings ascend strictly, cut only where the next line would not fit |
| `Ai.WrapWidth` | image_generator/app.py:290-291 | the wrap width is the floor of (800 - 60) / 11, which is 67 |
| `Ai.FirstMatching` | image_generator/app.py:275 | the first state whose entity_id is the configured entity, with every earlier element a non-matching state; raises at a non-dictionary met first |
| `Ai.MatchesEntity` | image_generator/app.py:275 | a non-dictionary element raises; a state matches exactly when its entity_id is the configured entity |
| `Ai.ExtractText` | image_generator/app.py:267-278 | extraction fails only with the shape error; a null reply, a dictionary without service_response or any other non-list value yields no text; a non-dictionary service_response raises; a list reply raises where the search for the matching state raises, yields no text without a match or when the match has no attributes, raises when its attributes are not a dictionary, and otherwise yields its `response` attribute |
| `Ai.AiAttempt` | image_generator/app.py:258-304 | a failed attempt has drawn nothing; a successful one draws at most the footer, only when both AI settings are set, and with non-empty text |
| `Ai.ServiceResponseText` | image_generator/app.py:268-271 | a service response yields its `response` when non-empty, its `data` otherwise |
| `Ai.EntityStateText` | image_generator/app.py:274-278 | a list reply yields the `response` attribute of the first matching state |
| `Ai.AiBlock` | image_generator/app.py:258-313 | the AI footer draws at most one thing |
| `Ai.AiGating` | image_generator/app.py:260 | without both AI settings nothing is drawn; with them but no token, the error label |
| `Ai.AiOutcome` | image_generator/app.py:280-313 | a failed call or malformed field draws the error label; found text draws the footer wrapped at 67; no text draws nothing for a null reply and the error label otherwise |
| `Ai.UnrecognisedReply` | image_generator/app.py:268-283 | a dictionary without service_response, or any other non-list value, draws the error label |
| `Dashboard.GenerateImage` | image_generator/app.py:108-313 | the canvas holds the headline, then the weather, calendar and AI blocks, in that order |
| `Dashboard.Launch` | image_generator/app.py:320-324 | the run refuses exactly when a required setting is missing, and otherwise draws the canvas |
| `Dashboard.RegionsAlwaysDrawn` | image_generator/app.py:191-193 | the weather and calendar blocks always draw something, their data or their fallback label; the AI footer draws at most one thing; so the canvas holds at least three commands |
| `Dashboard.BlocksIndependent` | image_generator/app.py:108-313 | runs with the same weather replies share the headline and weather block; between the weather block and the AI footer lies exactly the calendar block of the calendar reply; runs with the same AI reply end with the same footer |
| `Dashboard.WeatherReadsOwnSettings` | image_generator/app.py:130-193 | the weather block depends on no setting but the URL, the token and the weather entity |
| `Dashboard.CalendarReadsOwnSettings` | image_generator/app.py:196-255 | the calendar block depends on no setting but the URL, the token and the calendar entity |
| `Dashboard.AiReadsOwnSettings` | image_generator/app.py:258-313 | the AI footer depends on no setting but the URL, the token, the AI entity and the instructions |
| `Dashboard.CalendarUnsetAlone` | image_generator/app.py:196-198 | without a calendar entity the calendar block is only "Calendar Unavailable", while the weather block and AI footer are drawn exactly as with one |
| `Dashboard.RenderPlan` | image_generator/app.py:108-313 | the canvas is as long as the headline plus the three blocks, and begins with the centred headline |

## Left out

- HTTP traffic, the JSON decoding of replies and `raise_for_status`: each call's outcome is an input (`Result`), and a failed call is one error kind.
- The PIL canvas, fonts, pasting the icon image, and saving the PNG file. The model stops at the list of drawing commands.
- The icon library and its "?" fallback when an icon cannot be loaded. The model always pastes the chosen icon name.
- Centring and measuring text with `textbbox`, which uses font metrics and float division. A centred text carries only its y coordinate, and the AI footer carries only its text and wrap width.
- `textwrap.fill` line breaking. Only the wrap width is modelled.
- ISO-8601 parsing. A start is given already parsed, or as malformed. Timestamps ending in "Z" and offsets are not modelled; the date and time of day are taken as written in the timestamp.
- The `strftime` text of the date headline and of the calendar date headings. These are a parameter (`headline`) and the `Date` carried by a heading.
- The clock: `datetime.now`, `utcnow` and the calendar query window. These are parameters (`headline`, `query`).
- Reading the environment, and the `print` logging.
- Weather.Summarise: temperatures are integers. Float temperatures and their printing are not modelled.
- Ai.ExtractText: the `response` and `data` fields are taken to be texts or absent. Non-text values and their truthiness are not modelled.
- Weather.ForecastOf: reply shapes that make the source raise and draw "Weather Unavailable" are not modelled: a `service_response` or entity entry that is not a dictionary, a `forecast` value that is not a list, a forecast entry that is not a dictionary, a state whose `attributes` is not a dictionary, and a condition that is not a string. The forecast list is read from a map, with an empty list when the entity is missing.
- Strings.Lower: maps ASCII letters only, whereas Python's `lower()` maps every Unicode letter.
- Strings.Title: treats ASCII letters only as cased, whereas Python's `title()` follows Unicode letter categories; the conditions Home Assistant reports are ASCII.
- Calendar.Classify: a `start` that is not a dictionary, and an event that is not a dictionary, are not modelled.
