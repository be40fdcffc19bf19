# KPI dashboard core, modelled in Dafny

This project models the logic of a small React KPI dashboard. The dashboard
shows recovered revenue and other KPIs as cards. Each card holds a
date-aligned line chart of the current and the previous period. Around the
cards sit a settings page backed by a `client_settings` table, an account
page, a login modal and the navigation that guards the signed-in sections.

The model covers:

- the chart (`LineGraph`): it builds a frame of calendar-day keys ending
  today, aligns two series onto it by date or by position, computes the
  value domain and the scales of a 220 x 100 view box, and produces the
  polylines, the axis labels and the hover readout;
- the trend helpers (`Trends`): the split of a series into the current and
  the previous period, and the percentage change between them;
- the KPI arithmetic and the contact form of the home page (`Home`);
- the trend colour, the trend label and the unit placement of a card
  (`KpiCard`);
- the settings API over the `client_settings` table (`SettingsApi`);
- the section guard and the page dispatch of the app shell (`App`);
- the submit state machines of the login form (`Login`), the account page
  (`Account`) and the settings page (`SettingsPage`).

Supporting modules model the parts of JavaScript the code relies on:

- `Base`: `Option`, `Result` and backend replies;
- `JsText`: `String(n)`, `padStart`, `trim`, `parseInt`, `split`;
- `JsArray`: `slice` with negative positions, and the `reduce` sum;
- `Calendar`: the civil-date and day-number arithmetic behind `Date.UTC`
  and `getUTC*`.

Dates are whole day numbers, because every `Date` the chart builds falls on
midnight UTC. Numbers are `real`. A value that is not a number (`NaN`,
`undefined`, `null`) is `None`, except a card's trend: the card treats
`NaN` and the infinities as numbers, so `KpiCard.Trend` keeps them apart. Today's Amsterdam date, the pointer
position and every backend answer are parameters. Each async handler is
split into a `Begin…` method, which runs up to the awaited call, and an
`End…` method, which runs once the call has answered. This way the state
while the call is in flight (`loading`, `saving`) is visible.

## Model

| member | source | states |
|---|---|---|
| Base.OrElse | src/components/Settings.js:33-38 | a falsy string ("") is replaced by the fallback, any other is kept; this is also the `err.message` fallback of every handler |
| JsText.NatToString | src/components/LineGraph.js:50-52 | `String(n)` has at least one character |
| JsText.NatToStringDigits | src/components/LineGraph.js:50-52 | `String(n)` is decimal digits, with no leading zero, that denote `n` |
| JsText.IntToString | src/components/LineGraph.js:49-52 | `String(i)` of a negative number is "-" followed by the digits of its magnitude |
| JsText.PadStart | src/components/LineGraph.js:50-51 | `padStart` yields the larger of the width and the input length |
| JsText.PadStartContent | src/components/LineGraph.js:50-51 | `padStart` keeps a long enough string unchanged, and otherwise puts fill characters before the unchanged input |
| JsText.TrimStart | src/components/Account.js:116 | dropping leading white space never lengthens the string |
| JsText.TrimStartContent | src/components/Account.js:116 | `trimStart` drops exactly the leading white space, and the result starts with a non-space |
| JsText.TrimEnd | src/components/Account.js:116 | dropping trailing white space never lengthens the string |
| JsText.TrimEndContent | src/components/Account.js:116 | `trimEnd` drops exactly the trailing white space, and the result ends with a non-space |
| JsText.TrimEnds | src/components/Account.js:116 | `trim` leaves no white space at either end |
| JsText.Trim | src/components/Account.js:116-117 | `trim` never lengthens the string, and a name trims to "" exactly when it is all white space |
| JsText.DigitPrefix | src/components/LineGraph.js:42 | the digits `parseInt` reads form a prefix of the input made only of digits |
| JsText.DigitPrefixOfDigits | src/components/LineGraph.js:42 | on a digit string `parseInt` reads all of it |
| JsText.ParseInt | src/components/LineGraph.js:42 | `parseInt` of a non-empty digit string is the number it denotes; of "" it is NaN |
| JsText.Split | src/components/LineGraph.js:42 | `split` always yields at least one part |
| JsText.SplitNoSeparator | src/components/LineGraph.js:42 | a string without the separator splits into itself alone |
| JsText.SplitAtFirst | src/components/LineGraph.js:42 | splitting `a + "-" + b`, where `a` has no "-", gives `a` and then the parts of `b` |
| JsText.Prefix | src/components/LineGraph.js:75 | `slice(0, 10)` is the first `min(10, length)` characters |
| JsText.LeadingZero | src/components/LineGraph.js:50-51 | a padding zero does not change the value of a digit string |
| JsArray.RelativeIndex | src/lib/trends.js:23-24 | `slice` reads a negative position from the end and clamps every position to `0..n` |
| JsArray.Slice | src/lib/trends.js:23-24 | a slice is never longer than the array |
| JsArray.SliceResolved | src/lib/trends.js:23-24 | a slice is the elements between its resolved bounds, or empty when they cross |
| JsArray.SumAppend | src/components/Home.js:129-136 | the `reduce` sum of a concatenation is the sum of the sums |
| JsArray.SumFirst | src/components/Home.js:129-136 | the left-to-right sum equals the first element plus the sum of the rest |
| Calendar.DaysInMonth | src/components/LineGraph.js:43 | every month has 28 to 31 days |
| Calendar.DaysBeforeMonth | src/components/LineGraph.js:43 | the days before a month lie within the year, and the days before "month 13" are the whole year |
| Calendar.MakeDay | src/components/LineGraph.js:43 | `Date.UTC(y, m - 1, d)` of a valid date is that date's day number |
| Calendar.CivilFromOffset | src/components/LineGraph.js:49-51 | the date `r` days after January 1 of a year is valid and has the matching day number |
| Calendar.CivilFromDays | src/components/LineGraph.js:49-51 | `getUTCFullYear`/`getUTCMonth() + 1`/`getUTCDate` of a day number give a valid date with that day number |
| Calendar.DaysFromCivilInjective | src/components/LineGraph.js:43 | two valid dates with the same day number are the same date |
| Calendar.CivilRoundTrip | src/components/LineGraph.js:43-51 | reading back the fields of a valid date's day number gives that date |
| Calendar.NextDay | src/components/LineGraph.js:45-47 | the calendar day after a valid date is valid |
| Calendar.NextDayNumber | src/components/LineGraph.js:45-51 | adding one day (86400000 ms) to a day number moves to the next calendar day, across month and year ends |
| Calendar.FourDigitYearInRange | src/components/LineGraph.js:43 | dates of the years 1000..9999 lie within the range of a JavaScript Date |
| LineGraph.TimeClip | src/components/LineGraph.js:43-46 | a Date is valid exactly within +-1e8 days of the epoch |
| LineGraph.OrDefault | src/components/LineGraph.js:43 | a falsy part (NaN or 0) is replaced by the fallback |
| LineGraph.AddDaysUtc | src/components/LineGraph.js:45-47 | adding days to an Invalid Date gives an Invalid Date; otherwise it adds the days |
| LineGraph.YmdToUtc | src/components/LineGraph.js:41-44 | every result is a valid Date within 1e8 days of the epoch or an Invalid Date; fields that form a real date of a four-digit year give that date's own day number |
| LineGraph.ToYmd | src/components/LineGraph.js:48-53 | an Invalid Date prints "NaN-NaN-NaN"; `ymdToUTC` reads every day of a four-digit year back from the key `toYMD` prints for it |
| LineGraph.YmdFieldsOfFormatted | src/components/LineGraph.js:41-44 | `ymdToUTC` reads the year, month and day of every `YYYY-MM-DD` key with a four-digit year |
| LineGraph.YmdParses | src/components/LineGraph.js:41-44 | `ymdToUTC` of such a key is midnight UTC of that date |
| LineGraph.YmdRoundTrip | src/components/LineGraph.js:41-53 | `toYMD(ymdToUTC(s)) == s` for every valid zero-padded key of a four-digit year |
| LineGraph.YmdEmptyIsEpoch | src/components/LineGraph.js:42-43 | a missing or empty key defaults to 1970-01-01 |
| LineGraph.YmdYearOnly | src/components/LineGraph.js:42-43 | a key with only a year defaults the month and the day to 1 |
| LineGraph.Pad2Digits | src/components/LineGraph.js:50-51 | a month or day padded to two digits reads back as itself |
| LineGraph.FrameSize | src/components/LineGraph.js:61-64 | the frame has 7 days exactly for "7d" and 30 days otherwise |
| LineGraph.FrameFrom | src/components/LineGraph.js:54-59 | the frame ending on a day has exactly `n` keys |
| LineGraph.Frame | src/components/LineGraph.js:54-59 | `buildFrame(n)` has exactly `n` keys |
| LineGraph.PushFrameDays | src/components/LineGraph.js:56-57 | the loop pushes the keys of today-(n-1) … today, oldest first |
| LineGraph.BuildFrame | src/components/LineGraph.js:54-59 | `buildFrame` returns the frame of the `n` days ending today |
| LineGraph.FrameOfParsed | src/components/LineGraph.js:55 | the frame of a today key that parses to day `t` is the frame ending on day `t` |
| LineGraph.FrameIsConsecutiveDays | src/components/LineGraph.js:54-59 | key `j` of the frame is the date `n-1-j` days before today |
| LineGraph.FrameStepsOneDay | src/components/LineGraph.js:54-59 | each frame key is the calendar day after the previous key |
| LineGraph.FrameEndsToday | src/components/LineGraph.js:54-59 | the last frame key is today's key whenever that key prints back as itself |
| LineGraph.FrameOfDateEndsOnIt | src/components/LineGraph.js:54-59 | the frame built on a valid four-digit-year date ends on that date |
| LineGraph.DayKey | src/components/LineGraph.js:75 | a day key is cut to at most 10 characters |
| LineGraph.NumberOrZero | src/components/LineGraph.js:76 | the `Number(x)` fallback keeps a number and gives 0 exactly for NaN and for 0, both falsy |
| LineGraph.LastKeyed | src/components/LineGraph.js:73-78 | an empty key never holds a value (`if (k)` skips it); which value a key holds is stated by `LastKeyedIsLastWrite` and `LastKeyedMissing` |
| LineGraph.Aligned | src/components/LineGraph.js:67-83 | an aligned series is always exactly as long as the frame |
| LineGraph.Align | src/components/LineGraph.js:67-83 | the map-filling loop of `align` computes the aligned series |
| LineGraph.LastKeyedIsLastWrite | src/components/LineGraph.js:74-77 | a key maps to the value of the last entry that carries it (later entries overwrite) |
| LineGraph.LastKeyedMissing | src/components/LineGraph.js:75-76 | an empty key, or a key no entry carries, is not in the map |
| LineGraph.AlignedByDate | src/components/LineGraph.js:68-78 | by date, each frame day gets the value of the last entry with its key, or 0 when there is none |
| LineGraph.AlignedByPosition | src/components/LineGraph.js:80-82 | by position, the series is truncated or padded with 0 to the frame, and NaN becomes 0 |
| LineGraph.AlignByDateExample | src/components/LineGraph.js:67-78 | values [5, 9] keyed by the last two days of a three-day frame align to [0, 5, 9] |
| LineGraph.AlignByPositionExample | src/components/LineGraph.js:80-82 | undated values [1, 2] on a three-day frame align to [1, 2, 0] |
| LineGraph.MinOf | src/components/LineGraph.js:102 | `Math.min(...s)` is at most every element and is one of them |
| LineGraph.MaxOf | src/components/LineGraph.js:103 | `Math.max(...s)` is at least every element and is one of them |
| LineGraph.ComputeDomain | src/components/LineGraph.js:101-104 | the domain holds both series, its bounds are values of the series, a flat domain is widened by 1, so `min < effMax` |
| LineGraph.YScale | src/components/LineGraph.js:107-108 | the bottom of the domain is drawn at the plot's bottom (75) and its top at 0 |
| LineGraph.YScaleFraction | src/components/LineGraph.js:107-108 | a value a fraction `t` up the domain is drawn `t` of the way up the plot |
| LineGraph.YScaleProperties | src/components/LineGraph.js:107-108 | `yScale(min) = 75`, `yScale(effMax) = 0`, the scale is strictly decreasing, and domain values stay in [0, 75] |
| LineGraph.XScale | src/components/LineGraph.js:106 | with two or more points the steps span the 175-unit plot width; otherwise the step is 0 |
| LineGraph.PointInPlotArea | src/components/LineGraph.js:106-108 | every point lies in the plot area, the first at x = 40 and the last at x = 215 |
| LineGraph.PathD | src/components/LineGraph.js:171-178 | no path for fewer than two points; otherwise a move to the first point and a line to each further point at `i * xScale + 40` |
| LineGraph.AxisText | src/components/LineGraph.js:188-190 | a y label has no decimals, "€" before the number and "%" after it |
| LineGraph.YAxisLabels | src/components/LineGraph.js:183-215 | three labels: the domain top at y = 5, the middle at 42.5 and the bottom at 80 |
| LineGraph.XIdxs | src/components/LineGraph.js:217-220 | every index for up to three points, otherwise first, middle (`floor(len/2)`) and last, strictly increasing |
| LineGraph.FmtLabel | src/components/LineGraph.js:110-130 | a non-`YYYY-MM-DD` input comes back unchanged; a key becomes a month name, a space and the day without leading zeros; months 1..12 name their own month, month 00 reads "Jan" and months above 12 read "Dec" |
| LineGraph.FmtLabelOfDate | src/components/LineGraph.js:110-130 | the label of a frame key is its own month's name and its day of the month |
| LineGraph.XAxisLabels | src/components/LineGraph.js:221-236 | one label per selected index, reading the frame key at that index |
| LineGraph.NearestIndex | src/components/LineGraph.js:137-146 | the selected index is in range, no point is nearer, and every earlier point is strictly farther (ties keep the first) |
| LineGraph.PointerOverPointIsNearest | src/components/LineGraph.js:137-146 | a pointer exactly over point `k` selects `k` |
| LineGraph.TooltipText | src/components/LineGraph.js:317-323 | the readout has two decimals for "€", none otherwise, and the unit before or after it as `unitPosition` says |
| LineGraph.Chart.constructor | src/components/LineGraph.js:21 | a new chart shows no hover readout |
| LineGraph.Chart.OnMove | src/components/LineGraph.js:132-159 | no readout without data; otherwise the readout of the nearest point, with its value, previous value, position and date label |
| LineGraph.Chart.OnLeave | src/components/LineGraph.js:161 | leaving the chart clears the readout |
| LineGraph.Render | src/components/LineGraph.js:61-180 | the chart always draws a plot of 7 or 30 points (the "No data" branch is unreachable): the frame, the two aligned series, the domain computed from them, both paths drawn point by point on that domain, and the x labels of the frame |
| Trends.WindowRows | src/lib/trends.js:7-20 | one row for "24h", thirty for "30d", seven for "7d", any other window and no window |
| Trends.PeriodSplit | src/lib/trends.js:8-9 | an empty series splits into two empty periods |
| Trends.PeriodSplitShape | src/lib/trends.js:11-25 | `current` is the last `size = min(k, n) >= 1` rows; `previous` is the `min(size, n - size)` rows just before them; together they are the last `min(2 size, n)` rows |
| Trends.PeriodSplitTenRows | src/lib/trends.js:22-25 | ten rows with "7d" split into the last seven and the first three |
| Trends.PctChange | src/lib/trends.js:34-37 | without a usable base the change is 100 for a positive value and 0 otherwise; with a non-zero base, applying the change to the base gives the current value back |
| Trends.PctChangeSign | src/lib/trends.js:36 | against a positive base the change is positive exactly on growth and 0 exactly when the value is unchanged |
| Trends.PctChangeExample | src/lib/trends.js:34-37 | 100 to 150 is +50; 0 against 0 is 0 |
| Home.PeriodLength | src/components/Home.js:40-41 | the period is 24 for "24h", 7 for "7d" and 30 otherwise |
| Home.GenericSlicesAsWritten | src/components/Home.js:111-117 | with at least two periods of data, the slices as written are the intended ones |
| Home.AsWrittenShortSeries | src/components/Home.js:111-117 | 20 values against 30 days: as written, the current slice is only the last 10 values |
| Home.AsWrittenMidSeries | src/components/Home.js:111-117 | 40 values against 30 days: as written, the previous slice is empty although 10 values precede the current one |
| Home.GenericSlices | src/components/Home.js:111-117 | the corrected slices are the last `min(p, n)` values and the at most as many values just before them, adjacent and in order |
| Home.GenericSlicesArePeriodSplit | src/components/Home.js:111-117 | for "7d" and "30d" the corrected slices are those of `periodSplit` |
| Home.Trend | src/components/Home.js:137-143 | the card's trend is `pctChange` of the two period sums |
| Home.GetKpiValues | src/components/Home.js:119-150 | the trend is the percent change between the sums of the two returned arrays |
| Home.KpiValuesOfLongSeries | src/components/Home.js:111-150 | the returned arrays are the summed slices; "average" divides by the period length, not the slice length |
| Home.ContactForm.constructor | src/components/Home.js:23-27 | the form starts hidden, empty, idle and without messages |
| Home.ContactForm.BeginSubmit | src/components/Home.js:167-179 | an empty email changes nothing and sends nothing; otherwise message and error are cleared, `loading` is set, and the email is sent |
| Home.ContactForm.EndSubmit | src/components/Home.js:181-196 | success shows the thank-you message and clears the email; failure shows the error or its fallback and keeps the email; `loading` ends false |
| Home.ContactForm.HandleContactSubmit | src/components/Home.js:167-197 | a whole submit: nothing on an empty email, otherwise the outcome's message and email, with `loading` false at the end; the form stays open or closed as it was |
| KpiCard.TrendColor | src/components/KPICard.js:19-24 | gray exactly for a non-number; green exactly for a finite trend >= 0 and +Infinity; red exactly for a negative finite trend, NaN and -Infinity |
| KpiCard.TrendLabel | src/components/KPICard.js:25-28 | no label exactly for a non-number; otherwise the number with one decimal ("NaN", "Infinity" or "-Infinity" when not finite) and "%", with "+" exactly for a positive finite trend and +Infinity |
| KpiCard.LabelAgreesWithColor | src/components/KPICard.js:19-28 | a "+" label is always green, a red label carries no sign, the only unsigned green label is the zero trend's "0.0%", and NaN reads "NaN%" in red |
| KpiCard.ValueText | src/components/KPICard.js:36-38 | the unit goes before the value exactly for "prefix", after it exactly for "suffix", and nowhere otherwise |
| KpiCard.ValuePlacedAsTooltip | src/components/KPICard.js:36-38 | the card places its unit exactly as the chart's readout does |
| KpiCard.GraphPropsKeepChart | src/components/KPICard.js:11-54 | the card's defaults leave the chart's frame size and arrays as they would be, and pass unit and position through |
| Base.Coalesce | src/api/settings.js:57-62 | `v ?? fallback` keeps every present value, `false` and "" included, and replaces only a missing one |
| SettingsApi.ToSettings | src/api/settings.js:56-63 | every present column is read as stored (`false` and "" kept); a null frequency reads "monthly", null charts read `true`, and a null text column reads "" |
| SettingsApi.DefaultRowReadsAsDefaults | src/api/settings.js:30-63 | the default row reads as monthly, charts on and four empty strings |
| SettingsApi.MapPatch | src/api/settings.js:69-82 | the update has a column exactly for each patch field that is not `undefined` |
| SettingsApi.ApplyUpdate | src/api/settings.js:83-86 | the update never touches the client id or the two timing columns; a column it names takes the given value and every other column keeps its value |
| SettingsApi.PatchChangesOnlyGivenColumns | src/api/settings.js:69-86 | an update sets exactly the given columns to the given values (null included) and leaves all other columns alone |
| SettingsApi.SavedSettingsReadBack | src/api/settings.js:56-86 | saving all six fields and reading them back gives what was saved |
| SettingsApi.GetMyClientId | src/api/settings.js:5-17 | no user fails with "Not logged in" before any query; otherwise the lookup's answer |
| SettingsApi.SettingsTable.constructor | src/api/settings.js:20-25 | the table starts with the given rows |
| SettingsApi.SettingsTable.EnsureSettingsRow | src/api/settings.js:20-51 | a select error is rethrown; an existing row is returned and nothing is inserted; otherwise the default row is inserted and returned, unless the insert fails |
| SettingsApi.SettingsTable.ReadSettings | src/api/settings.js:53-64 | errors, a failed insert included, are rethrown and leave the table alone; an existing row is read; a missing one yields the defaults and stays in the table |
| SettingsApi.SettingsTable.UpdateSettings | src/api/settings.js:66-88 | it succeeds exactly with a user, a client id and no update error; it then changes only that client's row; errors leave the table alone |
| SettingsApi.UpdateThenRead | src/api/settings.js:53-88 | a full update followed by a read returns what was written, and other clients' rows are unchanged |
| App.UserId | src/App.js:45 | the user id passed on is null exactly for no user or an empty id |
| App.RenderContent | src/App.js:43-59 | the dashboard, settings and account sections get their pages with the user id; every other section shows Home |
| App.AppState.constructor | src/App.js:14-16 | the app starts on "home" with the sidebar collapsed and the login modal hidden |
| App.AppState.HandleSectionChange | src/App.js:30-41 | a signed-out visitor asking for a protected section gets the login modal and stays put; every other request switches section; no protected page shows while signed out |
| App.AppState.HandleLogout | src/App.js:19-27 | a successful sign-out goes home; a failed one changes nothing |
| App.AppState.OpenLoginModal | src/App.js:93 | the Login button shows the modal |
| App.AppState.CloseLoginModal | src/App.js:114-117 | closing the modal hides it and goes home |
| App.SignedOutStaysHome | src/App.js:30-59 | starting from a guarded state, a signed-out visitor only ever sees the home page |
| Login.Validate | src/components/Login.js:14-17 | an error exactly when the email or the password is empty |
| Login.LoginForm.constructor | src/components/Login.js:5-8 | the form starts empty, idle and without an error |
| Login.LoginForm.BeginSubmit | src/components/Login.js:10-25 | the error is cleared; empty fields set the error and send nothing, with `loading` unchanged; otherwise `loading` is set and the credentials are sent |
| Login.LoginForm.EndSubmit | src/components/Login.js:26-36 | success closes the modal; an auth error shows its message; a throw shows "An unexpected error occurred."; `loading` ends false |
| Login.LoginForm.HandleSubmit | src/components/Login.js:10-37 | a whole submit: the sign-in call happens exactly when both fields are filled, and the modal closes exactly on success; the fields are kept |
| Account.ClassifyLoadCases | src/components/Account.js:55-89 | the load fails on a users error, then a missing client id, then a clients error, then a missing client; otherwise it yields the id and the name ("" for a null name) |
| Account.ClassifyLoadKinds | src/components/Account.js:55-89 | no mapping exactly when the `users` answer has no usable client id; otherwise the outcome carries that id, and the client loads exactly when the `clients` query answers with a row |
| Account.FailureMessagesNonEmpty | src/components/Account.js:92-95 | every load failure carries a non-empty message |
| Account.LoadFailuresAreDistinct | src/components/Account.js:55-86 | the four failure messages differ from each other |
| Account.PasswordCheck | src/components/Account.js:151-158 | emptiness is checked before the match; no error exactly for a non-empty matching password |
| Account.AccountPage.constructor | src/components/Account.js:15-30 | the page starts loading, with empty fields, no client and no messages |
| Account.AccountPage.LoadAccountData | src/components/Account.js:36-99 | no user: `loading` false and nothing else; otherwise the classified outcome, with the client id set only once a mapping is found and no update after cancellation |
| Account.AccountPage.BeginUpdateProfile | src/components/Account.js:114-130 | no user or client: no-op; a blank name: the error and no call; otherwise `saving` is set and the trimmed name is sent; the other fields and messages are kept |
| Account.AccountPage.EndUpdateProfile | src/components/Account.js:132-142 | success sets the success message; failure sets the error or its fallback; `saving` ends false; the other fields and messages are kept |
| Account.AccountPage.ChangePassword | src/components/Account.js:146-173 | a failed check shows its error and sends nothing; success clears both fields; an error keeps them |
| Account.AccountPage.ChangeEmail | src/components/Account.js:176-196 | an empty email shows "Email cannot be empty."; success shows the confirmation and clears the field; an error keeps it |
| SettingsPage.LoadedForm | src/components/Settings.js:32-39 | the loaded frequency is never empty and `includeCharts` is taken as fetched (false kept) |
| SettingsPage.LoadedFormKeepsSettings | src/components/Settings.js:32-39 | loading changes fetched settings only when their frequency is empty, and loading twice is loading once |
| SettingsPage.SettingsForm.constructor | src/components/Settings.js:8-19 | the form starts as monthly, charts on, empty strings, loading |
| SettingsPage.SettingsForm.BeginLoad | src/components/Settings.js:22-30 | with no user `loading` becomes false and nothing is fetched |
| SettingsPage.SettingsForm.EndLoad | src/components/Settings.js:31-46 | fetched settings fill the form; a failure sets the load error and keeps the fields; `loading` ends false |
| SettingsPage.SettingsForm.BeginSave | src/components/Settings.js:52-68 | no user or a save in flight: no-op; otherwise message and error are cleared, `saving` is set and all six fields are sent |
| SettingsPage.SettingsForm.EndSave | src/components/Settings.js:70-77 | success sets "Settings saved successfully!"; failure sets `err.message` or its fallback; `saving` ends false |
| SettingsPage.DoubleClick | src/components/Settings.js:54 | a second click while a save is in flight sends nothing |
| SettingsPage.SaveThenReload | src/components/Settings.js:22-78 | a form with a frequency, saved and loaded again, comes back unchanged |

## Left out

- Today's date in Europe/Amsterdam (`getAmsTodayYMD`, built on `Intl` and the clock) is a parameter of `LineGraph.Render` and `LineGraph.BuildFrame`.
- The pointer position is a parameter of `LineGraph.Chart.OnMove`. It is given in view-box units, so `getBoundingClientRect` is not modelled.
- Floating point is modelled as `real`. `NaN` and `Infinity` are `None` where the code can meet them, except in a card's trend (`KpiCard.Trend`). `toFixed` keeps only its digit count, not the rounded text.
- A `Date` is a whole day number. This is exact for the midnight-UTC dates the chart builds. `parseInt` of numbers beyond double precision is exact here.
- JSX, SVG attributes, CSS classes, colours, tooltip pixel offsets, the sidebar and the app's session-loading screen are presentation only.
- The hard-coded "Recovered Revenue" and "Average Cart Value" branches of `getKpiValuesFunc` (src/components/Home.js:46-109) draw random mock data, so they are not modelled. `Home.GetKpiValues` models the generic branch.
- `src/utils/mockData.js`, `src/lib/ranges.js`, `src/components/Dashboard.js` and `src/components/AdminCreateClient.js` are not part of this model. They depend on randomness, the clock, local-time arithmetic, or a backend that is not present.
- `src/supabaseClient.js`, `src/api/me.js`, the auth provider, the protected route and `src/index.js` are not part of this model. The signed-in user and every backend answer are parameters.
- Row-level security is not modelled. The `users` lookup of `getMyClientId` is an answer passed in, not a table.
- Interleavings of concurrent handlers are not modelled. Each handler is split into `Begin…`/`End…` methods at its await, and cancellation of the account load is the point at which it happened (`Account.Cancel`).
- The account page's `reload` (a `setTimeout` toggle of `loading`) is event-loop timing and is not modelled.
- Account.AccountPage.LoadAccountData: an exception thrown by the backend client itself, rather than an error object, is not modelled. The fallback "Failed to load account information." therefore never appears, and `Account.FailureMessagesNonEmpty` proves that every modelled failure has a message.
- SettingsPage.LoadedForm: `includeCharts ?? true` cannot see `null` here, because `readSettings` has already replaced a null by `true`.
- LineGraph.PushFrameDays: the source counts `i` down from `n - 1` and pushes day `-i`. The model counts up and pushes day `k - (n - 1)`, which is the same days in the same order.
- LineGraph.YmdRoundTrip: holds only for the years 1000..9999, because `String(y)` does not pad the year to four digits.
- Home.GetKpiValues: computes on the corrected slices `Home.GenericSlices`, not on the slices as written (see Findings).

## Findings

| source | as written | input that shows it | evidently intended | confidence | as-written member | corrected member |
|---|---|---|---|---|---|---|
| src/components/Home.js:111-117 | the slice starts are `data.length - periodLength` and `data.length - 2 * periodLength`; `slice` reads a negative start as counted from the end | 20 values with the 30-day period: the current slice is only the last 10 values and the first 10 become the "previous" period. 40 values: the previous slice is empty although 10 values precede the current one | the current period is the last `min(p, n)` values and the previous period is the at most as many values just before them, as `periodSplit` does | not executed | Home.GenericSlicesAsWritten (shown by Home.AsWrittenShortSeries, Home.AsWrittenMidSeries) | Home.GenericSlices (its own contract, and Home.GenericSlicesArePeriodSplit) |
