# Boxing-glove dashboard: the logic behind the cards

This project models the logic of a web dashboard for a sensor-equipped
boxing glove. The glove reports a heart rate, three force-sensitive
resistor (FSR) readings (index finger, middle finger, impact pad), an
accelerometer vector and a punch count. The dashboard:

- keeps a WebSocket connection to the glove's bridge, with a bounded
  raw-message log and a mock data generator (`hooks/use-serial-data.ts`);
- detects punches, blocks and motion from consecutive samples
  (`hooks/use-punch-detection.tsx`);
- classifies punches and keeps statistics over the last 50
  (`components/punch-analysis.tsx`);
- classifies heart rates into zones three different ways:
  - percentage of maximum (`components/heart-rate-chart.tsx`);
  - absolute BPM (`components/sensor-readings.tsx`, `hooks/use-sensor-data.tsx`);
  - Karvonen heart-rate reserve (`app/settings/profile/page.tsx`);
- aggregates a session: timer, peak heart rate, calories, maximum forces
  (`components/workout-summary.tsx`, `app/dashboard/page.tsx`,
  `components/force-distribution-chart.tsx`);
- edits the user profile and device settings, where the maximum heart rate
  follows the age (`components/user-settings.tsx`);
- shows a connection badge and navigation links (`components/connection-status.tsx`,
  `components/main-nav.tsx`, `components/mobile-nav.tsx`).

There is one Dafny module per source file, plus `JsBuiltins`. `JsBuiltins`
states, as ECMAScript defines them on exact numbers, the JavaScript
built-ins the code relies on: `Math.round` (`Round`, halves up),
`Math.max`, `Number.parseInt` without a radix (`ParseInt`, where `None`
stands for `NaN`; it skips the full ECMAScript white-space set, reads an
optional sign, and reads a `0x`/`0X` prefix as base 16),
`toString().padStart(2, "0")` (`Pad2`) and `slice(-n)` (`LastN`).

State that the source mutates is a Dafny `class`:

- `SerialData.Connection`
- `PunchDetection.PunchDetector`
- `HeartRateChart.Chart`
- `PunchAnalysis.Analyzer`
- `WorkoutSummary.Session`
- `Dashboard.SessionClock`
- `ForceDistributionChart.ForceMaxima`
- `UserSettings.Settings`
- `MobileNav.Sheet`

Each React effect run, timer tick, socket callback or UI handler is one
method call. Every method states its whole new state. The pure rules
(zone chains, the punch-type tree, formatting, colour ramps, the
navigation predicate) are functions, and lemmas prove their properties.

Sockets are numbered in creation order. Each one has a ready state
(`CONNECTING`, `OPEN`, `CLOSING`, `CLOSED`). The hook's `wsRef` is the
number of the socket it refers to, or `None`.

Numbers are exact: `int` for integer readings, `real` for accelerometer
values and averages. Every `Math.sqrt(m) > t` in the source is modelled as
`m > t²`. `JsBuiltins.SqrtComparison` proves that the two agree, and
`MotionOfMagnitude`, `IsPunchOfMagnitude` and `SpeedBands` apply it.

Two files contain copies of other files' code:

- The dashboard page's `formatTime` is a character-for-character copy of the
  workout card's. `Dashboard` uses `WorkoutSummary.FormatTime`.
- The mobile navigation's item list and `isActive` rule are copies of the
  desktop bar's. `MobileNav.NavItems` is `MainNav.NavItems`, and
  `MobileNav.Sheet.LinkClicked` applies `MainNav.IsActive`.

## Model

| member | source | states |
|---|---|---|
| PunchDetection.PunchDetector.constructor | hooks/use-punch-detection.tsx:7-13 | the detector starts with 0 punches, 0 blocks, motion "resting" and all three previous readings 0 |
| PunchDetection.Step | hooks/use-punch-detection.tsx:15-42 | a null sample leaves the state unchanged; each counter grows by at most one per sample; the previous readings become this sample's |
| PunchDetection.PunchDetector.ProcessSample | hooks/use-punch-detection.tsx:15-42 | the new state is `Step(old state, data)`; a null sample leaves everything unchanged |
| PunchDetection.StepEffect | hooks/use-punch-detection.tsx:18-41 | punches grow by exactly 1 iff both finger readings rose by more than 200, otherwise stay; blocks grow by exactly 1 iff the impact reading rose by more than 200, independently; motion is active iff x²+y²+z² > 2.25; the previous readings become this sample's readings whatever was detected |
| PunchDetection.FirstSampleCanPunch | hooks/use-punch-detection.tsx:11-27 | because the previous readings start at 0, a first sample with both finger readings above 200 already counts one punch |
| PunchDetection.ThresholdIsStrict | hooks/use-punch-detection.tsx:22-27 | a finger jump of exactly 200 does not count as a punch |
| PunchDetection.MotionOfMagnitude | hooks/use-punch-detection.tsx:35-37 | the squared test is the source's test "magnitude > 1 + 0.5" |
| PunchDetection.RunCountersBounded | hooks/use-punch-detection.tsx:26-31 | over any stream of samples, both counters never decrease and grow by at most one per sample |
| PunchDetection.RunCountsPairs | hooks/use-punch-detection.tsx:15-42 | from the initial state, the counters equal the number of consecutive sample pairs whose jumps pass the tests, with the first sample compared with zeros; the detector remembers the last sample's readings |
| PunchDetection.RunSkipsNull | hooks/use-punch-detection.tsx:16 | a null sample anywhere in a stream changes nothing: running `a + [null] + b` ends where running `a + b` does |
| SerialData.Connection.constructor | hooks/use-serial-data.ts:28-35 | no data, empty log, status "disconnected", no error, no socket, no mock generator |
| SerialData.Connection.AddRawMessage | hooks/use-serial-data.ts:38-56 | the log becomes the newest 100 entries of the old log plus the new entry; it never exceeds 100 |
| JsBuiltins.AppendCapped | hooks/use-serial-data.ts:41-54 | after an append and the cut to the newest n, the new entry is last and the surviving older entries keep their order |
| SerialData.CloseSocket | hooks/use-serial-data.ts:65-67 | closing moves a connecting or open socket out of the live states and leaves every other socket as it was; closing a socket that is not live changes nothing |
| SerialData.Connection.Connect | hooks/use-serial-data.ts:59-121 | the current socket, if any, is closed first. On success, a new connecting socket becomes the referred socket, with status "connecting" and no error. If creating the socket throws, the status is "error", the error message is "Connection failed: …" and one error entry is logged. Data and mock state are unchanged, and no socket is orphaned |
| SerialData.Connection.OnOpen | hooks/use-serial-data.ts:74-78 | the socket becomes open, the status becomes "connected", and exactly one status entry is logged |
| SerialData.Connection.OnMessage | hooks/use-serial-data.ts:80-100 | a data message replaces the data and logs one data entry. A status message logs one entry and sets "connected" iff its flag is set, else "disconnected". A message that does not parse logs one error entry and changes nothing else. Other message types change nothing |
| SerialData.StatusFromMessage | hooks/use-serial-data.ts:90-94 | the status is "connected" exactly when the message's flag is set, and "disconnected" otherwise |
| SerialData.Connection.OnError | hooks/use-serial-data.ts:102-107 | the status becomes "error", the error becomes "WebSocket connection error", and one error entry is logged |
| SerialData.Connection.OnCloseAsWritten | hooks/use-serial-data.ts:109-114 | as written: whichever socket closed, the status becomes "disconnected", one entry is logged and the socket reference is cleared |
| SerialData.Connection.OnClose | hooks/use-serial-data.ts:109-114 | corrected: the close is logged; only the close of the referred socket sets "disconnected" and clears the reference; no socket is ever orphaned |
| SerialData.StaleCloseAsWritten | hooks/use-serial-data.ts:109-114 | connect, open, reconnect, open, then the old socket's close event: the new socket is open but no longer referred to, and a command cannot be sent |
| SerialData.StaleCloseCorrected | hooks/use-serial-data.ts:109-114 | the same events with the corrected close: the new socket stays referred to, the status stays "connected" and a command is sent |
| SerialData.Connection.Disconnect | hooks/use-serial-data.ts:124-138 | afterwards neither a socket nor a mock generator remains. A present socket is closed and logged, and the status becomes "disconnected". Without a socket the status and log are unchanged, even when mock data was stopped |
| SerialData.Connection.ToggleMockData | hooks/use-serial-data.ts:141-174 | the generator and `isMockActive` flip together. Starting sets "connected" and stopping sets "disconnected", with one matching entry logged. A second generator never starts while one runs |
| SerialData.Connection.MockTick | hooks/use-serial-data.ts:155-172 | one generator tick replaces the data by the mock sample and logs it as one data entry |
| SerialData.MockSample | hooks/use-serial-data.ts:156-168 | a mock sample has heart rate in [60,159], FSR readings in [0,1023] and accelerometer axes in [−10, 9.9] |
| SerialData.Connection.SendCommand | hooks/use-serial-data.ts:177-194 | returns true and logs one entry iff the referred socket is open; otherwise returns false and changes nothing |
| HeartRateChart.Chart.constructor | components/heart-rate-chart.tsx:18-20 | maximum heart rate 220, peak 0, empty history |
| HeartRateChart.LoadedMaxHeartRate | components/heart-rate-chart.tsx:25-33 | 220 without a saved profile or age; otherwise NaN exactly when the age does not parse, and else maximum + parsed age = 220 |
| HeartRateChart.LoadedMaxHeartRateOfAge | components/heart-rate-chart.tsx:29-31 | an age written in digits gives exactly 220 − age |
| HeartRateChart.Chart.LoadProfile | components/heart-rate-chart.tsx:25-33 | a saved non-empty age replaces the maximum by the loaded value; otherwise it is kept; from the initial state the result is `LoadedMaxHeartRate` |
| HeartRateChart.Chart.OnHeartRate | components/heart-rate-chart.tsx:36-58 | a reading ≤ 0 changes nothing; otherwise the peak becomes max(peak, hr) and the history gains the point with its zone, keeping the last 30, newest last; every stored reading is positive and at most the peak |
| HeartRateChart.ZoneOf | components/heart-rate-chart.tsx:42-48 | against a NaN maximum (an age that does not parse) every test fails and the zone is "Maximum"; against a maximum of 0 the zone is "Rest" for a negative reading and otherwise "Maximum" |
| HeartRateChart.ZoneBands | components/heart-rate-chart.tsx:42-48 | for maxHr > 0: Rest iff 100·hr < 50·maxHr, Light iff in [50,60) %, Moderate iff in [60,70) %, Hard iff in [70,80) %, Maximum iff ≥ 80 % |
| HeartRateChart.ZoneMonotone | components/heart-rate-chart.tsx:42-48 | for a fixed positive maximum, a higher heart rate never falls in a lower zone |
| HeartRateChart.ThresholdsOrdered | components/heart-rate-chart.tsx:104-109 | for maxHr ≥ 0 the rounded 50/60/70/80 % reference lines are ordered and lie in [0, maxHr] |
| HeartRateChart.ZoneThresholds | components/heart-rate-chart.tsx:104-109 | each reference line is the integer nearest to 50, 60, 70 or 80 % of the maximum, halves rounded up |
| HeartRateChart.ZoneColor | components/heart-rate-chart.tsx:85-101 | the colour is one of the five zone colours, and the "Rest" green exactly for "Rest" and for any label outside the other four zones |
| HeartRateChart.ZoneColorsDistinct | components/heart-rate-chart.tsx:86-101 | the five zone labels get five distinct colours; any other label gets the "Rest" colour |
| PunchAnalysis.IsPunchOfMagnitude | components/punch-analysis.tsx:51-56 | the squared gate x²+y²+z² > 25 is the source's "magnitude > 5" |
| PunchAnalysis.PunchForce | components/punch-analysis.tsx:58 | the force is at least each of the three FSR readings and equal to one of them |
| PunchAnalysis.Classify | components/punch-analysis.tsx:61-75 | a hook always has the index reading strictly largest; an uppercut always has y < −5; a strictly largest middle reading is always a cross |
| PunchAnalysis.ClassifyCases | components/punch-analysis.tsx:61-75 | each type exactly characterised. Hook only when the index reading is strictly largest and abs(x) ≤ abs(y). Uppercut only when no finger reading is strictly largest and y < −5. Cross when the middle reading is strictly largest, or else (no uppercut) when the force is above 800. Jab in the remaining cases |
| PunchAnalysis.Increment | components/punch-analysis.tsx:78-81 | exactly one counter, the punch's own type, grows by one, so the total grows by one |
| PunchAnalysis.MaxForce | components/punch-analysis.tsx:97 | the maximum is at least every force in the history and is one of them |
| PunchAnalysis.SumAtMostMaxTimesLength | components/punch-analysis.tsx:97-98 | the sum of the history's forces is at most its length times any upper bound |
| PunchAnalysis.AvgAtMostMax | components/punch-analysis.tsx:97-98 | the mean force of a non-empty history is at most its maximum |
| PunchAnalysis.ForceStats | components/punch-analysis.tsx:97-98 | one pass over the history computes exactly its maximum and its sum |
| PunchAnalysis.ForceBucketsPartition | components/punch-analysis.tsx:143-151 | the Light (<300), Medium [300,600) and Heavy (≥600) counts add up to the history's length |
| PunchAnalysis.SpeedBucketsPartition | components/punch-analysis.tsx:456-468 | the slow, medium-speed and fast counts add up to the history's length |
| PunchAnalysis.SpeedBands | components/punch-analysis.tsx:456-468 | the squared bands (< 49, ≥ 144) are the source's speed bands (< 7, ≥ 12) |
| PunchAnalysis.Analyzer.constructor | components/punch-analysis.tsx:35-44 | empty history, zero statistics, all four type counters 0 |
| PunchAnalysis.Analyzer.Process | components/punch-analysis.tsx:47-103 | without data or below the magnitude gate nothing changes. Otherwise the punch's type counter grows by one and the punch (force = max of the three FSRs, classified type) joins the last-50 history. The last force is the new force, which is at most the maximum, and the mean is at most the maximum |
| PunchAnalysis.Analyzer.Record | components/punch-analysis.tsx:78-101 | counts the punch, appends it to the last-50 history, and refreshes the newest force, the maximum and the mean so they describe the updated history |
| SensorReadings.NormalizeValue | components/sensor-readings.tsx:12-17 | no result exceeds 100, and readings up to 100 are shown unchanged |
| SensorReadings.NormalizeValueRange | components/sensor-readings.tsx:12-17 | readings ≤ 100 are returned unchanged; larger ones land in [10,100], and a raw reading in (100, 1023] shows as the whole percentage nearest to v·100/1023, halves up; no result exceeds 100 |
| SensorReadings.NormalizeValueIdempotent | components/sensor-readings.tsx:12-17 | normalising twice is normalising once |
| SensorReadings.NormalizeValueMonotone | components/sensor-readings.tsx:13-14 | above 100, a stronger reading never shows as a smaller percentage |
| SensorReadings.HeartRateZone | components/sensor-readings.tsx:20-26 | the zone is one of the five labels; "Resting" exactly below 60 BPM and "Peak" exactly from 170 BPM |
| SensorReadings.HeartRateColor | components/sensor-readings.tsx:29-35 | the colour is one of the five classes; green exactly below 60 BPM and red exactly from 170 BPM |
| SensorReadings.ColorFollowsZone | components/sensor-readings.tsx:20-35 | the colour is a function of the zone label, and two heart rates share a colour iff they share a zone |
| SensorReadings.HeartRateProgress | components/sensor-readings.tsx:70 | the progress value never exceeds 100, is half the BPM up to 200 BPM, and is exactly 100 from 200 BPM on |
| SensorDataHook.HeartRateZone | hooks/use-sensor-data.tsx:122-128 | the zone is one of the five labels; "Resting" exactly below 60 BPM and "Peak" exactly from 170 BPM |
| SensorDataHook.SameZoneAsSensorReadings | hooks/use-sensor-data.tsx:122-128 | the hook's zone rule and the sensor card's agree on every heart rate |
| SensorDataHook.ZoneMonotone | hooks/use-sensor-data.tsx:122-128 | zones rise with the heart rate in the order Resting < Warm Up < Fat Burn < Cardio < Peak |
| SensorDataHook.MockSample | hooks/use-sensor-data.tsx:74-91 | forces in [0,99], heart rate in [120,179], zone among Fat Burn, Cardio, Peak, speed in [0,29], acceleration in [0,19], punches detected in [0,4] |
| SensorDataHook.MockZoneCanDisagree | hooks/use-sensor-data.tsx:80-83 | the zone's own random draw can give a zone that does not belong to the sample's heart rate |
| ProfileSettings.CalculateHeartRateZones | app/settings/profile/page.tsx:22-33 | the zones tile the range: resting starts at 0, peak ends at the maximum, and each zone starts where the previous one ends |
| ProfileSettings.ZoneBoundaries | app/settings/profile/page.tsx:22-33 | each inner boundary is the integer nearest to rest + (max − rest) × k, halves up, for k = 50, 70 and 85 % of the heart-rate reserve |
| ProfileSettings.ZonesIncreasing | app/settings/profile/page.tsx:22-33 | within the sliders' bounds (rest 40–100, maximum 160–220) the boundaries strictly increase: 0 < rest < warm-up < fat-burn < cardio < maximum |
| ProfileSettings.DefaultZones | app/settings/profile/page.tsx:18-33 | resting 65 and maximum 190 give 0–65, 65–128, 128–153, 153–171, 171–190 |
| UserSettings.Settings.constructor | components/user-settings.tsx:38-57 | the profile and device defaults, including maximum heart rate 220 and 75/50/60/on/off/on |
| UserSettings.Settings.LoadSaved | components/user-settings.tsx:60-74 | a saved profile replaces the form, and its maximum heart rate becomes 220 − parseInt(age) for a non-empty age, else 220. Saved device settings replace the settings |
| UserSettings.LoadedMaxHeartRate | components/user-settings.tsx:65 | 220 for an empty age; otherwise NaN exactly when the age does not parse, and else maximum + parsed age = 220 |
| UserSettings.SameRuleAsChart | components/user-settings.tsx:66 | this load rule is the heart-rate chart's rule for every age string |
| UserSettings.MaxHeartRateForAge | components/user-settings.tsx:82 | defined exactly when the age parses, and then maximum + age = 220 |
| UserSettings.With | components/user-settings.tsx:78 | the named field takes the value, every other field and the maximum heart rate are unchanged |
| UserSettings.Settings.HandleProfileChange | components/user-settings.tsx:76-87 | only the named field changes, except that a non-empty age also sets the maximum heart rate to 220 − parseInt(age); an empty age keeps it |
| UserSettings.WithDevice | components/user-settings.tsx:89-94 | the named setting takes the value and every other setting is unchanged |
| UserSettings.Settings.HandleDeviceSettingChange | components/user-settings.tsx:89-94 | only the named device setting changes |
| ForceDistributionChart.ForceMaxima.constructor | components/force-distribution-chart.tsx:13-17 | all three maxima start at 0 |
| ForceDistributionChart.ForceMaxima.Update | components/force-distribution-chart.tsx:19-26 | each maximum becomes max(previous, current), so none decreases; afterwards every chart row for these readings shows a maximum at least its current value |
| ForceDistributionChart.RunningMax | components/force-distribution-chart.tsx:13-26 | the maximum left by a stream of readings is at least every reading, never negative, and either 0 or one of them |
| ForceDistributionChart.TrackMaxima | components/force-distribution-chart.tsx:19-45 | feeding readings one by one through `Update` leaves exactly the running maximum of each sensor, and the rows for the last readings show no maximum below its current value |
| ForceDistributionChart.ForceMaxima.Rows | components/force-distribution-chart.tsx:29-45 | three rows in the order Index, Middle, Impact, each pairing its current reading with the same sensor's maximum; every row's maximum is at least its current value iff the maxima cover the readings |
| ForceDistributionChart.GreenChannel | components/force-distribution-chart.tsx:48-54 | the green channel is never negative, is 0 from 100 on, and is at most 215 for non-negative forces |
| ForceDistributionChart.GreenChannelRange | components/force-distribution-chart.tsx:48-54 | the green channel is 215 at 0 and never increases as the force rises |
| WorkoutSummary.Session.constructor | components/workout-summary.tsx:13-16 | inactive, time 0, no calories, peak 0 |
| WorkoutSummary.Session.OnData | components/workout-summary.tsx:19-28 | any reading makes the session active for good; the peak becomes max(peak, hr) |
| WorkoutSummary.PeakOf | components/workout-summary.tsx:25-27 | the peak left by a stream of readings is at least every heart rate in it and is 0 or one of them |
| WorkoutSummary.Replay | components/workout-summary.tsx:19-28 | after a stream of readings the peak is `PeakOf` the stream, and the session is active iff some reading arrived |
| WorkoutSummary.Session.Tick | components/workout-summary.tsx:31-45 | the clock advances by exactly 1 while active and by 0 otherwise |
| WorkoutSummary.Session.AccrueCalories | components/workout-summary.tsx:48-59 | each run with data adds `CalorieIncrement(hr)`; without data nothing changes |
| WorkoutSummary.CalorieIncrement | components/workout-summary.tsx:52-57 | an effect run adds calories exactly when the heart rate is above −90 BPM; at 70 BPM it adds 9.8/3600 kcal |
| WorkoutSummary.CalorieIncrementShape | components/workout-summary.tsx:52-57 | the increment is 245/720000 kcal per MET point, where MET = 8 + (hr − 70)/20. It is positive iff hr > −90 and strictly increasing in hr. At 70 BPM it is 9.8/3600 |
| WorkoutSummary.FormatTime | components/workout-summary.tsx:62-66 | at least 5 characters: digits, a colon third from the end, two digits |
| WorkoutSummary.FormatTimeReadsBack | components/workout-summary.tsx:62-66 | the clock reads back: the part before the colon parses to s div 60 and the two digits after it to s mod 60. It is exactly 5 characters iff s < 6000 |
| WorkoutSummary.FormatTimeInjective | components/workout-summary.tsx:62-66 | different durations never show the same clock |
| WorkoutSummary.Intensity | components/workout-summary.tsx:118-124 | one of the four messages; "Warming up" without data and at 100 BPM or below |
| WorkoutSummary.IntensityBands | components/workout-summary.tsx:118-124 | the message is "High" above 160, "Moderate" above 130, "Light" above 100, otherwise "Warming up", also without data. A higher heart rate never shows a lower intensity |
| WorkoutSummary.Session.Shown | components/workout-summary.tsx:82-112 | the card shows the formatted session time, the peak, and the calories rounded to within 0.5 |
| Dashboard.SessionClock.constructor | app/dashboard/page.tsx:14 | the page's clock starts at 0 |
| Dashboard.SessionClock.Tick | app/dashboard/page.tsx:16-28 | one second adds 1 while connected and 0 otherwise; the clock is never reset |
| Dashboard.ConnectedSeconds | app/dashboard/page.tsx:16-28 | the connected seconds of a stream are at most its length, and equal to it iff every second was connected |
| Dashboard.RunClock | app/dashboard/page.tsx:16-28 | ticking through a stream of connection flags shows the number of connected seconds |
| Dashboard.SessionClock.Shown | app/dashboard/page.tsx:30-34 | the page shows the workout card's `mm:ss` format |
| Dashboard.MaxForceFigure | app/dashboard/page.tsx:93 | 0 without a sample; otherwise the largest of the three force readings |
| Dashboard.MockMaxForceInRange | app/dashboard/page.tsx:93 | on a mock sample the figure is a percentage in [0,99] |
| ConnectionBadge.Badge | components/connection-status.tsx:9-29 | the fall-back "Unknown" label is never shown, and the badge is destructive exactly for "error" |
| ConnectionBadge.BadgeDistinguishesStatuses | components/connection-status.tsx:9-29 | the four statuses get four distinct labels and four distinct variants |
| MainNav.NavKeysDistinct | components/main-nav.tsx:8-34 | five links whose hrefs, also their React keys, are distinct absolute paths |
| MainNav.IsActive | components/main-nav.tsx:42 | a link is active only on paths that start with its href |
| MainNav.ActiveBelow | components/main-nav.tsx:42 | a link is active on its own path and every path below it, but not on a sibling path that merely shares its prefix |
| MainNav.HomeActive | components/main-nav.tsx:42 | the home link "/" is active only on "/" and on paths beginning "//" |
| MainNav.ActiveSecondChar | components/main-nav.tsx:42 | any path an active link admits agrees with the link on its second character |
| MainNav.AtMostOneActive | components/main-nav.tsx:8-42 | for every path, at most one of the five links is active |
| MainNav.ExamplePaths | components/main-nav.tsx:42 | "/settings/profile" activates Settings, "/dashboards" does not activate Dashboard, Home is not active on "/dashboard" |
| MobileNav.Sheet.constructor | components/mobile-nav.tsx:40 | the sheet starts closed |
| MobileNav.Sheet.OnOpenChange | components/mobile-nav.tsx:44 | the sheet's own open/close requests set the flag |
| MobileNav.Sheet.CloseClicked | components/mobile-nav.tsx:54 | the close button closes the sheet |
| MobileNav.Sheet.LinkClicked | components/mobile-nav.tsx:60-76 | following link i closes the sheet and navigates to its href; there each link is highlighted by the desktop rule, and exactly link i is |
| JsBuiltins.Round | components/sensor-readings.tsx:14 | `Math.round`: the result is within half of the argument, halves rounded up |
| JsBuiltins.ParseInt | components/user-settings.tsx:82 | `Number.parseInt`: NaN exactly when no digit of the chosen base (16 after `0x`, else 10) follows the white space and sign |
| JsBuiltins.ParseIntSign | components/user-settings.tsx:82 | a negative result only after a minus sign, and never a positive one after it |
| JsBuiltins.ParseIntHex | components/heart-rate-chart.tsx:30 | a `0x` prefix is read as base 16: "0x1e" gives 30 |
| JsBuiltins.ParseIntSignedHex | components/heart-rate-chart.tsx:30 | the sign comes before the prefix: "-0XfF" gives −255 |
| JsBuiltins.ParseIntBareHexPrefix | components/heart-rate-chart.tsx:30 | "0x" with no hexadecimal digit is NaN |
| JsBuiltins.ParseIntVerticalTab | components/heart-rate-chart.tsx:30 | white space beyond ASCII space, tab and line breaks is skipped: a vertical tab then "7" gives 7 |
| JsBuiltins.ParseIntTrailing | components/heart-rate-chart.tsx:30 | whatever follows the digits is ignored: "-12px" gives −12 |
| JsBuiltins.ParseIntToString | components/user-settings.tsx:82 | parsing the decimal form of a natural number gives it back |
| JsBuiltins.Pad2 | components/workout-summary.tsx:65 | all digits, exactly two of them below 100, otherwise as many as the number has |
| JsBuiltins.Pad2Value | components/workout-summary.tsx:65 | the padded digits denote the number |
| JsBuiltins.LastN | components/punch-analysis.tsx:93 | `slice(-n)`: the last min(length, n) elements, in order |

## Left out

- `server/serial-server.js` (serial port, DTR handshake, JSON-or-raw fallback, broadcast) is not part of this model. It is device and network plumbing.
- WebSocket and EventSource objects, `JSON.parse`, timers and React scheduling are inputs: a message arrives already classified (data, status, unparseable, other), and each callback, tick or effect run is a method call. The bytes `ws.send` writes are not modelled; only the logged entry is.
- `Math.random` draws are parameters in [0,1). Only ranges are stated about mock samples. The stale-closure punch count of both mock generators is passed in as a parameter.
- Timestamps, `toLocaleTimeString`, `console` output, `localStorage` writes, toasts, the heart-rate pulse animation (`components/heart-rate-chart.tsx:61-68`), canvas drawing and all chart and JSX markup are left out.
- The unmount clean-up of the serial hook (`hooks/use-serial-data.ts:197-207`) is left out; it closes what `Disconnect` closes, without logging.
- IEEE-754 rounding is not modelled; numbers are exact. `Math.sqrt` comparisons are squared comparisons. The punch history stores the squared speed. So the speed chart's `round(speed · 10)` and the speed-analysis message, which compares the mean of the unsquared speeds, are not modelled.
- HeartRateChart.Chart.OnHeartRate: React re-runs this effect when `maxHeartRate` or `peakHeartRate` change, not only on a new reading. The same reading can then be appended a second time, for example right after it raised the peak. The model appends once per call; a caller that replays those re-runs calls it again.
- PunchDetection.PunchDetector.ProcessSample, PunchAnalysis.Analyzer.Process, WorkoutSummary.Session.OnData and ForceDistributionChart.ForceMaxima.Update: effects keyed on a value run only when the value changes. The model runs them once per call.
- UserSettings.Settings.HandleDeviceSettingChange requires a switch to receive a boolean and a slider a number. The source accepts `any` value, but its callers pass only those.
- UserSettings.Profile holds the eight text fields and the maximum heart rate. Other keys a saved profile may carry are not modelled.
- Behaviour one might expect that the code does not have; the model follows the code:
  - mock data and a live socket can be active at the same time;
  - the first sample is not exempt from punch detection, because it is compared with zeros;
  - `disconnect` sets "disconnected" only when a socket is present;
  - toggling mock data twice ends in "disconnected", whatever the status was before.

## Findings

| source | as written | input that shows it | evidently intended | confidence | as-written member | corrected member |
|---|---|---|---|---|---|---|
| hooks/use-serial-data.ts:109-114 | every socket's `onclose` sets the status "disconnected" and clears `wsRef`, also for a socket that `connect` already replaced (it closes the old socket at lines 65-67, and that close event arrives later) | connect, socket 0 opens, connect again (socket 0 closing, socket 1 referred), socket 1 opens, socket 0's close event arrives: status "disconnected", `wsRef` empty while socket 1 is open; `sendCommand` then fails and `disconnect` cannot close socket 1 | only the close of the socket `wsRef` still refers to should change the status and clear the reference | not executed | SerialData.StaleCloseAsWritten | SerialData.StaleCloseCorrected |
