# Plant-monitoring sensor dashboard: telemetry state and display helpers

This project models the live part of the plant-monitoring dashboard
(`src/components/SensorDashboard.tsx`). The component holds two state cells:

- a readings record of four metric strings (temperature, humidity, light,
  soil moisture) and a classification label;
- a `connected` flag.

The record starts at `"--"` for every metric and `"Unknown"` for the label.
The flag starts false. Three broker-client callbacks change this state:

- `connect` raises the flag and subscribes to five fixed topics;
- `message(topic, payload)` routes the topic through a five-way switch and
  overwrites one field of the record, or does nothing for any other topic;
- `error` lowers the flag.

Three pure helpers turn the state into what the page shows:

- the badge colour, looked up on the lower-cased label, grey by default;
- the guidance sentence, chosen by exact comparison with four labels;
- the progress-bar fill, `parseFloat(value) / max * 100`, or 0 when the text is
  not a number.

Modules:

- `Telemetry` (Telemetry.dfy): the record, the topic routing, the
  subscription list, the reducer `Step` and its fold `Run` over an event
  sequence. It also holds the class `SensorDashboard`, whose fields are the two
  state cells and whose methods are the three callbacks, each proved against
  `Step`.
- `Display` (Display.dfy): colour, guidance and progress.
- `JsString` (JsString.dfy): the `toLowerCase` the colour lookup uses.
- `JsNumber` (JsNumber.dfy): the `parseFloat` the progress bars use. It returns
  `Option<real>`, and `None` stands for NaN.
- `Wrappers` (Wrappers.dfy): `Option`.

Two things the code does not do, and the model does not assert:

- Line 101 does not clamp the progress ratio. `ProgressValue("100", 40)` is
  250 (`Display.ProgressOfHundred`) and `ProgressValue("-5", 40)` is -12.5
  (`Display.ProgressOfNegative`). `Display.ProgressInRangeIff` says the bar
  stays in 0..100 exactly when the value lies in 0..max.
- The code has no reconnect policy and does not drop messages after unmount,
  so neither is asserted.

## Model

| member | source | states |
|---|---|---|
| Telemetry.InitialDataSentinels | src/components/SensorDashboard.tsx:23-29 | every metric starts as "--" and the classification as "Unknown" |
| Telemetry.SensorDashboard.constructor | src/components/SensorDashboard.tsx:23-31 | on mount the record is the all-sentinel record and `connected` is false |
| Telemetry.Set | src/components/SensorDashboard.tsx:54-66 | the per-topic updater `{...prev, field: value}`: the written field reads back as the value; every other field is copied |
| Telemetry.Route | src/components/SensorDashboard.tsx:52-70 | a topic is routed exactly when it is one of the subscribed topics, and it is routed to the field whose topic it is |
| Telemetry.RouteInvertsTopicOf | src/components/SensorDashboard.tsx:52-70 | the topic switch is a bijection between the five topics and the five fields; a topic routes to a field exactly when it is that field's topic |
| Telemetry.SubscriptionsMatchRouting | src/components/SensorDashboard.tsx:42-46 | the subscribed list holds five distinct topics; a topic is subscribed exactly when the message switch recognises it; every field's topic is subscribed |
| Telemetry.ApplyMessage | src/components/SensorDashboard.tsx:49-71 | after a message each field holds the payload if the topic routes to it, and its old value otherwise; an unknown topic leaves the record unchanged |
| Telemetry.MessageChangesAtMostOneField | src/components/SensorDashboard.tsx:52-70 | two fields changed by one message are the same field, namely the topic's field |
| Telemetry.Step | src/components/SensorDashboard.tsx:37-76 | connect sets the flag and error clears it; neither touches the record; a message never moves the flag and updates only its topic's field |
| Telemetry.LastArrivalWins | src/components/SensorDashboard.tsx:49-70 | after any event sequence each field holds the payload of the last message routed to it, or its old value if none was |
| Telemetry.ConnectivityFollowsLifecycle | src/components/SensorDashboard.tsx:37-76 | after any event sequence the flag is the one set by the last connect or error event, or the initial flag if there was none |
| Telemetry.LifecycleKeepsReadings | src/components/SensorDashboard.tsx:37-76 | a sequence of connects and errors leaves the record as it was, so stale readings stay shown |
| Telemetry.UnknownTopicsIgnored | src/components/SensorDashboard.tsx:68-70 | dropping every message on an unrecognised topic from an event sequence does not change the final state |
| Telemetry.ConnectThenTwoReadings | src/components/SensorDashboard.tsx:37-67 | connect, then temp "22.3", then hum "55", gives {22.3, 55, --, --, Unknown} and connected |
| Telemetry.ReadingAfterError | src/components/SensorDashboard.tsx:37-76 | connect, error, then temp "19", updates the temperature while the flag stays false |
| Telemetry.SensorDashboard.OnConnect | src/components/SensorDashboard.tsx:37-47 | the connect callback leaves the state as `Step(_, Connect)` does; the record is unchanged; it subscribes to exactly the subscription list, in order |
| Telemetry.SensorDashboard.OnMessage | src/components/SensorDashboard.tsx:49-71 | the message callback leaves the state as `Step(_, Message)` does; the flag is unchanged |
| Telemetry.SensorDashboard.OnError | src/components/SensorDashboard.tsx:73-76 | the error callback lowers the flag and keeps the record |
| Telemetry.ReadingWhileDisconnected | src/components/SensorDashboard.tsx:33-82 | a client that mounts, connects, errors, and then gets a temperature and an unknown-topic message sees {19, --, --, --, Unknown} and disconnected |
| Display.ClassificationColor | src/components/SensorDashboard.tsx:84-96 | the green, amber, blue and purple classes come exactly from lower-cased "healthy", "dry", "overwatered" and "dark"; grey comes from every other string |
| Display.ColorIgnoresCase | src/components/SensorDashboard.tsx:85 | two labels with the same lower-cased form get the same colour |
| Display.ColorOfLowered | src/components/SensorDashboard.tsx:85 | lower-casing a label first does not change its colour |
| Display.HealthyIsGreen | src/components/SensorDashboard.tsx:86-87 | "Healthy" gives the green class |
| Display.LowerHealthyIsGreen | src/components/SensorDashboard.tsx:86-87 | "healthy" gives the green class |
| Display.ShoutedHealthyIsGreen | src/components/SensorDashboard.tsx:86-87 | "HEALTHY" gives the green class |
| Display.DryIsAmber | src/components/SensorDashboard.tsx:88-89 | "Dry" gives the amber class |
| Display.ShoutedDryIsAmber | src/components/SensorDashboard.tsx:88-89 | "DRY" gives the amber class |
| Display.OverwateredIsBlue | src/components/SensorDashboard.tsx:90-91 | "Overwatered" gives the blue class |
| Display.MixedCaseOverwateredIsBlue | src/components/SensorDashboard.tsx:90-91 | "OverWatered" gives the blue class |
| Display.DarkIsPurple | src/components/SensorDashboard.tsx:92-93 | "Dark" gives the purple class |
| Display.InvertedCaseDarkIsPurple | src/components/SensorDashboard.tsx:92-93 | "dARK" gives the purple class |
| Display.UnknownIsGrey | src/components/SensorDashboard.tsx:94-95 | the initial label "Unknown" gives the grey class |
| Display.Guidance | src/components/SensorDashboard.tsx:210-221 | the fallback "Waiting for plant condition data..." is produced exactly when the label is not one of the four known labels, compared exactly |
| Display.GuidanceFragments | src/components/SensorDashboard.tsx:211-221 | of the five conditionals in the paragraph, exactly one renders, and it renders the label's guidance |
| Display.GuidanceDistinguishesLabels | src/components/SensorDashboard.tsx:211-218 | two labels with the same guidance are equal, or both are unknown |
| Display.CaseContrast | src/components/SensorDashboard.tsx:84-221 | "healthy" and "Healthy" share the green badge, but "healthy" gets the fallback guidance and "Healthy" gets the healthy message |
| Display.GreyBadgeMeansWaiting | src/components/SensorDashboard.tsx:84-221 | a label with the grey badge always gets the fallback guidance |
| Display.GuidanceExamples | src/components/SensorDashboard.tsx:210-221 | a received "Dry" selects the watering advice; "Soggy" and "Unknown" select the fallback |
| Display.ProgressOf | src/components/SensorDashboard.tsx:99-102 | NaN gives 0; a parsed value x gives a fill r with r * max = x * 100 |
| Display.ProgressValueMeaning | src/components/SensorDashboard.tsx:99-102 | `getProgressValue(value, max)` is 0 when `parseFloat(value)` is NaN, and otherwise a fill r with r * max = parseFloat(value) * 100 |
| Display.ProgressOfNonNumber | src/components/SensorDashboard.tsx:100-101 | text with no number at its head gives an empty bar |
| Display.ProgressInRangeIff | src/components/SensorDashboard.tsx:101 | for a positive max, the fill lies in 0..100 exactly when the parsed value lies in 0..max |
| Display.ProgressMonotone | src/components/SensorDashboard.tsx:101 | for a positive max, a larger parsed value never gives a smaller fill |
| Display.ScaleMax | src/components/SensorDashboard.tsx:130-190 | the scales the four cards pass (40, 100, 1000, 500) are all positive, so no card divides by zero |
| Display.CardProgressMeaning | src/components/SensorDashboard.tsx:129-191 | each card's fill is 0 while its reading is not a number, and otherwise the reading as a percentage of that card's scale |
| Display.CardFollowsMessage | src/components/SensorDashboard.tsx:49-191 | after a message on a metric's topic, that metric's card shows the fill of the payload, whatever the record held before |
| Display.InitialCardsEmpty | src/components/SensorDashboard.tsx:129-191 | with the initial record every card's bar is 0, whatever its scale (40, 100, 1000, 500) |
| Display.ProgressOfText | src/components/SensorDashboard.tsx:99-102 | "abc" of 40 gives 0 |
| Display.ProgressOfTwenty | src/components/SensorDashboard.tsx:99-102 | "20" of 40 gives 50 |
| Display.ProgressOfHundred | src/components/SensorDashboard.tsx:99-102 | "100" of 40 gives 250: nothing clamps at 100 |
| Display.ProgressOfNegative | src/components/SensorDashboard.tsx:99-102 | "-5" of 40 gives -12.5: nothing clamps at 0 |
| JsString.ToLower | src/components/SensorDashboard.tsx:85 | lower-casing keeps the length of the label |
| JsString.ToLowerAt | src/components/SensorDashboard.tsx:85 | each character of the lower-cased label is the lower-cased character at the same place |
| JsString.ToLowerIdempotent | src/components/SensorDashboard.tsx:85 | lower-casing twice is lower-casing once |
| JsNumber.ParseFloatDefined | src/components/SensorDashboard.tsx:100-101 | parseFloat gives a number exactly when the text, after white space and a sign, starts with a digit or with a point and a digit |
| JsNumber.ParseNumeral | src/components/SensorDashboard.tsx:100 | parseFloat reads back the decimal numeral of every natural number |
| JsNumber.ParseNegativeNumeral | src/components/SensorDashboard.tsx:100 | a minus sign before a numeral negates the value read |
| JsNumber.ParseNumeralWithTrailingText | src/components/SensorDashboard.tsx:100 | text after a numeral that cannot continue a decimal literal is ignored |

## Left out

- No handler is registered for the client's `close`, `offline` or `reconnect`
  events: lines 37-76 wire only `connect`, `message` and `error`. So the
  `connected` flag changes only on connect and on error, and the model has
  no other event that moves it.
- The broker connection is not modelled: `mqtt.connect` to the fixed URL, the
  `subscribe` calls' network effect, `client.end()` on unmount and the library's
  own reconnect behaviour are network I/O in a foreign library.
  `OnConnect` returns the list of topics it would subscribe to.
- The payload's `toString()` (decoding the message buffer as UTF-8) is not
  modelled. A payload arrives as a string.
- `console.log` and `console.error` are not modelled. They are logging only.
- React's batching of state updates is not modelled, and neither is the
  functional-update queue. Each callback is applied at once, in arrival order.
- Rendering is not modelled: JSX layout, badges and cards. The style classes
  and guidance sentences appear only as distinct string constants.
- JsString.ToLower: maps only the ASCII letters A-Z. JavaScript's
  `toLowerCase` applies full Unicode case mapping. For example, the Kelvin sign
  lower-cases to "k", so it could make a JavaScript label read as "dark".
- JsNumber.ParseFloat: covers the decimal-literal grammar only. The `Infinity`
  spelling gives ±Infinity in JavaScript and `None` here. Negative zero and
  IEEE-754 rounding are not modelled, since the value is an exact real.
- Display.ProgressValue: uses exact real division and requires a nonzero
  maximum. IEEE-754 NaN propagation, and the Infinity a zero maximum would give,
  are not modelled. Every call site passes 40, 100, 1000 or 500.
- The analytics, navigation, home and advanced-analysis components are not
  modelled. They hold static placeholder content and tab-switching UI state.
