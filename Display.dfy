/** The display helpers of the sensor dashboard: the badge colour of the
    classification, the guidance text under it, and the fill of each metric's
    progress bar. */
module Display {
  import opened Wrappers
  import opened JsString
  import opened JsNumber
  import opened Telemetry

  // ---------------------------------------------------------------------------
  // Classification colour (case-insensitive)
  // ---------------------------------------------------------------------------

  const GreenStyle: string := "bg-green-100 text-green-800 border-green-300"
  const AmberStyle: string := "bg-amber-100 text-amber-800 border-amber-300"
  const BlueStyle: string := "bg-blue-100 text-blue-800 border-blue-300"
  const PurpleStyle: string := "bg-purple-100 text-purple-800 border-purple-300"
  const GreyStyle: string := "bg-gray-100 text-gray-800 border-gray-300"

  /** The style class of the classification badge, chosen on the lower-cased label. */
  function ClassificationColor(classification: string): (r: string)
    ensures r == GreenStyle <==> ToLower(classification) == "healthy"
    ensures r == AmberStyle <==> ToLower(classification) == "dry"
    ensures r == BlueStyle <==> ToLower(classification) == "overwatered"
    ensures r == PurpleStyle <==> ToLower(classification) == "dark"
    ensures r == GreyStyle <==> ToLower(classification) !in ["healthy", "dry", "overwatered", "dark"]
  {
    var key := ToLower(classification);
    if key == "healthy" then GreenStyle
    else if key == "dry" then AmberStyle
    else if key == "overwatered" then BlueStyle
    else if key == "dark" then PurpleStyle
    else GreyStyle
  }

  /** The colour depends on the label only through its lower-cased form. */
  lemma ColorIgnoresCase(a: string, b: string)
    requires ToLower(a) == ToLower(b)
    ensures ClassificationColor(a) == ClassificationColor(b)
  {
  }

  /** Lower-casing the label first does not change its colour. */
  lemma ColorOfLowered(s: string)
    ensures ClassificationColor(ToLower(s)) == ClassificationColor(s)
  {
    ToLowerIdempotent(s);
  }

  // Each example below gives ToLowerIs the lower-cased characters one by one, which keeps the
  // verifier from unfolding ToLower over the whole literal.

  /** "Healthy", as sent, gets the green badge. */
  lemma HealthyIsGreen()
    ensures ClassificationColor("Healthy") == GreenStyle
  {
    var s, key := "Healthy", "healthy";
    forall i | 0 <= i < |s| ensures LowerChar(s[i]) == key[i] {}
    ToLowerIs(s, key);
  }

  /** "healthy", already lower case, gets the green badge. */
  lemma LowerHealthyIsGreen()
    ensures ClassificationColor("healthy") == GreenStyle
  {
    var s := "healthy";
    forall i | 0 <= i < |s| ensures LowerChar(s[i]) == s[i] {}
    ToLowerIs(s, s);
  }

  /** "HEALTHY" gets the green badge too: case does not matter. */
  lemma ShoutedHealthyIsGreen()
    ensures ClassificationColor("HEALTHY") == GreenStyle
  {
    var s, key := "HEALTHY", "healthy";
    forall i | 0 <= i < |s| ensures LowerChar(s[i]) == key[i] {}
    ToLowerIs(s, key);
  }

  /** "Dry" gets the amber badge. */
  lemma DryIsAmber()
    ensures ClassificationColor("Dry") == AmberStyle
  {
    var s, key := "Dry", "dry";
    forall i | 0 <= i < |s| ensures LowerChar(s[i]) == key[i] {}
    ToLowerIs(s, key);
  }

  /** "DRY" gets the amber badge too. */
  lemma ShoutedDryIsAmber()
    ensures ClassificationColor("DRY") == AmberStyle
  {
    var s, key := "DRY", "dry";
    forall i | 0 <= i < |s| ensures LowerChar(s[i]) == key[i] {}
    ToLowerIs(s, key);
  }

  /** "Overwatered" gets the blue badge. */
  lemma OverwateredIsBlue()
    ensures ClassificationColor("Overwatered") == BlueStyle
  {
    var s, key := "Overwatered", "overwatered";
    forall i | 0 <= i < |s| ensures LowerChar(s[i]) == key[i] {}
    ToLowerIs(s, key);
  }

  /** "OverWatered" gets the blue badge too. */
  lemma MixedCaseOverwateredIsBlue()
    ensures ClassificationColor("OverWatered") == BlueStyle
  {
    var s, key := "OverWatered", "overwatered";
    forall i | 0 <= i < |s| ensures LowerChar(s[i]) == key[i] {}
    ToLowerIs(s, key);
  }

  /** "Dark" gets the purple badge. */
  lemma DarkIsPurple()
    ensures ClassificationColor("Dark") == PurpleStyle
  {
    var s, key := "Dark", "dark";
    forall i | 0 <= i < |s| ensures LowerChar(s[i]) == key[i] {}
    ToLowerIs(s, key);
  }

  /** "dARK" gets the purple badge too. */
  lemma InvertedCaseDarkIsPurple()
    ensures ClassificationColor("dARK") == PurpleStyle
  {
    var s, key := "dARK", "dark";
    forall i | 0 <= i < |s| ensures LowerChar(s[i]) == key[i] {}
    ToLowerIs(s, key);
  }

  /** "Unknown", the initial label, gets the grey badge. */
  lemma UnknownIsGrey()
    ensures ClassificationColor(UnknownLabel) == GreyStyle
  {
    var s, key := UnknownLabel, "unknown";
    forall i | 0 <= i < |s| ensures LowerChar(s[i]) == key[i] {}
    ToLowerIs(s, key);
  }

  // ---------------------------------------------------------------------------
  // Guidance text (case-sensitive)
  // ---------------------------------------------------------------------------

  const HealthyAdvice: string := "Your plant is in optimal condition. Keep up the good work!"
  const DryAdvice: string := "Your plant needs water. Consider increasing watering frequency."
  const OverwateredAdvice: string := "Your plant has excess water. Reduce watering and ensure proper drainage."
  const DarkAdvice: string := "Your plant needs more light. Consider relocating to a brighter spot."
  const WaitingAdvice: string := "Waiting for plant condition data..."

  /** The labels that have their own guidance, compared exactly. */
  const KnownLabels: seq<string> := ["Healthy", "Dry", "Overwatered", "Dark"]

  /** Reference definition: the one message meant for a label. */
  function Guidance(classification: string): (r: string)
    ensures r == WaitingAdvice <==> classification !in KnownLabels
  {
    if classification == "Healthy" then HealthyAdvice
    else if classification == "Dry" then DryAdvice
    else if classification == "Overwatered" then OverwateredAdvice
    else if classification == "Dark" then DarkAdvice
    else WaitingAdvice
  }

  /** One `condition && text` of the paragraph: the text when the condition holds, nothing otherwise. */
  function When(condition: bool, text: string): seq<string> {
    if condition then [text] else []
  }

  /** The paragraph as written: five independent conditionals, rendered in order.
      Exactly one of them fires, and it produces the label's guidance. */
  function GuidanceFragments(classification: string): (r: seq<string>)
    ensures r == [Guidance(classification)]
  {
    When(classification == "Healthy", HealthyAdvice)
    + When(classification == "Dry", DryAdvice)
    + When(classification == "Overwatered", OverwateredAdvice)
    + When(classification == "Dark", DarkAdvice)
    + When(classification !in KnownLabels, WaitingAdvice)
  }

  /** Different known labels get different messages, so the message identifies the label. */
  lemma GuidanceDistinguishesLabels(a: string, b: string)
    requires Guidance(a) == Guidance(b)
    ensures a == b || (a !in KnownLabels && b !in KnownLabels)
  {
  }

  /** The colour ignores case, the guidance does not: "healthy" is green but gets the fallback. */
  lemma CaseContrast()
    ensures ClassificationColor("healthy") == ClassificationColor("Healthy")
    ensures Guidance("healthy") == WaitingAdvice
    ensures Guidance("Healthy") == HealthyAdvice != WaitingAdvice
  {
    HealthyIsGreen();
    LowerHealthyIsGreen();
  }

  /** A grey badge always comes with the fallback message (the converse fails, as "healthy" shows). */
  lemma GreyBadgeMeansWaiting(classification: string)
    requires ClassificationColor(classification) == GreyStyle
    ensures Guidance(classification) == WaitingAdvice
  {
    if classification == "Healthy" {
      HealthyIsGreen();
    } else if classification == "Dry" {
      DryIsAmber();
    } else if classification == "Overwatered" {
      OverwateredIsBlue();
    } else if classification == "Dark" {
      DarkIsPurple();
    }
  }

  /** A received "Dry" label selects the watering advice; an unknown "Soggy" the fallback. */
  lemma GuidanceExamples()
    ensures Guidance(Run(Initial, [Message(ClassificationTopic, "Dry")]).data.classification) == DryAdvice
    ensures Guidance("Soggy") == WaitingAdvice
    ensures Guidance(UnknownLabel) == WaitingAdvice
  {
    var es := [Message(ClassificationTopic, "Dry")];
    assert es[1..] == [];
  }

  // ---------------------------------------------------------------------------
  // Progress bars (not clamped)
  // ---------------------------------------------------------------------------

  /** The bar fill for a parsed value: the value as a percentage of `max`, or 0 for NaN. */
  function ProgressOf(parsed: Option<real>, max: real): (r: real)
    requires max != 0.0
    ensures parsed.None? ==> r == 0.0
    ensures parsed.Some? ==> r * max == parsed.value * 100.0
  {
    match parsed
    case None => 0.0
    case Some(x) => x / max * 100.0
  }

  /** `getProgressValue`: the parsed text as a percentage of `max`, or 0 when the text is not a number. */
  function ProgressValue(value: string, max: real): real
    requires max != 0.0
  {
    ProgressOf(ParseFloat(value), max)
  }

  /** What the fill `r` of a text means: 0 when the text is not a number, and otherwise
      the number as a percentage of `max` (`r * max == x * 100`). */
  lemma ProgressValueMeaning(value: string, max: real, r: real)
    requires max != 0.0 && r == ProgressValue(value, max)
    ensures ParseFloat(value).None? ==> r == 0.0
    ensures ParseFloat(value).Some? ==> r * max == ParseFloat(value).value * 100.0
  {
    match ParseFloat(value)
    case None =>
    case Some(x) =>
      ProgressValueOfParse(value, max, x);
      ProgressOfScales(x, max, r);
  }

  /** A parsed value reaches `ProgressOf` unchanged. */
  lemma ProgressValueOfParse(value: string, max: real, x: real)
    requires max != 0.0 && ParseFloat(value) == Some(x)
    ensures ProgressValue(value, max) == ProgressOf(Some(x), max)
  {}

  /** The scaling fact of `ProgressOf` for a number `x`, with its result named `r`. */
  lemma ProgressOfScales(x: real, max: real, r: real)
    requires max != 0.0 && r == ProgressOf(Some(x), max)
    ensures r * max == x * 100.0
  {}

  /** Text with no number at its head always gives an empty bar. */
  lemma ProgressOfNonNumber(value: string, max: real)
    requires max != 0.0
    requires !StartsWithNumber(value)
    ensures ProgressValue(value, max) == 0.0
  {
    ParseFloatDefined(value);
  }

  /** The bar is within 0..100 exactly when the parsed value is within 0..max; nothing clamps it. */
  lemma ProgressInRangeIff(x: real, max: real)
    requires max > 0.0
    ensures 0.0 <= ProgressOf(Some(x), max) <= 100.0 <==> 0.0 <= x <= max
  {
    var r := ProgressOf(Some(x), max);
    assert r * max == x * 100.0;
    if 0.0 <= r <= 100.0 {
      assert 0.0 <= r * max <= 100.0 * max;
    }
    if 0.0 <= x <= max {
      assert 0.0 <= r * max <= 100.0 * max;
    }
  }

  /** A larger parsed value never gives a shorter bar. */
  lemma ProgressMonotone(x: real, y: real, max: real)
    requires max > 0.0
    requires x <= y
    ensures ProgressOf(Some(x), max) <= ProgressOf(Some(y), max)
  {
    var rx, ry := ProgressOf(Some(x), max), ProgressOf(Some(y), max);
    assert rx * max <= ry * max;
  }

  /** The scale of each metric's bar. */
  function ScaleMax(m: Metric): (r: real)
    ensures r > 0.0
  {
    match m
    case Temperature => 40.0
    case Humidity => 100.0
    case Light => 1000.0
    case Moisture => 500.0
  }

  /** The fill of a metric's card for the current record. */
  function CardProgress(d: SensorData, m: Metric): real {
    ProgressValue(Get(d, Reading(m)), ScaleMax(m))
  }

  /** A card's fill `r` is 0 while its reading is not a number, and otherwise the reading
      as a percentage of the card's scale. */
  lemma CardProgressMeaning(d: SensorData, m: Metric, r: real)
    requires r == CardProgress(d, m)
    ensures ParseFloat(Get(d, Reading(m))).None? ==> r == 0.0
    ensures ParseFloat(Get(d, Reading(m))).Some? ==> r * ScaleMax(m) == ParseFloat(Get(d, Reading(m))).value * 100.0
  {
    ProgressValueMeaning(Get(d, Reading(m)), ScaleMax(m), r);
  }

  /** A message on a metric's topic sets that card from the payload alone. */
  lemma CardFollowsMessage(d: SensorData, m: Metric, payload: string)
    ensures CardProgress(ApplyMessage(d, TopicOf(Reading(m)), payload), m) == ProgressValue(payload, ScaleMax(m))
  {
    RouteInvertsTopicOf(TopicOf(Reading(m)), Reading(m));
  }

  /** Before any reading arrives every bar is empty: "--" is not a number. */
  lemma InitialCardsEmpty(m: Metric)
    ensures CardProgress(InitialData, m) == 0.0
  {
    ProgressOfNonNumber(NoReading, ScaleMax(m));
  }

  /** "abc" is not a number, so its bar is empty. */
  lemma ProgressOfText()
    ensures ProgressValue("abc", 40.0) == 0.0
  {
    ProgressOfNonNumber("abc", 40.0);
  }

  /** "20" on the temperature scale of 40 fills half the bar. */
  lemma ProgressOfTwenty()
    ensures ProgressValue("20", 40.0) == 50.0
  {
    assert Numeral(20) == "20";
    ParseNumeral(20);
    ProgressValueOfParse("20", 40.0, 20.0);
  }

  /** "100" on the temperature scale of 40 gives 250: nothing clamps the bar at 100. */
  lemma ProgressOfHundred()
    ensures ProgressValue("100", 40.0) == 250.0
  {
    assert Numeral(100) == "100" by {
      assert Numeral(10) == "10";
    }
    ParseNumeral(100);
    ProgressValueOfParse("100", 40.0, 100.0);
  }

  /** "-5" on the scale of 40 gives -12.5: nothing clamps the bar at 0. */
  lemma ProgressOfNegative()
    ensures ProgressValue("-5", 40.0) == -12.5
  {
    assert "-" + Numeral(5) == "-5";
    ParseNegativeNumeral(5);
    ProgressValueOfParse("-5", 40.0, -5.0);
  }
}
