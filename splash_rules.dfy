/**
 * The value-level rules of the WebAR splash screen handlers: the texts shown
 * for a percentage, the error table, the test for real SDK progress data,
 * the defaults applied to that data, and one tick of the simulated progress.
 */
module SplashRules {
  import opened Wrappers
  import opened JsMath

  // ---------------------------------------------------------------------
  // Percentage bands (getLoadingStageText, getFallbackDetailText)
  // ---------------------------------------------------------------------

  /** How many of the ascending `thresholds` the percentage has reached. */
  function Reached(thresholds: seq<real>, p: real): (n: nat)
    ensures n <= |thresholds|
  {
    if |thresholds| == 0 then 0
    else (if thresholds[0] <= p then 1 else 0) + Reached(thresholds[1..], p)
  }

  predicate Ascending(thresholds: seq<real>) {
    forall i, j | 0 <= i < j < |thresholds| :: thresholds[i] < thresholds[j]
  }

  /** A higher percentage has reached at least the thresholds a lower one has. */
  lemma {:induction false} ReachedMonotone(thresholds: seq<real>, p: real, q: real)
    requires p <= q
    ensures Reached(thresholds, p) <= Reached(thresholds, q)
  {
    if |thresholds| > 0 {
      ReachedMonotone(thresholds[1..], p, q);
    }
  }

  /** Below the first threshold nothing is reached; at or above it, one more than in the rest. */
  lemma {:induction false} ReachedFirst(thresholds: seq<real>, p: real)
    requires Ascending(thresholds) && |thresholds| > 0
    ensures p < thresholds[0] ==> Reached(thresholds, p) == 0
    ensures thresholds[0] <= p ==> Reached(thresholds, p) == 1 + Reached(thresholds[1..], p)
  {
    if p < thresholds[0] {
      NoneReached(thresholds[1..], p);
    }
  }

  lemma {:induction false} NoneReached(thresholds: seq<real>, p: real)
    requires forall i | 0 <= i < |thresholds| :: p < thresholds[i]
    ensures Reached(thresholds, p) == 0
  {
    if |thresholds| > 0 {
      NoneReached(thresholds[1..], p);
    }
  }

  const StageThresholds: seq<real> := [25.0, 50.0, 75.0, 100.0]

  const StageTexts: seq<string> := [
    "Initializing SDK components",
    "Loading AR engine",
    "Setting up tracking system",
    "Finalizing initialization",
    "SDK ready - preparing camera"]

  const DetailThresholds: seq<real> := [25.0, 50.0, 75.0, 95.0, 100.0]

  const DetailTexts: seq<string> := [
    "Fetching resources",
    "Setting up tracking",
    "Configuring video input",
    "Almost ready",
    "Ready to start",
    "Ready - starting camera"]

  /** The band of a percentage among 25, 50, 75 and 100. */
  function StageBand(p: real): (band: nat)
    ensures band < |StageTexts|
  {
    Reached(StageThresholds, p)
  }

  /** The band of a percentage among 25, 50, 75, 95 and 100. */
  function DetailBand(p: real): (band: nat)
    ensures band < |DetailTexts|
  {
    Reached(DetailThresholds, p)
  }

  /** The stage line under the progress bar: one text per band. */
  function LoadingStageText(percentage: real): (text: string)
    ensures text == StageTexts[StageBand(percentage)]
  {
    StageBandUnfold(percentage);
    if percentage < 25.0 then "Initializing SDK components"
    else if percentage < 50.0 then "Loading AR engine"
    else if percentage < 75.0 then "Setting up tracking system"
    else if percentage < 100.0 then "Finalizing initialization"
    else "SDK ready - preparing camera"
  }

  /** The detail line of the simulated progress: one text per band, "Ready to start" from 95 to below 100. */
  function FallbackDetailText(percentage: real): (text: string)
    ensures text == DetailTexts[DetailBand(percentage)]
  {
    DetailBandUnfold(percentage);
    if percentage < 25.0 then "Fetching resources"
    else if percentage < 50.0 then "Setting up tracking"
    else if percentage < 75.0 then "Configuring video input"
    else if percentage < 95.0 then "Almost ready"
    else if percentage >= 100.0 then "Ready - starting camera"
    else "Ready to start"
  }

  lemma StageBandUnfold(p: real)
    ensures StageBand(p) == (if p < 25.0 then 0 else if p < 50.0 then 1 else if p < 75.0 then 2
                             else if p < 100.0 then 3 else 4)
  {
    var t := StageThresholds;
    assert t[1..][1..][1..][1..] == [];
    assert Ascending(t[1..][1..][1..]);
    ReachedFirst(t[1..][1..][1..], p);
    assert Ascending(t[1..][1..]);
    ReachedFirst(t[1..][1..], p);
    assert Ascending(t[1..]);
    ReachedFirst(t[1..], p);
    ReachedFirst(t, p);
  }

  lemma DetailBandUnfold(p: real)
    ensures DetailBand(p) == (if p < 25.0 then 0 else if p < 50.0 then 1 else if p < 75.0 then 2
                              else if p < 95.0 then 3 else if p < 100.0 then 4 else 5)
  {
    var t := DetailThresholds;
    assert t[1..][1..][1..][1..][1..] == [];
    assert Ascending(t[1..][1..][1..][1..]);
    ReachedFirst(t[1..][1..][1..][1..], p);
    assert Ascending(t[1..][1..][1..]);
    ReachedFirst(t[1..][1..][1..], p);
    assert Ascending(t[1..][1..]);
    ReachedFirst(t[1..][1..], p);
    assert Ascending(t[1..]);
    ReachedFirst(t[1..], p);
    ReachedFirst(t, p);
  }

  lemma Differ(a: string, b: string)
    requires |a| != |b| || (|a| > 0 && |b| > 0 && a[0] != b[0])
    ensures a != b
  {
  }

  /** No two texts of a table are the same. */
  predicate Distinct(texts: seq<string>) {
    forall i, j | 0 <= i < j < |texts| :: texts[i] != texts[j]
  }

  lemma TextTablesDistinct()
    ensures Distinct(StageTexts) && Distinct(DetailTexts)
  {
    // the texts differ in length or in their first character
    forall i, j | 0 <= i < j < |StageTexts| ensures StageTexts[i] != StageTexts[j] {
      Differ(StageTexts[i], StageTexts[j]);
    }
    forall i, j | 0 <= i < j < |DetailTexts| ensures DetailTexts[i] != DetailTexts[j] {
      Differ(DetailTexts[i], DetailTexts[j]);
    }
  }

  /** Two percentages get the same stage text exactly when they lie in the same band. */
  lemma StageTextByBand(p: real, q: real)
    ensures LoadingStageText(p) == LoadingStageText(q) <==> StageBand(p) == StageBand(q)
  {
    TextTablesDistinct();
  }

  /** Two percentages get the same detail text exactly when they lie in the same band. */
  lemma DetailTextByBand(p: real, q: real)
    ensures FallbackDetailText(p) == FallbackDetailText(q) <==> DetailBand(p) == DetailBand(q)
  {
    TextTablesDistinct();
  }

  /** As the percentage grows the texts only move forward through their tables. */
  lemma TextsMoveForward(p: real, q: real)
    requires p <= q
    ensures StageBand(p) <= StageBand(q) && DetailBand(p) <= DetailBand(q)
  {
    ReachedMonotone(StageThresholds, p, q);
    ReachedMonotone(DetailThresholds, p, q);
  }

  /** The last text of each table appears exactly once progress has reached 100. */
  lemma ReadyTextsIffComplete(p: real)
    ensures LoadingStageText(p) == "SDK ready - preparing camera" <==> p >= 100.0
    ensures FallbackDetailText(p) == "Ready - starting camera" <==> p >= 100.0
  {
    StageBandUnfold(p);
    DetailBandUnfold(p);
    TextTablesDistinct();
  }

  // ---------------------------------------------------------------------
  // The error table (getErrorDisplayInfo)
  // ---------------------------------------------------------------------

  /** An SDK error; a property that is absent, null or another non-string value is None. */
  datatype SdkError = SdkError(code: Option<string>, message: Option<string>,
                               description: Option<string>, instruction: Option<string>)

  datatype ErrorInfo = ErrorInfo(title: string, message: string, instruction: string)

  /** `s || fallback` on a string: the empty string is falsy. */
  function OrElse(s: Option<string>, fallback: string): (r: string)
    ensures r == fallback || (s.Some? && r == s.value)
    ensures s.Some? && s.value != "" ==> r == s.value
    ensures !(s.Some? && s.value != "") ==> r == fallback
  {
    if s.Some? && s.value != "" then s.value else fallback
  }

  const OpenInBrowser := "Tap the menu button (•••) and select \"Open in Safari\" or \"Open in Chrome\""

  /** The five known error codes and what each displays. */
  const ErrorMappings: map<string, ErrorInfo> := map[
    "ERR_FACEBOOK_BROWSER" := ErrorInfo(
      "Unsupported Browser - Facebook",
      "Facebook's in-app browser doesn't support WebAR. Please open this link in Safari or Chrome.",
      OpenInBrowser),
    "ERR_INSTAGRAM_BROWSER" := ErrorInfo(
      "Unsupported Browser - Instagram",
      "Instagram's in-app browser doesn't support WebAR. Please open this link in Safari or Chrome.",
      OpenInBrowser),
    "ERR_WEBRTC_NOT_SUPPORTED" := ErrorInfo(
      "Browser Not Supported",
      "Your browser doesn't support the required WebRTC features for AR.",
      "Please try using Chrome, Safari, or another modern browser"),
    "ERR_CAMERA_PERMISSION_DENIED" := ErrorInfo(
      "Camera Permission Required",
      "Camera access is required for the AR experience to work.",
      "Please refresh the page and allow camera access when prompted"),
    "ERR_LANDSCAPE_MODE" := ErrorInfo(
      "Please Rotate Device",
      "Please rotate your device to portrait mode for the best AR experience.",
      "Hold your device vertically")]

  const GenericTitle := "WebAR Error"
  const GenericMessage := "An unexpected error occurred"

  predicate KnownCode(e: SdkError) {
    e.code.Some? && e.code.value in ErrorMappings
  }

  /** The table entry of a known code, otherwise the generic title with the error's own texts. */
  function ErrorDisplayInfo(e: SdkError): (info: ErrorInfo)
    ensures KnownCode(e) ==> info == ErrorMappings[e.code.value]
    ensures !KnownCode(e) ==> info.title == GenericTitle
    ensures !KnownCode(e) ==> info.message == OrElse(e.description, OrElse(e.message, GenericMessage))
    ensures !KnownCode(e) ==> info.instruction == OrElse(e.instruction, "")
  {
    if e.code.Some? && e.code.value in ErrorMappings then ErrorMappings[e.code.value]
    else ErrorInfo(GenericTitle, OrElse(e.description, OrElse(e.message, GenericMessage)), OrElse(e.instruction, ""))
  }

  /** The generic title appears exactly for codes outside the table. */
  lemma GenericTitleIffUnknown(e: SdkError)
    ensures ErrorDisplayInfo(e).title == GenericTitle <==> !KnownCode(e)
  {
    if KnownCode(e) {
      Differ(ErrorDisplayInfo(e).title, GenericTitle);
    }
  }

  /** Every error shows a non-empty title and a non-empty message. */
  lemma ErrorInfoNeverBlank(e: SdkError)
    ensures ErrorDisplayInfo(e).title != "" && ErrorDisplayInfo(e).message != ""
  {
    if !KnownCode(e) {
      var m := OrElse(e.message, GenericMessage);
      assert m != "";
      assert OrElse(e.description, m) != "";
    }
  }

  /** For a known code only the code matters; for an unknown one the description wins over the message. */
  lemma KnownCodeIgnoresDetails(e: SdkError, f: SdkError)
    requires KnownCode(e) && f.code == e.code
    ensures ErrorDisplayInfo(f) == ErrorDisplayInfo(e)
  {
  }

  lemma UnknownCodeMessagePrecedence(e: SdkError)
    requires !KnownCode(e)
    ensures e.description.Some? && e.description.value != "" ==> ErrorDisplayInfo(e).message == e.description.value
    ensures (e.description.None? || e.description.value == "") && e.message.Some? && e.message.value != ""
            ==> ErrorDisplayInfo(e).message == e.message.value
    ensures (e.description.None? || e.description.value == "") && (e.message.None? || e.message.value == "")
            ==> ErrorDisplayInfo(e).message == GenericMessage
  {
  }

  // ---------------------------------------------------------------------
  // Progress data (customProgressHandler, handleRealSDKProgress)
  // ---------------------------------------------------------------------

  /** The `debug` property: absent, null, an object, or some other value. */
  datatype Debug = DebugAbsent | DebugNull | DebugObject | DebugOther

  /** A progress report; a numeric property that is absent or not a number is None. */
  datatype Progress = Progress(percentage: Option<real>, current: Option<real>, total: Option<real>, debug: Debug)

  /**
   * Some numeric property says something, or a debug object came with the
   * report: exactly the reports that, shown as real progress, would show a
   * positive percentage or a count of components they report both numbers
   * of, or that carry a debug object.
   */
  predicate HasValidData(progress: Option<Progress>)
    ensures progress.Some? ==>
      var p, u := progress.value, RealProgressUpdate(progress.value);
      (HasValidData(progress) <==>
         u.percentage > 0.0 || (p.current.Some? && u.detail.detail.Components?) || p.debug == DebugObject)
  {
    && progress.Some?
    && var p := progress.value;
       || (p.percentage.Some? && p.percentage.value > 0.0)
       || (p.current.Some? && p.total.Some? && p.total.value > 0.0)
       || p.debug == DebugObject
  }

  /** What the handlers cover, case by case. */
  lemma ValidDataCases(p: Progress)
    ensures !HasValidData(None)
    ensures HasValidData(Some(p.(debug := DebugObject)))
    ensures HasValidData(Some(Progress(Some(1.0), None, None, DebugAbsent)))
    ensures !HasValidData(Some(Progress(Some(0.0), Some(3.0), Some(0.0), DebugNull)))
    ensures !HasValidData(Some(Progress(None, None, Some(5.0), DebugOther)))
    ensures HasValidData(Some(Progress(None, Some(0.0), Some(5.0), DebugAbsent)))
  {
  }

  /** `x || 0` on a number. */
  function OrZero(x: Option<real>): real {
    if x.Some? then x.value else 0.0
  }

  /** `Math.round`: the integer nearest, halves rounded up. */
  function Round(x: real): (n: int)
    ensures n as real - 0.5 <= x < n as real + 0.5
  {
    (x + 0.5).Floor
  }

  /** The detail line of real progress. */
  datatype Detail = Components(current: real, total: real) | LoadingComponents

  /** One update of the splash screen: the bar, the rounded percentage in the main line, and the two text lines. */
  datatype UiUpdate = UiUpdate(percentage: real, roundedPercent: int, detail: DetailLine, debugText: string)

  datatype DetailLine = RealDetail(detail: Detail) | FallbackDetail(text: string)

  /** The update `handleRealSDKProgress` shows, missing numbers taken as 0. */
  function RealProgressUpdate(p: Progress): UiUpdate {
    var percentage := OrZero(p.percentage);
    var current := OrZero(p.current);
    var total := OrZero(p.total);
    UiUpdate(percentage, Round(percentage),
             RealDetail(if total > 0.0 then Components(current, total) else LoadingComponents),
             LoadingStageText(percentage))
  }

  /** A report with neither numbers nor a debug object shows 0 and "Loading components...". */
  lemma EmptyRealProgress(d: Debug)
    ensures RealProgressUpdate(Progress(None, None, None, d))
         == UiUpdate(0.0, 0, RealDetail(LoadingComponents), "Initializing SDK components")
  {
  }

  /**
   * What a real report shows: its own percentage, or 0 without one; the
   * component count, a missing current step taken as 0, exactly when the
   * total is positive; and the "ready" stage text exactly from 100 on.
   */
  lemma RealProgressShown(p: Progress)
    ensures var u := RealProgressUpdate(p);
      && u.percentage == (if p.percentage.Some? then p.percentage.value else 0.0)
      && u.roundedPercent as real - 0.5 <= u.percentage < u.roundedPercent as real + 0.5
      && (p.total.Some? && p.total.value > 0.0 ==>
            u.detail == RealDetail(Components(if p.current.Some? then p.current.value else 0.0, p.total.value)))
      && (p.total.None? || p.total.value <= 0.0 ==> u.detail == RealDetail(LoadingComponents))
      && (u.debugText == "SDK ready - preparing camera" <==> p.percentage.Some? && p.percentage.value >= 100.0)
  {
    ReadyTextsIffComplete(OrZero(p.percentage));
  }

  /** The update a simulated tick shows. */
  function FallbackUpdate(p: real): UiUpdate {
    UiUpdate(p, Round(p), FallbackDetail(FallbackDetailText(p)), LoadingStageText(p))
  }

  // ---------------------------------------------------------------------
  // One tick of the simulated progress (startFallbackProgress's interval)
  // ---------------------------------------------------------------------

  /** The most one tick can add: 5 below 20, 3 below 50, 2 below 80, 1 otherwise. */
  function Speed(p: real): (s: real)
    ensures 1.0 <= s <= 5.0
    ensures p < 20.0 ==> s == 5.0
    ensures 80.0 <= p ==> s == 1.0
  {
    if p < 20.0 then 5.0
    else if p < 50.0 then 3.0
    else if p < 80.0 then 2.0
    else 1.0
  }

  /** A value of `Math.random()`. */
  predicate RandomDraw(random: real) {
    0.0 <= random < 1.0
  }

  /** Below 98 a tick adds `random * speed`, capped at 100; from 98 on progress completes at 100. */
  function FallbackTick(p: real, random: real): (r: real)
    ensures r <= 100.0
    ensures TickCompletes(p) ==> r == 100.0
    ensures RandomDraw(random) && p <= 100.0 ==> p <= r
  {
    if p < 98.0 then MathMin(p + random * Speed(p), 100.0)
    else 100.0
  }

  /** Whether a tick stops the interval. */
  predicate TickCompletes(p: real) {
    !(p < 98.0)
  }

  /**
   * A tick never lowers progress and keeps it within [0, 100]; below 98 it
   * adds less than the band's speed and never needs the cap; from 98 on it
   * lands on 100.
   */
  lemma TickBounds(p: real, random: real)
    requires 0.0 <= p <= 100.0 && RandomDraw(random)
    ensures p <= FallbackTick(p, random) <= 100.0
    ensures p < 98.0 ==> FallbackTick(p, random) == p + random * Speed(p)
    ensures p < 98.0 ==> FallbackTick(p, random) < p + Speed(p)
    ensures !(p < 98.0) ==> FallbackTick(p, random) == 100.0
  {
    if p < 98.0 {
      var s := Speed(p);
      assert 0.0 <= random * s < s by {
        assert (1.0 - random) * s > 0.0;
      }
      if p < 20.0 { assert p + s < 100.0; }
      else if p < 50.0 { assert p + s < 100.0; }
      else if p < 80.0 { assert p + s < 100.0; }
      else { assert p + s < 100.0; }
    }
  }

  /** The progress after one tick per draw, the interval stopping at the tick that completes. */
  function TicksAfter(p: real, draws: seq<real>): real
    decreases |draws|
  {
    if |draws| == 0 then p
    else if TickCompletes(p) then FallbackTick(p, draws[0])
    else TicksAfter(FallbackTick(p, draws[0]), draws[1..])
  }

  predicate AllDraws(draws: seq<real>) {
    forall i | 0 <= i < |draws| :: RandomDraw(draws[i])
  }

  /** However the draws fall, simulated progress never goes back and never passes 100. */
  lemma {:induction false} TicksStayInRange(p: real, draws: seq<real>)
    requires 0.0 <= p <= 100.0 && AllDraws(draws)
    ensures p <= TicksAfter(p, draws) <= 100.0
    decreases |draws|
  {
    if |draws| > 0 {
      TickBounds(p, draws[0]);
      if !TickCompletes(p) {
        assert AllDraws(draws[1..]) by {
          forall i | 0 <= i < |draws[1..]| ensures RandomDraw(draws[1..][i]) {
            assert draws[1..][i] == draws[i + 1];
          }
        }
        TicksStayInRange(FallbackTick(p, draws[0]), draws[1..]);
      }
    }
  }

  /** The percentages the interval shows, one per tick, up to and including the tick that completes. */
  function TickShown(p: real, draws: seq<real>): (shown: seq<real>)
    ensures |shown| <= |draws|
    decreases |draws|
  {
    if |draws| == 0 then []
    else
      var q := FallbackTick(p, draws[0]);
      [q] + (if TickCompletes(p) then [] else TickShown(q, draws[1..]))
  }

  /** The shown percentages never exceed 100, start no lower than `p`, and never go back. */
  lemma {:induction false} ShownAscending(p: real, draws: seq<real>)
    requires 0.0 <= p <= 100.0 && AllDraws(draws)
    ensures forall i | 0 <= i < |TickShown(p, draws)| :: p <= TickShown(p, draws)[i] <= 100.0
    ensures forall i, j | 0 <= i <= j < |TickShown(p, draws)| :: TickShown(p, draws)[i] <= TickShown(p, draws)[j]
    decreases |draws|
  {
    if |draws| > 0 {
      var q := FallbackTick(p, draws[0]);
      assert RandomDraw(draws[0]);
      if !TickCompletes(p) {
        assert AllDraws(draws[1..]) by {
          forall i | 0 <= i < |draws[1..]| ensures RandomDraw(draws[1..][i]) {
            assert draws[1..][i] == draws[i + 1];
          }
        }
        ShownAscending(q, draws[1..]);
        var rest := TickShown(q, draws[1..]);
        var shown := TickShown(p, draws);
        assert shown == [q] + rest;
        forall i | 1 <= i < |shown| ensures shown[i] == rest[i - 1] && q <= shown[i] {
        }
        forall i, j | 0 <= i <= j < |shown| ensures shown[i] <= shown[j] {
          if 0 < i {
            assert shown[i] == rest[i - 1] && shown[j] == rest[j - 1];
          }
        }
      }
    }
  }

  /**
   * Over a run of ticks the screen shows each percentage with the detail
   * and stage texts of its bands, and neither text ever moves back through
   * its table.
   */
  lemma FallbackUpdatesMoveForward(p: real, draws: seq<real>)
    requires 0.0 <= p <= 100.0 && AllDraws(draws)
    ensures var shown := TickShown(p, draws);
      && (forall i | 0 <= i < |shown| ::
            && FallbackUpdate(shown[i]).percentage == shown[i]
            && FallbackUpdate(shown[i]).detail == FallbackDetail(DetailTexts[DetailBand(shown[i])])
            && FallbackUpdate(shown[i]).debugText == StageTexts[StageBand(shown[i])])
      && (forall i, j | 0 <= i <= j < |shown| ::
            DetailBand(shown[i]) <= DetailBand(shown[j]) && StageBand(shown[i]) <= StageBand(shown[j]))
  {
    ShownAscending(p, draws);
    var shown := TickShown(p, draws);
    forall i, j | 0 <= i <= j < |shown|
      ensures DetailBand(shown[i]) <= DetailBand(shown[j]) && StageBand(shown[i]) <= StageBand(shown[j])
    {
      assert shown[i] <= shown[j];
      TextsMoveForward(shown[i], shown[j]);
    }
  }

  // ---------------------------------------------------------------------
  // The terminal tick as written
  // ---------------------------------------------------------------------

  /** A JavaScript number: a finite value or NaN. */
  datatype JsNumber = Finite(value: real) | NaN

  /** `Math.min(a, b)` where either operand may be NaN. */
  function JsMin(a: JsNumber, b: JsNumber): (r: JsNumber)
    ensures r.NaN? <==> a.NaN? || b.NaN?
  {
    if a.NaN? || b.NaN? then NaN
    else Finite(MathMin(a.value, b.value))
  }

  /**
   * The tick as the interval callback is written: from 98 on, `increment`
   * is never assigned, so `currentFallbackProgress + increment` is NaN and
   * the value stored after setting 100 is `Math.min(NaN, 100)`.
   */
  function FallbackTickAsWritten(p: real, random: real): (r: JsNumber)
    ensures r.NaN? <==> TickCompletes(p)
    ensures !TickCompletes(p) ==> r == Finite(FallbackTick(p, random))
  {
    var increment: Option<real> := if p < 98.0 then Some(random * Speed(p)) else None;
    var progress := if p < 98.0 then p else 100.0;
    var sum := if increment.Some? then Finite(progress + increment.value) else NaN;
    JsMin(sum, Finite(100.0))
  }

  /** From 98 on the tick as written stores NaN, where 100 was meant; below 98 it agrees with the corrected tick. */
  lemma TerminalTickIsNaN(p: real, random: real)
    ensures 98.0 <= p ==> FallbackTickAsWritten(p, random) == NaN && FallbackTick(p, random) == 100.0
    ensures p < 98.0 ==> FallbackTickAsWritten(p, random) == Finite(FallbackTick(p, random))
  {
  }

  /** The concrete case: at 98.5 the tick as written leaves NaN, while the corrected one lands on 100 with its own detail text. */
  lemma TerminalTickExample()
    ensures FallbackTickAsWritten(98.5, 0.3) == NaN
    ensures FallbackTick(98.5, 0.3) == 100.0
    ensures FallbackDetailText(FallbackTick(98.5, 0.3)) == "Ready - starting camera"
  {
  }
}
