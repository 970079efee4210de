/** `get_human_comparative_analysis` (app.py): three metrics of the user's
    recording are each put in one of three bands relative to the benchmark's,
    and the bands select the phrases of a fixed three-paragraph report. */
module Comparison {
  import opened Wrappers
  import opened AudioFeatures

  datatype Band = Lower | Similar | Higher

  /** Lower < Similar < Higher. */
  function Rank(b: Band): int {
    match b
    case Lower => 0
    case Similar => 1
    case Higher => 2
  }

  /** The `if user > bench * upper: ... elif user < bench * lower: ...` chain:
      the "higher" test first, both tests strict, "similar" otherwise. */
  function Classify(user: real, bench: real, upper: real, lower: real): (b: Band)
    ensures b == Higher <==> user > bench * upper
    ensures b == Lower ==> user < bench * lower
    ensures b == Similar ==> bench * lower <= user <= bench * upper
  {
    if user > bench * upper then Higher
    else if user < bench * lower then Lower
    else Similar
  }

  /** The factors of the peak test (tone) and of the average and dynamic-range
      tests (dynamics, style). */
  const ToneUpper: real := 1.1
  const ToneLower: real := 0.9
  const SpreadUpper: real := 1.15
  const SpreadLower: real := 0.85

  datatype Assessment = Assessment(tone: Band, dynamics: Band, style: Band)

  /** The peak decides the tone (10% either way), the average the dynamics
      and the dynamic range the style (15% either way). */
  function Assess(bench: Features, user: Features): (a: Assessment)
    ensures a.tone == Higher <==> user.peakAmplitude > bench.peakAmplitude * 1.1
    ensures a.tone == Lower ==> user.peakAmplitude < bench.peakAmplitude * 0.9
    ensures a.dynamics == Higher <==> user.avgAmplitude > bench.avgAmplitude * 1.15
    ensures a.dynamics == Lower ==> user.avgAmplitude < bench.avgAmplitude * 0.85
    ensures a.style == Higher <==> user.dynamicRange > bench.dynamicRange * 1.15
    ensures a.style == Lower ==> user.dynamicRange < bench.dynamicRange * 0.85
    ensures a.tone == Similar ==>
              bench.peakAmplitude * 0.9 <= user.peakAmplitude <= bench.peakAmplitude * 1.1
    ensures a.dynamics == Similar ==>
              bench.avgAmplitude * 0.85 <= user.avgAmplitude <= bench.avgAmplitude * 1.15
    ensures a.style == Similar ==>
              bench.dynamicRange * 0.85 <= user.dynamicRange <= bench.dynamicRange * 1.15
  {
    Assessment(
      tone := Classify(user.peakAmplitude, bench.peakAmplitude, ToneUpper, ToneLower),
      dynamics := Classify(user.avgAmplitude, bench.avgAmplitude, SpreadUpper, SpreadLower),
      style := Classify(user.dynamicRange, bench.dynamicRange, SpreadUpper, SpreadLower))
  }

  /** For a non-negative benchmark value each band is exactly an interval of
      the user's value: above `bench * upper`, below `bench * lower`, or the
      closed interval between them. */
  lemma ClassifyBands(user: real, bench: real, upper: real, lower: real)
    requires bench >= 0.0 && 0.0 <= lower <= upper
    ensures Classify(user, bench, upper, lower) == Higher <==> user > bench * upper
    ensures Classify(user, bench, upper, lower) == Lower <==> user < bench * lower
    ensures Classify(user, bench, upper, lower) == Similar <==> bench * lower <= user <= bench * upper
  {
    assert bench * lower <= bench * upper;
  }

  /** A value exactly at either threshold is "similar". */
  lemma ThresholdsAreSimilar(bench: real, upper: real, lower: real)
    requires bench >= 0.0 && 0.0 <= lower <= upper
    ensures Classify(bench * upper, bench, upper, lower) == Similar
    ensures Classify(bench * lower, bench, upper, lower) == Similar
  {
    assert bench * lower <= bench * upper;
  }

  /** A louder (longer, wider) user value never lands in a lower band. */
  lemma ClassifyMonotone(u1: real, u2: real, bench: real, upper: real, lower: real)
    requires u1 <= u2 && bench >= 0.0 && 0.0 <= lower <= upper
    ensures Rank(Classify(u1, bench, upper, lower)) <= Rank(Classify(u2, bench, upper, lower))
  {
    assert bench * lower <= bench * upper;
  }

  /** A zero benchmark value: any positive user value is "higher", zero is "similar". */
  lemma ZeroBenchmark(user: real, upper: real, lower: real)
    requires user >= 0.0
    ensures Classify(user, 0.0, upper, lower) == (if user > 0.0 then Higher else Similar)
  {
  }

  /** Swapping the recordings turns "lower" into "higher", because for each
      metric `lower * upper <= 1`. */
  lemma {:induction false} LowerSwapsToHigher(a: real, b: real, upper: real, lower: real)
    requires a >= 0.0 && 0.0 < lower && lower * upper <= 1.0
    requires Classify(a, b, upper, lower) == Lower
    ensures Classify(b, a, upper, lower) == Higher
  {
    assert a < b * lower;
    assert a * upper * lower <= a by {
      assert a * (upper * lower) <= a * 1.0;
    }
    assert a * upper * lower < b * lower;
    assert a * upper < b;
  }

  /** The converse does not hold: a user value 1.16 times the benchmark is
      "higher", yet with the recordings swapped it is still "similar". */
  lemma HigherNeedNotSwapToLower()
    ensures Classify(1.16, 1.0, SpreadUpper, SpreadLower) == Higher
    ensures Classify(1.0, 1.16, SpreadUpper, SpreadLower) == Similar
    ensures Classify(1.105, 1.0, ToneUpper, ToneLower) == Higher
    ensures Classify(1.0, 1.105, ToneUpper, ToneLower) == Similar
  {
  }

  predicate NonNegative(f: Features) {
    f.avgAmplitude >= 0.0 && f.peakAmplitude >= 0.0 && f.dynamicRange >= 0.0
  }

  /** Every successful analysis yields features the lemmas below apply to. */
  lemma AnalysedFeaturesAreNonNegative(audio: seq<byte>, wav: Option<WavReading>)
    requires AnalyzeAudioFeatures(audio, wav).Success?
    ensures NonNegative(AnalyzeAudioFeatures(audio, wav).value)
  {
    FeatureBounds(audio, wav);
  }

  /** Comparing a recording with itself gives "similar" on every metric. */
  lemma SelfComparisonIsSimilar(f: Features)
    requires NonNegative(f)
    ensures Assess(f, f) == Assessment(Similar, Similar, Similar)
  {
  }

  /** Swapping two analysed recordings turns each "lower" into "higher". */
  lemma AssessSwapsLowerToHigher(bench: Features, user: Features)
    requires NonNegative(bench) && NonNegative(user)
    ensures Assess(bench, user).tone == Lower ==> Assess(user, bench).tone == Higher
    ensures Assess(bench, user).dynamics == Lower ==> Assess(user, bench).dynamics == Higher
    ensures Assess(bench, user).style == Lower ==> Assess(user, bench).style == Higher
  {
    if Assess(bench, user).tone == Lower {
      LowerSwapsToHigher(user.peakAmplitude, bench.peakAmplitude, ToneUpper, ToneLower);
    }
    if Assess(bench, user).dynamics == Lower {
      LowerSwapsToHigher(user.avgAmplitude, bench.avgAmplitude, SpreadUpper, SpreadLower);
    }
    if Assess(bench, user).style == Lower {
      LowerSwapsToHigher(user.dynamicRange, bench.dynamicRange, SpreadUpper, SpreadLower);
    }
  }

  // ---- The report text ----

  const CouldNotAnalyze: string := "Could not analyze one or both audio files."

  function TonePhrase(b: Band): string {
    match b
    case Similar => "similar"
    case Higher => "brighter and more piercing than"
    case Lower => "warmer and less aggressive than"
  }

  function DynamicsPhrase(b: Band): string {
    match b
    case Similar => "very close to"
    case Higher => "generally louder than"
    case Lower => "quieter and more reserved than"
  }

  function StylePhrase(b: Band): string {
    match b
    case Similar => "well"
    case Higher => "wider, with more contrast than"
    case Lower => "narrower than"
  }

  const DynamicsLead: string := "**Dynamics:** Your performance was "
  const ToneLead: string := "**Tonal Quality:** Your tone was "
  const ToneTail: string := " the goal recording, suggesting a difference in bow pressure."
  const StyleLead: string := "**Playing Style:** You employed a "
  const StyleTail: string := " the benchmark's dynamic range, reflecting your expressive choices."
  const Break: string := "\n\n"

  function DynamicsSection(b: Band, userAvg: real, benchAvg: real, fmt: real -> string): string {
    DynamicsLead + DynamicsPhrase(b) + " the benchmark. (Avg. Loudness: "
      + fmt(userAvg) + " vs " + fmt(benchAvg) + ")"
  }

  function ToneSection(b: Band): string {
    ToneLead + TonePhrase(b) + ToneTail
  }

  function StyleSection(b: Band): string {
    StyleLead + StylePhrase(b) + StyleTail
  }

  /** The report: Dynamics, Tonal Quality, Playing Style, in that order.
      `fmt` stands for the `:.2f` formatting of the average loudness. */
  function Render(a: Assessment, userAvg: real, benchAvg: real, fmt: real -> string): (text: string)
    ensures StartsWith(text, DynamicsLead + DynamicsPhrase(a.dynamics))
    ensures EndsWith(text, StyleSection(a.style))
  {
    ReportOpening(a, userAvg, benchAvg, fmt);
    EndsWithAppend(DynamicsSection(a.dynamics, userAvg, benchAvg, fmt) + Break
      + ToneSection(a.tone) + Break, StyleSection(a.style));
    DynamicsSection(a.dynamics, userAvg, benchAvg, fmt) + Break
      + ToneSection(a.tone) + Break + StyleSection(a.style)
  }

  /** `get_human_comparative_analysis`; `None` stands for a failed analysis. */
  function GetHumanComparativeAnalysis(bench: Option<Features>, user: Option<Features>, fmt: real -> string): (report: string)
    ensures bench.None? || user.None? ==> report == CouldNotAnalyze
    ensures bench.Some? && user.Some? ==>
              report == Render(Assess(bench.value, user.value), user.value.avgAmplitude, bench.value.avgAmplitude, fmt)
  {
    if bench.None? || user.None? then CouldNotAnalyze
    else
      var b, u := bench.value, user.value;
      Render(Assess(b, u), u.avgAmplitude, b.avgAmplitude, fmt)
  }

  // ---- Reading the bands back from a report ----

  predicate EndsWith(text: string, suffix: string) {
    |suffix| <= |text| && text[|text| - |suffix|..] == suffix
  }

  predicate StartsWith(text: string, prefix: string) {
    |prefix| <= |text| && text[..|prefix|] == prefix
  }

  /** The band whose section `text` ends with, trying "similar", "higher"
      and "lower" in that order. */
  function EndingBand(text: string, similar: string, higher: string, lower: string): Option<Band> {
    if EndsWith(text, similar) then Some(Similar)
    else if EndsWith(text, higher) then Some(Higher)
    else if EndsWith(text, lower) then Some(Lower)
    else None
  }

  function Pick(b: Band, similar: string, higher: string, lower: string): string {
    match b
    case Similar => similar
    case Higher => higher
    case Lower => lower
  }

  /** The band whose dynamics phrase follows the report's opening words. */
  function LeadingDynamics(text: string): Option<Band> {
    if StartsWith(text, DynamicsLead + DynamicsPhrase(Similar)) then Some(Similar)
    else if StartsWith(text, DynamicsLead + DynamicsPhrase(Higher)) then Some(Higher)
    else if StartsWith(text, DynamicsLead + DynamicsPhrase(Lower)) then Some(Lower)
    else None
  }

  /** Recovers the three bands from a report: the style from its last
      section, the tone from the section before it, the dynamics from its
      opening words. */
  function DecodeAssessment(text: string): Option<Assessment> {
    match EndingBand(text, StyleSection(Similar), StyleSection(Higher), StyleSection(Lower))
    case None => None
    case Some(style) =>
      var rest := text[..|text| - |StyleSection(style)|];
      if !EndsWith(rest, Break) then None
      else
        var rest' := rest[..|rest| - |Break|];
        match EndingBand(rest', ToneSection(Similar), ToneSection(Higher), ToneSection(Lower))
        case None => None
        case Some(tone) =>
          match LeadingDynamics(text)
          case None => None
          case Some(dynamics) => Some(Assessment(tone, dynamics, style))
  }

  lemma EndsWithAppend(x: string, y: string)
    ensures EndsWith(x + y, y)
  {
    assert (x + y)[|x + y| - |y|..] == y;
  }

  /** Two texts that differ `k` characters from the end cannot share a suffix of length `k` or more. */
  lemma NotEndsWith(x: string, s: string, k: nat)
    requires 0 < k <= |s| <= |x| && x[|x| - k] != s[|s| - k]
    ensures !EndsWith(x, s)
  {
  }

  lemma CharFromEnd(x: string, y: string, k: nat)
    requires 0 < k <= |y|
    ensures (x + y)[|x + y| - k] == y[|y| - k]
  {
  }

  lemma CharBeforeEnd(x: string, y: string, k: nat)
    requires |y| < k <= |x| + |y|
    ensures (x + y)[|x + y| - k] == x[|x| - (k - |y|)]
  {
  }

  /** The section a text ends with decides the band, when the three phrases
      differ in their last character and the "higher" and "lower" phrases in
      their sixth from last. */
  lemma EndingBandOf(x: string, b: Band, lead: string, tail: string, similar: string, higher: string, lower: string)
    requires |similar| >= 1 && |higher| >= 6 && |lower| >= 6
    requires similar[|similar| - 1] != higher[|higher| - 1]
    requires similar[|similar| - 1] != lower[|lower| - 1]
    requires higher[|higher| - 6] != lower[|lower| - 6]
    ensures EndingBand(x + (lead + Pick(b, similar, higher, lower) + tail),
                       lead + similar + tail, lead + higher + tail, lead + lower + tail) == Some(b)
  {
    var phrase := Pick(b, similar, higher, lower);
    var section := lead + phrase + tail;
    var text := x + section;
    EndsWithAppend(x, section);
    forall c: Band | (c == Similar && b != Similar) || (c == Higher && b == Lower)
      ensures !EndsWith(text, lead + Pick(c, similar, higher, lower) + tail)
    {
      var other := Pick(c, similar, higher, lower);
      var j := if c == Similar then 1 else 6;
      assert b != Similar && |phrase| >= 6;
      assert phrase[|phrase| - j] != other[|other| - j];
      var k := |tail| + j;
      CharFromEnd(x, section, k);
      CharBeforeEnd(lead + phrase, tail, k);
      CharFromEnd(lead, phrase, j);
      if |lead + other + tail| <= |text| {
        CharBeforeEnd(lead + other, tail, k);
        CharFromEnd(lead, other, j);
        NotEndsWith(text, lead + other + tail, k);
      }
    }
    assert Pick(Similar, similar, higher, lower) == similar;
    assert Pick(Higher, similar, higher, lower) == higher;
  }

  lemma StartsWithAppend(x: string, y: string)
    ensures StartsWith(x + y, x)
  {
    assert (x + y)[..|x|] == x;
  }

  lemma NotStartsWith(x: string, s: string, k: nat)
    requires k < |s| && k < |x| && x[k] != s[k]
    ensures !StartsWith(x, s)
  {
  }

  /** The opening words of a report give its dynamics band: the three
      dynamics phrases differ in their first character. */
  lemma LeadingDynamicsOf(text: string, b: Band)
    requires StartsWith(text, DynamicsLead + DynamicsPhrase(b))
    ensures LeadingDynamics(text) == Some(b)
  {
    var k := |DynamicsLead|;
    assert text[k] == (DynamicsLead + DynamicsPhrase(b))[k] == DynamicsPhrase(b)[0];
    forall c: Band | (c == Similar && b != Similar) || (c == Higher && b == Lower)
      ensures !StartsWith(text, DynamicsLead + DynamicsPhrase(c))
    {
      assert (DynamicsLead + DynamicsPhrase(c))[k] == DynamicsPhrase(c)[0];
      NotStartsWith(text, DynamicsLead + DynamicsPhrase(c), k);
    }
  }

  lemma StartsWithExtend(x: string, y: string, z: string)
    requires StartsWith(x, z)
    ensures StartsWith(x + y, z)
  {
    assert (x + y)[..|z|] == x[..|z|];
  }

  /** A report opens with the dynamics lead and the dynamics phrase. */
  lemma ReportOpening(a: Assessment, userAvg: real, benchAvg: real, fmt: real -> string)
    ensures StartsWith(DynamicsSection(a.dynamics, userAvg, benchAvg, fmt) + Break
      + ToneSection(a.tone) + Break + StyleSection(a.style), DynamicsLead + DynamicsPhrase(a.dynamics))
  {
    var opening := DynamicsLead + DynamicsPhrase(a.dynamics);
    var l1 := opening + " the benchmark. (Avg. Loudness: ";
    var l2 := l1 + fmt(userAvg);
    var l3 := l2 + " vs ";
    var l4 := l3 + fmt(benchAvg);
    var l5 := l4 + ")";
    var l6 := l5 + Break;
    var l7 := l6 + ToneSection(a.tone);
    var l8 := l7 + Break;
    StartsWithAppend(opening, " the benchmark. (Avg. Loudness: ");
    StartsWithExtend(l1, fmt(userAvg), opening);
    StartsWithExtend(l2, " vs ", opening);
    StartsWithExtend(l3, fmt(benchAvg), opening);
    StartsWithExtend(l4, ")", opening);
    StartsWithExtend(l5, Break, opening);
    StartsWithExtend(l6, ToneSection(a.tone), opening);
    StartsWithExtend(l7, Break, opening);
    StartsWithExtend(l8, StyleSection(a.style), opening);
  }

  /** The last section of a report gives its style band. */
  lemma StyleOfReport(before: string, style: Band)
    ensures EndingBand(before + StyleSection(style), StyleSection(Similar), StyleSection(Higher), StyleSection(Lower)) == Some(style)
  {
    assert StylePhrase(style) == Pick(style, StylePhrase(Similar), StylePhrase(Higher), StylePhrase(Lower));
    EndingBandOf(before, style, StyleLead, StyleTail,
                 StylePhrase(Similar), StylePhrase(Higher), StylePhrase(Lower));
  }

  /** The section before it gives the tone band. */
  lemma ToneOfReport(before: string, tone: Band)
    ensures EndingBand(before + ToneSection(tone), ToneSection(Similar), ToneSection(Higher), ToneSection(Lower)) == Some(tone)
  {
    assert TonePhrase(tone) == Pick(tone, TonePhrase(Similar), TonePhrase(Higher), TonePhrase(Lower));
    EndingBandOf(before, tone, ToneLead, ToneTail,
                 TonePhrase(Similar), TonePhrase(Higher), TonePhrase(Lower));
  }

  /** Taking a known suffix off a concatenation gives back its front. */
  lemma DropSuffix(x: string, y: string)
    ensures (x + y)[..|x + y| - |y|] == x
  {
  }

  /** The report determines its three bands whatever the loudness numbers
      and their formatting: `DecodeAssessment` undoes `Render`. */
  lemma DecodeRender(a: Assessment, userAvg: real, benchAvg: real, fmt: real -> string)
    ensures DecodeAssessment(Render(a, userAvg, benchAvg, fmt)) == Some(a)
  {
    var dyn := DynamicsSection(a.dynamics, userAvg, benchAvg, fmt);
    var tone, style := ToneSection(a.tone), StyleSection(a.style);
    var text := Render(a, userAvg, benchAvg, fmt);
    var beforeTone := dyn + Break;
    var beforeStyle := beforeTone + tone + Break;
    assert text == beforeStyle + style;
    StyleOfReport(beforeStyle, a.style);
    DropSuffix(beforeStyle, style);
    EndsWithAppend(beforeTone + tone, Break);
    DropSuffix(beforeTone + tone, Break);
    ToneOfReport(beforeTone, a.tone);
    ReportOpening(a, userAvg, benchAvg, fmt);
    LeadingDynamicsOf(text, a.dynamics);
  }

  /** A report is never mistaken for the failure message, and the failure
      message decodes to no bands. */
  lemma FailureMessageIsNotAReport(a: Assessment, userAvg: real, benchAvg: real, fmt: real -> string)
    ensures Render(a, userAvg, benchAvg, fmt) != CouldNotAnalyze
    ensures DecodeAssessment(CouldNotAnalyze) == None
  {
    var text := Render(a, userAvg, benchAvg, fmt);
    ReportOpening(a, userAvg, benchAvg, fmt);
    assert text[0] == (DynamicsLead + DynamicsPhrase(a.dynamics))[0] == '*';
    assert CouldNotAnalyze[0] == 'C';
    assert !StartsWith(CouldNotAnalyze, DynamicsLead + DynamicsPhrase(Similar)) by {
      NotStartsWith(CouldNotAnalyze, DynamicsLead + DynamicsPhrase(Similar), 0);
    }
  }
}
