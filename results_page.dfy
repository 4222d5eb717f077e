/** The results view: how the recommendations returned after a submission
    are partitioned into qualified and skill-mismatched ones, which of the
    page's blocks are rendered, and the derived values each ranked entry
    shows (rank badge, quality label and colour). */
module Results {
  import opened Types
  import opened Seqs
  import Strings

  /** `rec.constraints?.skillNoMatch` is truthy. */
  predicate IsSkillMismatch(rec: ScheduleRecommendation)
  {
    rec.constraints.Some? && rec.constraints.value.skillNoMatch == Some(true)
  }

  /** `!rec.constraints?.skillNoMatch`: no constraints, no flag, or false. */
  predicate IsQualified(rec: ScheduleRecommendation)
  {
    !IsSkillMismatch(rec)
  }

  /** `data.recommendations || []`. */
  function AllRecommendations(data: BookingResultData): seq<ScheduleRecommendation>
  {
    data.recommendations.GetOr([])
  }

  function ValidRecommendations(all: seq<ScheduleRecommendation>): (valid: seq<ScheduleRecommendation>)
    ensures forall r :: r in valid <==> r in all && IsQualified(r)
  {
    Filter(all, IsQualified)
  }

  function SkippedRecommendations(all: seq<ScheduleRecommendation>): (skipped: seq<ScheduleRecommendation>)
    ensures forall r :: r in skipped <==> r in all && IsSkillMismatch(r)
  {
    Filter(all, IsSkillMismatch)
  }

  /** The valid and skipped lists split the recommendations: each keeps its
      entries in the received order, their lengths add up, and together
      they hold every recommendation exactly as often as it was received. */
  lemma Partition(all: seq<ScheduleRecommendation>)
    ensures |ValidRecommendations(all)| + |SkippedRecommendations(all)| == |all|
    ensures multiset(ValidRecommendations(all)) + multiset(SkippedRecommendations(all)) == multiset(all)
    ensures IsSubsequence(ValidRecommendations(all), all)
    ensures IsSubsequence(SkippedRecommendations(all), all)
  {
    FilterPartition(all, IsQualified, IsSkillMismatch);
    FilterIsSubsequence(all, IsQualified);
    FilterIsSubsequence(all, IsSkillMismatch);
  }

  // ---------------------------------------------------------------------
  // Quality score banding

  /** The five quality bands, from best to worst. */
  datatype ScoreBand = Excellent | Good | Workable | Fair | Unsuitable

  /** The band of a score: inclusive lower bounds 120, 100, 80 and 0. */
  function Band(score: int): (band: ScoreBand)
    ensures band == Excellent <==> 120 <= score
    ensures band == Good <==> 100 <= score < 120
    ensures band == Workable <==> 80 <= score < 100
    ensures band == Fair <==> 0 <= score < 80
    ensures band == Unsuitable <==> score < 0
  {
    if score >= 120 then Excellent
    else if score >= 100 then Good
    else if score >= 80 then Workable
    else if score >= 0 then Fair
    else Unsuitable
  }

  /** Position of a band in the quality order (higher is better). */
  function BandLevel(band: ScoreBand): nat
  {
    match band
    case Unsuitable => 0
    case Fair => 1
    case Workable => 2
    case Good => 3
    case Excellent => 4
  }

  /** A higher score never lands in a worse band. */
  lemma BandMonotone(lower: int, higher: int)
    requires lower <= higher
    ensures BandLevel(Band(lower)) <= BandLevel(Band(higher))
  {
  }

  function BandLabel(band: ScoreBand): string
  {
    match band
    case Excellent => "極佳"
    case Good => "良好"
    case Workable => "可行"
    case Fair => "一般"
    case Unsuitable => "不適合"
  }

  function BandColour(band: ScoreBand): string
  {
    match band
    case Excellent => "text-green-600 bg-green-50"
    case Good => "text-blue-600 bg-blue-50"
    case Workable => "text-amber-600 bg-amber-50"
    case Fair => "text-gray-600 bg-gray-50"
    case Unsuitable => "text-red-600 bg-red-50"
  }

  /** `getScoreLabel`: the label of the score's band. */
  function ScoreLabel(score: int): (text: string)
    ensures text == BandLabel(Band(score))
  {
    if score >= 120 then "極佳"
    else if score >= 100 then "良好"
    else if score >= 80 then "可行"
    else if score >= 0 then "一般"
    else "不適合"
  }

  /** `getScoreColor`: the colour classes of the score's band. */
  function ScoreColour(score: int): (colour: string)
    ensures colour == BandColour(Band(score))
  {
    if score >= 120 then "text-green-600 bg-green-50"
    else if score >= 100 then "text-blue-600 bg-blue-50"
    else if score >= 80 then "text-amber-600 bg-amber-50"
    else if score >= 0 then "text-gray-600 bg-gray-50"
    else "text-red-600 bg-red-50"
  }

  /** Label and colour never disagree: two scores get the same label
      exactly when they get the same colour, exactly when they share a band. */
  lemma LabelAgreesWithColour(a: int, b: int)
    ensures ScoreLabel(a) == ScoreLabel(b) <==> Band(a) == Band(b)
    ensures ScoreColour(a) == ScoreColour(b) <==> Band(a) == Band(b)
  {
  }

  /** Sample scores, lower bounds included. */
  lemma BandExamples()
    ensures ScoreLabel(125) == "極佳" && ScoreColour(125) == "text-green-600 bg-green-50"
    ensures ScoreLabel(100) == "良好" && ScoreColour(100) == "text-blue-600 bg-blue-50"
    ensures ScoreLabel(90) == "可行" && ScoreColour(90) == "text-amber-600 bg-amber-50"
    ensures ScoreLabel(-5) == "不適合" && ScoreColour(-5) == "text-red-600 bg-red-50"
  {
  }

  // ---------------------------------------------------------------------
  // The rendered page

  /** The three header sentences. */
  datatype Header = FoundSlots(count: nat) | NoSkilledStaff | SubmittedNotice

  const FoundSlotsOpening := "系統已為您找到 "
  const FoundSlotsClosing := " 個推薦時段"

  function HeaderText(header: Header): string
  {
    match header
    case FoundSlots(n) => FoundSlotsOpening + Strings.NatToString(n) + FoundSlotsClosing
    case NoSkilledStaff => "目前沒有符合技能的職員可供預約，我們將盡快與您聯繫"
    case SubmittedNotice => "預約已成功提交，我們將盡快與您聯繫"
  }

  /** The "found N slots" sentence names its count: the digits between its
      fixed opening and closing read back as that count. */
  lemma HeaderNamesCount(n: nat)
    ensures var text := HeaderText(FoundSlots(n));
      && |text| == |FoundSlotsOpening| + |Strings.NatToString(n)| + |FoundSlotsClosing|
      && Strings.AllDigits(text[|FoundSlotsOpening|..|text| - |FoundSlotsClosing|])
      && Strings.DecimalValue(text[|FoundSlotsOpening|..|text| - |FoundSlotsClosing|]) == n
  {
    var text := HeaderText(FoundSlots(n));
    assert text[|FoundSlotsOpening|..|text| - |FoundSlotsClosing|] == Strings.NatToString(n);
    Strings.DecimalRoundTrip(n);
  }

  /** The skill-mismatch warning: how many slots were filtered, the staff of
      the first few, and the "...還有 n 個" remainder line if any. */
  datatype SkillWarning = SkillWarning(filteredCount: nat, listedStaff: seq<string>, remainder: Option<nat>)

  /** "從 N 個可用時段中精選" with the optional "(已過濾 n 個技能不符)" suffix. */
  datatype OptionsLine = OptionsLine(evaluated: int, filteredSuffix: Option<nat>)

  /** One row of the ranked list. */
  datatype RankedEntry = RankedEntry(
    badge: int,
    staff: string,
    qualityLabel: string,
    colour: string,
    recommendation: ScheduleRecommendation)

  datatype RankedSection = RankedSection(
    optionsLine: Option<OptionsLine>,
    entries: seq<RankedEntry>,
    disclaimer: Option<string>)

  /** What the page shows, block by block. */
  datatype ResultsView = ResultsView(
    header: Header,
    skillWarning: Option<SkillWarning>,
    ranked: Option<RankedSection>,
    placeholder: bool)

  const MaxListedSkipped := 3

  /** The warning block for the skipped recommendations. */
  function SkillWarningOf(skipped: seq<ScheduleRecommendation>): (warning: SkillWarning)
    ensures warning.filteredCount == |skipped|
    ensures |warning.listedStaff| <= MaxListedSkipped && |warning.listedStaff| <= |skipped|
    ensures forall i :: 0 <= i < |warning.listedStaff| ==> warning.listedStaff[i] == skipped[i].staff
    ensures |warning.listedStaff| == if |skipped| < MaxListedSkipped then |skipped| else MaxListedSkipped
    ensures warning.remainder.Some? <==> |skipped| > MaxListedSkipped
    ensures |warning.listedStaff| + warning.remainder.GetOr(0) == |skipped|
  {
    var shown := if |skipped| <= MaxListedSkipped then skipped else skipped[..MaxListedSkipped];
    SkillWarning(
      |skipped|,
      seq(|shown|, i requires 0 <= i < |shown| => shown[i].staff),
      if |skipped| > MaxListedSkipped then Some(|skipped| - MaxListedSkipped) else None)
  }

  /** `rec.rank || index + 1`: the supplied rank, or the 1-based position
      when the rank is 0. The badge never reads #0. */
  function RankBadge(rank: int, index: nat): (badge: int)
    ensures badge != 0
    ensures rank != 0 ==> badge == rank
    ensures rank == 0 ==> badge == index + 1
  {
    if rank != 0 then rank else index + 1
  }

  function EntryOf(rec: ScheduleRecommendation, index: nat): RankedEntry
  {
    RankedEntry(RankBadge(rec.rank, index), rec.staff, ScoreLabel(rec.qualityScore), ScoreColour(rec.qualityScore), rec)
  }

  /** The ranked list: one entry per valid recommendation, in order. */
  function RankedEntries(valid: seq<ScheduleRecommendation>): (entries: seq<RankedEntry>)
    ensures |entries| == |valid|
    ensures forall i :: 0 <= i < |valid| ==>
      && entries[i].recommendation == valid[i]
      && entries[i].staff == valid[i].staff
      && entries[i].badge == RankBadge(valid[i].rank, i)
      && entries[i].qualityLabel == BandLabel(Band(valid[i].qualityScore))
      && entries[i].colour == BandColour(Band(valid[i].qualityScore))
  {
    seq(|valid|, i requires 0 <= i < |valid| => EntryOf(valid[i], i))
  }

  /** `meta.totalOptionsEvaluated || allRecommendations.length`. */
  function EvaluatedCount(meta: Meta, total: nat): (count: int)
    ensures meta.totalOptionsEvaluated.Some? && meta.totalOptionsEvaluated.value != 0 ==>
      count == meta.totalOptionsEvaluated.value
    ensures meta.totalOptionsEvaluated.None? || meta.totalOptionsEvaluated.value == 0 ==> count == total
  {
    match meta.totalOptionsEvaluated
    case Some(n) => if n != 0 then n else total
    case None => total
  }

  function OptionsLineOf(meta: Option<Meta>, total: nat, skippedCount: nat): Option<OptionsLine>
  {
    match meta
    case None => None
    case Some(m) => Some(OptionsLine(EvaluatedCount(m, total), if skippedCount > 0 then Some(skippedCount) else None))
  }

  /** `meta?.disclaimer` when it is a non-empty string. */
  function DisclaimerOf(meta: Option<Meta>): Option<string>
  {
    if meta.Some? && meta.value.disclaimer.Some? && meta.value.disclaimer.value != "" then meta.value.disclaimer
    else None
  }

  /** The page for a result envelope. The placeholder stands exactly where
      the ranked list is missing, a warning always comes with the
      placeholder, and a header that counts slots counts the entries of the
      ranked list. */
  function Render(data: BookingResultData): (view: ResultsView)
    ensures view.placeholder <==> view.ranked.None?
    ensures view.skillWarning.Some? ==> view.placeholder && view.header == NoSkilledStaff
    ensures view.ranked.Some? <==> view.header.FoundSlots?
    ensures view.ranked.Some? ==> 0 < view.header.count == |view.ranked.value.entries|
  {
    var all := AllRecommendations(data);
    var valid := ValidRecommendations(all);
    var skipped := SkippedRecommendations(all);
    ResultsView(
      if |valid| > 0 then FoundSlots(|valid|)
      else if |skipped| > 0 then NoSkilledStaff
      else SubmittedNotice,
      if |skipped| > 0 && |valid| == 0 then Some(SkillWarningOf(skipped)) else None,
      if |valid| > 0 then
        Some(RankedSection(OptionsLineOf(data.meta, |all|, |skipped|), RankedEntries(valid), DisclaimerOf(data.meta)))
      else None,
      |valid| == 0)
  }

  /** Which blocks are on the page, stated over the received
      recommendations: the ranked list iff some recommendation is qualified,
      the warning iff there are recommendations and every one is
      mismatched, the placeholder iff the ranked list is absent, and the
      header sentence chosen in that same priority order. */
  lemma PageBlocks(data: BookingResultData)
    ensures var view := Render(data);
      && (view.ranked.Some? <==> exists r :: r in AllRecommendations(data) && IsQualified(r))
      && (view.skillWarning.Some? <==>
            AllRecommendations(data) != [] && forall r :: r in AllRecommendations(data) ==> IsSkillMismatch(r))
      && (view.placeholder <==> view.ranked.None?)
      && (view.header.FoundSlots? <==> view.ranked.Some?)
      && (view.header == NoSkilledStaff <==> view.skillWarning.Some?)
      && (view.header == SubmittedNotice <==> AllRecommendations(data) == [])
  {
    var all := AllRecommendations(data);
    if all != [] {
      assert all[0] in all;
    }
    var valid := ValidRecommendations(all);
    if valid != [] {
      assert valid[0] in valid;
    }
    var skipped := SkippedRecommendations(all);
    if skipped != [] {
      assert skipped[0] in skipped;
    }
  }

  /** Exactly one of the ranked list, the warning alone with the
      placeholder, and the placeholder alone is on the page. */
  lemma PageModes(data: BookingResultData)
    ensures var view := Render(data);
      || (view.ranked.Some? && view.skillWarning.None? && !view.placeholder)
      || (view.ranked.None? && view.skillWarning.Some? && view.placeholder)
      || (view.ranked.None? && view.skillWarning.None? && view.placeholder)
  {
  }

  /** The header's count is the number of ranked entries. */
  lemma HeaderCountsEntries(data: BookingResultData)
    ensures var view := Render(data);
      view.header.FoundSlots? ==> view.ranked.Some? && view.header.count == |view.ranked.value.entries|
  {
  }

  /** The warning lists the staff of the first (at most three) skipped
      recommendations in order, and counts the rest. */
  lemma WarningContents(data: BookingResultData)
    ensures var view := Render(data);
      var skipped := SkippedRecommendations(AllRecommendations(data));
      view.skillWarning.Some? ==>
        && view.skillWarning.value.filteredCount == |skipped|
        && view.skillWarning.value.listedStaff ==
             seq(if |skipped| < 3 then |skipped| else 3, i requires 0 <= i < |skipped| && i < 3 => skipped[i].staff)
        && (view.skillWarning.value.remainder.Some? <==> |skipped| > 3)
        && (view.skillWarning.value.remainder.Some? ==> view.skillWarning.value.remainder.value == |skipped| - 3)
  {
  }

  /** The options line appears iff there is a ranked list and `meta` is
      present; its count falls back to the number of recommendations, and
      its suffix appears iff some recommendation was skipped. The
      disclaimer appears when it is a non-empty string; since it is a part
      of `RankedSection`, a page without the ranked list has none. */
  lemma RankedSectionExtras(data: BookingResultData)
    ensures var view := Render(data);
      var all := AllRecommendations(data);
      view.ranked.Some? ==>
        && (view.ranked.value.optionsLine.Some? <==> data.meta.Some?)
        && (view.ranked.value.optionsLine.Some? ==>
              && view.ranked.value.optionsLine.value.evaluated == EvaluatedCount(data.meta.value, |all|)
              && (view.ranked.value.optionsLine.value.filteredSuffix.Some? <==>
                    exists r :: r in all && IsSkillMismatch(r)))
        && (view.ranked.value.disclaimer.Some? <==>
              data.meta.Some? && data.meta.value.disclaimer.Some? && data.meta.value.disclaimer.value != "")
  {
    var skipped := SkippedRecommendations(AllRecommendations(data));
    if skipped != [] {
      assert skipped[0] in skipped;
    }
  }

  /** A missing `recommendations` property renders like an empty list. */
  lemma MissingRecommendationsAreEmpty(data: BookingResultData)
    requires data.recommendations.None?
    ensures Render(data) == Render(data.(recommendations := Some([])))
    ensures Render(data).placeholder && Render(data).header == SubmittedNotice
  {
  }
}
