/** `normalize_trade_review_output`: scores of a trade review against the deterministic trade facts. */
module ReviewOutput {
  import opened Wrappers
  import opened Text
  import opened Rounding
  import opened ScoreDetail

  datatype Rating = Excellent | Good | Average | Poor

  /** `data_limitations` as the model wrote it. */
  datatype Limitations = Unset | NullValue | NotAList(text: string) | AList(items: seq<string>)

  /** What the deterministic facts say: a sell happened, this is a single review of an open BUY, the position was
      reopened after a sell. */
  datatype Facts = Facts(hasSell: bool, openBuy: bool, reopened: bool)

  datatype Payload = Payload(scores: map<string, Raw>, limitations: Limitations, tags: seq<string>, summary: string)

  datatype Excluded = Excluded(name: string, maxScore: nat, reason: string)

  datatype Review = Review(
    detail: seq<Entry>,
    overall: real,
    rating: Rating,
    rawScore: real,
    applicableMax: real,
    excluded: seq<Excluded>,
    tags: seq<string>,
    limitations: seq<string>,
    summary: string)

  const DIMENSIONS: seq<Dimension> := [
    Dimension("return_result_score", 20),
    Dimension("relative_performance_score", 15),
    Dimension("entry_quality_score", 15),
    Dimension("exit_quality_score", 15),
    Dimension("position_sizing_score", 15),
    Dimension("holding_period_score", 5),
    Dimension("risk_control_score", 10),
    Dimension("decision_attribution_score", 5)]

  const ENTRY: nat := 2
  const EXIT: nat := 3
  const SIZING: nat := 4
  const HOLDING: nat := 5
  const RISK: nat := 6

  function RatingFor(score: real): Rating {
    if score >= 85.0 then Excellent else if score >= 70.0 then Good else if score >= 50.0 then Average else Poor
  }

  // ---------- the denial pattern ----------

  /** The alternatives of the regular expression in `_exit_reason_denies_sell`. */
  const DENIALS: seq<string> :=
    ["尚未卖出", "暂未卖出", "未发生卖出", "没有卖出", "无卖出", "无法评价", "暂不评价", "暂不评分"]

  predicate Denies(reason: string) {
    exists k :: 0 <= k < |DENIALS| && Contains(reason, DENIALS[k])
  }

  const REPLACEMENT: string :=
    "复盘区间内存在已发生的卖出交易" + "，卖点质量按历史卖出批次进行中性兜底评分；" + "原始 LLM 理由误判为未退出状态。"
  const NEUTRAL_REASON: string := "评价历史已发生的卖出批次。"
  const REOPENED_MARK: string := "当前最新持仓尚未退出"
  const REOPENED: string := "；" + REOPENED_MARK + "，不评价最新持仓的最终退出质量。"
  const FLOOR_REASON: string := "；BUY 且仍持仓时不得仅因没有 SELL 记录整体给 0 分"
  const CONTRADICTED: string :=
    "LLM exit_quality reason contradicted" + " deterministic sell-trade facts;" + " normalized as reviewable historical exit quality."
  const FLOORED: string := "Open BUY single-trade review" + " normalized from zero-score output"
  const FILTERED: string := "Unknown mistake tags filtered: "

  // ---------- repairs ----------

  /** A zero exit score whose reason denies the sells that did happen becomes a neutral score. */
  function RepairExit(detail: seq<Entry>, facts: Facts): (r: seq<Entry>)
    requires |detail| == |DIMENSIONS|
    ensures |r| == |detail|
  {
    var exit := detail[EXIT];
    var scored := if Denies(exit.reason) && Points(exit) == 0.0 then exit.(score := Some(7.5), reason := REPLACEMENT) else exit;
    var marked :=
      if facts.reopened && !Contains(scored.reason, REOPENED_MARK) then
        scored.(reason := (if scored.reason == "" then NEUTRAL_REASON else scored.reason) + REOPENED)
      else scored;
    detail[EXIT := marked]
  }

  function Raise(e: Entry, floor: real): Entry {
    var score := if e.score.Some? then e.score.value else 0.0;
    e.(score := Some(if score < floor then floor else score))
  }

  /** An open BUY is not scored zero. */
  function RaiseFloors(detail: seq<Entry>): (r: seq<Entry>)
    requires |detail| == |DIMENSIONS|
    ensures |r| == |detail|
  {
    var entry := Raise(detail[ENTRY], 5.0);
    detail[ENTRY := entry.(reason := entry.reason + FLOOR_REASON)]
          [SIZING := Raise(detail[SIZING], 3.0)]
          [HOLDING := Raise(detail[HOLDING], 1.0)]
          [RISK := Raise(detail[RISK], 1.0)]
  }

  /** `_string_list`; with sells the list is first made a list, a null becoming the text "None". */
  function AsList(limitations: Limitations, hasSell: bool): seq<string> {
    match limitations
    case Unset => []
    case NullValue => if hasSell then ["None"] else []
    case NotAList(text) => [text]
    case AList(items) => items
  }

  /** Appending to something that is not a list raises. */
  predicate CanAppend(limitations: Limitations, hasSell: bool) {
    hasSell || limitations.Unset? || limitations.AList?
  }

  function ExcludedOf(detail: seq<Entry>): seq<Excluded> {
    if detail == [] then []
    else
      var last, rest := detail[|detail| - 1], ExcludedOf(detail[..|detail| - 1]);
      if last.applicable then rest else rest + [Excluded(last.dimension.name, last.dimension.max, last.reason)]
  }

  function Select(tags: seq<string>, keep: string -> bool): (r: seq<string>)
    ensures forall i :: 0 <= i < |r| ==> keep(r[i])
  {
    if tags == [] then []
    else
      var last, rest := tags[|tags| - 1], Select(tags[..|tags| - 1], keep);
      if keep(last) then rest + [last] else rest
  }

  function JoinTags(tags: seq<string>): string {
    if tags == [] then "" else if |tags| == 1 then tags[0] else JoinTags(tags[..|tags| - 1]) + ", " + tags[|tags| - 1]
  }

  function NaSet(facts: Facts): set<string> {
    if facts.hasSell then {} else {"exit_quality_score"}
  }

  function Checked(payload: Payload, facts: Facts): Outcome<seq<Entry>> {
    ScoreDetail.Normalize(DIMENSIONS, payload.scores, true, NaSet(facts))
  }

  function AfterExit(detail: seq<Entry>, facts: Facts): (r: seq<Entry>)
    requires |detail| == |DIMENSIONS|
    ensures |r| == |detail|
  {
    if facts.hasSell then RepairExit(detail, facts) else detail
  }

  predicate ExitRepaired(detail: seq<Entry>, facts: Facts)
    requires |detail| == |DIMENSIONS|
  {
    facts.hasSell && Denies(detail[EXIT].reason) && Points(detail[EXIT]) == 0.0
  }

  predicate Floors(detail: seq<Entry>, facts: Facts)
    requires |detail| == |DIMENSIONS|
  {
    facts.openBuy && Total(AfterExit(detail, facts)) <= 0.0
  }

  function FinalDetail(detail: seq<Entry>, facts: Facts): (r: seq<Entry>)
    requires |detail| == |DIMENSIONS|
    ensures |r| == |detail|
  {
    var repaired := AfterExit(detail, facts);
    if Floors(detail, facts) then RaiseFloors(repaired) else repaired
  }

  function Published(detail: seq<Entry>): real {
    var best := MaxPoints(detail);
    if best > 0 then Round2(Total(detail) / best as real * 100.0) else 0.0
  }

  function Notes(payload: Payload, facts: Facts, detail: seq<Entry>, known: string -> bool): seq<string>
    requires |detail| == |DIMENSIONS|
  {
    var unknown := Select(payload.tags, (t: string) => !known(t));
    AsList(payload.limitations, facts.hasSell)
    + (if ExitRepaired(detail, facts) then [CONTRADICTED] else [])
    + (if Floors(detail, facts) then [FLOORED] else [])
    + (if unknown != [] then [FILTERED + JoinTags(unknown)] else [])
  }

  function Normalize(known: string -> bool, payload: Payload, facts: Facts): Outcome<Review> {
    match Checked(payload, facts)
    case Fail(error) => Fail(error)
    case Ok(detail) =>
      assert |detail| == |DIMENSIONS|;
      if Floors(detail, facts) && !CanAppend(payload.limitations, facts.hasSell) then Fail(Crash)
      else if payload.summary == "" then Fail(Invalid)
      else
        var done := FinalDetail(detail, facts);
        Ok(Review(done, Published(done), RatingFor(Published(done)), Round2(Total(done)), Round2(MaxPoints(done) as real),
                  ExcludedOf(done), Select(payload.tags, known), Notes(payload, facts, detail, known), payload.summary))
  }

  // ---------- the normaliser as it runs ----------

  method SumApplicable(detail: seq<Entry>) returns (total: real, best: int)
    ensures total == Total(detail) && best == MaxPoints(detail)
  {
    total, best := 0.0, 0;
    for i := 0 to |detail|
      invariant total == Total(detail[..i]) && best == MaxPoints(detail[..i])
    {
      assert detail[..i + 1][..i] == detail[..i];
      if detail[i].applicable {
        total := total + if detail[i].score.Some? then detail[i].score.value else 0.0;
        best := best + detail[i].dimension.max;
      }
    }
    assert detail[..|detail|] == detail;
  }

  /** `_normalize_reviewable_exit_quality`. */
  method NormalizeExitQuality(detail: seq<Entry>, limitations: Limitations, facts: Facts)
    returns (repaired: seq<Entry>, notes: seq<string>, total: real)
    requires |detail| == |DIMENSIONS| && facts.hasSell && detail[EXIT].applicable
    ensures repaired == AfterExit(detail, facts) && total == Total(repaired)
    ensures notes == AsList(limitations, true) + if ExitRepaired(detail, facts) then [CONTRADICTED] else []
  {
    hide Denies, Contains, Total;
    notes := AsList(limitations, true);
    var exit := detail[EXIT];
    var score := if exit.score.Some? then exit.score.value else 0.0;
    if Denies(exit.reason) && score == 0.0 {
      exit := exit.(score := Some(7.5), reason := REPLACEMENT);
      notes := notes + [CONTRADICTED];
    } else {
      assert notes == notes + [];
    }
    if facts.reopened && !Contains(exit.reason, REOPENED_MARK) {
      exit := exit.(reason := (if exit.reason == "" then NEUTRAL_REASON else exit.reason) + REOPENED);
    }
    repaired := detail[EXIT := exit];
    var best;
    total, best := SumApplicable(repaired);
  }

  /** The loop over the dimensions left out of the score. */
  method CollectExcluded(detail: seq<Entry>) returns (excluded: seq<Excluded>)
    ensures excluded == ExcludedOf(detail)
  {
    excluded := [];
    for i := 0 to |detail|
      invariant excluded == ExcludedOf(detail[..i])
    {
      assert detail[..i + 1][..i] == detail[..i];
      if !detail[i].applicable {
        excluded := excluded + [Excluded(detail[i].dimension.name, detail[i].dimension.max, detail[i].reason)];
      }
    }
    assert detail[..|detail|] == detail;
  }

  /** The loop over the mistake tags. */
  method FilterTags(tags: seq<string>, known: string -> bool) returns (cleaned: seq<string>, unknown: seq<string>)
    ensures cleaned == Select(tags, known) && unknown == Select(tags, (t: string) => !known(t))
  {
    cleaned, unknown := [], [];
    for i := 0 to |tags|
      invariant cleaned == Select(tags[..i], known) && unknown == Select(tags[..i], (t: string) => !known(t))
    {
      assert tags[..i + 1][..i] == tags[..i];
      if known(tags[i]) { cleaned := cleaned + [tags[i]]; } else { unknown := unknown + [tags[i]]; }
    }
    assert tags[..|tags|] == tags;
  }

  lemma {:induction false} CheckedShape(payload: Payload, facts: Facts)
    requires Checked(payload, facts).Ok?
    ensures |Checked(payload, facts).value| == |DIMENSIONS|
    ensures facts.hasSell ==> Checked(payload, facts).value[EXIT].applicable
  {
    CheckedScored(payload, facts);
    DimensionNames();
  }

  /** One document, repaired and filled in field by field. */
  method NormalizeTradeReview(known: string -> bool, payload: Payload, facts: Facts) returns (r: Outcome<Review>)
    ensures r == Normalize(known, payload, facts)
  {
    hide Denies, Contains, Total, MaxPoints, ExcludedOf, Select, ScoreDetail.Normalize, RepairExit, RaiseFloors, DIMENSIONS, JoinTags;
    var checked := NormalizeScoreDetail(DIMENSIONS, payload.scores, true, NaSet(facts));
    if checked.Fail? { return Fail(checked.error); }
    var detail, total := checked.value.0, checked.value.1;
    ghost var given := detail;
    CheckedShape(payload, facts);
    var limitations := payload.limitations;
    if facts.hasSell {
      var notes;
      detail, notes, total := NormalizeExitQuality(detail, limitations, facts);
      limitations := AList(notes);
    }
    assert detail == AfterExit(given, facts);
    var best;
    if facts.openBuy && total <= 0.0 {
      detail := RaiseFloors(detail);
      if !limitations.Unset? && !limitations.AList? { return Fail(Crash); }
      limitations := AList(AsList(limitations, false) + [FLOORED]);
    }
    total, best := SumApplicable(detail);
    var overall := if best > 0 then Round2(total / best as real * 100.0) else 0.0;
    var excluded := CollectExcluded(detail);
    var cleaned, unknown := FilterTags(payload.tags, known);
    var notes := AsList(limitations, false);
    if unknown != [] {
      notes := notes + [FILTERED + JoinTags(unknown)];
    }
    if payload.summary == "" { return Fail(Invalid); }
    r := Ok(Review(detail, overall, RatingFor(overall), Round2(total), Round2(best as real), excluded, cleaned, notes, payload.summary));
    assert notes == Notes(payload, facts, given, known);
  }

  // ---------- scores ----------

  lemma {:induction false} DimensionsSum()
    ensures MaxOf(DIMENSIONS) == 100 && |DIMENSIONS| == 8
  {
    var d := DIMENSIONS;
    MaxOfStep(d, 0); MaxOfStep(d, 1); MaxOfStep(d, 2); MaxOfStep(d, 3);
    MaxOfStep(d, 4); MaxOfStep(d, 5); MaxOfStep(d, 6); MaxOfStep(d, 7);
    assert d[..8] == d && d[..0] == [];
  }

  lemma {:induction false} DimensionNames()
    ensures DistinctNames(DIMENSIONS)
    ensures forall i :: 0 <= i < |DIMENSIONS| ==> (DIMENSIONS[i].name == "exit_quality_score" <==> i == EXIT)
  {
    var d := DIMENSIONS;
    assert |d[0].name| == 19 && |d[1].name| == 26 && |d[2].name| == 19 && |d[3].name| == 18;
    assert |d[4].name| == 21 && |d[5].name| == 20 && |d[6].name| == 18 && |d[7].name| == 26;
    assert d[0].name[0] == 'r' && d[2].name[0] == 'e' && d[3].name[0] == 'e' && d[6].name[0] == 'r';
    assert d[1].name[0] == 'r' && d[7].name[0] == 'd';
  }

  function ExcludedMax(excluded: seq<Excluded>): int {
    if excluded == [] then 0 else ExcludedMax(excluded[..|excluded| - 1]) + excluded[|excluded| - 1].maxScore
  }

  /** Applicable and excluded points always add up to the rubric. */
  lemma {:induction false} MaxSplits(entries: seq<Entry>, dimensions: seq<Dimension>, na: set<string>)
    requires Covers(entries, dimensions, na)
    ensures MaxPoints(entries) + ExcludedMax(ExcludedOf(entries)) == MaxOf(dimensions)
  {
    if entries != [] {
      var front := entries[..|entries| - 1];
      MaxSplits(front, dimensions[..|dimensions| - 1], na);
      var x := ExcludedOf(entries);
      if !entries[|entries| - 1].applicable { assert x[..|x| - 1] == ExcludedOf(front); }
    }
  }

  ghost predicate Scored(detail: seq<Entry>, facts: Facts) {
    AllSound(detail) && Covers(detail, DIMENSIONS, NaSet(facts))
  }

  lemma {:induction false} CheckedScored(payload: Payload, facts: Facts)
    requires Checked(payload, facts).Ok?
    ensures Scored(Checked(payload, facts).value, facts)
  {
    AcceptedSound(DIMENSIONS, payload.scores, true, NaSet(facts));
  }

  lemma {:induction false} ScoredUpdate(detail: seq<Entry>, facts: Facts, i: nat, e: Entry)
    requires Scored(detail, facts) && i < |detail|
    requires Sound(e) && e.dimension == detail[i].dimension && e.applicable == detail[i].applicable
    ensures Scored(detail[i := e], facts)
  {
    hide DIMENSIONS;
  }

  /** The repairs keep every score inside its dimension. */
  lemma {:induction false} RepairsSound(detail: seq<Entry>, facts: Facts)
    requires |detail| == |DIMENSIONS| && Scored(detail, facts)
    ensures Scored(AfterExit(detail, facts), facts)
    ensures Scored(FinalDetail(detail, facts), facts)
  {
    hide Denies, Contains, Total, Floors, REPLACEMENT;
    DimensionNames();
    var zero := AfterExit(detail, facts);
    ScoredUpdate(detail, facts, EXIT, zero[EXIT]);
    assert zero == detail[EXIT := zero[EXIT]];
    FloorsSound(zero, facts);
  }

  lemma {:induction false} FloorsSound(zero: seq<Entry>, facts: Facts)
    requires |zero| == |DIMENSIONS| && Scored(zero, facts)
    ensures Scored(RaiseFloors(zero), facts)
  {
    hide Scored, FLOOR_REASON;
    var done := RaiseFloors(zero);
    RaiseSound(zero, facts, ENTRY); RaiseSound(zero, facts, SIZING); RaiseSound(zero, facts, HOLDING); RaiseSound(zero, facts, RISK);
    var one := zero[ENTRY := done[ENTRY]];
    var two := one[SIZING := done[SIZING]];
    ScoredUpdate(zero, facts, ENTRY, done[ENTRY]);
    ScoredUpdate(one, facts, SIZING, done[SIZING]);
    ScoredUpdate(two, facts, HOLDING, done[HOLDING]);
    ScoredUpdate(two[HOLDING := done[HOLDING]], facts, RISK, done[RISK]);
  }

  lemma {:induction false} RaiseSound(zero: seq<Entry>, facts: Facts, i: nat)
    requires |zero| == |DIMENSIONS| && Scored(zero, facts) && i in {ENTRY, SIZING, HOLDING, RISK}
    ensures var e := RaiseFloors(zero)[i]; Sound(e) && e.dimension == zero[i].dimension && e.applicable == zero[i].applicable
  {
    hide FLOOR_REASON;
    DimensionNames();
    assert Sound(zero[i]) && zero[i].dimension == DIMENSIONS[i];
  }

  lemma {:induction false} TotalAtLeast(entries: seq<Entry>, i: nat)
    requires AllSound(entries) && i < |entries|
    ensures Total(entries) >= Points(entries[i])
  {
    if i < |entries| - 1 {
      TotalAtLeast(entries[..|entries| - 1], i);
    } else {
      TotalWithin(entries[..|entries| - 1]);
    }
  }

  /** After the floors the total is positive. */
  lemma {:induction false} FloorsLift(detail: seq<Entry>, facts: Facts)
    requires |detail| == |DIMENSIONS| && Scored(detail, facts) && facts.openBuy
    ensures Total(FinalDetail(detail, facts)) > 0.0
    ensures Floors(detail, facts) ==> Total(FinalDetail(detail, facts)) >= 5.0
  {
    RepairsSound(detail, facts);
    DimensionNames();
    if Floors(detail, facts) {
      var done := FinalDetail(detail, facts);
      assert done[ENTRY].applicable;
      TotalAtLeast(done, ENTRY);
    }
  }

  lemma {:induction false} TotalUpdate(entries: seq<Entry>, i: nat, e: Entry)
    requires i < |entries|
    ensures Total(entries[i := e]) == Total(entries) - Points(entries[i]) + Points(e)
  {
    var next := entries[i := e];
    if i == |entries| - 1 {
      assert next[..i] == entries[..i];
    } else {
      assert next[..|next| - 1] == entries[..|entries| - 1][i := e];
      TotalUpdate(entries[..|entries| - 1], i, e);
    }
  }

  /** A reason that denies the sells costs no points: the exit dimension then carries exactly the neutral 7.5, and
      nothing else in the total moves. */
  lemma {:induction false} ExitLift(detail: seq<Entry>, facts: Facts)
    requires |detail| == |DIMENSIONS| && Scored(detail, facts)
    ensures Total(AfterExit(detail, facts)) == Total(detail) + if ExitRepaired(detail, facts) then 7.5 else 0.0
  {
    hide Denies, Contains, Total, REPLACEMENT;
    DimensionNames();
    TotalUpdate(detail, EXIT, AfterExit(detail, facts)[EXIT]);
    assert detail[EXIT := detail[EXIT]] == detail;
  }

  /** The floors fire only on a review with nothing scored, so they always make the exact total ten. */
  lemma {:induction false} FloorsMakeTen(detail: seq<Entry>, facts: Facts)
    requires |detail| == |DIMENSIONS| && Scored(detail, facts) && Floors(detail, facts)
    ensures Total(FinalDetail(detail, facts)) == 10.0
    ensures !ExitRepaired(detail, facts)
  {
    hide Denies, Contains, Total, AfterExit;
    var zero := AfterExit(detail, facts);
    RepairsSound(detail, facts);
    ExitLift(detail, facts);
    TotalWithin(detail);
    DimensionNames();
    TotalAtLeast(zero, ENTRY); TotalAtLeast(zero, SIZING); TotalAtLeast(zero, HOLDING); TotalAtLeast(zero, RISK);
    var done := RaiseFloors(zero);
    TotalUpdate(zero, ENTRY, done[ENTRY]);
    var one := zero[ENTRY := done[ENTRY]];
    TotalUpdate(one, SIZING, done[SIZING]);
    var two := one[SIZING := done[SIZING]];
    TotalUpdate(two, HOLDING, done[HOLDING]);
    TotalUpdate(two[HOLDING := done[HOLDING]], RISK, done[RISK]);
    TotalWithin(zero);
  }

  /** A review the floors saved is published as 11.76 without sells and 10.00 with them, always rated poor. */
  lemma {:induction false} FlooredIsPoor(known: string -> bool, payload: Payload, facts: Facts)
    requires Normalize(known, payload, facts).Ok? && Floors(Checked(payload, facts).value, facts)
    ensures var r := Normalize(known, payload, facts).value;
            r.overall == (if facts.hasSell then 10.0 else 11.76) && r.rating == Poor
  {
    hide Denies, Contains, Total, AfterExit, RaiseFloors, MaxPoints, Notes, Select;
    var detail := Checked(payload, facts).value;
    CheckedScored(payload, facts);
    RepairsSound(detail, facts);
    FloorsMakeTen(detail, facts);
    BestPoints(FinalDetail(detail, facts), facts);
    assert 10.0 / 85.0 * 100.0 == 1000.0 / 85.0;
  }

  /** The applicable maximum is the whole rubric, less the exit dimension without sells. */
  lemma {:induction false} BestPoints(detail: seq<Entry>, facts: Facts)
    requires Scored(detail, facts)
    ensures MaxPoints(detail) == if facts.hasSell then 100 else 85
  {
    MaxSplits(detail, DIMENSIONS, NaSet(facts));
    DimensionsSum();
    DimensionNames();
    OneExcluded(detail, |detail|);
    assert detail[..|detail|] == detail;
  }

  /** The floors, dimension by dimension: nothing else is scored in a review they saved. */
  lemma {:induction false} FloorsByName(detail: seq<Entry>, facts: Facts, i: nat)
    requires |detail| == |DIMENSIONS| && Scored(detail, facts) && Floors(detail, facts) && i < |DIMENSIONS|
    ensures var e := FinalDetail(detail, facts)[i];
            Points(e) == match e.dimension.name
                         case "entry_quality_score" => 5.0
                         case "position_sizing_score" => 3.0
                         case "holding_period_score" => 1.0
                         case "risk_control_score" => 1.0
                         case _ => 0.0
  {
    hide Denies, Contains, Total, AfterExit;
    var zero := AfterExit(detail, facts);
    RepairsSound(detail, facts);
    DimensionNames();
    TotalAtLeast(zero, i);
    assert zero[i].dimension == DIMENSIONS[i];
    FloorNames();
  }

  lemma {:induction false} FloorNames()
    ensures forall i :: 0 <= i < |DIMENSIONS| ==>
              && (DIMENSIONS[i].name == "entry_quality_score" <==> i == ENTRY)
              && (DIMENSIONS[i].name == "position_sizing_score" <==> i == SIZING)
              && (DIMENSIONS[i].name == "holding_period_score" <==> i == HOLDING)
              && (DIMENSIONS[i].name == "risk_control_score" <==> i == RISK)
  {
    DimensionNames();
    var d := DIMENSIONS;
    assert d[2].name == "entry_quality_score" && d[4].name == "position_sizing_score";
    assert d[5].name == "holding_period_score" && d[6].name == "risk_control_score";
  }

  /** What an accepted review satisfies. */
  ghost predicate Consistent(r: Review, facts: Facts) {
    && Scored(r.detail, facts)
    && r.applicableMax + ExcludedMax(r.excluded) as real == 100.0
    && 0.0 <= r.rawScore <= r.applicableMax
    && r.rawScore == Round2(Total(r.detail))
    && 0.0 <= r.overall <= 100.0
    && (r.applicableMax > 0.0 ==> r.overall == Round2(Total(r.detail) / r.applicableMax * 100.0))
    && r.rating == RatingFor(r.overall)
  }

  lemma {:induction false} PublishedWithin(detail: seq<Entry>)
    requires AllSound(detail)
    ensures 0.0 <= Published(detail) <= 100.0
  {
    TotalWithin(detail);
    var best := MaxPoints(detail);
    if best > 0 {
      Fraction(Total(detail), best as real);
      Round2Within(Total(detail) / best as real * 100.0, 0, 100);
    }
  }

  lemma {:induction false} Fraction(x: real, y: real)
    requires 0.0 <= x <= y && y > 0.0
    ensures 0.0 <= x / y * 100.0 <= 100.0
  {
    assert 0.0 <= x / y;
    assert x / y <= 1.0 by { assert x / y <= y / y; }
  }

  lemma {:induction false} AcceptedConsistent(known: string -> bool, payload: Payload, facts: Facts)
    requires Normalize(known, payload, facts).Ok?
    ensures Consistent(Normalize(known, payload, facts).value, facts)
  {
    hide Denies, Contains, Notes, Select;
    var detail := Checked(payload, facts).value;
    CheckedScored(payload, facts);
    RepairsSound(detail, facts);
    var done := FinalDetail(detail, facts);
    MaxSplits(done, DIMENSIONS, NaSet(facts));
    DimensionsSum();
    Round2OfInt(MaxPoints(done));
    TotalWithin(done);
    Round2Within(Total(done), 0, MaxPoints(done));
    PublishedWithin(done);
  }

  /** The four ratings by the published score. */
  lemma {:induction false} RatingRanges(known: string -> bool, payload: Payload, facts: Facts)
    requires Normalize(known, payload, facts).Ok?
    ensures var r := Normalize(known, payload, facts).value;
            && (r.rating == Excellent <==> r.overall >= 85.0) && (r.rating == Good <==> 70.0 <= r.overall < 85.0)
            && (r.rating == Average <==> 50.0 <= r.overall < 70.0) && (r.rating == Poor <==> r.overall < 50.0)
  {
    hide Checked, Floors, FinalDetail, Published, Notes, Select, ExcludedOf, Total, MaxPoints;
  }

  /** The score of a dimension, where one is given, lies within the maximum. */
  predicate ScoredWithin(scores: map<string, Raw>, name: string, most: real) {
    name in scores && scores[name].Scored? && scores[name].score.Some? ==> 0.0 <= scores[name].score.value <= most
  }

  /** The rubric, written out; without sells the exit entry only has to be readable. */
  predicate Rubric(scores: map<string, Raw>, hasSell: bool) {
    && ScoredWithin(scores, "return_result_score", 20.0)
    && ScoredWithin(scores, "relative_performance_score", 15.0)
    && ScoredWithin(scores, "entry_quality_score", 15.0)
    && (if hasSell then ScoredWithin(scores, "exit_quality_score", 15.0)
        else "exit_quality_score" in scores ==> scores["exit_quality_score"] != Odd)
    && ScoredWithin(scores, "position_sizing_score", 15.0)
    && ScoredWithin(scores, "holding_period_score", 5.0)
    && ScoredWithin(scores, "risk_control_score", 10.0)
    && ScoredWithin(scores, "decision_attribution_score", 5.0)
  }

  lemma {:induction false} DimensionFits(scores: map<string, Raw>, d: Dimension, excluded: bool)
    ensures Acceptable(d, Find(scores, d.name), true, excluded)
       <==> if excluded then d.name in scores ==> scores[d.name] != Odd else ScoredWithin(scores, d.name, d.max as real)
  {
  }

  lemma {:induction false} RubricNames()
    ensures DIMENSIONS[0] == Dimension("return_result_score", 20) && DIMENSIONS[1] == Dimension("relative_performance_score", 15)
    ensures DIMENSIONS[2] == Dimension("entry_quality_score", 15) && DIMENSIONS[3] == Dimension("exit_quality_score", 15)
    ensures DIMENSIONS[4] == Dimension("position_sizing_score", 15) && DIMENSIONS[5] == Dimension("holding_period_score", 5)
    ensures DIMENSIONS[6] == Dimension("risk_control_score", 10) && DIMENSIONS[7] == Dimension("decision_attribution_score", 5)
    ensures |DIMENSIONS| == 8
  {
  }

  lemma {:induction false} RubricAccepts(payload: Payload, facts: Facts)
    ensures Checked(payload, facts).Ok? <==> Rubric(payload.scores, facts.hasSell)
  {
    var scores := payload.scores;
    AcceptedIff(DIMENSIONS, scores, true, NaSet(facts));
    DimensionNames();
    RubricNames();
    hide CheckAll, GivenReason, GivenScore, ScoredWithin, Acceptable, Find, DIMENSIONS;
    forall i | 0 <= i < 8
      ensures Acceptable(DIMENSIONS[i], Find(scores, DIMENSIONS[i].name), true, DIMENSIONS[i].name in NaSet(facts))
         <==> if i == EXIT && !facts.hasSell then DIMENSIONS[i].name in scores ==> scores[DIMENSIONS[i].name] != Odd
              else ScoredWithin(scores, DIMENSIONS[i].name, DIMENSIONS[i].max as real) {
      DimensionFits(scores, DIMENSIONS[i], DIMENSIONS[i].name in NaSet(facts));
    }
  }

  /** A review is accepted exactly when its scores fit the rubric, there is a summary, and the limitations can take the
      note of the floors when these fire. */
  lemma {:induction false} AcceptedIffComplete(known: string -> bool, payload: Payload, facts: Facts)
    ensures Normalize(known, payload, facts).Ok? <==>
            && Rubric(payload.scores, facts.hasSell) && payload.summary != ""
            && (Checked(payload, facts).Ok? && Floors(Checked(payload, facts).value, facts)
                ==> facts.hasSell || payload.limitations == Unset || payload.limitations.AList?)
  {
    RubricAccepts(payload, facts);
    hide Checked, Rubric, Floors, FinalDetail, Published, Notes, Select, ExcludedOf, Total, MaxPoints;
  }

  /** A published score of an open BUY is zero only when the review scored something, but so little that it rounds
      away: the floors look at the exact total, not at the published one. */
  lemma {:induction false} OpenBuyZero(known: string -> bool, payload: Payload, facts: Facts)
    requires Normalize(known, payload, facts).Ok? && facts.openBuy
    ensures var r := Normalize(known, payload, facts).value;
            var exact := Total(AfterExit(Checked(payload, facts).value, facts));
            r.overall == 0.0 <==> 0.0 < exact <= MaxPoints(r.detail) as real * 0.00005
  {
    var detail := Checked(payload, facts).value;
    CheckedScored(payload, facts);
    RepairsSound(detail, facts);
    var done := FinalDetail(detail, facts);
    var total, best := Total(done), MaxPoints(done) as real;
    BestPoints(done, facts);
    FloorsLift(detail, facts);
    Round2Zero(total / best * 100.0);
    assert total / best * 100.0 <= 0.005 <==> total <= best * 0.00005 by { Scale(total, best); }
    TotalWithin(done);
    Fraction(total, best);
  }

  lemma {:induction false} Scale(x: real, y: real)
    requires y > 0.0
    ensures x / y * 100.0 <= 0.005 <==> x <= y * 0.00005
  {
    var q := x / y;
    assert x == q * y;
    if q <= 0.00005 { assert q * y <= 0.00005 * y; }
    if q > 0.00005 { assert q * y > 0.00005 * y; }
  }

  /** Only the exit dimension can be excluded. */
  lemma {:induction false} OneExcluded(detail: seq<Entry>, n: nat)
    requires n <= |detail| && forall i :: 0 <= i < |detail| && !detail[i].applicable ==> i == EXIT && detail[i].dimension.max == 15
    ensures ExcludedMax(ExcludedOf(detail[..n])) == if n > EXIT && !detail[EXIT].applicable then 15 else 0
  {
    if n > 0 {
      OneExcluded(detail, n - 1);
      assert detail[..n][..n - 1] == detail[..n - 1];
      var x := ExcludedOf(detail[..n]);
      if !detail[n - 1].applicable { assert x[..|x| - 1] == ExcludedOf(detail[..n - 1]); }
    }
  }

  const SMALL: map<string, Raw> := map["return_result_score" := Raw.Scored(Some(0.001), "")]

  /** Such a review exists: one dimension scored 0.001 and nothing else. */
  lemma {:induction false} OpenBuyZeroExample(known: string -> bool)
    ensures var r := Normalize(known, Payload(SMALL, Unset, [], "s"), Facts(false, true, false));
            r.Ok? && r.value.overall == 0.0
  {
    var payload, facts := Payload(SMALL, Unset, [], "s"), Facts(false, true, false);
    ExampleChecked();
    hide CheckAll, Total, ScoreDetail.Normalize, Checked, Published;
    var detail := Checked(payload, facts).value;
    CheckedScored(payload, facts);
    RepairsSound(detail, facts);
    BestPoints(FinalDetail(detail, facts), facts);
    OpenBuyZero(known, payload, facts);
  }

  lemma {:induction false} ExampleChecked()
    ensures var c := Checked(Payload(SMALL, Unset, [], "s"), Facts(false, true, false));
            c.Ok? && Total(c.value) == 0.001
  {
    ExampleScores(|DIMENSIONS|);
    assert DIMENSIONS[..|DIMENSIONS|] == DIMENSIONS;
  }

  lemma {:induction false} ExampleEntry(i: nat)
    requires i < |DIMENSIONS|
    ensures var c := Check(DIMENSIONS[i], Find(SMALL, DIMENSIONS[i].name), true, DIMENSIONS[i].name in {"exit_quality_score"});
            c.Ok? && Points(c.value) == if i == 0 then 0.001 else 0.0
  {
    DimensionNames();
    assert DIMENSIONS[0].name == "return_result_score";
  }

  lemma {:induction false} ExampleScores(n: nat)
    requires n <= |DIMENSIONS|
    ensures var r := CheckAll(DIMENSIONS[..n], SMALL, true, {"exit_quality_score"});
            r.Ok? && Total(r.value) == if n == 0 then 0.0 else 0.001
  {
    hide Check, DIMENSIONS, SMALL;
    if n > 0 {
      ExampleScores(n - 1);
      ExampleEntry(n - 1);
      var front, d := DIMENSIONS[..n - 1], DIMENSIONS[..n];
      assert d[..n - 1] == front && d[n - 1] == DIMENSIONS[n - 1];
      var before := CheckAll(front, SMALL, true, {"exit_quality_score"}).value;
      var entry := Check(d[n - 1], Find(SMALL, d[n - 1].name), true, d[n - 1].name in {"exit_quality_score"}).value;
      assert CheckAll(d, SMALL, true, {"exit_quality_score"}) == Ok(before + [entry]);
      assert (before + [entry])[..n - 1] == before;
    }
  }

  // ---------- which texts deny a sell ----------

  /** Text in which no alternative of the denial pattern can start: no 法, no 暂, and 卖 never right after 未, 生, 有 or 无. */
  predicate Harmless(s: string) {
    forall i :: 0 <= i < |s| ==> HarmlessAt(s, i)
  }

  predicate HarmlessAt(s: string, i: nat)
    requires i < |s|
  {
    s[i] != '法' && s[i] != '暂' && (s[i] == '卖' ==> i > 0 && s[i - 1] !in {'未', '生', '有', '无'})
  }

  /** Where each alternative shows itself. */
  function Tell(k: nat): nat {
    [2, 0, 3, 2, 1, 1, 0, 0][if k < 8 then k else 0]
  }

  lemma {:induction false} DenialsTell(k: nat)
    requires k < |DENIALS|
    ensures var t, j := DENIALS[k], Tell(k);
            && j < |t| && '；' !in t
            && (t[j] == '法' || t[j] == '暂' || (t[j] == '卖' && j > 0 && t[j - 1] in {'未', '生', '有', '无'}))
  {
    assert DENIALS[0] == "尚未卖出" && DENIALS[1] == "暂未卖出" && DENIALS[2] == "未发生卖出" && DENIALS[3] == "没有卖出";
    assert DENIALS[4] == "无卖出" && DENIALS[5] == "无法评价" && DENIALS[6] == "暂不评价" && DENIALS[7] == "暂不评分";
  }

  lemma {:induction false} HarmlessNotDenied(s: string)
    requires Harmless(s)
    ensures !Denies(s)
  {
    forall k, i | 0 <= k < |DENIALS| && 0 <= i <= |s| - |DENIALS[k]| ensures !OccursAt(s, DENIALS[k], i) {
      DenialsTell(k);
      var t, j := DENIALS[k], Tell(k);
      var w := s[i..i + |t|];
      assert w[j] == s[i + j] && HarmlessAt(s, i + j);
      if j > 0 { assert w[j - 1] == s[i + j - 1]; }
    }
  }

  lemma {:induction false} HarmlessConcat(a: string, b: string)
    requires Harmless(a) && Harmless(b)
    ensures Harmless(a + b)
  {
    var s := a + b;
    forall i | 0 <= i < |s| ensures HarmlessAt(s, i) {
      if i < |a| {
        assert HarmlessAt(a, i);
      } else {
        assert HarmlessAt(b, i - |a|);
      }
    }
  }

  /** The phrases that deny a sell, written out. */
  predicate DenyingPhrase(w: string) {
    || w == "尚未卖出" || w == "暂未卖出" || w == "未发生卖出" || w == "没有卖出"
    || w == "无卖出" || w == "无法评价" || w == "暂不评价" || w == "暂不评分"
  }

  lemma {:induction false} PhraseListed(w: string)
    ensures DenyingPhrase(w) <==> exists k :: 0 <= k < |DENIALS| && DENIALS[k] == w
  {
    assert DENIALS[0] == "尚未卖出" && DENIALS[1] == "暂未卖出" && DENIALS[2] == "未发生卖出" && DENIALS[3] == "没有卖出";
    assert DENIALS[4] == "无卖出" && DENIALS[5] == "无法评价" && DENIALS[6] == "暂不评价" && DENIALS[7] == "暂不评分";
  }

  /** A reason denies the sells exactly when one of the phrases stands somewhere in it. */
  lemma {:induction false} DeniesIff(reason: string)
    ensures Denies(reason) <==> exists a: string, w: string, b: string :: DenyingPhrase(w) && reason == a + w + b
  {
    if Denies(reason) {
      var k :| 0 <= k < |DENIALS| && Contains(reason, DENIALS[k]);
      var w := DENIALS[k];
      var i :| 0 <= i <= |reason| - |w| && OccursAt(reason, w, i);
      PhraseListed(w);
      assert reason == reason[..i] + w + reason[i + |w|..];
    }
    if a, w, b :| DenyingPhrase(w) && reason == a + w + b {
      PhraseListed(w);
      var k :| 0 <= k < |DENIALS| && DENIALS[k] == w;
      assert OccursAt(reason, w, |a|);
      assert Contains(reason, DENIALS[k]);
    }
  }

  /** The replacement reason no longer denies the sells. */
  lemma {:induction false} ReplacementAccepts()
    ensures !Denies(REPLACEMENT)
  {
    var a, b, c := "复盘区间内存在已发生的卖出交易", "，卖点质量按历史卖出批次进行中性兜底评分；", "原始 LLM 理由误判为未退出状态。";
    assert Harmless(a);
    assert Harmless(b);
    assert Harmless(c);
    HarmlessConcat(a, b);
    HarmlessConcat(a + b, c);
    HarmlessNotDenied(REPLACEMENT);
  }

  lemma {:induction false} SuffixHarmless()
    ensures Harmless(REOPENED) && Harmless(NEUTRAL_REASON)
    ensures |REOPENED| > 0 && REOPENED[0] == '；'
  {
    assert Harmless("；");
    assert Harmless(REOPENED_MARK);
    assert Harmless("，不评价最新持仓的最终退出质量。");
    HarmlessConcat("；", REOPENED_MARK);
    HarmlessConcat("；" + REOPENED_MARK, "，不评价最新持仓的最终退出质量。");
  }

  /** Appending the suffix about the reopened position never turns an accepted reason into a denial. */
  lemma {:induction false} SuffixKeepsAcceptance(reason: string)
    ensures Denies(reason + REOPENED) ==> Denies(reason)
    ensures !Denies(NEUTRAL_REASON + REOPENED)
  {
    SuffixHarmless();
    HarmlessConcat(NEUTRAL_REASON, REOPENED);
    HarmlessNotDenied(NEUTRAL_REASON + REOPENED);
    HarmlessNotDenied(REOPENED);
    if Denies(reason + REOPENED) {
      var s := reason + REOPENED;
      var k :| 0 <= k < |DENIALS| && Contains(s, DENIALS[k]);
      var t := DENIALS[k];
      var i :| 0 <= i <= |s| - |t| && OccursAt(s, t, i);
      DenialsTell(k);
      NoCrossing(reason, REOPENED, t, i);
    }
  }

  lemma {:induction false} NoCrossing(a: string, b: string, t: string, i: int)
    requires b != [] && b[0] !in t && t != [] && OccursAt(a + b, t, i)
    ensures OccursAt(a, t, i) || OccursAt(b, t, i - |a|)
  {
    var s := a + b;
    assert forall k :: 0 <= k < |t| ==> t[k] == s[i + k];
    assert s[|a|] == b[0];
    if i + |t| <= |a| {
      assert s[i..i + |t|] == a[i..i + |t|];
    } else if i >= |a| {
      assert s[i..i + |t|] == b[i - |a|..i - |a| + |t|];
    }
  }

  lemma {:induction false} MarkAppended(reason: string)
    ensures Contains(reason + REOPENED, REOPENED_MARK)
  {
    var s, i := reason + REOPENED, |reason| + 1;
    assert s == reason + "；" + (REOPENED_MARK + "，不评价最新持仓的最终退出质量。");
    assert s[i..i + |REOPENED_MARK|] == REOPENED_MARK;
    assert OccursAt(s, REOPENED_MARK, i);
  }

  lemma {:induction false} NothingContained()
    ensures !Contains("", REOPENED_MARK)
  {
    assert |REOPENED_MARK| > 0;
  }

  /** What becomes of the exit entry: untouched without sells; with them a zero score whose reason denies the sells is
      replaced, any other score stays, and a reopened position is mentioned behind the reason. */
  lemma {:induction false} ExitEntry(detail: seq<Entry>, facts: Facts)
    requires |detail| == |DIMENSIONS|
    ensures var before, after := detail[EXIT], FinalDetail(detail, facts)[EXIT];
            var replaced := facts.hasSell && Denies(before.reason) && Points(before) == 0.0;
            var reason := if replaced then REPLACEMENT else if before.reason == "" then NEUTRAL_REASON else before.reason;
            && after.dimension == before.dimension && after.applicable == before.applicable
            && after.score == (if replaced then Some(7.5) else before.score)
            && (facts.hasSell && facts.reopened ==> Contains(after.reason, REOPENED_MARK) && reason <= after.reason)
            && (!facts.hasSell || !facts.reopened ==> after.reason == if replaced then REPLACEMENT else before.reason)
  {
    hide Denies, Contains, Total, REOPENED;
    var before := detail[EXIT];
    var replaced := facts.hasSell && Denies(before.reason) && Points(before) == 0.0;
    var scored := if replaced then REPLACEMENT else before.reason;
    var reason := if scored == "" then NEUTRAL_REASON else scored;
    MarkAppended(reason);
    NothingContained();
    assert reason <= reason + REOPENED;
    assert REPLACEMENT != "" by { assert |REPLACEMENT| > 0; }
    assert FinalDetail(detail, facts)[EXIT] == AfterExit(detail, facts)[EXIT];
  }

  /** The limitations of a review: what was given, then one note per repair that fired, in order. */
  lemma {:induction false} LimitationsSay(known: string -> bool, payload: Payload, facts: Facts)
    requires Normalize(known, payload, facts).Ok?
    ensures var r, detail := Normalize(known, payload, facts).value, Checked(payload, facts).value;
            var given := match payload.limitations
                         case Unset => []
                         case NullValue => if facts.hasSell then ["None"] else []
                         case NotAList(text) => [text]
                         case AList(items) => items;
            var replaced := facts.hasSell && Denies(detail[EXIT].reason) && Points(detail[EXIT]) == 0.0;
            var strange := exists i :: 0 <= i < |payload.tags| && !known(payload.tags[i]);
            && given <= r.limitations
            && |r.limitations| == |given| + (if replaced then 1 else 0) + (if Floors(detail, facts) then 1 else 0) + (if strange then 1 else 0)
            && (replaced ==> r.limitations[|given|] == CONTRADICTED)
            && (Floors(detail, facts) ==> r.limitations[|given| + if replaced then 1 else 0] == FLOORED)
            && (strange ==> FILTERED <= r.limitations[|r.limitations| - 1])
  {
    hide Checked, Floors, FinalDetail, Published, Select, ExcludedOf, Total, MaxPoints, Denies, CONTRADICTED, FLOORED, FILTERED, JoinTags, EXIT;
    SelectsAny(payload.tags, (t: string) => !known(t));
  }

  lemma {:induction false} SelectsAny(tags: seq<string>, keep: string -> bool)
    ensures Select(tags, keep) != [] <==> exists i :: 0 <= i < |tags| && keep(tags[i])
  {
    if tags != [] {
      var n := |tags| - 1;
      SelectsAny(tags[..n], keep);
      if i :| 0 <= i < n && keep(tags[i]) { assert keep(tags[..n][i]); }
      if i :| 0 <= i < n && keep(tags[..n][i]) { assert keep(tags[i]); }
    }
  }

  // ---------- running it again ----------

  function FeedBack(r: Review): Payload {
    Payload(Feed(r.detail), AList(r.limitations), r.tags, r.summary)
  }

  /** A repaired exit score is not repaired again. */
  lemma {:induction false} ExitSettled(detail: seq<Entry>, facts: Facts)
    requires |detail| == |DIMENSIONS| && Scored(detail, facts)
    ensures !ExitRepaired(FinalDetail(detail, facts), facts)
    ensures AfterExit(FinalDetail(detail, facts), facts) == FinalDetail(detail, facts)
  {
    hide Denies, Contains, Total, REPLACEMENT, REOPENED;
    DimensionNames();
    var done := FinalDetail(detail, facts);
    var exit := detail[EXIT];
    if facts.hasSell {
      assert exit.applicable;
      var scored := if Denies(exit.reason) && Points(exit) == 0.0 then exit.(score := Some(7.5), reason := REPLACEMENT) else exit;
      SuffixKeepsAcceptance(scored.reason);
      MarkAppended(if scored.reason == "" then NEUTRAL_REASON else scored.reason);
      assert done[EXIT] == RepairExit(detail, facts)[EXIT];
      assert RepairExit(done, facts)[EXIT] == done[EXIT];
    }
  }

  lemma {:induction false} SelectAgain(tags: seq<string>, keep: string -> bool)
    ensures Select(Select(tags, keep), keep) == Select(tags, keep)
    ensures Select(Select(tags, keep), (t: string) => !keep(t)) == []
  {
    AllKept(Select(tags, keep), keep);
  }

  lemma {:induction false} AllKept(tags: seq<string>, keep: string -> bool)
    requires forall i :: 0 <= i < |tags| ==> keep(tags[i])
    ensures Select(tags, keep) == tags
    ensures Select(tags, (t: string) => !keep(t)) == []
  {
    if tags != [] {
      AllKept(tags[..|tags| - 1], keep);
      assert tags == tags[..|tags| - 1] + [tags[|tags| - 1]];
    }
  }

  /** The normaliser is a fixed point on its own output for the same facts, without exception. */
  lemma {:induction false} SecondRun(known: string -> bool, payload: Payload, facts: Facts)
    requires Normalize(known, payload, facts).Ok?
    ensures var r := Normalize(known, payload, facts);
            Normalize(known, FeedBack(r.value), facts) == r
  {
    hide Denies, Contains, Total, RepairExit, RaiseFloors, ScoreDetail.Normalize, Feed;
    var r := Normalize(known, payload, facts).value;
    var detail := Checked(payload, facts).value;
    var again := FeedBack(r);
    CheckedScored(payload, facts);
    RepairsSound(detail, facts);
    DimensionNames();
    NormalizeAgain(DIMENSIONS, r.detail, true, NaSet(facts));
    assert Checked(again, facts) == Ok(r.detail);
    ExitSettled(detail, facts);
    if facts.openBuy { FloorsLift(detail, facts); }
    assert FinalDetail(r.detail, facts) == r.detail;
    SelectAgain(payload.tags, known);
    assert Notes(again, facts, r.detail, known) == r.limitations by {
      SelectAgain(payload.tags, known);
    }
  }
}
