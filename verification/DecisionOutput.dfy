/** `normalize_trade_decision_output`: turning a model's trade decision into a document whose scores, rating,
    action and limits agree. */
module DecisionOutput {
  import opened Wrappers
  import opened Rounding
  import opened ScoreDetail

  datatype DecisionType = HoldingDecision | EntryDecision

  /** The field as written: absent or empty, one of the allowed names, or anything else. */
  datatype TypeField = NoType | Known(value: DecisionType) | Unknown

  datatype Action = Add | AddSmall | AddBatch | Hold | Reduce | ReduceBatch | Sell | Wait | Avoid | Watchlist

  datatype Confidence = High | Medium | Low

  datatype Rating = StrongBuyOrHold | Positive | Neutral | Negative

  datatype Position = Position(current: Option<real>, target: Option<real>, maximum: Option<real>, cash: Option<real>, sizeLabel: string)

  datatype Amount = NoAmount | Numeric(value: real) | Unreadable(text: string)

  datatype Step = Text(text: string) | Step(step: Option<real>, condition: string, action: string, amount: Amount, note: string)

  datatype Plan = Plan(actNow: bool, steps: seq<Step>, invalid: seq<string>, triggers: seq<string>)

  /** `action` and `confidence` are None when no alias matches; a missing plan or position is an empty one. */
  datatype Payload = Payload(
    decisionType: TypeField,
    scores: map<string, Raw>,
    action: Option<Action>,
    confidence: Option<Confidence>,
    summary: string,
    position: Position,
    plan: Plan,
    limitations: seq<string>)

  datatype PlannedStep = PlannedStep(step: int, condition: string, action: string, amount: Option<int>, note: string)

  datatype CleanPlan = CleanPlan(actNow: bool, steps: seq<PlannedStep>, invalid: seq<string>, triggers: seq<string>)

  datatype Decision = Decision(
    decisionType: DecisionType,
    detail: seq<Entry>,
    overall: real,
    rating: Rating,
    action: Action,
    confidence: Confidence,
    summary: string,
    position: Position,
    plan: CleanPlan,
    limitations: seq<string>)

  const DIMENSIONS: seq<Dimension> := [
    Dimension("fundamental_quality_score", 20),
    Dimension("valuation_score", 15),
    Dimension("trend_score", 15),
    Dimension("account_fit_score", 20),
    Dimension("risk_reward_score", 15),
    Dimension("review_constraint_score", 10),
    Dimension("event_catalyst_score", 5)]

  const CAPPED: string := "suggested_target_position_pct" + " capped at max_position_pct"
  const DOWNGRADED: string := "confidence downgraded" + " because data_limitations are material"
  const RATING_CAPPED: string := "rating capped" + " because critical Longbridge" + " public data is missing"

  function RatingFor(score: real): Rating {
    if score >= 85.0 then StrongBuyOrHold else if score >= 70.0 then Positive else if score >= 50.0 then Neutral else Negative
  }

  // ---------- position advice ----------

  function Abs(x: real): real {
    if x < 0.0 then -x else x
  }

  /** `_normalize_position_pct`: numbers beyond one are percents. */
  function Ratio(x: Option<real>): Option<real> {
    match x
    case None => None
    case Some(n) => Some(if Abs(n) > 1.0 then Round6(n / 100.0) else Round6(n))
  }

  function RatioWarning(x: Option<real>, name: string): seq<string> {
    if x.Some? && Abs(x.value) > 1.0 then [name + " normalized from percent number to ratio"] else []
  }

  predicate TooHigh(target: Option<real>, maximum: Option<real>) {
    target.Some? && maximum.Some? && target.value > maximum.value
  }

  /** `_normalize_position_advice`. */
  function CleanPosition(p: Position): (Position, seq<string>) {
    var current, target, maximum := Ratio(p.current), Ratio(p.target), Ratio(p.maximum);
    var warnings := RatioWarning(p.current, "current_position_pct") + RatioWarning(p.target, "suggested_target_position_pct")
                    + RatioWarning(p.maximum, "max_position_pct");
    var sizeLabel := if p.sizeLabel == "" then "none" else p.sizeLabel;
    if TooHigh(target, maximum) then (Position(current, maximum, maximum, p.cash, sizeLabel), warnings + [CAPPED])
    else (Position(current, target, maximum, p.cash, sizeLabel), warnings)
  }

  // ---------- execution plan ----------

  function CleanStep(s: Step, index: nat): PlannedStep {
    match s
    case Text(text) => PlannedStep(index, "", "", None, text)
    case Step(step, condition, action, amount, note) =>
      var number := if step.Some? && step.value != 0.0 then step.value else index as real;
      var extra := if amount.Unreadable? then "数量/金额：" + amount.text else "";
      PlannedStep(RoundInt(number), condition, action,
                  if amount.Numeric? then Some(RoundInt(amount.value)) else None,
                  if extra == "" then note else if note == "" then extra else note + "；" + extra)
  }

  function CleanSteps(steps: seq<Step>): (r: seq<PlannedStep>)
    ensures |r| == |steps|
  {
    seq(|steps|, i requires 0 <= i < |steps| => CleanStep(steps[i], i + 1))
  }

  /** `_normalize_execution_steps`. */
  method NormalizeSteps(steps: seq<Step>) returns (r: seq<PlannedStep>)
    ensures r == CleanSteps(steps)
  {
    r := [];
    for i := 0 to |steps|
      invariant |r| == i && forall j :: 0 <= j < i ==> r[j] == CleanStep(steps[j], j + 1)
    {
      r := r + [CleanStep(steps[i], i + 1)];
    }
  }

  function PlanOf(p: Plan): CleanPlan {
    CleanPlan(p.actNow, CleanSteps(p.steps), p.invalid, p.triggers)
  }

  // ---------- action ----------

  predicate IsAdd(a: Action) {
    a.Add? || a.AddSmall? || a.AddBatch?
  }

  /** `_reconcile_decision_action`. */
  function Reconcile(action: Action, position: Position, actNow: bool): Action {
    if !IsAdd(action) then action
    else if actNow && position.cash.Some? && position.cash.value > 0.0 then action
    else if position.current.Some? && position.current.value > 0.0 then Hold
    else Watchlist
  }

  // ---------- the whole document ----------

  /** Why a payload is refused, in the order of the checks; None: accepted. */
  function Refusal(payload: Payload, expected: Option<DecisionType>): Option<Error> {
    if payload.decisionType.Unknown? || (payload.decisionType.NoType? && expected.None?) then Some(Invalid)
    else if payload.decisionType.Known? && expected.Some? && payload.decisionType.value != expected.value then Some(Invalid)
    else
      var detail := ScoreDetail.Normalize(DIMENSIONS, payload.scores, false, {});
      if detail.Fail? then Some(detail.error)
      else if payload.action.None? || payload.confidence.None? || payload.summary == "" then Some(Invalid)
      else None
  }

  /** Warnings before the confidence and rating checks. */
  function Warnings(payload: Payload): seq<string> {
    payload.limitations + CleanPosition(payload.position).1
  }

  predicate Downgrades(payload: Payload) {
    |Warnings(payload)| >= 4 && payload.confidence == Some(High)
  }

  function AfterDowngrade(payload: Payload): seq<string> {
    Warnings(payload) + if Downgrades(payload) then [DOWNGRADED] else []
  }

  function Entries(payload: Payload): seq<Entry> {
    var detail := ScoreDetail.Normalize(DIMENSIONS, payload.scores, false, {});
    if detail.Ok? then detail.value else []
  }

  function Overall(payload: Payload): real {
    Round2(Total(Entries(payload)))
  }

  /** `critical` stands for `_longbridge_critical_missing`. */
  predicate Caps(critical: seq<string> -> bool, payload: Payload) {
    critical(AfterDowngrade(payload)) && Overall(payload) >= 85.0
  }

  function Normalize(critical: seq<string> -> bool, payload: Payload, expected: Option<DecisionType>): Outcome<Decision> {
    var refusal := Refusal(payload, expected);
    if refusal.Some? then Fail(refusal.value)
    else
      var position := CleanPosition(payload.position).0;
      Ok(Decision(
        if payload.decisionType.Known? then payload.decisionType.value else expected.value,
        Entries(payload),
        Overall(payload),
        if Caps(critical, payload) then Positive else RatingFor(Overall(payload)),
        Reconcile(payload.action.value, position, payload.plan.actNow),
        if Downgrades(payload) then Medium else payload.confidence.value,
        payload.summary,
        position,
        PlanOf(payload.plan),
        AfterDowngrade(payload) + if Caps(critical, payload) then [RATING_CAPPED] else []))
  }

  /** The normaliser as it runs: one document, filled in and corrected field by field. */
  method NormalizeTradeDecision(critical: seq<string> -> bool, payload: Payload, expected: Option<DecisionType>) returns (r: Outcome<Decision>)
    ensures r == Normalize(critical, payload, expected)
  {
    var warnings := payload.limitations;
    var decisionType;
    match payload.decisionType {
      case Unknown => return Fail(Invalid);
      case NoType =>
        if expected.None? { return Fail(Invalid); }
        decisionType := expected.value;
      case Known(value) =>
        if expected.Some? && value != expected.value { return Fail(Invalid); }
        decisionType := value;
    }
    var scored := NormalizeScoreDetail(DIMENSIONS, payload.scores, false, {});
    if scored.Fail? { return Fail(scored.error); }
    var (detail, total) := scored.value;
    var overall := Round2(total);
    var rating := RatingFor(overall);
    if payload.action.None? || payload.confidence.None? || payload.summary == "" { return Fail(Invalid); }
    var action, confidence := payload.action.value, payload.confidence.value;
    var (position, more) := CleanPosition(payload.position);
    warnings := warnings + more;
    var steps := NormalizeSteps(payload.plan.steps);
    var plan := CleanPlan(payload.plan.actNow, steps, payload.plan.invalid, payload.plan.triggers);
    action := Reconcile(action, position, plan.actNow);
    assert warnings == Warnings(payload) && warnings + [] == warnings;
    if |warnings| >= 4 && confidence == High {
      confidence := Medium;
      warnings := warnings + [DOWNGRADED];
    }
    assert warnings == AfterDowngrade(payload) && warnings + [] == warnings;
    if critical(warnings) && rating == StrongBuyOrHold {
      rating := Positive;
      warnings := warnings + [RATING_CAPPED];
    }
    r := Ok(Decision(decisionType, detail, overall, rating, action, confidence, payload.summary, position, plan, warnings));
  }

  // ---------- what an accepted document satisfies ----------

  /** Scores, rating, action and limits of an accepted document agree. */
  ghost predicate Agrees(d: Decision) {
    && AllSound(d.detail) && Covers(d.detail, DIMENSIONS, {})
    && d.overall == Round2(Total(d.detail)) && 0.0 <= d.overall <= 100.0
    && (d.rating == RatingFor(d.overall) || (d.rating == Positive && d.overall >= 85.0))
    && (d.position.target.Some? && d.position.maximum.Some? ==> d.position.target.value <= d.position.maximum.value)
    && (IsAdd(d.action) ==> d.plan.actNow && d.position.cash.Some? && d.position.cash.value > 0.0)
    && (d.confidence == High ==> |d.limitations| <= 4)
  }

  lemma {:induction false} DimensionsSum()
    ensures MaxOf(DIMENSIONS) == 100 && |DIMENSIONS| == 7 && DistinctNames(DIMENSIONS)
  {
    var d := DIMENSIONS;
    assert |d[0].name| == 25 && |d[1].name| == 15 && |d[2].name| == 11 && |d[3].name| == 17;
    assert |d[4].name| == 17 && |d[5].name| == 23 && |d[6].name| == 20;
    assert d[3].name[0] != d[4].name[0];
    MaxOfStep(d, 0); MaxOfStep(d, 1); MaxOfStep(d, 2); MaxOfStep(d, 3); MaxOfStep(d, 4); MaxOfStep(d, 5); MaxOfStep(d, 6);
    assert d[..7] == d && d[..0] == [];
  }

  lemma {:induction false} MaxCovered(entries: seq<Entry>, dimensions: seq<Dimension>)
    requires Covers(entries, dimensions, {})
    ensures MaxPoints(entries) == MaxOf(dimensions)
  {
    if entries != [] { MaxCovered(entries[..|entries| - 1], dimensions[..|dimensions| - 1]); }
  }

  lemma {:induction false} AcceptedEntries(payload: Payload)
    requires ScoreDetail.Normalize(DIMENSIONS, payload.scores, false, {}).Ok?
    ensures AllSound(Entries(payload)) && Covers(Entries(payload), DIMENSIONS, {})
    ensures 0.0 <= Overall(payload) <= 100.0
  {
    AcceptedSound(DIMENSIONS, payload.scores, false, {});
    MaxCovered(Entries(payload), DIMENSIONS);
    DimensionsSum();
    TotalWithin(Entries(payload));
    Round2Within(Total(Entries(payload)), 0, 100);
  }

  lemma {:induction false} AcceptedAgrees(critical: seq<string> -> bool, payload: Payload, expected: Option<DecisionType>)
    requires Normalize(critical, payload, expected).Ok?
    ensures Agrees(Normalize(critical, payload, expected).value)
  {
    AcceptedEntries(payload);
  }

  // ---------- running it again ----------

  /** The score a dimension of this name is given lies within the maximum. */
  predicate ScoredWithin(scores: map<string, Raw>, name: string, most: real) {
    name in scores && scores[name].Scored? && (scores[name].score.Some? ==> 0.0 <= scores[name].score.value <= most)
  }

  /** The rubric, written out. */
  predicate Rubric(scores: map<string, Raw>) {
    && ScoredWithin(scores, "fundamental_quality_score", 20.0)
    && ScoredWithin(scores, "valuation_score", 15.0)
    && ScoredWithin(scores, "trend_score", 15.0)
    && ScoredWithin(scores, "account_fit_score", 20.0)
    && ScoredWithin(scores, "risk_reward_score", 15.0)
    && ScoredWithin(scores, "review_constraint_score", 10.0)
    && ScoredWithin(scores, "event_catalyst_score", 5.0)
  }

  lemma {:induction false} RubricAccepts(scores: map<string, Raw>)
    ensures ScoreDetail.Normalize(DIMENSIONS, scores, false, {}).Ok? <==> Rubric(scores)
  {
    var d := DIMENSIONS;
    AcceptedIff(d, scores, false, {});
    hide CheckAll, GivenReason, GivenScore;
    forall i | 0 <= i < 7
      ensures Acceptable(d[i], Find(scores, d[i].name), false, false) <==> ScoredWithin(scores, d[i].name, d[i].max as real) {
    }
    hide ScoredWithin, Acceptable, Find;
    assert d[0] == Dimension("fundamental_quality_score", 20) && d[1] == Dimension("valuation_score", 15);
    assert d[2] == Dimension("trend_score", 15) && d[3] == Dimension("account_fit_score", 20) && d[4] == Dimension("risk_reward_score", 15);
    assert d[5] == Dimension("review_constraint_score", 10) && d[6] == Dimension("event_catalyst_score", 5);
  }

  /** A decision is accepted exactly when its type is a known one and the expected one, every dimension is scored within
      the rubric, action and confidence are known, and there is a summary. */
  lemma {:induction false} AcceptedIffComplete(critical: seq<string> -> bool, payload: Payload, expected: Option<DecisionType>)
    ensures Normalize(critical, payload, expected).Ok? <==>
            && (match payload.decisionType
                case Known(value) => expected == None || expected == Some(value)
                case NoType => expected.Some?
                case Unknown => false)
            && Rubric(payload.scores) && payload.action.Some? && payload.confidence.Some? && payload.summary != ""
  {
    hide ScoreDetail.Normalize, Rubric;
    RubricAccepts(payload.scores);
  }

  /** What is published in place of the requested action. */
  lemma {:induction false} FinalAction(critical: seq<string> -> bool, payload: Payload, expected: Option<DecisionType>)
    requires Normalize(critical, payload, expected).Ok?
    ensures var d := Normalize(critical, payload, expected).value;
            var asked, cash, held := payload.action.value, d.position.cash, d.position.current;
            if asked != Add && asked != AddSmall && asked != AddBatch then d.action == asked
            else if payload.plan.actNow && cash.Some? && cash.value > 0.0 then d.action == asked
            else if held.Some? && held.value > 0.0 then d.action == Hold
            else d.action == Watchlist
  {
    hide ScoreDetail.Normalize, Total, RatingFor, Ratio;
  }

  predicate BeyondOne(x: Option<real>) {
    x.Some? && (x.value > 1.0 || x.value < -1.0)
  }

  /** How many warnings the position advice adds: one per percentage, one for a target above the maximum. */
  function PositionWarnings(p: Position): nat {
    (if BeyondOne(p.current) then 1 else 0) + (if BeyondOne(p.target) then 1 else 0) + (if BeyondOne(p.maximum) then 1 else 0)
    + (if TooHigh(Ratio(p.target), Ratio(p.maximum)) then 1 else 0)
  }

  /** The other published fields: what is taken over, when confidence drops, which rating goes with which score. */
  lemma {:induction false} FinalFields(critical: seq<string> -> bool, payload: Payload, expected: Option<DecisionType>)
    requires Normalize(critical, payload, expected).Ok?
    ensures var d := Normalize(critical, payload, expected).value;
            var warned := |payload.limitations| + PositionWarnings(payload.position);
            && d.summary == payload.summary && payload.limitations <= d.limitations
            && d.plan.actNow == payload.plan.actNow && d.plan.invalid == payload.plan.invalid && d.plan.triggers == payload.plan.triggers
            && d.confidence == (if warned >= 4 && payload.confidence.value == High then Medium else payload.confidence.value)
            && (d.overall < 50.0 <==> d.rating == Negative) && (50.0 <= d.overall < 70.0 <==> d.rating == Neutral)
            && (d.rating == StrongBuyOrHold ==> d.overall >= 85.0) && (70.0 <= d.overall < 85.0 ==> d.rating == Positive)
            && (d.rating == StrongBuyOrHold ==> !critical(d.limitations))
            && (d.rating == Positive && d.overall >= 85.0 ==>
                  |d.limitations| > 0 && d.limitations[|d.limitations| - 1] == RATING_CAPPED
                  && critical(d.limitations[..|d.limitations| - 1]))
    ensures var p, q := payload.position, Normalize(critical, payload, expected).value.position;
            && q.current == Ratio(p.current) && q.maximum == Ratio(p.maximum) && q.cash == p.cash
            && (p.target.None? <==> q.target.None?)
            && (p.target.Some? ==> (q.target == Ratio(p.target) || q.target == q.maximum)
                                   && q.target.value <= Ratio(p.target).value
                                   && (q.maximum.Some? && Ratio(p.target).value <= q.maximum.value ==> q.target == Ratio(p.target))
                                   && (q.maximum.None? ==> q.target == Ratio(p.target)))
  {
    hide ScoreDetail.Normalize, Total, Ratio, CAPPED, DOWNGRADED, RATING_CAPPED;
    var before := AfterDowngrade(payload);
    assert before + [] == before && (before + [RATING_CAPPED])[..|before|] == before;
    RatioPresent(payload.position.target);
    RatioPresent(payload.position.maximum);
  }

  lemma {:induction false} RatioPresent(x: Option<real>)
    ensures Ratio(x).Some? <==> x.Some?
  {
  }

  /** A cleaned step keeps its texts; an amount that is no number is kept as text in the note. */
  lemma {:induction false} StepSays(steps: seq<Step>, i: nat)
    requires i < |steps|
    ensures var r := CleanSteps(steps)[i];
            match steps[i]
            case Text(text) => r == PlannedStep(i + 1, "", "", None, text)
            case Step(step, condition, action, amount, note) =>
              && r.condition == condition && r.action == action
              && (step.None? || step == Some(0.0) ==> r.step == i + 1)
              && (step.Some? && step.value != 0.0 ==> -0.5 <= r.step as real - step.value <= 0.5)
              && (amount.Numeric? <==> r.amount.Some?)
              && (amount.Numeric? ==> -0.5 <= r.amount.value as real - amount.value <= 0.5)
              && note <= r.note && (!amount.Unreadable? ==> r.note == note)
              && (amount.Unreadable? ==> r.note == (if note == "" then "" else note + "；") + "数量/金额：" + amount.text)
  {
    RoundIntOfInt(i + 1);
    if steps[i].Step? && steps[i].amount.Unreadable? {
      var text := steps[i].amount.text;
      assert "" + "数量/金额：" + text == "数量/金额：" + text;
      assert steps[i].note + "；" + "数量/金额：" + text == steps[i].note + "；" + ("数量/金额：" + text);
      assert |"数量/金额：" + text| > 0;
    }
  }

  function FeedStep(s: PlannedStep): Step {
    Step(Some(s.step as real), s.condition, s.action, if s.amount.Some? then Numeric(s.amount.value as real) else NoAmount, s.note)
  }

  function FeedSteps(steps: seq<PlannedStep>): (r: seq<Step>)
    ensures |r| == |steps|
  {
    seq(|steps|, i requires 0 <= i < |steps| => FeedStep(steps[i]))
  }

  /** The document read as a payload again. */
  function FeedBack(d: Decision): Payload {
    Payload(Known(d.decisionType), Feed(d.detail), Some(d.action), Some(d.confidence), d.summary, d.position,
            Plan(d.plan.actNow, FeedSteps(d.plan.steps), d.plan.invalid, d.plan.triggers), d.limitations)
  }

  /** A percentage survives a second normalisation exactly when it came out as a ratio within one. */
  predicate Settled(x: Option<real>) {
    x.Some? ==> Abs(x.value) <= 1.0
  }

  lemma {:induction false} RatioSettles(x: Option<real>)
    ensures Ratio(Ratio(x)) == Ratio(x) <==> Settled(Ratio(x))
  {
    if x.Some? {
      var n := Ratio(x).value;
      Round6Idempotent(if Abs(x.value) > 1.0 then x.value / 100.0 else x.value);
      if Abs(n) > 1.0 { Shrinks(n); }
    }
  }

  lemma {:induction false} Shrinks(n: real)
    requires Abs(n) > 1.0
    ensures Round6(n / 100.0) != n
  {
    var y := n / 100.0 * 1000000.0;
    assert y == n * 10000.0;
    assert Round6(n / 100.0) * 1000000.0 == RoundInt(y) as real;
    assert -0.5 <= RoundInt(y) as real - y <= 0.5;
  }

  /** Which raw percentages settle: those within 100, up to the sixth digit of the ratio. */
  lemma {:induction false} SettledPercents(n: real)
    ensures Settled(Ratio(Some(n))) <==> Abs(n) <= 100.00005
  {
    var y := n / 100.0 * 1000000.0;
    if Abs(n) > 1.0 {
      RoundIntOfInt(1000000);
      RoundIntOfInt(-1000000);
      if -1000000.5 <= y <= 1000000.5 {
        AtMostHalfAbove(y);
      }
    } else {
      var z := n * 1000000.0;
      RoundIntMonotone(-1000000.0, z);
      RoundIntMonotone(z, 1000000.0);
      RoundIntOfInt(1000000);
      RoundIntOfInt(-1000000);
    }
  }

  lemma {:induction false} AtMostHalfAbove(y: real)
    requires -1000000.5 <= y <= 1000000.5
    ensures -1000000 <= RoundInt(y) <= 1000000
  {
    if y == 1000000.5 { assert y.Floor == 1000000; }
    if y == -1000000.5 { assert y.Floor == -1000001; }
    if y > 1000000.0 && y < 1000000.5 { assert y.Floor == 1000000; }
    if y < -1000000.0 && y > -1000000.5 { assert y.Floor == -1000001; }
    RoundIntOfInt(1000000);
    RoundIntOfInt(-1000000);
    if y <= 1000000.0 { RoundIntMonotone(y, 1000000.0); }
    if y >= -1000000.0 { RoundIntMonotone(-1000000.0, y); }
  }

  predicate PositionSettled(p: Position) {
    Settled(p.current) && Settled(p.target) && Settled(p.maximum)
  }

  lemma {:induction false} PositionAgain(p: Position)
    ensures var q := CleanPosition(p).0;
            && (CleanPosition(q).0 == q <==> PositionSettled(q))
            && (PositionSettled(q) ==> CleanPosition(q).1 == [])
  {
    var q := CleanPosition(p).0;
    RatioSettles(p.current);
    RatioSettles(p.target);
    RatioSettles(p.maximum);
    assert Ratio(q.current) == q.current <==> Settled(q.current);
    assert Ratio(q.target) == q.target <==> Settled(q.target);
    assert Ratio(q.maximum) == q.maximum <==> Settled(q.maximum);
  }

  predicate StepsNonzero(steps: seq<PlannedStep>) {
    forall i :: 0 <= i < |steps| ==> steps[i].step != 0
  }

  lemma {:induction false} StepsAgain(steps: seq<PlannedStep>)
    ensures CleanSteps(FeedSteps(steps)) == steps <==> StepsNonzero(steps)
  {
    forall i | 0 <= i < |steps| ensures CleanSteps(FeedSteps(steps))[i] == steps[i] <==> steps[i].step != 0 {
      RoundIntOfInt(steps[i].step);
      RoundIntOfInt(i + 1);
      if steps[i].amount.Some? { RoundIntOfInt(steps[i].amount.value); }
    }
    if StepsNonzero(steps) {
      assert CleanSteps(FeedSteps(steps)) == steps;
    }
  }

  /** What decides whether a second run changes anything: the rating cap fired, a ratio is still beyond one,
      or a step number rounded to zero. */
  predicate Settles(critical: seq<string> -> bool, payload: Payload) {
    && !Caps(critical, payload)
    && PositionSettled(CleanPosition(payload.position).0)
    && StepsNonzero(CleanSteps(payload.plan.steps))
  }

  lemma {:induction false} EntriesAgain(critical: seq<string> -> bool, payload: Payload, expected: Option<DecisionType>)
    requires Normalize(critical, payload, expected).Ok?
    ensures var d := Normalize(critical, payload, expected).value;
            && Entries(FeedBack(d)) == d.detail
            && Refusal(FeedBack(d), expected) == None
  {
    AcceptedEntries(payload);
    DimensionsSum();
    NormalizeAgain(DIMENSIONS, Entries(payload), false, {});
  }

  /** Re-running the normaliser on its own output changes nothing exactly when none of the three happened. */
  lemma {:induction false} SecondRun(critical: seq<string> -> bool, payload: Payload, expected: Option<DecisionType>)
    requires Normalize(critical, payload, expected).Ok?
    ensures var d := Normalize(critical, payload, expected);
            Normalize(critical, FeedBack(d.value), expected) == d <==> Settles(critical, payload)
  {
    hide ScoreDetail.Normalize, Total, Feed, CleanStep, RatingFor, Ratio;
    var d := Normalize(critical, payload, expected).value;
    var again := FeedBack(d);
    EntriesAgain(critical, payload, expected);
    PositionAgain(payload.position);
    StepsAgain(d.plan.steps);
    assert Overall(again) == Overall(payload);
    if PositionSettled(d.position) && !Caps(critical, payload) {
      assert d.limitations == AfterDowngrade(payload) by { assert AfterDowngrade(payload) + [] == AfterDowngrade(payload); }
      assert Warnings(again) == d.limitations;
      assert !Downgrades(again) by { assert Warnings(payload) + [] == Warnings(payload); }
      assert AfterDowngrade(again) == d.limitations;
      assert !Caps(critical, again);
      assert AfterDowngrade(again) + [] == d.limitations;
    }
    if Caps(critical, payload) {
      CapFiresAgain(critical, payload, again, d.limitations);
      var second := Normalize(critical, again, expected).value;
      if Caps(critical, again) {
        assert |second.limitations| == |AfterDowngrade(again)| + 1;
      } else {
        assert second.rating == StrongBuyOrHold && d.rating == Positive;
      }
    }
  }

  lemma {:induction false} CapFiresAgain(critical: seq<string> -> bool, payload: Payload, again: Payload, limitations: seq<string>)
    requires Caps(critical, payload) && Overall(again) == Overall(payload) && again.limitations == limitations
    ensures Caps(critical, again) ==> |AfterDowngrade(again)| + 1 > |limitations|
    ensures !Caps(critical, again) ==> RatingFor(Overall(again)) == StrongBuyOrHold
  {
  }

  /** All seven dimensions scored zero. */
  function Zeros(): seq<Entry> {
    seq(|DIMENSIONS|, i requires 0 <= i < |DIMENSIONS| => Entry(DIMENSIONS[i], Some(0.0), "", true))
  }

  function Holding(current: real, steps: seq<Step>): Payload {
    Payload(Known(HoldingDecision), Feed(Zeros()), Some(Hold), Some(Medium), "s",
            Position(Some(current), None, None, None, "none"), Plan(false, steps, [], []), [])
  }

  lemma {:induction false} HoldingAccepted(critical: seq<string> -> bool, current: real, steps: seq<Step>)
    ensures Normalize(critical, Holding(current, steps), None).Ok?
  {
    hide ScoreDetail.Normalize, Feed;
    DimensionsSum();
    NormalizeAgain(DIMENSIONS, Zeros(), false, {});
  }

  lemma {:induction false} RatioOfPercent(n: int)
    requires n > 1
    ensures Ratio(Some(n as real)) == Some(n as real / 100.0)
  {
    RoundIntOfInt(n * 10000);
    assert n as real / 100.0 * 1000000.0 == (n * 10000) as real;
  }

  /** An accepted decision with a current position of 15000 percent: 150 is left after one run and 1.5 after two. */
  lemma {:induction false} PositionMoves(critical: seq<string> -> bool)
    ensures var first := Normalize(critical, Holding(15000.0, []), None);
            && first.Ok? && first.value.position.current == Some(150.0)
            && var second := Normalize(critical, FeedBack(first.value), None);
               second.Ok? && second.value.position.current == Some(1.5)
  {
    hide Feed, ScoreDetail.Normalize, Ratio;
    var payload := Holding(15000.0, []);
    HoldingAccepted(critical, 15000.0, []);
    EntriesAgain(critical, payload, None);
    RatioOfPercent(15000);
    RatioOfPercent(150);
  }

  /** An accepted decision whose only step is numbered 0.3: it comes out as step 0 and, run again, as step 1. */
  lemma {:induction false} StepMoves(critical: seq<string> -> bool)
    ensures var first := Normalize(critical, Holding(0.0, [Step(Some(0.3), "", "", NoAmount, "")]), None);
            && first.Ok? && first.value.plan.steps == [PlannedStep(0, "", "", None, "")]
            && var second := Normalize(critical, FeedBack(first.value), None);
               second.Ok? && second.value.plan.steps == [PlannedStep(1, "", "", None, "")]
  {
    hide Feed, ScoreDetail.Normalize, Ratio;
    var steps := [Step(Some(0.3), "", "", NoAmount, "")];
    HoldingAccepted(critical, 0.0, steps);
    EntriesAgain(critical, Holding(0.0, steps), None);
    RoundIntOfInt(1);
    assert RoundInt(0.3) == 0;
    assert CleanSteps(steps) == [PlannedStep(0, "", "", None, "")];
    assert CleanSteps(FeedSteps(CleanSteps(steps))) == [PlannedStep(1, "", "", None, "")];
  }
}
