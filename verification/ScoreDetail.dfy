/** `_normalize_score_detail` of `invariants.py`: one checked score per rubric dimension, and their sum. */
module ScoreDetail {
  import opened Wrappers

  datatype Dimension = Dimension(name: string, max: nat)

  /** A dimension as the model wrote it: nothing, a dict, or something else. `score` is None when it is missing or
      not a finite number. */
  datatype Raw = Absent | Odd | Scored(score: Option<real>, reason: string)

  datatype Entry = Entry(dimension: Dimension, score: Option<real>, reason: string, applicable: bool)

  datatype Error = Missing | OutOfRange | Crash | Invalid

  datatype Outcome<+T> = Ok(value: T) | Fail(error: Error)

  const NOT_SOLD: string := "尚未卖出，暂不评分，不计入总分。"
  const NOT_SCORED: string := "模型未提供该维度评分"

  function Find(source: map<string, Raw>, name: string): Raw {
    if name in source then source[name] else Absent
  }

  /** One turn of the loop. */
  function Check(d: Dimension, raw: Raw, fillMissing: bool, excluded: bool): Outcome<Entry> {
    if excluded then
      match raw
      case Odd => Fail(Crash)
      case Absent => Ok(Entry(d, None, NOT_SOLD, false))
      case Scored(_, reason) => Ok(Entry(d, None, if reason == "" then NOT_SOLD else reason, false))
    else
      match raw
      case Scored(score, reason) =>
        var value := if score.Some? then score.value else 0.0;
        if value < 0.0 || value > d.max as real then Fail(OutOfRange) else Ok(Entry(d, Some(value), reason, true))
      case _ => if fillMissing then Ok(Entry(d, Some(0.0), NOT_SCORED, true)) else Fail(Missing)
  }

  function CheckAll(dimensions: seq<Dimension>, source: map<string, Raw>, fillMissing: bool, excluded: set<string>): (r: Outcome<seq<Entry>>)
    ensures r.Ok? ==> |r.value| == |dimensions|
  {
    if dimensions == [] then Ok([])
    else
      var front := CheckAll(dimensions[..|dimensions| - 1], source, fillMissing, excluded);
      var d := dimensions[|dimensions| - 1];
      if front.Fail? then front
      else match Check(d, Find(source, d.name), fillMissing, d.name in excluded)
        case Fail(error) => Fail(error)
        case Ok(entry) => Ok(front.value + [entry])
  }

  function Normalize(dimensions: seq<Dimension>, source: map<string, Raw>, fillMissing: bool, excluded: set<string>): Outcome<seq<Entry>> {
    if source == map[] && !fillMissing then Fail(Missing) else CheckAll(dimensions, source, fillMissing, excluded)
  }

  function Points(e: Entry): real {
    if e.applicable && e.score.Some? then e.score.value else 0.0
  }

  /** The sum over the applicable dimensions. */
  function Total(entries: seq<Entry>): real {
    if entries == [] then 0.0 else Total(entries[..|entries| - 1]) + Points(entries[|entries| - 1])
  }

  function MaxPoints(entries: seq<Entry>): int {
    if entries == [] then 0
    else
      var last := entries[|entries| - 1];
      MaxPoints(entries[..|entries| - 1]) + if last.applicable then last.dimension.max else 0
  }

  function MaxOf(dimensions: seq<Dimension>): int {
    if dimensions == [] then 0 else MaxOf(dimensions[..|dimensions| - 1]) + dimensions[|dimensions| - 1].max
  }

  /** The loop, with its running total. */
  method NormalizeScoreDetail(dimensions: seq<Dimension>, source: map<string, Raw>, fillMissing: bool, excluded: set<string>)
    returns (r: Outcome<(seq<Entry>, real)>)
    ensures match Normalize(dimensions, source, fillMissing, excluded)
            case Fail(error) => r == Fail(error)
            case Ok(entries) => r == Ok((entries, Total(entries)))
  {
    if source == map[] && !fillMissing { return Fail(Missing); }
    var entries: seq<Entry> := [];
    var total := 0.0;
    for i := 0 to |dimensions|
      invariant CheckAll(dimensions[..i], source, fillMissing, excluded) == Ok(entries) && total == Total(entries)
    {
      var d := dimensions[i];
      ghost var before := entries;
      assert dimensions[..i + 1][..i] == dimensions[..i];
      match Check(d, Find(source, d.name), fillMissing, d.name in excluded) {
        case Fail(error) =>
          FailStops(dimensions, source, fillMissing, excluded, i + 1);
          return Fail(error);
        case Ok(entry) =>
          entries := entries + [entry];
          assert entries[..|entries| - 1] == before;
          total := total + Points(entry);
      }
    }
    assert dimensions[..|dimensions|] == dimensions;
    r := Ok((entries, total));
  }

  lemma {:induction false} FailStops(dimensions: seq<Dimension>, source: map<string, Raw>, fillMissing: bool, excluded: set<string>, n: nat)
    requires n <= |dimensions| && CheckAll(dimensions[..n], source, fillMissing, excluded).Fail?
    ensures CheckAll(dimensions, source, fillMissing, excluded) == CheckAll(dimensions[..n], source, fillMissing, excluded)
    decreases |dimensions| - n
  {
    if n < |dimensions| {
      assert dimensions[..n + 1][..n] == dimensions[..n];
      FailStops(dimensions, source, fillMissing, excluded, n + 1);
    } else {
      assert dimensions[..n] == dimensions;
    }
  }

  /** An entry is well scored: within its dimension when applicable, empty when not. */
  predicate Sound(e: Entry) {
    if e.applicable then e.score.Some? && 0.0 <= e.score.value <= e.dimension.max as real else e.score.None? && e.reason != ""
  }

  predicate AllSound(entries: seq<Entry>) {
    forall i :: 0 <= i < |entries| ==> Sound(entries[i])
  }

  ghost predicate Covers(entries: seq<Entry>, dimensions: seq<Dimension>, excluded: set<string>) {
    && |entries| == |dimensions|
    && forall i :: 0 <= i < |entries| ==>
         entries[i].dimension == dimensions[i] && (entries[i].applicable <==> dimensions[i].name !in excluded)
  }

  /** Accepted details have one sound entry per dimension, in rubric order. */
  lemma {:induction false} AcceptedSound(dimensions: seq<Dimension>, source: map<string, Raw>, fillMissing: bool, excluded: set<string>)
    requires CheckAll(dimensions, source, fillMissing, excluded).Ok?
    ensures var entries := CheckAll(dimensions, source, fillMissing, excluded).value;
            AllSound(entries) && Covers(entries, dimensions, excluded)
  {
    assert NOT_SOLD != "" by { assert |NOT_SOLD| > 0; }
    if dimensions != [] {
      AcceptedSound(dimensions[..|dimensions| - 1], source, fillMissing, excluded);
    }
  }

  /** What the rubric accepts for one dimension: an excluded one only has to be readable, any other needs a score inside
      the dimension, or, when missing ones are filled in, none at all. */
  predicate Acceptable(d: Dimension, raw: Raw, fillMissing: bool, excluded: bool) {
    match raw
    case Odd => !excluded && fillMissing
    case Absent => excluded || fillMissing
    case Scored(score, _) => excluded || score.None? || 0.0 <= score.value <= d.max as real
  }

  /** The points an entry carries: the ones given, zero for a missing or unreadable score, none when excluded. */
  function GivenScore(raw: Raw, excluded: bool): Option<real> {
    if excluded then None else if raw.Scored? && raw.score.Some? then raw.score else Some(0.0)
  }

  function GivenReason(raw: Raw, excluded: bool): string {
    if raw.Scored? && (!excluded || raw.reason != "") then raw.reason
    else if excluded then "尚未卖出，暂不评分，不计入总分。" else "模型未提供该维度评分"
  }

  /** A detail is accepted exactly when every dimension is, and then carries the given points and reasons. */
  lemma {:induction false} AcceptedIff(dimensions: seq<Dimension>, source: map<string, Raw>, fillMissing: bool, excluded: set<string>)
    ensures var r := CheckAll(dimensions, source, fillMissing, excluded);
            && (r.Ok? <==> forall i :: 0 <= i < |dimensions| ==>
                  Acceptable(dimensions[i], Find(source, dimensions[i].name), fillMissing, dimensions[i].name in excluded))
            && (r.Ok? ==> forall i :: 0 <= i < |dimensions| ==>
                  && r.value[i].score == GivenScore(Find(source, dimensions[i].name), dimensions[i].name in excluded)
                  && r.value[i].reason == GivenReason(Find(source, dimensions[i].name), dimensions[i].name in excluded))
  {
    hide Find;
    if dimensions != [] {
      var n := |dimensions| - 1;
      AcceptedIff(dimensions[..n], source, fillMissing, excluded);
      CheckIff(dimensions[n], Find(source, dimensions[n].name), fillMissing, dimensions[n].name in excluded);
      hide Check, Acceptable, GivenScore, GivenReason;
      assert forall i :: 0 <= i < n ==> dimensions[..n][i] == dimensions[i];
    }
  }

  lemma {:induction false} CheckIff(d: Dimension, raw: Raw, fillMissing: bool, excluded: bool)
    ensures Check(d, raw, fillMissing, excluded).Ok? <==> Acceptable(d, raw, fillMissing, excluded)
    ensures Check(d, raw, fillMissing, excluded).Ok? ==>
              Check(d, raw, fillMissing, excluded).value.score == GivenScore(raw, excluded)
              && Check(d, raw, fillMissing, excluded).value.reason == GivenReason(raw, excluded)
  {
  }

  lemma {:induction false} TotalWithin(entries: seq<Entry>)
    requires AllSound(entries)
    ensures 0.0 <= Total(entries) <= MaxPoints(entries) as real
  {
    if entries != [] { TotalWithin(entries[..|entries| - 1]); }
  }

  lemma {:induction false} MaxOfStep(d: seq<Dimension>, n: nat)
    requires n < |d|
    ensures MaxOf(d[..n + 1]) == MaxOf(d[..n]) + d[n].max
  {
    assert d[..n + 1][..n] == d[..n];
  }

  /** The dict a detail becomes when it is fed back. */
  function Feed(entries: seq<Entry>): (m: map<string, Raw>)
    ensures forall name :: name in m <==> exists i :: 0 <= i < |entries| && entries[i].dimension.name == name
  {
    if entries == [] then map[]
    else
      var last := entries[|entries| - 1];
      Feed(entries[..|entries| - 1])[last.dimension.name := Scored(last.score, last.reason)]
  }

  ghost predicate DistinctNames(dimensions: seq<Dimension>) {
    forall i, j :: 0 <= i < j < |dimensions| ==> dimensions[i].name != dimensions[j].name
  }

  lemma {:induction false} FeedAt(entries: seq<Entry>, i: nat)
    requires i < |entries| && forall a, b :: 0 <= a < b < |entries| ==> entries[a].dimension.name != entries[b].dimension.name
    ensures Find(Feed(entries), entries[i].dimension.name) == Scored(entries[i].score, entries[i].reason)
  {
    if i < |entries| - 1 {
      FeedAt(entries[..|entries| - 1], i);
    }
  }

  /** Checking a sound detail again gives it back. */
  lemma {:induction false} CheckAgain(dimensions: seq<Dimension>, entries: seq<Entry>, source: map<string, Raw>, fillMissing: bool, excluded: set<string>)
    requires AllSound(entries) && Covers(entries, dimensions, excluded)
    requires forall i :: 0 <= i < |entries| ==> Find(source, dimensions[i].name) == Scored(entries[i].score, entries[i].reason)
    ensures CheckAll(dimensions, source, fillMissing, excluded) == Ok(entries)
  {
    if dimensions == [] {
      assert entries == [];
    } else {
      var n := |dimensions| - 1;
      CheckAgain(dimensions[..n], entries[..n], source, fillMissing, excluded);
      assert entries == entries[..n] + [entries[n]];
      assert Sound(entries[n]);
    }
  }

  lemma {:induction false} NormalizeAgain(dimensions: seq<Dimension>, entries: seq<Entry>, fillMissing: bool, excluded: set<string>)
    requires dimensions != [] && DistinctNames(dimensions)
    requires AllSound(entries) && Covers(entries, dimensions, excluded)
    ensures Normalize(dimensions, Feed(entries), fillMissing, excluded) == Ok(entries)
  {
    forall i | 0 <= i < |entries| ensures Find(Feed(entries), dimensions[i].name) == Scored(entries[i].score, entries[i].reason) {
      FeedAt(entries, i);
    }
    assert dimensions[0].name in Feed(entries) by { assert entries[0].dimension.name == dimensions[0].name; }
    CheckAgain(dimensions, entries, Feed(entries), fillMissing, excluded);
  }
}
