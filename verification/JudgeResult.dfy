/** `normalize_correctness_judge_result` of `eval_judge.py`: a judge's JSON made uniform. Dicts are their entries in
    insertion order. */
module JudgeResult {
  import opened Wrappers

  datatype Raw = NotANumber | Number(value: real)

  /** A dimension's value: a number or not, or a dict whose `score` may be missing. */
  datatype Given = Bare(raw: Raw) | Dict(score: Option<Raw>)

  /** The parsed answer; a list element that counts as false is the empty string. */
  datatype Parsed = Parsed(
    overall: Raw,
    passed: Option<bool>,
    scores: seq<(string, Given)>,
    failed: seq<string>,
    warnings: seq<string>,
    reasons: seq<string>,
    confidence: Raw)

  datatype Result = Result(
    passed: bool,
    overall: real,
    scores: seq<(string, real)>,
    failed: seq<string>,
    warnings: seq<string>,
    reasons: seq<string>,
    confidence: real)

  function Clamp(x: real): real {
    if x < 0.0 then 0.0 else if x > 1.0 then 1.0 else x
  }

  /** `_coerce_0_1` */
  function Coerce(raw: Raw): (r: real)
    ensures 0.0 <= r <= 1.0
    ensures raw.Number? && 0.0 <= raw.value <= 1.0 ==> r == raw.value
    ensures raw.Number? && 1.0 < raw.value <= 100.0 ==> r * 100.0 == raw.value
  {
    if raw.NotANumber? then 0.0 else if raw.value > 1.0 then Clamp(raw.value / 100.0) else Clamp(raw.value)
  }

  /** None: the entry is skipped. */
  function Score(g: Given): Option<real> {
    match g
    case Bare(raw) => if raw.Number? then Some(Coerce(raw)) else None
    case Dict(score) => if score.Some? then Some(Coerce(score.value)) else None
  }

  predicate HasKey(d: seq<(string, real)>, key: string) {
    exists i :: 0 <= i < |d| && d[i].0 == key
  }

  /** Dict assignment keeps the place of a key that is already there. */
  function Put(d: seq<(string, real)>, key: string, x: real): seq<(string, real)> {
    if d == [] then [(key, x)]
    else if d[0].0 == key then [(key, x)] + d[1..]
    else [d[0]] + Put(d[1..], key, x)
  }

  function Collect(given: seq<(string, Given)>): seq<(string, real)> {
    if given == [] then []
    else
      var d, last := Collect(given[..|given| - 1]), given[|given| - 1];
      match Score(last.1) case None => d case Some(x) => Put(d, last.0, x)
  }

  function Fill(d: seq<(string, real)>, expected: seq<string>): seq<(string, real)> {
    if expected == [] then d
    else
      var before, key := Fill(d, expected[..|expected| - 1]), expected[|expected| - 1];
      if HasKey(before, key) then before else before + [(key, 0.0)]
  }

  function Kept(texts: seq<string>): seq<string> {
    if texts == [] then []
    else
      var front, last := Kept(texts[..|texts| - 1]), texts[|texts| - 1];
      if last != "" then front + [last] else front
  }

  predicate Low(entry: (string, real)) {
    entry.1 < 0.6
  }

  function AddLow(failed: seq<string>, d: seq<(string, real)>): seq<string> {
    if d == [] then failed
    else
      var front, last := AddLow(failed, d[..|d| - 1]), d[|d| - 1];
      if Low(last) && last.0 !in front then front + [last.0] else front
  }

  function Normalize(p: Parsed, expected: seq<string>): Result {
    var overall, scores := Coerce(p.overall), Fill(Collect(p.scores), expected);
    Result(if p.passed.Some? then p.passed.value else overall >= 0.6, overall, scores, AddLow(Kept(p.failed), scores),
           Kept(p.warnings), Kept(p.reasons), Coerce(p.confidence))
  }

  method NormalizeJudgeResult(p: Parsed, expected: seq<string>) returns (r: Result)
    ensures r == Normalize(p, expected)
  {
    var overall := Coerce(p.overall);
    var scores: seq<(string, real)> := [];
    for i := 0 to |p.scores|
      invariant scores == Collect(p.scores[..i])
    {
      assert p.scores[..i + 1][..i] == p.scores[..i];
      var score := Score(p.scores[i].1);
      if score.Some? { scores := Put(scores, p.scores[i].0, score.value); }
    }
    assert p.scores[..|p.scores|] == p.scores;
    for i := 0 to |expected|
      invariant scores == Fill(Collect(p.scores), expected[..i])
    {
      assert expected[..i + 1][..i] == expected[..i];
      if !HasKey(scores, expected[i]) { scores := scores + [(expected[i], 0.0)]; }
    }
    assert expected[..|expected|] == expected;
    var failed := Kept(p.failed);
    for i := 0 to |scores|
      invariant failed == AddLow(Kept(p.failed), scores[..i])
    {
      assert scores[..i + 1][..i] == scores[..i];
      if scores[i].1 < 0.6 && scores[i].0 !in failed { failed := failed + [scores[i].0]; }
    }
    assert scores[..|scores|] == scores;
    r := Result(if p.passed.Some? then p.passed.value else overall >= 0.6, overall, scores, failed,
                Kept(p.warnings), Kept(p.reasons), Coerce(p.confidence));
  }

  // ---------- what every result satisfies ----------

  ghost predicate DistinctKeys(d: seq<(string, real)>) {
    forall i, j :: 0 <= i < j < |d| ==> d[i].0 != d[j].0
  }

  ghost predicate InUnit(d: seq<(string, real)>) {
    forall i :: 0 <= i < |d| ==> 0.0 <= d[i].1 <= 1.0
  }

  ghost predicate WellFormed(d: seq<(string, real)>) {
    DistinctKeys(d) && InUnit(d)
  }

  lemma {:induction false} PutWellFormed(d: seq<(string, real)>, key: string, x: real)
    requires WellFormed(d) && 0.0 <= x <= 1.0
    ensures WellFormed(Put(d, key, x))
    ensures forall k :: HasKey(Put(d, key, x), k) <==> k == key || HasKey(d, k)
  {
    if d == [] {
      assert Put(d, key, x)[0].0 == key;
    } else {
      var rest, r := Put(d[1..], key, x), Put(d, key, x);
      PutWellFormed(d[1..], key, x);
      forall k ensures HasKey(r, k) <==> k == key || HasKey(d, k) {
        HasKeyStep(d, k);
        HasKeyStep(r, k);
      }
      if d[0].0 != key {
        assert r[1..] == rest;
        assert !HasKey(rest, d[0].0) by {
          assert !HasKey(d[1..], d[0].0);
        }
        assert forall i :: 0 <= i < |rest| ==> rest[i].0 != d[0].0;
      } else {
        assert r[1..] == d[1..];
      }
    }
  }

  lemma {:induction false} HasKeyStep(d: seq<(string, real)>, k: string)
    requires d != []
    ensures HasKey(d, k) <==> d[0].0 == k || HasKey(d[1..], k)
  {
    if HasKey(d, k) {
      var i :| 0 <= i < |d| && d[i].0 == k;
      if i > 0 { assert d[1..][i - 1].0 == k; }
    }
    if HasKey(d[1..], k) {
      var i :| 0 <= i < |d[1..]| && d[1..][i].0 == k;
      assert d[i + 1].0 == k;
    }
  }

  lemma {:induction false} CollectWellFormed(given: seq<(string, Given)>)
    ensures WellFormed(Collect(given))
  {
    if given != [] {
      var n := |given| - 1;
      CollectWellFormed(given[..n]);
      var score := Score(given[n].1);
      if score.Some? { PutWellFormed(Collect(given[..n]), given[n].0, score.value); }
    }
  }

  lemma {:induction false} FillWellFormed(d: seq<(string, real)>, expected: seq<string>)
    requires WellFormed(d)
    ensures WellFormed(Fill(d, expected)) && d <= Fill(d, expected)
    ensures forall i :: 0 <= i < |expected| ==> HasKey(Fill(d, expected), expected[i])
  {
    if expected != [] {
      var n := |expected| - 1;
      FillWellFormed(d, expected[..n]);
      var before, after := Fill(d, expected[..n]), Fill(d, expected);
      assert forall i :: 0 <= i < |before| ==> after[i] == before[i];
      forall i | 0 <= i < |expected| ensures HasKey(after, expected[i]) {
        if i < n {
          assert expected[..n][i] == expected[i];
          assert HasKey(before, expected[i]);
        } else if !HasKey(before, expected[n]) {
          assert after[|before|].0 == expected[n];
        }
      }
    }
  }

  lemma {:induction false} AddLowContents(failed: seq<string>, d: seq<(string, real)>)
    ensures forall x :: x in AddLow(failed, d) <==> x in failed || exists i :: 0 <= i < |d| && d[i].0 == x && Low(d[i])
    ensures failed <= AddLow(failed, d)
  {
    if d != [] {
      var n := |d| - 1;
      AddLowContents(failed, d[..n]);
      forall x ensures x in AddLow(failed, d) <==> x in failed || exists i :: 0 <= i < |d| && d[i].0 == x && Low(d[i]) {
        if i :| 0 <= i < |d| && d[i].0 == x && Low(d[i]) {
          if i < n { assert d[..n][i].0 == x && Low(d[..n][i]); }
        }
        if i :| 0 <= i < n && d[..n][i].0 == x && Low(d[..n][i]) {
          assert d[i].0 == x && Low(d[i]);
        }
      }
    }
  }

  /** Every score lies between zero and one, every expected dimension has one, and the failed dimensions are exactly the
      ones the judge listed and the ones scored below 0.6. Without a verdict of its own the result passes from 0.6 up. */
  lemma {:induction false} ResultConsistent(p: Parsed, expected: seq<string>)
    ensures var r := Normalize(p, expected);
            && WellFormed(r.scores) && 0.0 <= r.overall <= 1.0 && 0.0 <= r.confidence <= 1.0
            && (forall i :: 0 <= i < |expected| ==> HasKey(r.scores, expected[i]))
            && (forall x :: x in r.failed <==>
                  x in Kept(p.failed) || exists i :: 0 <= i < |r.scores| && r.scores[i].0 == x && r.scores[i].1 < 0.6)
    ensures var r := Normalize(p, expected);
            && (p.passed.None? ==> (r.passed <==> r.overall >= 0.6)) && (p.passed.Some? ==> r.passed == p.passed.value)
            && r.overall == Coerce(p.overall) && r.confidence == Coerce(p.confidence)
  {
    CollectWellFormed(p.scores);
    FillWellFormed(Collect(p.scores), expected);
    AddLowContents(Kept(p.failed), Normalize(p, expected).scores);
  }

  /** Exactly the entries that are not empty texts are kept, in order: one by one. */
  lemma {:induction false} KeptOneByOne(a: seq<string>, x: string, b: seq<string>)
    ensures Kept(a + [x] + b) == Kept(a) + (if x == "" then [] else [x]) + Kept(b)
  {
    KeptConcat(a + [x], b);
    KeptConcat(a, [x]);
    assert [x][..0] == [];
  }

  lemma {:induction false} KeptConcat(a: seq<string>, b: seq<string>)
    ensures Kept(a + b) == Kept(a) + Kept(b)
  {
    if b == [] {
      assert a + b == a;
    } else {
      KeptConcat(a, b[..|b| - 1]);
      assert (a + b)[..|a + b| - 1] == a + b[..|b| - 1];
    }
  }

  /** The score a dict's entry stands for: a number, plain or under `score`, made a fraction; a `score` that is no number
      counts as zero. */
  predicate StandsFor(g: Given, x: real) {
    match g
    case Bare(raw) => raw.Number? && x == Coerce(raw)
    case Dict(score) => score.Some? && x == Coerce(score.value)
  }

  function ScoreAt(d: seq<(string, real)>, key: string): Option<real> {
    if d == [] then None else if d[0].0 == key then Some(d[0].1) else ScoreAt(d[1..], key)
  }

  lemma {:induction false} ScoreAtPut(d: seq<(string, real)>, key: string, x: real, k: string)
    ensures ScoreAt(Put(d, key, x), k) == if k == key then Some(x) else ScoreAt(d, k)
  {
    if d != [] {
      ScoreAtPut(d[1..], key, x, k);
      assert Put(d, key, x)[1..] == if d[0].0 == key then d[1..] else Put(d[1..], key, x);
    }
  }

  lemma {:induction false} ScoreAtAppend(d: seq<(string, real)>, key: string, x: real, k: string)
    ensures ScoreAt(d + [(key, x)], k) == if ScoreAt(d, k).Some? then ScoreAt(d, k) else if k == key then Some(x) else None
    ensures HasKey(d, k) <==> ScoreAt(d, k).Some?
  {
    if d != [] {
      ScoreAtAppend(d[1..], key, x, k);
      assert (d + [(key, x)])[1..] == d[1..] + [(key, x)];
      HasKeyStep(d, k);
    }
  }

  /** An expected dimension the judge left out is scored zero; every other score stays. */
  lemma {:induction false} FillSays(d: seq<(string, real)>, expected: seq<string>, k: string)
    ensures ScoreAt(Fill(d, expected), k)
         == if ScoreAt(d, k).Some? then ScoreAt(d, k) else if k in expected then Some(0.0) else None
  {
    if expected != [] {
      var n := |expected| - 1;
      FillSays(d, expected[..n], k);
      var before := Fill(d, expected[..n]);
      ScoreAtAppend(before, expected[n], 0.0, k);
      ScoreAtAppend(before, expected[n], 0.0, expected[n]);
      assert expected == expected[..n] + [expected[n]];
    }
  }

  /** Every readable entry of the judge's dict is among the scores, and nothing else is. */
  lemma {:induction false} CollectsAll(given: seq<(string, Given)>, key: string)
    requires forall i, j :: 0 <= i < j < |given| ==> given[i].0 != given[j].0
    ensures match ScoreAt(Collect(given), key)
            case Some(x) => exists i :: 0 <= i < |given| && given[i].0 == key && StandsFor(given[i].1, x)
            case None => forall i, x :: 0 <= i < |given| && given[i].0 == key ==> !StandsFor(given[i].1, x)
  {
    if given != [] {
      var n := |given| - 1;
      var front := given[..n];
      CollectsAll(front, key);
      var score := Score(given[n].1);
      if score.Some? { ScoreAtPut(Collect(front), given[n].0, score.value, key); }
      match ScoreAt(Collect(given), key)
      case Some(x) =>
        if given[n].0 == key && score.Some? {
          assert StandsFor(given[n].1, x);
        } else {
          var i :| 0 <= i < |front| && front[i].0 == key && StandsFor(front[i].1, x);
          assert given[i].0 == key && StandsFor(given[i].1, x);
        }
      case None =>
        forall i, x | 0 <= i < |given| && given[i].0 == key ensures !StandsFor(given[i].1, x) {
          if i < n { assert front[i].0 == key; }
        }
    }
  }

  // ---------- running it again ----------

  function FeedScores(d: seq<(string, real)>): (r: seq<(string, Given)>)
    ensures |r| == |d|
  {
    seq(|d|, i requires 0 <= i < |d| => (d[i].0, Bare(Number(d[i].1))))
  }

  function FeedBack(r: Result): Parsed {
    Parsed(Number(r.overall), Some(r.passed), FeedScores(r.scores), r.failed, r.warnings, r.reasons, Number(r.confidence))
  }

  lemma {:induction false} PutNew(d: seq<(string, real)>, key: string, x: real)
    requires !HasKey(d, key)
    ensures Put(d, key, x) == d + [(key, x)]
  {
    if d != [] {
      HasKeyStep(d, key);
      PutNew(d[1..], key, x);
      assert d == [d[0]] + d[1..];
    }
  }

  lemma {:induction false} CollectAgain(d: seq<(string, real)>)
    requires WellFormed(d)
    ensures Collect(FeedScores(d)) == d
  {
    if d != [] {
      var n := |d| - 1;
      CollectAgain(d[..n]);
      assert FeedScores(d)[..n] == FeedScores(d[..n]);
      PutNew(d[..n], d[n].0, d[n].1);
      assert d == d[..n] + [d[n]];
    }
  }

  lemma {:induction false} FillAgain(d: seq<(string, real)>, expected: seq<string>)
    requires forall i :: 0 <= i < |expected| ==> HasKey(d, expected[i])
    ensures Fill(d, expected) == d
  {
    if expected != [] { FillAgain(d, expected[..|expected| - 1]); }
  }

  lemma {:induction false} KeptContents(texts: seq<string>)
    ensures "" !in Kept(texts) && forall x :: x in Kept(texts) ==> x in texts
    ensures "" !in texts ==> Kept(texts) == texts
  {
    if texts != [] {
      var front, last := texts[..|texts| - 1], texts[|texts| - 1];
      KeptContents(front);
      assert texts == front + [last];
      assert Kept(texts) == if last != "" then Kept(front) + [last] else Kept(front);
      hide Kept;
    }
  }

  predicate LowUnnamed(d: seq<(string, real)>) {
    exists i :: 0 <= i < |d| && d[i].0 == "" && Low(d[i])
  }

  /** A low dimension with the empty name is followed by no low dimension that the judge had not listed. */
  ghost predicate Settled(listed: seq<string>, d: seq<(string, real)>) {
    forall i, j :: 0 <= i < j < |d| && d[i].0 == "" && Low(d[i]) && Low(d[j]) ==> d[j].0 in listed
  }

  /** Dropping the empty name and adding it at the end gives the list back exactly when it was settled. */
  lemma {:induction false} UnnamedLast(listed: seq<string>, d: seq<(string, real)>)
    requires DistinctKeys(d) && "" !in listed
    ensures var f := AddLow(listed, d);
            Kept(f) + (if LowUnnamed(d) then [""] else []) == f <==> Settled(listed, d)
  {
    if d == [] {
      KeptContents(listed);
      assert Kept(listed) + [] == listed;
    } else {
      var n := |d| - 1;
      var front, e, before, f := d[..n], d[n], AddLow(listed, d[..n]), AddLow(listed, d);
      UnnamedLast(listed, front);
      AddLowContents(listed, front);
      UnnamedFront(d);
      if f == before {
        assert Low(e) ==> e.0 in listed;
        assert Settled(listed, d) <==> Settled(listed, front) by { SettledFront(listed, d); }
      } else {
        assert f[..|f| - 1] == before;
        if e.0 == "" {
          assert "" !in before;
          KeptContents(before);
          assert Settled(listed, d);
        } else if LowUnnamed(front) {
          assert f[|f| - 1] == e.0;
          assert (Kept(f) + [""])[|Kept(f)|] == "";
          var i :| 0 <= i < n && front[i].0 == "" && Low(front[i]);
          assert d[i].0 == "" && Low(d[i]) && Low(d[n]);
          assert e.0 !in listed;
        } else {
          assert "" !in before;
          KeptContents(before);
          assert Kept(f) + [] == f;
        }
      }
    }
  }

  lemma {:induction false} UnnamedFront(d: seq<(string, real)>)
    requires d != []
    ensures LowUnnamed(d) <==> LowUnnamed(d[..|d| - 1]) || (d[|d| - 1].0 == "" && Low(d[|d| - 1]))
  {
    var n := |d| - 1;
    if LowUnnamed(d) {
      var i :| 0 <= i < |d| && d[i].0 == "" && Low(d[i]);
      if i < n { assert d[..n][i].0 == "" && Low(d[..n][i]); }
    }
    if LowUnnamed(d[..n]) {
      var i :| 0 <= i < n && d[..n][i].0 == "" && Low(d[..n][i]);
      assert d[i].0 == "" && Low(d[i]);
    }
  }

  lemma {:induction false} SettledFront(listed: seq<string>, d: seq<(string, real)>)
    requires d != [] && (Low(d[|d| - 1]) ==> d[|d| - 1].0 in listed)
    ensures Settled(listed, d) <==> Settled(listed, d[..|d| - 1])
  {
    var front := d[..|d| - 1];
    assert forall i :: 0 <= i < |front| ==> front[i] == d[i];
  }

  /** Every low dimension that has a name is listed already: a second pass can only add the unnamed one, at the end. */
  lemma {:induction false} AddLowAgain(failed: seq<string>, d: seq<(string, real)>)
    requires DistinctKeys(d) && "" !in failed
    requires forall i :: 0 <= i < |d| && Low(d[i]) && d[i].0 != "" ==> d[i].0 in failed
    ensures AddLow(failed, d) == failed + if LowUnnamed(d) then [""] else []
  {
    if d != [] {
      AddLowAgain(failed, d[..|d| - 1]);
      UnnamedFront(d);
    }
  }

  lemma {:induction false} KeptKeepsNamed(texts: seq<string>, x: string)
    requires x in texts && x != ""
    ensures x in Kept(texts)
  {
    var n := |texts| - 1;
    if texts[n] != x { KeptKeepsNamed(texts[..n], x); }
  }

  /** Normalising a result again changes nothing exactly when no dimension without a name is in the way. */
  lemma {:induction false} SecondRun(p: Parsed, expected: seq<string>)
    ensures var r := Normalize(p, expected);
            Normalize(FeedBack(r), expected) == r <==> Settled(Kept(p.failed), r.scores)
  {
    var r := Normalize(p, expected);
    ResultConsistent(p, expected);
    CollectAgain(r.scores);
    FillAgain(r.scores, expected);
    KeptContents(p.failed); KeptContents(p.warnings); KeptContents(p.reasons);
    KeptContents(Kept(p.warnings)); KeptContents(Kept(p.reasons));
    UnnamedLast(Kept(p.failed), r.scores);
    KeptContents(r.failed);
    forall i | 0 <= i < |r.scores| && Low(r.scores[i]) && r.scores[i].0 != "" ensures r.scores[i].0 in Kept(r.failed) {
      KeptKeepsNamed(r.failed, r.scores[i].0);
    }
    AddLowAgain(Kept(r.failed), r.scores);
  }

  /** Two dimensions scored zero, the first without a name, and nothing listed. */
  const UNNAMED: Parsed :=
    Parsed(NotANumber, None, [("", Bare(Number(0.0))), ("a", Bare(Number(0.0)))], [], [], [], NotANumber)

  const PAIR: seq<(string, real)> := [("", 0.0), ("a", 0.0)]

  lemma {:induction false} UnnamedScores()
    ensures Fill(Collect(UNNAMED.scores), []) == PAIR && WellFormed(PAIR)
  {
    assert UNNAMED.scores[..1] == [("", Bare(Number(0.0)))] && UNNAMED.scores[..0] == [];
    assert Collect(UNNAMED.scores[..1]) == [("", 0.0)];
    PutNew([("", 0.0)], "a", 0.0);
    assert Collect(UNNAMED.scores) == Put([("", 0.0)], "a", 0.0);
  }

  lemma {:induction false} AddLowPair()
    ensures AddLow([], PAIR) == ["", "a"] && AddLow(["a"], PAIR) == ["a", ""]
  {
    assert PAIR[..1] == [("", 0.0)] && PAIR[..1][..0] == [];
    assert AddLow([], PAIR[..1]) == [""] && AddLow(["a"], PAIR[..1]) == ["a", ""];
  }

  /** Their order among the failed dimensions is reversed by a second run. */
  lemma {:induction false} UnnamedMoves()
    ensures var first := Normalize(UNNAMED, []);
            first.failed == ["", "a"] && Normalize(FeedBack(first), []).failed == ["a", ""]
  {
    UnnamedScores();
    AddLowPair();
    CollectAgain(PAIR);
    assert Kept([""]) == [] && Kept(["", "a"]) == ["a"] by { assert ["", "a"][..1] == [""] && [""][..0] == []; }
    hide Collect, AddLow, Coerce, FeedScores, WellFormed;
  }
}
