/** When a batch comes back in request order. */
module ToolOrder {
  import opened Text
  import opened StableSort
  import opened Runtime

  ghost predicate Distinct<T>(s: seq<T>) {
    forall i, j :: 0 <= i < j < |s| ==> s[i] != s[j]
  }

  function Key(calls: seq<ToolCall>): nat -> int {
    (i: nat) => OrderKey(calls, CallId(calls, i))
  }

  /** What a caller can look at before the call: ids pairwise distinct once missing ones are numbered,
      and no id missing except possibly the last. */
  ghost predicate OrderKept(calls: seq<ToolCall>) {
    Distinct(CallIds(calls)) && forall i :: 0 <= i < |calls| - 1 ==> calls[i].id != ""
  }

  ghost predicate KeysIncrease(calls: seq<ToolCall>) {
    forall i, j :: 0 <= i < j < |calls| ==> Key(calls)(i) < Key(calls)(j)
  }

  function Elements<T>(s: seq<T>): set<T> {
    set i | 0 <= i < |s| :: s[i]
  }

  lemma {:induction false} DistinctSize<T>(s: seq<T>)
    requires Distinct(s)
    ensures |Elements(s)| == |s|
  {
    if s != [] {
      var front, last := s[..|s| - 1], s[|s| - 1];
      DistinctSize(front);
      assert Elements(s) == Elements(front) + {last};
    }
  }

  lemma {:induction false} OwnKey(calls: seq<ToolCall>, i: nat)
    requires i < |calls| && calls[i].id != ""
    ensures i <= Key(calls)(i) < |calls| && calls[Key(calls)(i)].id == calls[i].id
    ensures Key(calls)(Key(calls)(i)) == Key(calls)(i)
  {
    assert RawIds(calls)[i] == calls[i].id;
  }

  lemma {:induction false} MissingKey(calls: seq<ToolCall>, i: nat)
    requires i < |calls| && calls[i].id == ""
    ensures Key(calls)(i) == |Elements(RawIds(calls))|
         || exists p: nat :: p < |calls| && p != i && Key(calls)(p) == Key(calls)(i)
  {
    var ids := RawIds(calls);
    var p := LastIndex(ids, CallId(calls, i));
    if p >= 0 {
      assert calls[p].id == ids[p] == CallId(calls, i) == CallId(calls, p);
      assert Key(calls)(p) == Key(calls)(i);
    }
  }

  lemma {:induction false} KeptKeyIsIndex(calls: seq<ToolCall>, i: nat)
    requires OrderKept(calls) && i < |calls| && calls[i].id != ""
    ensures Key(calls)(i) == i
  {
    OwnKey(calls, i);
    var q := Key(calls)(i);
    assert CallIds(calls)[q] == CallIds(calls)[i];
  }

  lemma {:induction false} KeptRawDistinct(calls: seq<ToolCall>)
    requires OrderKept(calls)
    ensures Distinct(RawIds(calls))
  {
    var ids := RawIds(calls);
    forall i, j | 0 <= i < j < |calls| ensures ids[i] != ids[j] {
      assert CallIds(calls)[i] != CallIds(calls)[j];
    }
  }

  lemma {:induction false} KeptLastKey(calls: seq<ToolCall>)
    requires OrderKept(calls) && calls != [] && calls[|calls| - 1].id == ""
    ensures Key(calls)(|calls| - 1) == |calls|
  {
    var n, ids := |calls|, RawIds(calls);
    KeptRawDistinct(calls);
    DistinctSize(ids);
    forall p | 0 <= p < n ensures ids[p] != CallId(calls, n - 1) {
      assert p < n - 1 ==> CallIds(calls)[p] != CallIds(calls)[n - 1];
    }
  }

  lemma {:induction false} KeptKeysIncrease(calls: seq<ToolCall>)
    requires OrderKept(calls)
    ensures KeysIncrease(calls)
  {
    var n := |calls|;
    hide OrderKey;
    forall i, j | 0 <= i < j < n ensures Key(calls)(i) < Key(calls)(j) {
      KeptKeyIsIndex(calls, i);
      if calls[j].id != "" { KeptKeyIsIndex(calls, j); } else { KeptLastKey(calls); }
    }
  }

  lemma {:induction false} IncreasingKeysKept(calls: seq<ToolCall>)
    requires KeysIncrease(calls)
    ensures OrderKept(calls)
  {
    var n, ids := |calls|, RawIds(calls);
    forall i, j | 0 <= i < j < n ensures CallIds(calls)[i] != CallIds(calls)[j] {
      assert Key(calls)(i) < Key(calls)(j);
    }
    forall i | 0 <= i < n - 1 ensures calls[i].id != "" {
      if calls[i].id == "" {
        MissingLeavesDistinct(calls);
        DistinctSize(ids);
        MissingKey(calls, i);
        assert Key(calls)(i) == n;
        assert Key(calls)(i) < Key(calls)(i + 1);
        assert ids[i + 1] != ids[i];
        OwnKey(calls, i + 1);
        assert false;
      }
    }
  }

  lemma {:induction false} MissingLeavesDistinct(calls: seq<ToolCall>)
    requires KeysIncrease(calls)
    ensures Distinct(RawIds(calls))
  {
    forall i, j | 0 <= i < j < |calls| ensures calls[i].id != calls[j].id {
      assert Key(calls)(i) < Key(calls)(j);
      if calls[i].id == "" && calls[j].id == "" {
        MissingKey(calls, i);
        MissingKey(calls, j);
      }
    }
  }

  ghost predicate RestoredWhatever(calls: seq<ToolCall>) {
    forall order: seq<nat> :: IsPermutation(order, |calls|) ==> Sort(order, Key(calls)) == Range(|calls|)
  }

  /** Request order is restored for every completion order exactly when the ids meet `OrderKept`. */
  lemma {:induction false} OrderRestoredIff(calls: seq<ToolCall>)
    ensures RestoredWhatever(calls) <==> OrderKept(calls)
  {
    var n := |calls|;
    if OrderKept(calls) {
      KeptKeysIncrease(calls);
      forall order: seq<nat> | IsPermutation(order, n) ensures Sort(order, Key(calls)) == Range(n) {
        RestoresRange(order, n, Key(calls));
      }
    }
    if RestoredWhatever(calls) && !KeysIncrease(calls) {
      var a, b :| 0 <= a < b < n && Key(calls)(a) >= Key(calls)(b);
      var i := Descent(Key(calls), a, b);
      SwappedIsPermutation(n, i);
      SwapNotRestored(n, i, Key(calls));
      assert false;
    }
    if RestoredWhatever(calls) {
      IncreasingKeysKept(calls);
    }
  }

  lemma {:induction false} Descent(key: nat -> int, a: nat, b: nat) returns (i: nat)
    requires a < b && key(a) >= key(b)
    ensures a <= i < b && key(i) >= key(i + 1)
  {
    i := a;
    while key(i) < key(i + 1)
      invariant a <= i < b && key(i) >= key(b)
      decreases b - i
    {
      i := i + 1;
    }
  }

  /** The executions handed back are the batch's own, read in the order of the sorted requests. */
  lemma {:induction false} ReturnedAs(b: Batch)
    requires Valid(b)
    ensures IsPermutation(Sort(b.order, Key(b.calls)), |b.calls|)
    ensures InRequestOrder(b.calls, Completed(b)) == Map(Sort(b.order, Key(b.calls)), Pick(b.executions))
  {
    var p := Sort(b.order, Key(b.calls));
    SortKeepsElements(b.order, Key(b.calls));
    forall i | 0 <= i < |p| ensures p[i] < |b.calls| {
      assert p[i] in multiset(p);
      assert p[i] in multiset(b.order);
    }
    SortMap(b.order, Pick(b.executions), Key(b.calls), ByRequest(b.calls));
  }

  /** None lost, none twice. */
  lemma {:induction false} ReturnedIsPermutation(b: Batch)
    requires Valid(b)
    ensures multiset(InRequestOrder(b.calls, Completed(b))) == multiset(b.executions)
  {
    var n := |b.executions|;
    ReturnedAs(b);
    assert Map(Range(n), Pick(b.executions)) == b.executions;
    MapMultiset(Sort(b.order, Key(b.calls)), Range(n), Pick(b.executions));
  }

  lemma {:induction false} MapSplit<A, B>(ys: seq<A>, k: nat, f: A --> B)
    requires k < |ys| && forall i :: 0 <= i < |ys| ==> f.requires(ys[i])
    ensures multiset(Map(ys, f)) == multiset{f(ys[k])} + multiset(Map(ys[..k] + ys[k + 1..], f))
  {
    var before, after := Map(ys[..k], f), Map(ys[k + 1..], f);
    assert Map(ys, f) == before + [f(ys[k])] + after;
    assert Map(ys[..k] + ys[k + 1..], f) == before + after;
  }

  lemma {:induction false} MapMultiset<B>(xs: seq<nat>, ys: seq<nat>, f: nat --> B)
    requires multiset(xs) == multiset(ys)
    requires forall i :: 0 <= i < |xs| ==> f.requires(xs[i])
    requires forall i :: 0 <= i < |ys| ==> f.requires(ys[i])
    ensures multiset(Map(xs, f)) == multiset(Map(ys, f))
  {
    if xs == [] {
      assert |multiset(xs)| == 0 && |multiset(ys)| == |ys|;
    } else {
      var k := Find(xs, ys);
      var rest := ys[..k] + ys[k + 1..];
      RemoveSame(xs, ys, k);
      assert multiset(Map(xs, f)) == multiset{f(xs[0])} + multiset(Map(xs[1..], f)) by {
        MapSplit(xs, 0, f);
        assert xs[..0] + xs[1..] == xs[1..];
      }
      MapSplit(ys, k, f);
      MapMultiset(xs[1..], rest, f);
    }
  }

  lemma {:induction false} Find(xs: seq<nat>, ys: seq<nat>) returns (k: nat)
    requires xs != [] && multiset(xs) == multiset(ys)
    ensures k < |ys| && ys[k] == xs[0]
  {
    assert xs[0] in multiset(xs);
    assert xs[0] in multiset(ys);
    k :| 0 <= k < |ys| && ys[k] == xs[0];
  }

  lemma {:induction false} RemoveSame(xs: seq<nat>, ys: seq<nat>, k: nat)
    requires xs != [] && multiset(xs) == multiset(ys) && k < |ys| && ys[k] == xs[0]
    ensures multiset(xs[1..]) == multiset(ys[..k] + ys[k + 1..])
  {
    var a, b, x := multiset(xs[1..]), multiset(ys[..k] + ys[k + 1..]), multiset{xs[0]};
    assert xs == [xs[0]] + xs[1..];
    assert ys == ys[..k] + [ys[k]] + ys[k + 1..];
    assert x + a == x + b;
    assert (x + a) - x == a && (x + b) - x == b;
  }

  /** With ids that meet `OrderKept`, the executions come back exactly in request order. */
  lemma {:induction false} ReturnedInRequestOrder(b: Batch)
    requires Valid(b) && OrderKept(b.calls)
    ensures InRequestOrder(b.calls, Completed(b)) == b.executions
  {
    ReturnedAs(b);
    OrderRestoredIff(b.calls);
    assert Map(Range(|b.calls|), Pick(b.executions)) == b.executions;
  }

  // ---------- the default plans ----------

  lemma {:induction false} SplitAtDash(s: string, t: string, x: string, y: string)
    requires s + "-" + x == t + "-" + y
    requires '-' !in s && '-' !in t
    ensures s == t
  {
    var whole := s + "-" + x;
    assert forall i :: 0 <= i < |s| ==> whole[i] != '-';
    assert forall i :: 0 <= i < |t| ==> whole[i] != '-';
    assert whole[|s|] == '-' && whole[|t|] == '-';
    assert s == whole[..|s|] && t == whole[..|t|];
  }

  /** `fallback-{index}-{name}` is injective in the index, so default plans always come back in plan order. */
  lemma {:induction false} FallbackOrderKept(planned: seq<Planned>)
    ensures OrderKept(FallbackCalls(planned))
  {
    var calls := FallbackCalls(planned);
    forall i, j | 0 <= i < j < |calls| ensures CallIds(calls)[i] != CallIds(calls)[j] {
      if calls[i].id == calls[j].id {
        var s, t := Digits(i + 1), Digits(j + 1);
        var x, y := planned[i].name, planned[j].name;
        assert calls[i].id == "fallback-" + (s + "-" + x);
        assert calls[j].id == "fallback-" + (t + "-" + y);
        assert calls[i].id[9..] == s + "-" + x && calls[j].id[9..] == t + "-" + y;
        SplitAtDash(s, t, x, y);
        DigitsInjective(i + 1, j + 1);
      }
    }
  }
}
