/** The trades a review is shown: `_select_priority_review_trades` of `context_budget.py` and `_select_review_trades` of
    `evidence_schema.py`, which differ only in how many trades each criterion may add. */
module TradeSelection {
  import opened Wrappers
  import StableSort

  datatype Side = Buy | Sell | Other

  /** What `float(...)` makes of a field; only the order of the numbers matters. */
  datatype Number = Number(n: int) | Unreadable

  /** A list element; `rest` stands for the fields nobody looks at. A missing amount is zero. */
  datatype Item = NotADict | Trade(side: Side, amount: Number, pnl: Option<Number>, rest: nat)

  datatype Rule = Priority | Evidence

  function Top(rule: Rule): nat {
    if rule.Priority? then 3 else 5
  }

  function Abs(n: int): int {
    if n < 0 then -n else n
  }

  function Size(n: Number): int {
    if n.Number? then Abs(n.n) else 0
  }

  function AmountSize(t: Item): (r: int)
    ensures t.Trade? && t.amount.Number? ==> r >= 0 && (r == t.amount.n || r == -t.amount.n)
  {
    if t.Trade? then Size(t.amount) else 0
  }

  function PnlSize(t: Item): (r: int)
    ensures t.Trade? && t.pnl.Some? && t.pnl.value.Number? ==> r >= 0 && (r == t.pnl.value.n || r == -t.pnl.value.n)
  {
    if t.Trade? && t.pnl.Some? then Size(t.pnl.value) else 0
  }

  function Filter(items: seq<Item>, keep: Item -> bool): (r: seq<Item>)
    ensures |r| <= |items|
    ensures forall x :: x in r <==> x in items && keep(x)
  {
    if items == [] then []
    else
      var front := Filter(items[..|items| - 1], keep);
      if keep(items[|items| - 1]) then front + [items[|items| - 1]] else front
  }

  const IS_DICT := (t: Item) => t.Trade?
  const IS_BUY := (t: Item) => t.Trade? && t.side == Buy
  const IS_SELL := (t: Item) => t.Trade? && t.side == Sell
  const HAS_PNL := (t: Item) => t.Trade? && t.pnl.Some?
  const BY_AMOUNT := (t: Item) => -AmountSize(t)
  const BY_PNL := (t: Item) => -PnlSize(t)

  function First<T>(s: seq<T>, n: nat): (r: seq<T>)
    ensures |r| <= n && |r| <= |s|
    ensures forall x :: x in r ==> x in s
  {
    if |s| <= n then s else s[..n]
  }

  function Last<T>(s: seq<T>, n: nat): (r: seq<T>)
    ensures |r| <= n
    ensures forall x :: x in r ==> x in s
  {
    if |s| <= n then s else s[|s| - n..]
  }

  /** The newest trades: of the dicts in one selector, of the whole list in the other. */
  function Newest(rule: Rule, trades: seq<Item>): seq<Item> {
    if rule.Priority? then Last(Filter(trades, IS_DICT), 4) else Filter(Last(trades, 8), IS_DICT)
  }

  function Largest(rule: Rule, trades: seq<Item>): seq<Item> {
    First(StableSort.Sort(Filter(trades, IS_DICT), BY_AMOUNT), Top(rule))
  }

  function MostRealized(rule: Rule, trades: seq<Item>): seq<Item> {
    First(StableSort.Sort(Filter(trades, HAS_PNL), BY_PNL), Top(rule))
  }

  /** Sorting reads every key, and a key that is not a number raises. */
  predicate Readable(trades: seq<Item>) {
    forall t :: t in trades && t.Trade? ==> t.amount.Number? && (t.pnl.Some? ==> t.pnl.value.Number?)
  }

  function Add(selected: seq<Item>, item: Item): seq<Item> {
    if item.Trade? && item !in selected then selected + [item] else selected
  }

  function AddAll(selected: seq<Item>, items: seq<Item>): seq<Item> {
    if items == [] then selected else Add(AddAll(selected, items[..|items| - 1]), items[|items| - 1])
  }

  function Leading(trades: seq<Item>): seq<Item> {
    First(Filter(trades, IS_BUY), 1) + Filter(trades, IS_SELL)
  }

  function Candidates(rule: Rule, trades: seq<Item>): seq<Item> {
    Leading(trades) + Largest(rule, trades) + MostRealized(rule, trades) + Newest(rule, trades)
  }

  /** None: the call raises. */
  function Selection(rule: Rule, trades: seq<Item>, limit: nat): Option<seq<Item>> {
    if Readable(trades) then Some(First(AddAll([], Candidates(rule, trades)), limit)) else None
  }

  // ---------- the selector as it runs ----------

  method AddEach(selected: seq<Item>, items: seq<Item>) returns (r: seq<Item>)
    ensures r == AddAll(selected, items)
  {
    r := selected;
    for i := 0 to |items|
      invariant r == AddAll(selected, items[..i])
    {
      assert items[..i + 1][..i] == items[..i];
      if items[i].Trade? && items[i] !in r {
        r := r + [items[i]];
      }
    }
    assert items[..|items|] == items;
  }

  method Select(rule: Rule, trades: seq<Item>, limit: nat) returns (r: Option<seq<Item>>)
    ensures r == Selection(rule, trades, limit)
  {
    hide StableSort.Sort, Filter, Newest, Largest, MostRealized;
    var buys, sells := Filter(trades, IS_BUY), Filter(trades, IS_SELL);
    var selected := [];
    var opening := First(buys, 1);
    if buys != [] {
      selected := Add(selected, buys[0]);
      assert opening == [buys[0]] && opening[..0] == [];
    }
    assert selected == AddAll([], opening);
    selected := AddEach(selected, sells);
    AddAllConcat([], opening, sells);
    if !Readable(trades) { return None; }
    selected := AddEach(selected, Largest(rule, trades));
    AddAllConcat([], Leading(trades), Largest(rule, trades));
    selected := AddEach(selected, MostRealized(rule, trades));
    AddAllConcat([], Leading(trades) + Largest(rule, trades), MostRealized(rule, trades));
    selected := AddEach(selected, Newest(rule, trades));
    AddAllConcat([], Leading(trades) + Largest(rule, trades) + MostRealized(rule, trades), Newest(rule, trades));
    r := Some(First(selected, limit));
  }

  lemma {:induction false} AddAllConcat(selected: seq<Item>, a: seq<Item>, b: seq<Item>)
    ensures AddAll(selected, a + b) == AddAll(AddAll(selected, a), b)
  {
    if b == [] {
      assert a + b == a;
    } else {
      AddAllConcat(selected, a, b[..|b| - 1]);
      assert (a + b)[..|a + b| - 1] == a + b[..|b| - 1];
    }
  }

  // ---------- what is selected ----------

  ghost predicate Distinct(s: seq<Item>) {
    forall i, j :: 0 <= i < j < |s| ==> s[i] != s[j]
  }

  /** Where an element first occurs. */
  function FirstIndex(s: seq<Item>, x: Item): (i: nat)
    requires x in s
    ensures i < |s| && s[i] == x && x !in s[..i]
  {
    if s[0] == x then 0 else
      assert x in s[1..];
      var i := FirstIndex(s[1..], x);
      assert s[..i + 1] == [s[0]] + s[1..][..i];
      i + 1
  }

  /** `r` holds the distinct elements of `s`, ordered by first occurrence. */
  ghost predicate DistinctInOrder(r: seq<Item>, s: seq<Item>) {
    && (forall x :: x in r <==> x in s)
    && (forall i, j :: 0 <= i < j < |r| ==> FirstIndex(s, r[i]) < FirstIndex(s, r[j]))
  }

  /** The growing list keeps what it had, stays free of duplicates and takes in exactly the new trades. */
  lemma {:induction false} AddAllGrows(selected: seq<Item>, items: seq<Item>)
    ensures selected <= AddAll(selected, items)
    ensures Distinct(selected) ==> Distinct(AddAll(selected, items))
    ensures forall x :: x in AddAll(selected, items) <==> x in selected || (x in items && x.Trade?)
    ensures |AddAll(selected, items)| <= |selected| + |items|
  {
    if items != [] {
      AddAllGrows(selected, items[..|items| - 1]);
      assert items == items[..|items| - 1] + [items[|items| - 1]];
    }
  }

  lemma {:induction false} AddAllDistinct(items: seq<Item>)
    requires forall x :: x in items ==> x.Trade?
    ensures DistinctInOrder(AddAll([], items), items)
  {
    if items != [] {
      var n := |items| - 1;
      var front, r := items[..n], AddAll([], items);
      AddAllDistinct(front);
      var before := AddAll([], front);
      assert items == front + [items[n]];
      AddAllGrows([], items);
      AddAllGrows([], front);
      forall x | x in front ensures FirstIndex(items, x) == FirstIndex(front, x) { FirstIndexInFront(front, items[n], x); }
      if items[n] !in front {
        forall i, j | 0 <= i < j < |r| ensures FirstIndex(items, r[i]) < FirstIndex(items, r[j]) {
          assert r[i] == before[i] && r[i] in front;
          if j < |before| { assert r[j] == before[j] && r[j] in front; }
        }
      }
    }
  }

  lemma {:induction false} FirstIndexInFront(front: seq<Item>, last: Item, x: Item)
    requires x in front
    ensures FirstIndex(front + [last], x) == FirstIndex(front, x)
  {
    var s := front + [last];
    var i, j := FirstIndex(s, x), FirstIndex(front, x);
    assert s[j] == x && s[..j] == front[..j];
  }

  /** A duplicate-free part of the given dicts, at most `limit` of them. */
  lemma {:induction false} SelectionFromInput(rule: Rule, trades: seq<Item>, limit: nat)
    requires Selection(rule, trades, limit).Some?
    ensures var r := Selection(rule, trades, limit).value;
            |r| <= limit && Distinct(r) && forall t :: t in r ==> t in trades && t.Trade?
  {
    hide StableSort.Sort;
    AddAllGrows([], Candidates(rule, trades));
    forall t | t in Candidates(rule, trades) ensures t in trades { CandidateGiven(rule, trades, t); }
  }

  lemma {:induction false} CandidateGiven(rule: Rule, trades: seq<Item>, t: Item)
    requires t in Candidates(rule, trades)
    ensures t in trades && t.Trade?
  {
    hide StableSort.Sort;
    if t in Largest(rule, trades) { SortedElement(Filter(trades, IS_DICT), BY_AMOUNT, t); }
    if t in MostRealized(rule, trades) { SortedElement(Filter(trades, HAS_PNL), BY_PNL, t); }
  }

  lemma {:induction false} SortedElement(s: seq<Item>, key: Item -> int, t: Item)
    ensures t in StableSort.Sort(s, key) <==> t in s
  {
    StableSort.SortKeepsElements(s, key);
    assert t in s <==> t in multiset(s);
    assert t in StableSort.Sort(s, key) <==> t in multiset(StableSort.Sort(s, key));
  }

  /** What the list starts with: the first BUY, then the distinct SELLs in input order. */
  function Opening(trades: seq<Item>): seq<Item> {
    First(Filter(trades, IS_BUY), 1) + AddAll([], Filter(trades, IS_SELL))
  }

  lemma {:induction false} LeadingIsOpening(trades: seq<Item>)
    ensures AddAll([], Leading(trades)) == Opening(trades)
  {
    var buy, sells := First(Filter(trades, IS_BUY), 1), Filter(trades, IS_SELL);
    AddAllConcat([], buy, sells);
    assert AddAll([], buy) == buy by {
      if buy != [] {
        assert buy[0] in buy && buy[0].Trade?;
        assert buy == [buy[0]] && buy[..0] == [];
      }
    }
    AddAfter(buy, sells);
  }

  /** Elements that share nothing with the list are added behind it as they are. */
  lemma {:induction false} AddAfter(selected: seq<Item>, items: seq<Item>)
    requires forall x :: x in items ==> x !in selected
    ensures AddAll(selected, items) == selected + AddAll([], items)
  {
    if items != [] {
      AddAfter(selected, items[..|items| - 1]);
    }
  }

  lemma {:induction false} OpeningFirst(rule: Rule, trades: seq<Item>)
    ensures Opening(trades) <= AddAll([], Candidates(rule, trades))
  {
    hide StableSort.Sort, Filter, Newest, Largest, MostRealized, Opening;
    var lead, rest := Leading(trades), Largest(rule, trades) + MostRealized(rule, trades) + Newest(rule, trades);
    assert Candidates(rule, trades) == lead + rest;
    hide Candidates, Leading;
    AddAllConcat([], lead, rest);
    LeadingIsOpening(trades);
    AddAllGrows(Opening(trades), rest);
  }

  lemma {:induction false} FirstOfPrefix<T>(a: seq<T>, b: seq<T>, n: nat)
    requires a <= b
    ensures First(a, n) <= First(b, n)
  {
  }

  /** The selection begins with the first BUY and the distinct SELLs, cut only by the limit. */
  lemma {:induction false} StartsWithOpening(rule: Rule, trades: seq<Item>, limit: nat)
    requires Selection(rule, trades, limit).Some?
    ensures First(Opening(trades), limit) <= Selection(rule, trades, limit).value
    ensures DistinctInOrder(AddAll([], Filter(trades, IS_SELL)), Filter(trades, IS_SELL))
    ensures limit > 0 && Filter(trades, IS_BUY) != []
            ==> |Selection(rule, trades, limit).value| > 0 && Selection(rule, trades, limit).value[0] == Filter(trades, IS_BUY)[0]
  {
    OpeningFirst(rule, trades);
    FirstOfPrefix(Opening(trades), AddAll([], Candidates(rule, trades)), limit);
    AddAllDistinct(Filter(trades, IS_SELL));
    if limit > 0 && Filter(trades, IS_BUY) != [] { BuyFirst(trades, limit); }
    hide Filter, AddAll, Candidates, Opening, DistinctInOrder, Readable, First;
  }

  lemma {:induction false} BuyFirst(trades: seq<Item>, limit: nat)
    requires limit > 0 && Filter(trades, IS_BUY) != []
    ensures First(Opening(trades), limit) != [] && First(Opening(trades), limit)[0] == Filter(trades, IS_BUY)[0]
  {
    hide Filter, AddAll;
  }

  lemma {:induction false} InsertHead(x: Item, s: seq<Item>, key: Item -> int)
    ensures StableSort.Insert(x, s, key)[0] == if s == [] || key(x) < key(s[0]) then x else s[0]
  {
  }

  /** The head of a stable sort: the first among the elements of least key. */
  lemma {:induction false} SortHead(s: seq<Item>, key: Item -> int) returns (i: nat)
    requires s != []
    ensures i < |s| && StableSort.Sort(s, key)[0] == s[i]
    ensures forall j :: 0 <= j < |s| ==> key(s[i]) <= key(s[j])
    ensures forall j :: 0 <= j < i ==> key(s[i]) < key(s[j])
  {
    var n := |s| - 1;
    var front := s[..n];
    InsertHead(s[n], StableSort.Sort(front, key), key);
    hide StableSort.Insert;
    if n == 0 {
      i := 0;
    } else {
      var k := SortHead(front, key);
      assert front[k] == s[k];
      assert forall j :: 0 <= j < n ==> front[j] == s[j];
      i := if key(s[n]) < key(s[k]) then n else k;
    }
  }

  /** The largest trade by absolute amount (the earliest of several) is always selected, unless the first BUY and the
      SELLs already fill the limit; when it is none of them it comes directly behind them. */
  lemma {:induction false} LargestSelected(rule: Rule, trades: seq<Item>, limit: nat) returns (i: nat)
    requires Selection(rule, trades, limit).Some? && Filter(trades, IS_DICT) != []
    ensures var dicts, r := Filter(trades, IS_DICT), Selection(rule, trades, limit).value;
            && i < |dicts|
            && (forall j :: 0 <= j < |dicts| ==> AmountSize(dicts[j]) <= AmountSize(dicts[i]))
            && (forall j :: 0 <= j < i ==> AmountSize(dicts[j]) < AmountSize(dicts[i]))
            && (dicts[i] in r || (|r| == limit && r <= Opening(trades)))
            && (dicts[i] !in Opening(trades) && |Opening(trades)| < limit
                ==> |r| > |Opening(trades)| && r[|Opening(trades)|] == dicts[i])
  {
    var dicts := Filter(trades, IS_DICT);
    i := SortHead(dicts, BY_AMOUNT);
    hide StableSort.Sort, Filter, AddAll, Add, Opening, Candidates, Readable, Size;
    assert dicts[i] in dicts && dicts[i].Trade?;
    assert Largest(rule, trades)[0] == dicts[i];
    LargestComesNext(rule, trades);
    CutAfter(Opening(trades), dicts[i], AddAll([], Candidates(rule, trades)), limit);
  }

  lemma {:induction false} CutAfter(opening: seq<Item>, x: Item, all: seq<Item>, limit: nat)
    requires x.Trade? && Add(opening, x) <= all
    ensures var r := First(all, limit);
            && (x in r || (|r| == limit && r <= opening))
            && (x !in opening && |opening| < limit ==> |r| > |opening| && r[|opening|] == x)
  {
    var upto, r := Add(opening, x), First(all, limit);
    assert x in upto;
    if |upto| <= limit {
      assert upto <= r;
    }
  }

  lemma {:induction false} LargestComesNext(rule: Rule, trades: seq<Item>)
    requires Filter(trades, IS_DICT) != []
    ensures Largest(rule, trades) != [] && Add(Opening(trades), Largest(rule, trades)[0]) <= AddAll([], Candidates(rule, trades))
  {
    hide Filter, Newest, MostRealized, StableSort.Sort, Opening;
    var lead, large := Leading(trades), Largest(rule, trades);
    var rest := large[1..] + MostRealized(rule, trades) + Newest(rule, trades);
    assert Candidates(rule, trades) == lead + [large[0]] + rest;
    AddAllConcat([], lead + [large[0]], rest);
    AddAllConcat([], lead, [large[0]]);
    LeadingIsOpening(trades);
    assert [large[0]][..0] == [];
    AddAllGrows(Add(Opening(trades), large[0]), rest);
  }

  /** With room for every candidate nothing is cut: all SELLs and the newest trades are there. */
  lemma {:induction false} RoomForAll(rule: Rule, trades: seq<Item>, limit: nat)
    requires Selection(rule, trades, limit).Some?
    requires |Filter(trades, IS_SELL)| + (if rule.Priority? then 11 else 19) <= limit
    ensures forall t :: t in Selection(rule, trades, limit).value <==> t in Candidates(rule, trades)
  {
    hide StableSort.Sort;
    AddAllGrows([], Candidates(rule, trades));
    forall t | t in Candidates(rule, trades) ensures t.Trade? { CandidateGiven(rule, trades, t); }
  }

  // ---------- the criteria, one by one ----------

  /** Filtering goes item by item and keeps the order. */
  lemma {:induction false} FilterOneByOne(a: seq<Item>, x: Item, b: seq<Item>, keep: Item -> bool)
    ensures Filter(a + [x] + b, keep) == Filter(a, keep) + (if keep(x) then [x] else []) + Filter(b, keep)
  {
    FilterConcat(a + [x], b, keep);
    FilterConcat(a, [x], keep);
    assert [x][..0] == [];
  }

  lemma {:induction false} FilterConcat(a: seq<Item>, b: seq<Item>, keep: Item -> bool)
    ensures Filter(a + b, keep) == Filter(a, keep) + Filter(b, keep)
  {
    if b == [] {
      assert a + b == a && Filter(b, keep) == [];
    } else {
      var front, last := b[..|b| - 1], b[|b| - 1];
      FilterConcat(a, front, keep);
      assert (a + b)[..|a + b| - 1] == a + front && (a + b)[|a + b| - 1] == last;
      var kept: seq<Item> := if keep(last) then [last] else [];
      FilterStep(b, keep);
      FilterStep(a + b, keep);
      hide Filter;
      assert Filter(a, keep) + Filter(front, keep) + kept == Filter(a, keep) + (Filter(front, keep) + kept);
    }
  }

  lemma {:induction false} FilterStep(s: seq<Item>, keep: Item -> bool)
    requires s != []
    ensures Filter(s, keep) == Filter(s[..|s| - 1], keep) + if keep(s[|s| - 1]) then [s[|s| - 1]] else []
  {
    assert Filter(s[..|s| - 1], keep) + [] == Filter(s[..|s| - 1], keep);
  }

  lemma {:induction false} NoneKept(s: seq<Item>, keep: Item -> bool)
    requires forall i :: 0 <= i < |s| ==> !keep(s[i])
    ensures Filter(s, keep) == []
  {
    if s != [] { NoneKept(s[..|s| - 1], keep); }
  }

  predicate IsSide(t: Item, side: Side) {
    t.Trade? && t.side == side
  }

  lemma {:induction false} FirstKept(trades: seq<Item>, keep: Item -> bool, i: nat)
    requires i < |trades| && keep(trades[i]) && forall j :: 0 <= j < i ==> !keep(trades[j])
    ensures Filter(trades, keep) != [] && Filter(trades, keep)[0] == trades[i]
  {
    var front, rest := trades[..i], trades[i + 1..];
    assert trades == front + [trades[i]] + rest;
    FilterOneByOne(front, trades[i], rest, keep);
    NoneKept(front, keep);
  }

  lemma {:induction false} OfSide(trades: seq<Item>)
    ensures forall x :: x in Filter(trades, IS_BUY) <==> x in trades && IsSide(x, Buy)
    ensures forall x :: x in Filter(trades, IS_SELL) <==> x in trades && IsSide(x, Sell)
  {
  }

  /** The earliest BUY leads. */
  lemma {:induction false} EarliestBuyLeads(trades: seq<Item>, i: nat)
    requires i < |trades| && IsSide(trades[i], Buy) && forall j :: 0 <= j < i ==> !IsSide(trades[j], Buy)
    ensures Opening(trades) != [] && Opening(trades)[0] == trades[i]
  {
    FirstKept(trades, IS_BUY, i);
    hide Filter, AddAll;
  }

  /** Behind it stands every SELL, and nothing else. */
  lemma {:induction false} OpeningSays(trades: seq<Item>)
    ensures var o := Opening(trades);
            && (forall t :: t in trades && IsSide(t, Sell) ==> t in o)
            && (forall x :: x in o ==> x in trades && (IsSide(x, Sell) || (IsSide(x, Buy) && x == o[0])))
  {
    OfSide(trades);
    var buys, sells := Filter(trades, IS_BUY), Filter(trades, IS_SELL);
    AddAllGrows([], sells);
    hide Filter, AddAll, IsSide;
    var lead, rest := First(buys, 1), AddAll([], sells);
    assert Opening(trades) == lead + rest;
    forall x | x in lead + rest ensures x in trades && (IsSide(x, Sell) || (IsSide(x, Buy) && x == (lead + rest)[0])) {
      if x in lead { assert lead == [x]; } else { assert x in rest && x in sells; }
    }
    forall t | t in trades && IsSide(t, Sell) ensures t in lead + rest {
      assert t in sells && t.Trade? by { SideIsTrade(t, Sell); }
      assert t in rest;
    }
  }

  lemma {:induction false} SideIsTrade(t: Item, side: Side)
    requires IsSide(t, side)
    ensures t.Trade?
  {
  }

  /** The front of a sorted list: as many as wanted, and none outside is smaller than one inside. */
  lemma {:induction false} FrontDominates(s: seq<Item>, key: Item -> int, n: nat)
    ensures var front := First(StableSort.Sort(s, key), n);
            && |front| == (if |s| < n then |s| else n)
            && (forall x :: x in front ==> x in s)
            && (forall x, t :: x in front && t in s && t !in front ==> key(x) <= key(t))
  {
    var sorted := StableSort.Sort(s, key);
    var front := First(sorted, n);
    StableSort.SortIsSorted(s, key);
    forall x | x in front ensures x in s { SortedElement(s, key, x); }
    assert forall m :: 0 <= m < |front| ==> sorted[m] == front[m];
    forall x, t | x in front && t in s && t !in front ensures key(x) <= key(t) {
      SortedElement(s, key, t);
      var i :| 0 <= i < |front| && front[i] == x;
      var j :| 0 <= j < |sorted| && sorted[j] == t;
      assert sorted[i] == x && front <= sorted;
    }
  }

  /** The criteria by size: three trades (five in the evidence pack) or all there are, and no trade left out is larger, by
      absolute amount or by absolute realised profit, than one taken. */
  lemma {:induction false} LargestDominate(rule: Rule, trades: seq<Item>)
    ensures var k, large, gains := if rule.Priority? then 3 else 5, Largest(rule, trades), MostRealized(rule, trades);
            && (|large| == k || forall t :: t in trades && t.Trade? ==> t in large)
            && (forall x, t :: x in large && t in trades && t.Trade? && t !in large ==> AmountSize(t) <= AmountSize(x))
            && (|gains| == k || forall t :: t in trades && t.Trade? && t.pnl.Some? ==> t in gains)
            && (forall x, t :: x in gains && t in trades && t.Trade? && t.pnl.Some? && t !in gains ==> PnlSize(t) <= PnlSize(x))
  {
    var dicts, priced := Filter(trades, IS_DICT), Filter(trades, HAS_PNL);
    FrontDominates(dicts, BY_AMOUNT, Top(rule));
    FrontDominates(priced, BY_PNL, Top(rule));
    var large, gains := Largest(rule, trades), MostRealized(rule, trades);
    hide StableSort.Sort, Filter;
    forall t | |large| < Top(rule) && t in trades && t.Trade? ensures t in large {
      assert t in dicts;
      AllFront(dicts, BY_AMOUNT, Top(rule), t);
    }
    forall t | |gains| < Top(rule) && t in trades && t.Trade? && t.pnl.Some? ensures t in gains {
      assert t in priced;
      AllFront(priced, BY_PNL, Top(rule), t);
    }
    forall x, t | x in large && t in trades && t.Trade? && t !in large ensures AmountSize(t) <= AmountSize(x) {
      assert t in dicts && BY_AMOUNT(x) <= BY_AMOUNT(t);
    }
    forall x, t | x in gains && t in trades && t.Trade? && t.pnl.Some? && t !in gains ensures PnlSize(t) <= PnlSize(x) {
      assert t in priced && BY_PNL(x) <= BY_PNL(t);
    }
  }

  lemma {:induction false} AllFront(s: seq<Item>, key: Item -> int, n: nat, t: Item)
    requires t in s && |First(StableSort.Sort(s, key), n)| < n
    ensures t in First(StableSort.Sort(s, key), n)
  {
    SortedElement(s, key, t);
  }

  /** The newest trades: in one selector the last four of the dicts, in the other the dicts among the last eight elements. */
  lemma {:induction false} NewestAreLast(trades: seq<Item>)
    ensures var dicts := Filter(trades, IS_DICT);
            Newest(Priority, trades) == if |dicts| <= 4 then dicts else dicts[|dicts| - 4..]
    ensures forall t :: t in Newest(Evidence, trades) <==>
              t.Trade? && exists i :: 0 <= i < |trades| && i >= |trades| - 8 && trades[i] == t
  {
    forall t ensures t in Newest(Evidence, trades) <==> t.Trade? && exists i :: 0 <= i < |trades| && i >= |trades| - 8 && trades[i] == t {
      var last := Last(trades, 8);
      var k := |trades| - |last|;
      if i :| 0 <= i < |trades| && i >= |trades| - 8 && trades[i] == t { assert last[i - k] == t; }
      if i :| 0 <= i < |last| && last[i] == t { assert trades[i + k] == t; }
    }
  }
}
