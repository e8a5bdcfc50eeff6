/** `eval_failure_mining.py`: merging failures that share a duplicate key. */
module FailureMining {

  datatype Severity = Low | Medium | High | Critical

  function Rank(s: Severity): nat {
    match s case Low => 1 case Medium => 2 case High => 3 case Critical => 4
  }

  datatype Ref = Ref(failureId: string, resultId: string)

  datatype Item = Item(ref: Ref, key: string, severity: Severity)

  /** A failure that stands for its group. */
  datatype Survivor = Survivor(item: Item, count: nat, duplicates: seq<Ref>)

  /** The insertion-ordered dict of the merge loop. */
  datatype Merged = Merged(order: seq<string>, table: map<string, Survivor>)

  function Absorb(s: Survivor, item: Item): Survivor {
    if Rank(item.severity) > Rank(s.item.severity) then
      Survivor(item, s.count + 1, s.duplicates + [s.item.ref])
    else Survivor(s.item, s.count + 1, s.duplicates + [item.ref])
  }

  function Add(m: Merged, item: Item): Merged {
    if item.key in m.table then Merged(m.order, m.table[item.key := Absorb(m.table[item.key], item)])
    else Merged(m.order + [item.key], m.table[item.key := Survivor(item, 1, [])])
  }

  function Merge(items: seq<Item>): Merged {
    if items == [] then Merged([], map[]) else Add(Merge(items[..|items| - 1]), items[|items| - 1])
  }

  // ---------- what the merge promises ----------

  /** The items of one key, in input order. */
  function Group(items: seq<Item>, key: string): (g: seq<Item>)
    ensures forall i :: 0 <= i < |g| ==> g[i].key == key
  {
    if items == [] then []
    else
      var last := items[|items| - 1];
      Group(items[..|items| - 1], key) + if last.key == key then [last] else []
  }

  function Refs(items: seq<Item>): (r: seq<Ref>)
    ensures |r| == |items| && forall i :: 0 <= i < |r| ==> r[i] == items[i].ref
  {
    seq(|items|, i requires 0 <= i < |items| => items[i].ref)
  }

  /** The order of severities, written out. */
  predicate Worse(a: Severity, b: Severity) {
    match a
    case Critical => b != Critical
    case High => b == Medium || b == Low
    case Medium => b == Low
    case Low => false
  }

  lemma {:induction false} RankOrders(a: Severity, b: Severity)
    ensures Rank(a) > Rank(b) <==> Worse(a, b)
  {
  }

  /** The first item of the highest severity in the group. */
  ghost predicate IsFirstWorst(item: Item, g: seq<Item>) {
    exists k :: 0 <= k < |g| && g[k] == item && WorstAt(g, k)
  }

  ghost predicate WorstAt(g: seq<Item>, k: int)
    requires 0 <= k < |g|
  {
    && (forall j :: 0 <= j < k ==> Worse(g[k].severity, g[j].severity))
    && forall j :: 0 <= j < |g| ==> !Worse(g[j].severity, g[k].severity)
  }

  ghost predicate HasSeverity(g: seq<Item>, severity: Severity) {
    exists j :: 0 <= j < |g| && g[j].severity == severity
  }

  /** The survivor is critical if any of its group is, else high if any is, else medium if any is. */
  lemma {:induction false} WorstSeverity(item: Item, g: seq<Item>)
    requires IsFirstWorst(item, g)
    ensures item.severity == Critical <==> HasSeverity(g, Critical)
    ensures item.severity == High <==> !HasSeverity(g, Critical) && HasSeverity(g, High)
    ensures item.severity == Medium <==> !HasSeverity(g, Critical) && !HasSeverity(g, High) && HasSeverity(g, Medium)
  {
    var k :| 0 <= k < |g| && g[k] == item && WorstAt(g, k);
  }

  /** Each merge step names the loser: the worst so far when the new item is worse, else the new item. */
  ghost predicate NamesLosers(duplicates: seq<Ref>, g: seq<Item>) {
    |duplicates| == |g| - 1 && forall t :: 1 <= t < |g| ==> NamesLoser(duplicates, g, t)
  }

  ghost predicate NamesLoser(duplicates: seq<Ref>, g: seq<Item>, t: int)
    requires 1 <= t < |g| && t <= |duplicates|
  {
    exists k :: 0 <= k < t && WorstAt(g[..t], k)
      && duplicates[t - 1] == if Worse(g[t].severity, g[k].severity) then g[k].ref else g[t].ref
  }

  /** A survivor stands for its group: it is the first worst item, its count is the size of the group, and together
      with its duplicates it names every member exactly once. */
  ghost predicate StandsFor(s: Survivor, g: seq<Item>) {
    && IsFirstWorst(s.item, g)
    && s.count == |g|
    && NamesLosers(s.duplicates, g)
    && multiset(s.duplicates + [s.item.ref]) == multiset(Refs(g))
  }

  ghost predicate FirstAt(items: seq<Item>, key: string, i: int) {
    0 <= i < |items| && items[i].key == key && forall j :: 0 <= j < i ==> items[j].key != key
  }

  ghost predicate Occurs(items: seq<Item>, key: string) {
    exists i :: FirstAt(items, key, i)
  }

  /** Keys are listed once each, in the order in which they first occur. */
  ghost predicate InFirstOccurrenceOrder(order: seq<string>, items: seq<Item>) {
    && (forall i :: 0 <= i < |items| ==> items[i].key in order)
    && (forall a :: 0 <= a < |order| ==> Occurs(items, order[a]))
    && forall a, b, i, j :: 0 <= a < b < |order| && FirstAt(items, order[a], i) && FirstAt(items, order[b], j) ==> i < j
  }

  lemma {:induction false} RefsJoin(d: seq<Ref>, a: Ref, b: Ref)
    ensures multiset(d + [a] + [b]) == multiset(d + [b] + [a]) == multiset(d + [a]) + multiset{b}
  {
  }

  lemma {:induction false} AbsorbNames(s: Survivor, g: seq<Item>, item: Item, k: int)
    requires 0 <= k < |g| && g[k] == s.item && WorstAt(g, k) && NamesLosers(s.duplicates, g)
    ensures NamesLosers(Absorb(s, item).duplicates, g + [item])
  {
    var h, d := g + [item], Absorb(s, item).duplicates;
    RankOrders(item.severity, s.item.severity);
    hide Rank, Worse;
    forall t | 1 <= t < |h| ensures NamesLoser(d, h, t) {
      if t < |g| {
        assert NamesLoser(s.duplicates, g, t);
        assert h[..t] == g[..t] && h[t] == g[t] && d[t - 1] == s.duplicates[t - 1];
        var i :| 0 <= i < t && WorstAt(g[..t], i) && s.duplicates[t - 1] == if Worse(g[t].severity, g[i].severity) then g[i].ref else g[t].ref;
        assert h[i] == g[i] && WorstAt(h[..t], i);
      } else {
        assert h[..t] == g && h[k] == s.item && h[t] == item;
        assert WorstAt(h[..t], k);
      }
    }
  }

  lemma {:induction false} AbsorbWorst(s: Survivor, g: seq<Item>, item: Item, k: int)
    requires 0 <= k < |g| && g[k] == s.item && WorstAt(g, k)
    ensures IsFirstWorst(Absorb(s, item).item, g + [item])
  {
    var h := g + [item];
    RankOrders(item.severity, s.item.severity);
    if Worse(item.severity, s.item.severity) {
      assert WorstAt(h, |g|);
    } else {
      assert WorstAt(h, k);
    }
  }

  lemma {:induction false} AbsorbStands(s: Survivor, g: seq<Item>, item: Item)
    requires StandsFor(s, g)
    ensures StandsFor(Absorb(s, item), g + [item])
  {
    hide Rank, Worse, WorstAt, NamesLosers;
    var h := g + [item];
    var k :| 0 <= k < |g| && g[k] == s.item && WorstAt(g, k);
    AbsorbWorst(s, g, item, k);
    AbsorbNames(s, g, item, k);
    assert Refs(h) == Refs(g) + [item.ref];
    RefsJoin(s.duplicates, s.item.ref, item.ref);
    assert multiset(Refs(h)) == multiset(Refs(g)) + multiset{item.ref};
    assert multiset(Absorb(s, item).duplicates + [Absorb(s, item).item.ref]) == multiset(Refs(h));
  }

  lemma {:induction false} NewStands(item: Item)
    ensures StandsFor(Survivor(item, 1, []), [item])
  {
    var g := [item];
    assert g[0] == item && WorstAt(g, 0);
    assert Refs(g) == [item.ref];
    assert [] + [item.ref] == [item.ref];
  }

  ghost predicate Represents(m: Merged, items: seq<Item>) {
    && (forall key :: key in m.table <==> key in m.order)
    && (forall key :: key in m.table ==> StandsFor(m.table[key], Group(items, key)))
    && InFirstOccurrenceOrder(m.order, items)
  }

  lemma {:induction false} GroupGrows(items: seq<Item>, item: Item, key: string)
    ensures Group(items + [item], key) == if item.key == key then Group(items, key) + [item] else Group(items, key)
  {
    assert (items + [item])[..|items|] == items;
  }

  lemma {:induction false} EmptyGroup(items: seq<Item>, key: string)
    requires forall i :: 0 <= i < |items| ==> items[i].key != key
    ensures Group(items, key) == []
  {
    if items != [] { EmptyGroup(items[..|items| - 1], key); }
  }

  lemma {:induction false} FirstAtGrows(items: seq<Item>, item: Item, key: string, i: int)
    requires i < |items|
    ensures FirstAt(items + [item], key, i) <==> FirstAt(items, key, i)
  {
    assert forall j :: 0 <= j < |items| ==> (items + [item])[j] == items[j];
  }

  lemma {:induction false} OrderGrows(order: seq<string>, items: seq<Item>, item: Item)
    requires InFirstOccurrenceOrder(order, items)
    ensures InFirstOccurrenceOrder(if item.key in order then order else order + [item.key], items + [item])
  {
    var all := items + [item];
    var grown := if item.key in order then order else order + [item.key];
    forall i | 0 <= i < |all| ensures all[i].key in grown {
      if i < |items| { assert all[i] == items[i]; } else { assert item.key in order || grown[|order|] == item.key; }
    }
    forall a | 0 <= a < |grown| ensures Occurs(all, grown[a]) {
      if a < |order| {
        var i :| FirstAt(items, order[a], i);
        FirstAtGrows(items, item, order[a], i);
      } else {
        forall j | 0 <= j < |items| ensures all[j].key != item.key { assert items[j].key in order; }
        assert FirstAt(all, item.key, |items|);
      }
    }
    assert item.key !in order ==> forall j :: 0 <= j < |items| ==> items[j].key != item.key;
    forall a, b, i, j | 0 <= a < b < |grown| && FirstAt(all, grown[a], i) && FirstAt(all, grown[b], j) ensures i < j {
      var i' :| FirstAt(items, order[a], i');
      FirstAtGrows(items, item, order[a], i');
      assert i == i';
      if b < |order| {
        var j' :| FirstAt(items, order[b], j');
        FirstAtGrows(items, item, order[b], j');
        assert j == j';
      }
    }
  }

  lemma {:induction false} AbsentKey(order: seq<string>, items: seq<Item>, key: string)
    requires InFirstOccurrenceOrder(order, items) && key !in order
    ensures forall i :: 0 <= i < |items| ==> items[i].key != key
  {
  }

  lemma {:induction false} NothingMerged()
    ensures Represents(Merged([], map[]), [])
  {
  }

  lemma {:induction false} AddRepresents(m: Merged, items: seq<Item>, item: Item)
    requires Represents(m, items)
    ensures Represents(Add(m, item), items + [item])
  {
    hide StandsFor, InFirstOccurrenceOrder, Absorb, Group;
    var n := Add(m, item);
    OrderGrows(m.order, items, item);
    forall key | key in n.table ensures StandsFor(n.table[key], Group(items + [item], key)) {
      GroupGrows(items, item, key);
      if key == item.key {
        if key in m.table {
          AbsorbStands(m.table[key], Group(items, key), item);
        } else {
          AbsentKey(m.order, items, key);
          EmptyGroup(items, key);
          NewStands(item);
          assert [] + [item] == [item];
        }
      }
    }
  }

  /** Every survivor stands for its key's group, and the groups come in first-occurrence order. */
  lemma {:induction false} MergeRepresents(items: seq<Item>)
    ensures Represents(Merge(items), items)
  {
    hide Represents, Add;
    if items == [] {
      NothingMerged();
    } else {
      var front, last := items[..|items| - 1], items[|items| - 1];
      MergeRepresents(front);
      AddRepresents(Merge(front), front, last);
      assert front + [last] == items;
    }
  }

  /** No key is listed twice. */
  lemma {:induction false} OrderDistinct(order: seq<string>, items: seq<Item>)
    requires InFirstOccurrenceOrder(order, items)
    ensures forall a, b :: 0 <= a < b < |order| ==> order[a] != order[b]
  {
    forall a, b | 0 <= a < b < |order| ensures order[a] != order[b] {
      var i :| FirstAt(items, order[a], i);
      var j :| FirstAt(items, order[b], j);
      assert i < j;
    }
  }

  // ---------- conservation over all groups ----------

  function AllRefs(order: seq<string>, table: map<string, Survivor>): seq<Ref>
    requires forall key :: key in order ==> key in table
  {
    if order == [] then []
    else
      var key := order[|order| - 1];
      AllRefs(order[..|order| - 1], table) + (table[key].duplicates + [table[key].item.ref])
  }

  lemma {:induction false} OtherKeysUntouched(order: seq<string>, table: map<string, Survivor>, key: string, s: Survivor)
    requires (forall k :: k in order ==> k in table) && key !in order
    ensures AllRefs(order, table[key := s]) == AllRefs(order, table)
  {
    if order != [] { OtherKeysUntouched(order[..|order| - 1], table, key, s); }
  }

  lemma {:induction false} OneKeyGrows(order: seq<string>, table: map<string, Survivor>, key: string, item: Item)
    requires (forall k :: k in order ==> k in table) && key in order
    requires forall a, b :: 0 <= a < b < |order| ==> order[a] != order[b]
    ensures multiset(AllRefs(order, table[key := Absorb(table[key], item)])) == multiset(AllRefs(order, table)) + multiset{item.ref}
  {
    var front, last := order[..|order| - 1], order[|order| - 1];
    if last == key {
      OtherKeysUntouched(front, table, key, Absorb(table[key], item));
    } else {
      OneKeyGrows(front, table, key, item);
    }
  }

  /** Every input failure is named exactly once, as a survivor or as a duplicate of exactly one. */
  lemma {:induction false} MergeConserves(items: seq<Item>)
    ensures forall key :: key in Merge(items).order ==> key in Merge(items).table
    ensures multiset(AllRefs(Merge(items).order, Merge(items).table)) == multiset(Refs(items))
  {
    hide Represents, Add, AllRefs, Refs;
    MergeRepresents(items);
    TableHasOrder(Merge(items), items);
    if items == [] {
      NothingConserved();
    } else {
      var front, last := items[..|items| - 1], items[|items| - 1];
      MergeConserves(front);
      MergeRepresents(front);
      AddConserves(Merge(front), front, last);
      assert Refs(items) == Refs(front) + [last.ref];
    }
  }

  lemma {:induction false} NothingConserved()
    ensures AllRefs([], map[]) == [] && Refs([]) == []
  {
  }

  lemma {:induction false} TableHasOrder(m: Merged, items: seq<Item>)
    requires Represents(m, items)
    ensures forall key :: key in m.order ==> key in m.table
    ensures forall a, b :: 0 <= a < b < |m.order| ==> m.order[a] != m.order[b]
  {
    hide StandsFor;
    OrderDistinct(m.order, items);
  }

  lemma {:induction false} AddConserves(m: Merged, items: seq<Item>, item: Item)
    requires Represents(m, items)
    ensures forall key :: key in m.order ==> key in m.table
    ensures var n := Add(m, item);
            (forall key :: key in n.order ==> key in n.table) &&
            multiset(AllRefs(n.order, n.table)) == multiset(AllRefs(m.order, m.table)) + multiset{item.ref}
  {
    TableHasOrder(m, items);
    hide StandsFor, InFirstOccurrenceOrder;
    if item.key in m.table {
      OneKeyGrows(m.order, m.table, item.key, item);
    } else {
      OtherKeysUntouched(m.order, m.table, item.key, Survivor(item, 1, []));
      assert Add(m, item).order[..|m.order|] == m.order;
    }
  }

  // ---------- the loop, on failures that are updated in place ----------

  class Failure {
    const item: Item
    var duplicateCount: nat
    var duplicates: seq<Ref>

    /** `_failure_seed`: counts itself once. */
    constructor (item: Item)
      ensures this.item == item && IsSeed()
    {
      this.item := item;
      duplicateCount, duplicates := 1, [];
    }

    predicate IsSeed()
      reads this
    {
      duplicateCount == 1 && duplicates == []
    }

    /** A worse failure inherits the account of the one it displaces. */
    method TakeOver(existing: Failure)
      modifies this
      ensures View() == Survivor(item, old(existing.duplicateCount) + 1, old(existing.duplicates) + [existing.item.ref])
    {
      duplicateCount := existing.duplicateCount + 1;
      duplicates := existing.duplicates + [existing.item.ref];
    }

    /** A failure that is not worse is counted and named by the one that stays. */
    method NoteDuplicate(failure: Failure)
      modifies this
      ensures View() == Survivor(item, old(duplicateCount) + 1, old(duplicates) + [failure.item.ref])
    {
      duplicateCount := duplicateCount + 1;
      duplicates := duplicates + [failure.item.ref];
    }

    function View(): Survivor
      reads this
    {
      Survivor(item, duplicateCount, duplicates)
    }
  }

  function Items(failures: seq<Failure>): (r: seq<Item>)
    ensures |r| == |failures| && forall i :: 0 <= i < |r| ==> r[i] == failures[i].item
  {
    seq(|failures|, i requires 0 <= i < |failures| => failures[i].item)
  }

  /** The dict of the loop holds the survivors of `m`, each under its own key. */
  ghost predicate Holds(merged: map<string, Failure>, m: Merged)
    reads set key | key in merged :: merged[key]
  {
    && merged.Keys == m.table.Keys
    && forall key :: key in merged ==> merged[key].item.key == key && merged[key].View() == m.table[key]
  }

  /** One turn of the loop. */
  method MergeOne(merged: map<string, Failure>, failure: Failure, ghost m: Merged) returns (result: map<string, Failure>)
    requires Holds(merged, m) && failure.IsSeed() && failure !in merged.Values
    modifies failure, merged.Values
    ensures Holds(result, Add(m, failure.item))
    ensures result.Values <= merged.Values + {failure}
  {
    hide Rank;
    var key := failure.item.key;
    result := merged;
    if key !in merged {
      result := merged[key := failure];
    } else {
      var existing := merged[key];
      assert existing in merged.Values;
      if Rank(failure.item.severity) > Rank(existing.item.severity) {
        failure.TakeOver(existing);
        result := merged[key := failure];
      } else {
        existing.NoteDuplicate(failure);
      }
    }
  }

  /** `_merge_same_type`. */
  method MergeSameType(failures: seq<Failure>) returns (survivors: seq<Failure>)
    requires forall i :: 0 <= i < |failures| ==> failures[i].IsSeed()
    requires forall i, j :: 0 <= i < j < |failures| ==> failures[i] != failures[j]
    modifies failures
    ensures var m := Merge(Items(failures));
            && |survivors| == |m.order|
            && forall a :: 0 <= a < |survivors| ==>
                 survivors[a] in failures && m.order[a] in m.table && survivors[a].View() == m.table[m.order[a]]
  {
    hide Merge, Absorb, Add, Rank;
    var merged: map<string, Failure> := map[];
    var order: seq<string> := [];
    ghost var items := Items(failures);
    ghost var seen: set<Failure> := {};
    ghost var m := Merge([]);
    NothingToMerge();
    assert items[..0] == [];
    for i := 0 to |failures|
      invariant m == Merge(items[..i]) && order == m.order && Holds(merged, m)
      invariant forall key :: key in order ==> key in merged
      invariant merged.Values <= seen <= set f | f in failures
      invariant forall j :: i <= j < |failures| ==> failures[j].IsSeed() && failures[j] !in seen
    {
      MergeStep(items, i);
      AddShape(m, items[i]);
      if failures[i].item.key !in merged { order := order + [failures[i].item.key]; }
      merged := MergeOne(merged, failures[i], m);
      m, seen := Add(m, items[i]), seen + {failures[i]};
    }
    assert items[..|failures|] == items;
    SurvivorsHeld(merged, m, failures);
    hide Holds, Items;
    survivors := seq(|order|, a requires 0 <= a < |order| => merged[order[a]]);
  }

  lemma {:induction false} SurvivorsHeld(merged: map<string, Failure>, m: Merged, failures: seq<Failure>)
    requires Holds(merged, m) && merged.Values <= set f | f in failures
    ensures forall key :: key in merged ==> merged[key] in failures && key in m.table && merged[key].View() == m.table[key]
  {
    forall key | key in merged ensures merged[key] in failures {
      assert merged[key] in merged.Values;
    }
  }

  lemma {:induction false} AddShape(m: Merged, item: Item)
    ensures Add(m, item).order == if item.key in m.table then m.order else m.order + [item.key]
    ensures Add(m, item).table.Keys == m.table.Keys + {item.key}
  {
  }

  lemma {:induction false} NothingToMerge()
    ensures Merge([]) == Merged([], map[])
  {
  }

  lemma {:induction false} MergeStep(items: seq<Item>, i: nat)
    requires i < |items|
    ensures Merge(items[..i + 1]) == Add(Merge(items[..i]), items[i])
  {
    assert items[..i + 1][..i] == items[..i];
  }
}
