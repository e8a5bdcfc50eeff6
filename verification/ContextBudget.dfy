/** `context_budget.py`: squeezing a JSON tree under a size limit, and the account kept of what was lost. */
module ContextBudget {
  import opened Wrappers
  import opened Text
  import opened Json

  // ---------- _shrink_lists ----------

  /** `value[:max(1, len // 2)]` */
  function Kept(n: nat): (k: nat)
    ensures k <= n && (n > 0 ==> k > 0) && (k == n <==> n <= 1)
  {
    if n <= 1 then n else n / 2
  }

  function Shrink(j: Json): Json {
    match j
    case JList(items) => JList(seq(Kept(|items|), i requires 0 <= i < Kept(|items|) => Shrink(items[i])))
    case JObj(fields) =>
      JObj(seq(|fields|, i requires 0 <= i < |fields| => Field(fields[i].key, Shrink(fields[i].value))))
    case _ => j
  }

  /** List elements missing from `b`, over all lists of `a` that are still there: an account made by
      comparing the two trees. */
  function Missing(a: Json, b: Json): nat
    decreases a, 0
  {
    if a.JList? && b.JList? && |b.items| <= |a.items| then
      |a.items| - |b.items| + MissingItems(a.items, b.items, |b.items|)
    else if a.JObj? && b.JObj? && |a.fields| == |b.fields| then
      MissingFields(a.fields, b.fields, |b.fields|)
    else 0
  }

  function MissingItems(a: seq<Json>, b: seq<Json>, n: nat): nat
    requires n <= |a| && n <= |b|
    decreases a, n
  {
    if n == 0 then 0 else MissingItems(a, b, n - 1) + Missing(a[n - 1], b[n - 1])
  }

  function MissingFields(a: seq<Field>, b: seq<Field>, n: nat): nat
    requires n <= |a| && n <= |b|
    decreases a, n
  {
    if n == 0 then 0 else MissingFields(a, b, n - 1) + Missing(a[n - 1].value, b[n - 1].value)
  }

  /** `b` is `a` with list tails cut off: no nonempty list emptied, every key kept, every leaf unchanged. */
  ghost predicate CutFrom(a: Json, b: Json)
    decreases a
  {
    match a
    case JList(items) =>
      && b.JList? && |b.items| <= |items| && (items != [] ==> b.items != [])
      && forall i :: 0 <= i < |b.items| ==> CutFrom(items[i], b.items[i])
    case JObj(fields) =>
      && b.JObj? && Keys(b.fields) == Keys(fields)
      && |b.fields| == |fields|
      && forall i :: 0 <= i < |fields| ==> CutFrom(fields[i].value, b.fields[i].value)
    case _ => b == a
  }

  lemma {:induction false} ShrinkCuts(j: Json)
    ensures CutFrom(j, Shrink(j))
  {
    var r := Shrink(j);
    match j
    case JList(items) =>
      forall i | 0 <= i < |r.items| ensures CutFrom(items[i], r.items[i]) { ShrinkCuts(items[i]); }
    case JObj(fields) =>
      assert Keys(r.fields) == Keys(fields);
      forall i | 0 <= i < |fields| ensures CutFrom(fields[i].value, r.fields[i].value) { ShrinkCuts(fields[i].value); }
    case _ =>
  }

  /** Every list of `a` has become its front half, at least one element of it, and everything else has stayed. */
  ghost predicate Halved(a: Json, b: Json)
    decreases a
  {
    match a
    case JList(items) =>
      && b.JList? && |b.items| == (if |items| <= 1 then |items| else |items| / 2)
      && forall i :: 0 <= i < |b.items| ==> Halved(items[i], b.items[i])
    case JObj(fields) =>
      && b.JObj? && |b.fields| == |fields|
      && forall i :: 0 <= i < |fields| ==> b.fields[i].key == fields[i].key && Halved(fields[i].value, b.fields[i].value)
    case _ => b == a
  }

  lemma {:induction false} ShrinkHalves(j: Json)
    ensures Halved(j, Shrink(j))
  {
    var r := Shrink(j);
    match j
    case JList(items) =>
      forall i | 0 <= i < |r.items| ensures Halved(items[i], r.items[i]) { ShrinkHalves(items[i]); }
    case JObj(fields) =>
      forall i | 0 <= i < |fields| ensures Halved(fields[i].value, r.fields[i].value) { ShrinkHalves(fields[i].value); }
    case _ =>
  }

  /** Halving lists never lengthens the text, and shortens it as soon as one list loses an element. */
  lemma {:induction false} ShrinkShorter(j: Json)
    ensures Size(Shrink(j)) <= Size(j)
    ensures Shrink(j) != j ==> Size(Shrink(j)) < Size(j)
  {
    var r := Shrink(j);
    match j
    case JList(items) =>
      forall i | 0 <= i < |r.items|
        ensures |ItemTexts(r)[i]| <= |ItemTexts(j)[i]| && (r.items[i] != items[i] ==> |ItemTexts(r)[i]| < |ItemTexts(j)[i]|) {
        ShrinkShorter(items[i]);
      }
      JoinShorter(ItemTexts(r), ItemTexts(j));
      if |r.items| == |items| && r != j {
        var i :| 0 <= i < |items| && r.items[i] != items[i];
        assert |ItemTexts(r)[i]| < |ItemTexts(j)[i]|;
      }
    case JObj(fields) =>
      forall i | 0 <= i < |fields|
        ensures |FieldTexts(r)[i]| <= |FieldTexts(j)[i]| && (r.fields[i] != fields[i] ==> |FieldTexts(r)[i]| < |FieldTexts(j)[i]|) {
        ShrinkShorter(fields[i].value);
      }
      JoinShorter(FieldTexts(r), FieldTexts(j));
      if r != j {
        var i :| 0 <= i < |fields| && r.fields[i] != fields[i];
        assert |FieldTexts(r)[i]| < |FieldTexts(j)[i]|;
      }
    case _ =>
  }

  /** The account is zero exactly when nothing was cut. */
  lemma {:induction false} NothingMissing(j: Json)
    ensures Missing(j, Shrink(j)) == 0 <==> Shrink(j) == j
    decreases j, 0
  {
    var r := Shrink(j);
    match j
    case JList(items) =>
      NothingMissingItems(items, r.items, |r.items|);
      if Missing(j, r) == 0 { assert r.items == items; }
    case JObj(fields) =>
      NothingMissingFields(fields, r.fields, |fields|);
      if Missing(j, r) == 0 { assert r.fields == fields; }
    case _ =>
  }

  lemma {:induction false} NothingMissingItems(a: seq<Json>, b: seq<Json>, n: nat)
    requires n <= |b| <= |a| && forall i :: 0 <= i < |b| ==> b[i] == Shrink(a[i])
    ensures MissingItems(a, b, n) == 0 <==> forall i :: 0 <= i < n ==> b[i] == a[i]
    decreases a, n
  {
    if n > 0 {
      NothingMissingItems(a, b, n - 1);
      NothingMissing(a[n - 1]);
    }
  }

  lemma {:induction false} NothingMissingFields(a: seq<Field>, b: seq<Field>, n: nat)
    requires n <= |b| == |a| && forall i :: 0 <= i < |b| ==> b[i] == Field(a[i].key, Shrink(a[i].value))
    ensures MissingFields(a, b, n) == 0 <==> forall i :: 0 <= i < n ==> b[i] == a[i]
    decreases a, n
  {
    if n > 0 {
      NothingMissingFields(a, b, n - 1);
      NothingMissing(a[n - 1].value);
    }
  }

  // ---------- _trim_strings ----------

  function Trim(j: Json, limit: int): Json {
    match j
    case JStr(s) => JStr(TrimText(s, limit))
    case JList(items) => JList(seq(|items|, i requires 0 <= i < |items| => Trim(items[i], limit)))
    case JObj(fields) =>
      JObj(seq(|fields|, i requires 0 <= i < |fields| => Field(fields[i].key, Trim(fields[i].value, limit))))
    case _ => j
  }

  /** Strings that differ between two trees of the same shape. */
  function Altered(a: Json, b: Json): nat
    decreases a, 0
  {
    if a.JStr? && b.JStr? then (if a.s == b.s then 0 else 1)
    else if a.JList? && b.JList? && |a.items| == |b.items| then AlteredItems(a.items, b.items, |a.items|)
    else if a.JObj? && b.JObj? && |a.fields| == |b.fields| then AlteredFields(a.fields, b.fields, |a.fields|)
    else 0
  }

  function AlteredItems(a: seq<Json>, b: seq<Json>, n: nat): nat
    requires n <= |a| && n <= |b|
    decreases a, n
  {
    if n == 0 then 0 else AlteredItems(a, b, n - 1) + Altered(a[n - 1], b[n - 1])
  }

  function AlteredFields(a: seq<Field>, b: seq<Field>, n: nat): nat
    requires n <= |a| && n <= |b|
    decreases a, n
  {
    if n == 0 then 0 else AlteredFields(a, b, n - 1) + Altered(a[n - 1].value, b[n - 1].value)
  }

  ghost predicate TextsWithin(j: Json, limit: int) {
    match j
    case JStr(s) => |s| <= limit
    case JList(items) => forall i :: 0 <= i < |items| ==> TextsWithin(items[i], limit)
    case JObj(fields) => forall i :: 0 <= i < |fields| ==> TextsWithin(fields[i].value, limit)
    case _ => true
  }

  /** Exactly the trees whose strings fit are left alone, and the result is such a tree. */
  lemma {:induction false} TrimFixedPoint(j: Json, limit: int)
    requires limit >= 3
    ensures TextsWithin(Trim(j, limit), limit)
    ensures Trim(j, limit) == j <==> TextsWithin(j, limit)
  {
    match j
    case JList(items) =>
      forall i | 0 <= i < |items|
        ensures TextsWithin(Trim(items[i], limit), limit) && (Trim(items[i], limit) == items[i] <==> TextsWithin(items[i], limit)) {
        TrimFixedPoint(items[i], limit);
      }
      if TextsWithin(j, limit) { assert Trim(j, limit).items == items; }
    case JObj(fields) =>
      forall i | 0 <= i < |fields|
        ensures TextsWithin(Trim(fields[i].value, limit), limit)
             && (Trim(fields[i].value, limit) == fields[i].value <==> TextsWithin(fields[i].value, limit)) {
        TrimFixedPoint(fields[i].value, limit);
      }
      if TextsWithin(j, limit) { assert Trim(j, limit).fields == fields; }
    case _ =>
  }

  /** `b` is `a` with every string cut on its own, and nothing else touched. */
  ghost predicate StringsCut(a: Json, b: Json, limit: int)
    decreases a
  {
    match a
    case JStr(s) => b == JStr(TrimText(s, limit))
    case JList(items) => b.JList? && |b.items| == |items| && forall i :: 0 <= i < |items| ==> StringsCut(items[i], b.items[i], limit)
    case JObj(fields) =>
      && b.JObj? && |b.fields| == |fields|
      && forall i :: 0 <= i < |fields| ==> b.fields[i].key == fields[i].key && StringsCut(fields[i].value, b.fields[i].value, limit)
    case _ => b == a
  }

  lemma {:induction false} TrimCutsStrings(j: Json, limit: int)
    ensures StringsCut(j, Trim(j, limit), limit)
  {
    hide TrimText;
    var r := Trim(j, limit);
    match j
    case JList(items) =>
      forall i | 0 <= i < |items| ensures StringsCut(items[i], r.items[i], limit) { TrimCutsStrings(items[i], limit); }
    case JObj(fields) =>
      forall i | 0 <= i < |fields| ensures StringsCut(fields[i].value, r.fields[i].value, limit) { TrimCutsStrings(fields[i].value, limit); }
    case _ =>
  }

  lemma {:induction false} TrimShorter(j: Json, limit: int)
    requires limit >= 3
    ensures Size(Trim(j, limit)) <= Size(j)
  {
    var r := Trim(j, limit);
    match j
    case JStr(s) => TrimTextShorter(s, limit);
    case JList(items) =>
      forall i | 0 <= i < |items| ensures |ItemTexts(r)[i]| <= |ItemTexts(j)[i]| { TrimShorter(items[i], limit); }
      JoinShorter(ItemTexts(r), ItemTexts(j));
    case JObj(fields) =>
      forall i | 0 <= i < |fields| ensures |FieldTexts(r)[i]| <= |FieldTexts(j)[i]| { TrimShorter(fields[i].value, limit); }
      JoinShorter(FieldTexts(r), FieldTexts(j));
    case _ =>
  }

  lemma {:induction false} NothingAltered(j: Json, limit: int)
    ensures Altered(j, Trim(j, limit)) == 0 <==> Trim(j, limit) == j
    decreases j, 0
  {
    var r := Trim(j, limit);
    match j
    case JList(items) =>
      NothingAlteredItems(items, r.items, limit, |items|);
      if Altered(j, r) == 0 { assert r.items == items; }
    case JObj(fields) =>
      NothingAlteredFields(fields, r.fields, limit, |fields|);
      if Altered(j, r) == 0 { assert r.fields == fields; }
    case _ =>
  }

  lemma {:induction false} NothingAlteredItems(a: seq<Json>, b: seq<Json>, limit: int, n: nat)
    requires n <= |b| == |a| && forall i :: 0 <= i < |b| ==> b[i] == Trim(a[i], limit)
    ensures AlteredItems(a, b, n) == 0 <==> forall i :: 0 <= i < n ==> b[i] == a[i]
    decreases a, n
  {
    hide Trim, TrimText;
    if n > 0 {
      NothingAlteredItems(a, b, limit, n - 1);
      NothingAltered(a[n - 1], limit);
    }
  }

  lemma {:induction false} NothingAlteredFields(a: seq<Field>, b: seq<Field>, limit: int, n: nat)
    requires n <= |b| == |a| && forall i :: 0 <= i < |b| ==> b[i] == Field(a[i].key, Trim(a[i].value, limit))
    ensures AlteredFields(a, b, n) == 0 <==> forall i :: 0 <= i < n ==> b[i] == a[i]
    decreases a, n
  {
    hide Trim, TrimText;
    if n > 0 {
      NothingAlteredFields(a, b, limit, n - 1);
      NothingAltered(a[n - 1].value, limit);
    }
  }

  // ---------- _degrade_payload ----------

  const REASON_HEAD: string := "section exceeded budget "
  const REASON_TAIL: string := "after structured compaction"
  const DEGRADE_REASON: string := REASON_HEAD + REASON_TAIL
  const PREVIEW_LIMIT: nat := 1000
  const DEGRADED_MAX: nat := 2099
  const LONG_DEGRADED_MAX: nat := 2096

  function DegradeWith(reason: string, preview: string): (r: Json)
    ensures r.JObj? && |r.fields| == 3
  {
    JObj([Field("truncated", JBool(true)), Field("reason", JStr(reason)), Field("preview", JStr(preview))])
  }

  function Degrade(j: Json): Json {
    DegradeWith(DEGRADE_REASON, TrimText(Dumps(j), PREVIEW_LIMIT))
  }

  lemma {:induction false} Join3(p: seq<string>)
    requires |p| == 3
    ensures |Join(p)| == |p[0]| + |p[1]| + |p[2]| + 4
  {
    assert Join(p[2..]) == p[2];
    assert Join(p[1..]) == p[1] + ", " + Join(p[1..][1..]) && p[1..][1..] == p[2..];
  }

  lemma {:induction false} ThreeFieldsSize(f: seq<Field>)
    requires |f| == 3 && forall i :: 0 <= i < 3 ==> Plain(f[i].key)
    ensures Size(JObj(f)) == 18 + |f[0].key| + |f[1].key| + |f[2].key| + Size(f[0].value) + Size(f[1].value) + Size(f[2].value)
  {
    var p := FieldTexts(JObj(f));
    forall i | 0 <= i < 3 ensures |p[i]| == |f[i].key| + 4 + Size(f[i].value) { FieldSize(f[i].key, f[i].value); }
    Join3(p);
  }

  lemma {:induction false} DegradeWithSize(reason: string, preview: string)
    requires Plain(reason)
    ensures Size(DegradeWith(reason, preview)) == 48 + |reason| + |Escape(preview)|
  {
    ThreeFieldsSize(DegradeWith(reason, preview).fields);
    EscapePlain(reason);
  }

  lemma {:induction false} PlainReason()
    ensures Plain(DEGRADE_REASON) && |DEGRADE_REASON| == 51
  {
    PlainConcat(REASON_HEAD, REASON_TAIL);
  }

  /** A preview of at most 1000 characters of JSON text, each at most doubled, in a frame of 99. */
  lemma {:induction false} DegradeBound(j: Json)
    ensures Size(Degrade(j)) <= DEGRADED_MAX
  {
    var preview := TrimText(Dumps(j), PREVIEW_LIMIT);
    DumpsPrintable(j);
    EscapeDoubles(preview);
    PlainReason();
    DegradeWithSize(DEGRADE_REASON, preview);
  }

  /** A text longer than the preview ends in three dots, which do not double. */
  lemma {:induction false} DegradeLongBound(j: Json)
    requires Size(j) > PREVIEW_LIMIT
    ensures Size(Degrade(j)) <= LONG_DEGRADED_MAX
  {
    hide Escape, RStrip, Dumps, Degrade;
    DegradeSize(j);
    var front := RStrip(Dumps(j)[..PREVIEW_LIMIT - 3]);
    DumpsPrintable(j);
    EscapeDoubles(front);
    EscapeConcat(front, ELLIPSIS);
    EscapePlain(ELLIPSIS);
  }

  lemma {:induction false} DegradeSize(j: Json)
    ensures Size(Degrade(j)) == 99 + |Escape(TrimText(Dumps(j), PREVIEW_LIMIT))|
  {
    PlainReason();
    DegradeWithSize(DEGRADE_REASON, TrimText(Dumps(j), PREVIEW_LIMIT));
  }

  /** A degraded payload says so and shows the front of the text it replaces. */
  lemma {:induction false} DegradeSays(j: Json)
    ensures Degrade(j).JObj? && Lookup(Degrade(j).fields, "truncated") == JBool(true)
    ensures Lookup(Degrade(j).fields, "preview") == JStr(TrimText(Dumps(j), 1000))
  {
    hide Dumps, TrimText;
    var f := Degrade(j).fields;
    assert |"truncated"| == 9 && |"reason"| == 6 && |"preview"| == 7;
    assert f[1..][0] == f[1] && f[1..][1..] == f[2..] && f[2..][0] == f[2];
    assert Lookup(f[2..], "preview") == f[2].value && Lookup(f[1..], "preview") == Lookup(f[2..], "preview");
  }

  function Backslashes(n: nat): string {
    seq(n, _ => '\\')
  }

  lemma {:induction false} OpaqueBackslashes(n: nat)
    ensures Dumps(JOpaque(Backslashes(n))) == "\"" + Backslashes(2 * n) + "\""
  {
    EscapeBackslashes(n);
  }

  /** The bound is met, by an object that prints as 499 backslashes. */
  lemma {:induction false} DegradeBoundIsTight()
    ensures Size(JOpaque(Backslashes(499))) == PREVIEW_LIMIT && Size(Degrade(JOpaque(Backslashes(499)))) == DEGRADED_MAX
  {
    hide Escape, RStrip, Dumps, Degrade;
    var text := Dumps(JOpaque(Backslashes(499)));
    OpaqueBackslashes(499);
    DegradeSize(JOpaque(Backslashes(499)));
    AllDoubled(text);
    EscapeLength(text);
  }

  /** So is the one for text that has to be cut, by 500 of them. */
  lemma {:induction false} DegradeLongBoundIsTight()
    ensures Size(JOpaque(Backslashes(500))) == PREVIEW_LIMIT + 2 && Size(Degrade(JOpaque(Backslashes(500)))) == LONG_DEGRADED_MAX
  {
    hide Escape, RStrip, Dumps, Degrade;
    var text := Dumps(JOpaque(Backslashes(500)));
    OpaqueBackslashes(500);
    DegradeSize(JOpaque(Backslashes(500)));
    CutDoubled(text);
  }

  /** The length of a cut preview whose front does not end in white space. */
  lemma {:induction false} CutPreview(text: string)
    requires |text| > PREVIEW_LIMIT && Printable(text) && !IsSpace(text[996])
    ensures |Escape(TrimText(text, PREVIEW_LIMIT))| == 1000 + Doubled(text[..997])
  {
    hide Escape;
    var front := text[..997];
    StripNothing(front);
    EscapeLength(front);
    EscapeConcat(front, ELLIPSIS);
    EscapePlain(ELLIPSIS);
  }

  lemma {:induction false} CutDoubled(text: string)
    requires |text| > PREVIEW_LIMIT && forall i :: 0 <= i < 997 ==> text[i] == '\\' || text[i] == '"'
    requires Printable(text)
    ensures |Escape(TrimText(text, PREVIEW_LIMIT))| == 1997
  {
    CutPreview(text);
    AllDoubled(text[..997]);
  }

  lemma {:induction false} StripNothing(s: string)
    requires s != "" && !IsSpace(s[|s| - 1])
    ensures RStrip(s) == s
  {
  }

  // ---------- enforce_section_budget ----------

  datatype Report = Report(originalSize: nat, finalSize: nat, dropped: map<string, nat>, truncatedFields: seq<string>, truncated: bool)

  /** What `_compact_by_section` leaves behind: the tree and the two accounts. */
  datatype Compaction = Compaction(value: Json, dropped: map<string, nat>, truncatedFields: seq<string>)

  datatype Enforced = Enforced(value: Json, report: Report)

  const SHRINK_KEY: string := "runtime_list_shrink"
  const TEXT_LIMIT: int := 140

  function Count(m: map<string, nat>, key: string): nat {
    if key in m then m[key] else 0
  }

  function Active(dropped: map<string, nat>): (r: map<string, nat>)
    ensures forall k :: k in r <==> k in dropped && dropped[k] > 0
    ensures forall k :: k in r ==> r[k] == dropped[k]
  {
    map k | k in dropped && dropped[k] > 0 :: dropped[k]
  }

  /** `build_budget_report`. */
  function BuildReport(originalSize: nat, finalSize: nat, dropped: map<string, nat>, truncatedFields: seq<string>): Report {
    Report(originalSize, finalSize, Active(dropped), truncatedFields,
           finalSize < originalSize || Active(dropped) != map[] || truncatedFields != [])
  }

  function Texts(n: nat): (r: seq<string>)
    ensures |r| == n && forall i :: 0 <= i < n ==> r[i] == "text"
  {
    seq(n, _ => "text")
  }

  function ShrinkStage(c: Compaction, limit: int): Compaction {
    if Size(c.value) <= limit then c
    else
      var value := Shrink(c.value);
      Compaction(value, c.dropped[SHRINK_KEY := Count(c.dropped, SHRINK_KEY) + Missing(c.value, value)], c.truncatedFields)
  }

  function TrimStage(c: Compaction, limit: int): Compaction {
    if Size(c.value) <= limit then c
    else
      var value := Trim(c.value, TEXT_LIMIT);
      Compaction(value, c.dropped, c.truncatedFields + Texts(Altered(c.value, value)))
  }

  function DegradeStage(c: Compaction, limit: int): Compaction {
    if Size(c.value) <= limit then c else Compaction(Degrade(c.value), c.dropped, c.truncatedFields + ["*"])
  }

  function Stages(c: Compaction, limit: int): Compaction {
    DegradeStage(TrimStage(ShrinkStage(c, limit), limit), limit)
  }

  /** `budget or default_limit`. */
  function Limit(defaultLimit: int, budget: Option<int>): int {
    if budget.None? || budget.value == 0 then defaultLimit else budget.value
  }

  predicate PassesThrough(defaultLimit: int, budget: Option<int>, payload: Json) {
    budget.Some? && budget.value > defaultLimit && Size(payload) <= Limit(defaultLimit, budget)
  }

  /** `enforce_section_budget` before `_attach_limitations`; `compact` stands for `_compact_by_section`. */
  function Enforce(compact: Json -> Compaction, defaultLimit: int, budget: Option<int>, payload: Json): Enforced {
    if PassesThrough(defaultLimit, budget, payload) then
      Enforced(payload, BuildReport(Size(payload), Size(payload), map[], []))
    else
      var c := Stages(compact(payload), Limit(defaultLimit, budget));
      Enforced(c.value, BuildReport(Size(payload), Size(c.value), c.dropped, c.truncatedFields))
  }

  /** For every payload, compaction and budget, the reported size is the real one and at most the limit, or at most
      2096 when the limit is smaller than that; below a limit of 1000 it can be 2099. */
  lemma {:induction false} FinalSizeBound(compact: Json -> Compaction, defaultLimit: int, budget: Option<int>, payload: Json)
    ensures var limit := Limit(defaultLimit, budget);
            var r := Enforce(compact, defaultLimit, budget, payload);
            && r.report.finalSize == Size(r.value)
            && r.report.finalSize <= (if limit >= LONG_DEGRADED_MAX then limit
                                      else if limit >= PREVIEW_LIMIT then LONG_DEGRADED_MAX else DEGRADED_MAX)
  {
    hide Size, Degrade;
    var limit := Limit(defaultLimit, budget);
    var last := TrimStage(ShrinkStage(compact(payload), limit), limit).value;
    DegradeBound(last);
    if Size(last) > PREVIEW_LIMIT { DegradeLongBound(last); }
  }

  /** The limit is exceeded exactly when the trimmed tree exceeds it and its own escaped preview, framed, does too. */
  lemma {:induction false} OverLimitIff(compact: Json -> Compaction, defaultLimit: int, budget: Option<int>, payload: Json)
    ensures var limit := Limit(defaultLimit, budget);
            var last := TrimStage(ShrinkStage(compact(payload), limit), limit).value;
            Enforce(compact, defaultLimit, budget, payload).report.finalSize > limit
            <==> !PassesThrough(defaultLimit, budget, payload)
                 && Size(last) > limit && 99 + |Escape(TrimText(Dumps(last), PREVIEW_LIMIT))| > limit
  {
    hide Escape, RStrip, TrimText, Dumps, Degrade, ShrinkStage, TrimStage;
    var limit := Limit(defaultLimit, budget);
    DegradeSize(TrimStage(ShrinkStage(compact(payload), limit), limit).value);
  }

  /** The later stages never make the compacted tree larger, as long as the limit leaves room for a preview. */
  lemma {:induction false} StagesShorter(c: Compaction, limit: int)
    requires limit >= LONG_DEGRADED_MAX
    ensures Size(Stages(c, limit).value) <= Size(c.value)
  {
    hide Size;
    var shrunk := ShrinkStage(c, limit);
    ShrinkShorter(c.value);
    TrimShorter(shrunk.value, TEXT_LIMIT);
    var last := TrimStage(shrunk, limit).value;
    if Size(last) > limit { DegradeLongBound(last); }
  }

  /** The report measures the payload as it was handed in, and is flagged exactly when the result is shorter than that,
      something was dropped, or a field was cut. */
  lemma {:induction false} ReportExact(compact: Json -> Compaction, defaultLimit: int, budget: Option<int>, payload: Json)
    ensures var r := Enforce(compact, defaultLimit, budget, payload);
            && r.report.originalSize == Size(payload)
            && r.report.finalSize == Size(r.value)
            && (!r.report.truncated ==> Size(r.value) >= Size(payload))
            && (r.report.truncated <==>
                  || Size(r.value) < Size(payload)
                  || (exists k :: k in r.report.dropped && r.report.dropped[k] > 0)
                  || r.report.truncatedFields != [])
  {
    hide Size, Shrink, Trim, Degrade, Missing, Altered, Stages;
    var d := Enforce(compact, defaultLimit, budget, payload).report.dropped;
    if d != map[] {
      var k :| k in d;
      assert d[k] > 0;
    }
  }

  /** A larger budget that the payload meets passes it through; otherwise the compacted tree is delivered after the first
      stage that brings it within the limit, and each later stage leaves its mark among the cut fields. */
  lemma {:induction false} FirstStageThatFits(compact: Json -> Compaction, defaultLimit: int, budget: Option<int>, payload: Json)
    ensures var r := Enforce(compact, defaultLimit, budget, payload);
            var limit := if budget == None || budget == Some(0) then defaultLimit else budget.value;
            var c := compact(payload);
            var halved := Shrink(c.value);
            var cut := Trim(halved, 140);
            var marks := c.truncatedFields + Texts(Altered(halved, cut));
            if budget.Some? && budget.value > defaultLimit && Size(payload) <= limit then
              r.value == payload && r.report.dropped == map[] && r.report.truncatedFields == []
            else if Size(c.value) <= limit then r.value == c.value && r.report.truncatedFields == c.truncatedFields
            else if Size(halved) <= limit then r.value == halved && r.report.truncatedFields == c.truncatedFields
            else if Size(cut) <= limit then r.value == cut && r.report.truncatedFields == marks
            else r.value == Degrade(cut) && r.report.truncatedFields == marks + ["*"]
  {
    hide Size, Shrink, Trim, Degrade, Missing, Altered, Active, Texts;
  }

  /** A report that is not flagged is true: what the caller gets is exactly the compacted tree, nothing lost. */
  lemma {:induction false} UnflaggedUntouched(compact: Json -> Compaction, defaultLimit: int, budget: Option<int>, payload: Json)
    ensures var r := Enforce(compact, defaultLimit, budget, payload);
            !r.report.truncated ==>
              r.value == if PassesThrough(defaultLimit, budget, payload) then payload else compact(payload).value
  {
    hide Size, Shrink, Trim, Degrade, Missing, Altered;
    var c, limit := compact(payload), Limit(defaultLimit, budget);
    var r := Enforce(compact, defaultLimit, budget, payload);
    if !PassesThrough(defaultLimit, budget, payload) && !r.report.truncated {
      var shrunk := ShrinkStage(c, limit);
      var trimmed := TrimStage(shrunk, limit);
      var done := DegradeStage(trimmed, limit);
      assert Active(done.dropped) == map[] && done.truncatedFields == [];
      assert done == trimmed;
      NothingMissing(c.value);
      NothingAltered(shrunk.value, TEXT_LIMIT);
      if Size(c.value) > limit {
        assert SHRINK_KEY !in Active(done.dropped);
        assert done.dropped[SHRINK_KEY] == 0;
      }
    }
  }

  /** All elements of all lists of a tree. */
  function Elements(j: Json): nat
    decreases j, 0
  {
    match j
    case JList(items) => |items| + ElementsOfItems(items, |items|)
    case JObj(fields) => ElementsOfFields(fields, |fields|)
    case _ => 0
  }

  function ElementsOfItems(a: seq<Json>, n: nat): nat
    requires n <= |a|
    decreases a, n
  {
    if n == 0 then 0 else ElementsOfItems(a, n - 1) + Elements(a[n - 1])
  }

  function ElementsOfFields(a: seq<Field>, n: nat): nat
    requires n <= |a|
    decreases a, n
  {
    if n == 0 then 0 else ElementsOfFields(a, n - 1) + Elements(a[n - 1].value)
  }

  /** The elements of those lists of `a` that still stand in `b`. */
  function ElementsUnder(a: Json, b: Json): nat
    decreases a, 0
  {
    if a.JList? && b.JList? && |b.items| <= |a.items| then |a.items| + UnderItems(a.items, b.items, |b.items|)
    else if a.JObj? && b.JObj? && |a.fields| == |b.fields| then UnderFields(a.fields, b.fields, |b.fields|)
    else 0
  }

  function UnderItems(a: seq<Json>, b: seq<Json>, n: nat): nat
    requires n <= |a| && n <= |b|
    decreases a, n
  {
    if n == 0 then 0 else UnderItems(a, b, n - 1) + ElementsUnder(a[n - 1], b[n - 1])
  }

  function UnderFields(a: seq<Field>, b: seq<Field>, n: nat): nat
    requires n <= |a| && n <= |b|
    decreases a, n
  {
    if n == 0 then 0 else UnderFields(a, b, n - 1) + ElementsUnder(a[n - 1].value, b[n - 1].value)
  }

  /** However a tree was cut, the account is what its surviving lists held before less what they hold now. */
  lemma {:induction false} MissingIsDifference(a: Json, b: Json)
    requires CutFrom(a, b)
    ensures ElementsUnder(a, b) == Elements(b) + Missing(a, b)
    decreases a, 0
  {
    match a
    case JList(items) => MissingInItems(items, b.items, |b.items|);
    case JObj(fields) => MissingInFields(fields, b.fields, |b.fields|);
    case _ =>
  }

  lemma {:induction false} MissingInItems(a: seq<Json>, b: seq<Json>, n: nat)
    requires n <= |b| <= |a| && forall i :: 0 <= i < |b| ==> CutFrom(a[i], b[i])
    ensures UnderItems(a, b, n) == ElementsOfItems(b, n) + MissingItems(a, b, n)
    decreases a, n
  {
    if n > 0 {
      MissingInItems(a, b, n - 1);
      MissingIsDifference(a[n - 1], b[n - 1]);
    }
  }

  lemma {:induction false} MissingInFields(a: seq<Field>, b: seq<Field>, n: nat)
    requires n <= |b| == |a| && forall i :: 0 <= i < |b| ==> CutFrom(a[i].value, b[i].value)
    ensures UnderFields(a, b, n) == ElementsOfFields(b, n) + MissingFields(a, b, n)
    decreases a, n
  {
    if n > 0 {
      MissingInFields(a, b, n - 1);
      MissingIsDifference(a[n - 1].value, b[n - 1].value);
    }
  }

  /** The reported `runtime_list_shrink` grows, when the lists are halved, by exactly the elements their surviving
      lists lost; no later stage and no other entry touches the account. */
  lemma {:induction false} ShrinkAccount(compact: Json -> Compaction, defaultLimit: int, budget: Option<int>, payload: Json)
    requires !PassesThrough(defaultLimit, budget, payload)
    ensures var c, r := compact(payload), Enforce(compact, defaultLimit, budget, payload).report;
            var lost := if Size(c.value) > Limit(defaultLimit, budget)
                        then ElementsUnder(c.value, Shrink(c.value)) - Elements(Shrink(c.value)) else 0;
            && Count(r.dropped, SHRINK_KEY) == Count(c.dropped, SHRINK_KEY) + lost
            && forall k :: k != SHRINK_KEY ==> Count(r.dropped, k) == Count(c.dropped, k)
  {
    hide Size, Shrink, Trim, Degrade, Missing, Altered, Elements, ElementsUnder;
    ShrinkCuts(compact(payload).value);
    MissingIsDifference(compact(payload).value, Shrink(compact(payload).value));
  }

  // ---------- default limits ----------

  const SECTION_BUDGETS: map<string, int> := map[
    "account_context" := 3000, "position_context" := 3000, "trade_history_context" := 5000, "review_context" := 3000,
    "market_context" := 5000, "company_context" := 5000, "valuation_context" := 4000, "external_events" := 4000,
    "macro_context" := 3000, "daily_position_context" := 12000, "risk_context" := 3000, "data_quality" := 2000]

  function DefaultLimit(section: string): int {
    if section in SECTION_BUDGETS then SECTION_BUDGETS[section] else 4000
  }

  /** Every section but `data_quality` ends within its own default budget. */
  lemma {:induction false} DefaultBudgetsHold(compact: Json -> Compaction, section: string, payload: Json)
    requires section != "data_quality"
    ensures Enforce(compact, DefaultLimit(section), None, payload).report.finalSize <= DefaultLimit(section)
  {
    FinalSizeBound(compact, DefaultLimit(section), None, payload);
  }

  // ---------- the ledger, updated in place ----------

  lemma {:induction false} MissingItemsPrefix(a: seq<Json>, b: seq<Json>, c: seq<Json>, n: nat)
    requires n <= |b| && n <= |a|
    ensures MissingItems(a, b + c, n) == MissingItems(a, b, n)
  {
    if n > 0 { MissingItemsPrefix(a, b, c, n - 1); }
  }

  lemma {:induction false} MissingFieldsPrefix(a: seq<Field>, b: seq<Field>, c: seq<Field>, n: nat)
    requires n <= |b| && n <= |a|
    ensures MissingFields(a, b + c, n) == MissingFields(a, b, n)
  {
    if n > 0 { MissingFieldsPrefix(a, b, c, n - 1); }
  }

  lemma {:induction false} AlteredItemsPrefix(a: seq<Json>, b: seq<Json>, c: seq<Json>, n: nat)
    requires n <= |b| && n <= |a|
    ensures AlteredItems(a, b + c, n) == AlteredItems(a, b, n)
  {
    if n > 0 { AlteredItemsPrefix(a, b, c, n - 1); }
  }

  lemma {:induction false} AlteredFieldsPrefix(a: seq<Field>, b: seq<Field>, c: seq<Field>, n: nat)
    requires n <= |b| && n <= |a|
    ensures AlteredFields(a, b + c, n) == AlteredFields(a, b, n)
  {
    if n > 0 { AlteredFieldsPrefix(a, b, c, n - 1); }
  }

  class Ledger {
    var dropped: map<string, nat>
    var truncatedFields: seq<string>

    constructor ()
      ensures dropped == map[] && truncatedFields == []
    {
      dropped, truncatedFields := map[], [];
    }

    /** `_shrink_lists`: cuts and counts in one walk. */
    method ShrinkLists(value: Json) returns (r: Json)
      modifies `dropped
      ensures r == Shrink(value)
      ensures Counted(old(dropped), Missing(value, r))
      ensures Count(dropped, SHRINK_KEY) + Elements(r) == Count(old(dropped), SHRINK_KEY) + ElementsUnder(value, r)
      decreases value, 1
    {
      ShrinkCuts(value);
      MissingIsDifference(value, Shrink(value));
      hide ElementsUnder, Elements, CutFrom;
      match value
      case JList(items) =>
        var keep := if |items| / 2 > 1 then |items| / 2 else 1;
        var n := if keep < |items| then keep else |items|;
        dropped := dropped[SHRINK_KEY := Count(dropped, SHRINK_KEY) + if |items| > keep then |items| - keep else 0];
        var out := ShrinkItems(items, n);
        assert out == Shrink(value).items;
        r := JList(out);
      case JObj(fields) =>
        var out := ShrinkFields(fields);
        assert out == Shrink(value).fields;
        r := JObj(out);
      case _ =>
        r := value;
    }

    ghost predicate Counted(before: map<string, nat>, n: nat)
      reads this
    {
      && Count(dropped, SHRINK_KEY) == Count(before, SHRINK_KEY) + n
      && forall k :: k != SHRINK_KEY ==> Count(dropped, k) == Count(before, k)
    }

    method ShrinkItems(items: seq<Json>, n: nat) returns (out: seq<Json>)
      requires n <= |items|
      modifies `dropped
      ensures |out| == n && forall j :: 0 <= j < n ==> out[j] == Shrink(items[j])
      ensures Counted(old(dropped), MissingItems(items, out, n))
      decreases items, 0
    {
      hide Shrink, Missing, Count;
      out := [];
      for i := 0 to n
        invariant |out| == i && forall j :: 0 <= j < i ==> out[j] == Shrink(items[j])
        invariant Counted(old(dropped), MissingItems(items, out, i))
      {
        var item := ShrinkLists(items[i]);
        MissingItemsPrefix(items, out, [item], i);
        out := out + [item];
      }
    }

    method ShrinkFields(fields: seq<Field>) returns (out: seq<Field>)
      modifies `dropped
      ensures |out| == |fields| && forall j :: 0 <= j < |fields| ==> out[j] == Field(fields[j].key, Shrink(fields[j].value))
      ensures Counted(old(dropped), MissingFields(fields, out, |fields|))
      decreases fields, 0
    {
      hide Shrink, Missing, Count;
      out := [];
      for i := 0 to |fields|
        invariant |out| == i && forall j :: 0 <= j < i ==> out[j] == Field(fields[j].key, Shrink(fields[j].value))
        invariant Counted(old(dropped), MissingFields(fields, out, i))
      {
        var item := ShrinkLists(fields[i].value);
        MissingFieldsPrefix(fields, out, [Field(fields[i].key, item)], i);
        out := out + [Field(fields[i].key, item)];
      }
    }

    /** `_trim_strings`: one "text" entry per string it changes. */
    method TrimStrings(value: Json, limit: int) returns (r: Json)
      modifies `truncatedFields
      ensures r == Trim(value, limit)
      ensures truncatedFields == old(truncatedFields) + Texts(Altered(value, r))
      decreases value, 1
    {
      match value
      case JStr(s) =>
        var trimmed := TrimText(s, limit);
        if trimmed != s { truncatedFields := truncatedFields + ["text"]; }
        r := JStr(trimmed);
      case JList(items) =>
        var out := TrimItems(items, limit);
        assert out == Trim(value, limit).items;
        r := JList(out);
      case JObj(fields) =>
        var out := TrimFields(fields, limit);
        assert out == Trim(value, limit).fields;
        r := JObj(out);
      case _ =>
        r := value;
    }

    method TrimItems(items: seq<Json>, limit: int) returns (out: seq<Json>)
      modifies `truncatedFields
      ensures |out| == |items| && forall j :: 0 <= j < |items| ==> out[j] == Trim(items[j], limit)
      ensures truncatedFields == old(truncatedFields) + Texts(AlteredItems(items, out, |items|))
      decreases items, 0
    {
      hide Trim, Altered;
      out := [];
      for i := 0 to |items|
        invariant |out| == i && forall j :: 0 <= j < i ==> out[j] == Trim(items[j], limit)
        invariant truncatedFields == old(truncatedFields) + Texts(AlteredItems(items, out, i))
      {
        var item := TrimStrings(items[i], limit);
        AlteredItemsPrefix(items, out, [item], i);
        out := out + [item];
      }
    }

    method TrimFields(fields: seq<Field>, limit: int) returns (out: seq<Field>)
      modifies `truncatedFields
      ensures |out| == |fields| && forall j :: 0 <= j < |fields| ==> out[j] == Field(fields[j].key, Trim(fields[j].value, limit))
      ensures truncatedFields == old(truncatedFields) + Texts(AlteredFields(fields, out, |fields|))
      decreases fields, 0
    {
      hide Trim, Altered;
      out := [];
      for i := 0 to |fields|
        invariant |out| == i && forall j :: 0 <= j < i ==> out[j] == Field(fields[j].key, Trim(fields[j].value, limit))
        invariant truncatedFields == old(truncatedFields) + Texts(AlteredFields(fields, out, i))
      {
        var item := TrimStrings(fields[i].value, limit);
        AlteredFieldsPrefix(fields, out, [Field(fields[i].key, item)], i);
        out := out + [Field(fields[i].key, item)];
      }
    }

    /** `enforce_section_budget`: three stages, each only when the tree is still too large. */
    method EnforceSectionBudget(compact: Json -> Compaction, defaultLimit: int, budget: Option<int>, payload: Json)
      returns (r: Enforced)
      modifies this
      ensures r == Enforce(compact, defaultLimit, budget, payload)
    {
      hide Size, Shrink, Trim, Degrade, Missing, Altered, Active, BuildReport;
      dropped, truncatedFields := map[], [];
      var limit := Limit(defaultLimit, budget);
      var originalSize := Size(payload);
      if budget.Some? && budget.value > defaultLimit && originalSize <= limit {
        return Enforced(payload, BuildReport(originalSize, originalSize, dropped, truncatedFields));
      }
      var c := compact(payload);
      dropped, truncatedFields := c.dropped, c.truncatedFields;
      var value := c.value;
      if Size(value) > limit { value := ShrinkLists(value); }
      ghost var shrunk := ShrinkStage(c, limit);
      if Size(value) > limit { value := TrimStrings(value, TEXT_LIMIT); }
      if Size(value) > limit {
        value := Degrade(value);
        truncatedFields := truncatedFields + ["*"];
      }
      assert forall k :: Count(dropped, k) == Count(shrunk.dropped, k);
      SameReport(originalSize, Size(value), dropped, shrunk.dropped, truncatedFields);
      r := Enforced(value, BuildReport(originalSize, Size(value), dropped, truncatedFields));
    }
  }

  lemma {:induction false} SameReport(original: nat, final: nat, a: map<string, nat>, b: map<string, nat>, fields: seq<string>)
    requires forall k :: Count(a, k) == Count(b, k)
    ensures BuildReport(original, final, a, fields) == BuildReport(original, final, b, fields)
  {
    SameActive(a, b);
  }

  lemma {:induction false} SameActive(a: map<string, nat>, b: map<string, nat>)
    requires forall k :: Count(a, k) == Count(b, k)
    ensures Active(a) == Active(b)
  {
    forall k ensures k in Active(a) <==> k in Active(b) {
      assert Count(a, k) == Count(b, k);
    }
    forall k | k in Active(a) ensures Active(a)[k] == Active(b)[k] {
      assert Count(a, k) == Count(b, k);
    }
  }
}
