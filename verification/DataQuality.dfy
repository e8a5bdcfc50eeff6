/** The one section whose default budget is smaller than a preview can be: `compact_data_quality` under
    `enforce_section_budget`. */
module DataQuality {
  import opened Wrappers
  import opened Text
  import opened Json
  import opened PublicItem
  import opened ContextBudget

  /** `str(value or "")`; `show` prints what is neither text nor empty. */
  function AsText(show: Json -> string, j: Json): string {
    match j
    case JStr(s) => s
    case JNull => ""
    case _ => show(j)
  }

  /** One of the three lists: cut to `count` items, each item cut to `limit` characters; anything else is an empty list. */
  function CutList(show: Json -> string, j: Json, count: nat, limit: int): (r: Json)
    ensures r.JList? && |r.items| <= count
  {
    var items := if j.JList? then Head(j.items, count) else [];
    JList(seq(|items|, i requires 0 <= i < |items| => JStr(TrimText(AsText(show, items[i]), limit))))
  }

  /** `compact_data_quality`. */
  function Compact(show: Json -> string, value: Json, count: nat): Json {
    var fields := if value.JObj? then value.fields else [];
    JObj([Field("missing_fields", CutList(show, Lookup(fields, "missing_fields"), count, 160)),
          Field("warnings", CutList(show, Lookup(fields, "warnings"), count, 180)),
          Field("limitations", CutList(show, Lookup(fields, "limitations"), count, 180))])
  }

  /** What the section hands to the later stages. */
  function Compactor(show: Json -> string): Json -> Compaction {
    value => Compaction(Compact(show, value, 10), map[], [])
  }

  const SECTION := "data_quality"

  /** Each list keeps the front of what was given, item by item: at most `count` items, text cut to its own limit. */
  ghost predicate FrontKept(show: Json -> string, given: Json, kept: Json, count: nat, limit: int) {
    && kept.JList?
    && |kept.items| == (if !given.JList? then 0 else if |given.items| < count then |given.items| else count)
    && forall i :: 0 <= i < |kept.items| ==>
         && kept.items[i].JStr?
         && (given.items[i].JStr? && |given.items[i].s| <= limit ==> kept.items[i] == given.items[i])
         && |kept.items[i].s| <= limit
  }

  lemma {:induction false} CutListKeepsFront(show: Json -> string, given: Json, count: nat, limit: int)
    requires limit >= 3
    ensures FrontKept(show, given, CutList(show, given, count, limit), count, limit)
  {
    hide TrimText;
    var items, r := if given.JList? then Head(given.items, count) else [], CutList(show, given, count, limit);
    forall i | 0 <= i < |r.items|
      ensures r.items[i].JStr? && |r.items[i].s| <= limit
      ensures given.items[i].JStr? && |given.items[i].s| <= limit ==> r.items[i] == given.items[i] {
      assert items[i] == given.items[i];
      var text := AsText(show, items[i]);
      assert r.items[i] == JStr(TrimText(text, limit));
      assert |text| <= limit || limit < |text|;
    }
  }

  lemma {:induction false} CompactKeepsFronts(show: Json -> string, value: Json, count: nat)
    requires value.JObj?
    ensures var f := Compact(show, value, count).fields;
            && |f| == 3 && f[0].key == "missing_fields" && f[1].key == "warnings" && f[2].key == "limitations"
            && FrontKept(show, Lookup(value.fields, "missing_fields"), f[0].value, count, 160)
            && FrontKept(show, Lookup(value.fields, "warnings"), f[1].value, count, 180)
            && FrontKept(show, Lookup(value.fields, "limitations"), f[2].value, count, 180)
  {
    CutListKeepsFront(show, Lookup(value.fields, "missing_fields"), count, 160);
    CutListKeepsFront(show, Lookup(value.fields, "warnings"), count, 180);
    CutListKeepsFront(show, Lookup(value.fields, "limitations"), count, 180);
    hide CutList, FrontKept, Lookup;
  }

  // ---------- a section over its budget ----------

  const ITEM: string := Backslashes(140)
  const PRINTED: string := "\"" + Backslashes(280) + "\""

  function Items(n: nat): Json {
    JList(seq(n, _ => JStr(ITEM)))
  }

  /** Three lists of n items, each 140 backslashes. */
  function Sample(n: nat): Json {
    JObj([Field("missing_fields", Items(n)), Field("warnings", Items(n)), Field("limitations", Items(n))])
  }

  lemma {:induction false} CompactKeepsSample(show: Json -> string)
    ensures Compact(show, Sample(10), 10) == Sample(10)
  {
    var fields := Sample(10).fields;
    assert |"missing_fields"| == 14 && |"warnings"| == 8 && |"limitations"| == 11;
    assert fields[1..][0] == fields[1] && fields[1..][1..][0] == fields[2];
    assert Lookup(fields, "missing_fields") == Lookup(fields, "warnings") == Lookup(fields, "limitations") == Items(10);
    CutKeepsItems(show, 160);
    CutKeepsItems(show, 180);
  }

  lemma {:induction false} CutKeepsItems(show: Json -> string, limit: int)
    requires limit >= 140
    ensures CutList(show, Items(10), 10, limit) == Items(10)
  {
    hide TrimText;
    TrimKeepsItem(limit);
    var items, r := Items(10).items, CutList(show, Items(10), 10, limit);
    assert Head(items, 10) == items && |r.items| == 10;
    forall i | 0 <= i < 10 ensures r.items[i] == items[i] {
      assert items[i] == JStr(ITEM) && AsText(show, JStr(ITEM)) == ITEM;
      assert r.items[i] == JStr(TrimText(AsText(show, items[i]), limit));
    }
    assert r.items == items;
  }

  lemma {:induction false} TrimKeepsItem(limit: int)
    requires limit >= 140
    ensures TrimText(ITEM, limit) == ITEM
  {
  }

  lemma {:induction false} ShrinkSample()
    ensures Shrink(Sample(10)) == Sample(5)
  {
    assert Shrink(Items(10)).items == Items(5).items;
    assert Shrink(Sample(10)).fields == Sample(5).fields;
  }

  lemma {:induction false} TrimKeepsSample()
    ensures Trim(Sample(5), TEXT_LIMIT) == Sample(5)
  {
    TrimFixedPoint(Sample(5), TEXT_LIMIT);
  }

  lemma {:induction false} ItemTextsPrinted(n: nat)
    ensures ItemTexts(Items(n)) == seq(n, _ => PRINTED)
  {
    EscapeBackslashes(140);
  }

  lemma {:induction false} JoinPrinted(n: nat)
    ensures |Join(seq(n, _ => PRINTED))| == if n == 0 then 0 else 284 * n - 2
  {
    if n > 1 {
      JoinPrinted(n - 1);
      assert seq(n, _ => PRINTED)[1..] == seq(n - 1, _ => PRINTED);
    }
  }

  lemma {:induction false} SampleSize(n: nat)
    requires n > 0
    ensures Size(Sample(n)) == 51 + 852 * n
  {
    hide Escape, Join;
    ItemTextsPrinted(n);
    JoinPrinted(n);
    assert Size(Items(n)) == 284 * n;
    ThreeFieldsSize(Sample(n).fields);
  }

  const KEY: string := "missing_fields"

  function Opening(key: string): string {
    "{" + ("\"" + key + "\"") + ": ["
  }

  function Front(opening: string, q: string): string {
    opening + q + ", " + q + ", " + q + ", "
  }

  lemma {:induction false} JoinFive(q: string)
    ensures q + ", " + q + ", " + q + ", " + q <= Join(seq(5, _ => q))
  {
    var five, four, three, two := seq(5, _ => q), seq(4, _ => q), seq(3, _ => q), seq(2, _ => q);
    assert five[1..] == four && four[1..] == three && three[1..] == two;
    var last := ", " + Join(two[1..]);
    assert Join(two) == q + last;
    hide Join;
    assert Join(five) == q + ", " + (q + ", " + (q + ", " + (q + last))) by { JoinStep(five); JoinStep(four); JoinStep(three); }
    assert Join(five) == (q + ", " + q + ", " + q + ", " + q) + last;
  }

  lemma {:induction false} JoinStep(parts: seq<string>)
    requires |parts| > 1
    ensures Join(parts) == parts[0] + ", " + Join(parts[1..])
  {
  }

  lemma {:induction false} FirstField(parts: seq<string>, key: string, list: string)
    requires |parts| > 1 && parts[0] == "\"" + key + "\"" + ": " + ("[" + list + "]")
    ensures Opening(key) + list <= "{" + Join(parts) + "}"
  {
    JoinStep(parts);
    hide Join;
    var text := "{" + (parts[0] + ", " + Join(parts[1..])) + "}";
    assert text == (Opening(key) + list) + ("]" + (", " + Join(parts[1..])) + "}");
  }

  lemma {:induction false} FirstItems()
    ensures Front(Opening(KEY), PRINTED) + PRINTED <= Dumps(Sample(5))
  {
    var list := Join(seq(5, _ => PRINTED));
    var p := FieldTexts(Sample(5));
    ItemTextsPrinted(5);
    EscapePlain(KEY);
    assert p[0] == Quote(KEY) + ": " + ("[" + list + "]");
    hide Escape, Join, PRINTED, ITEM, KEY, Opening;
    FirstField(p, KEY, list);
    JoinFive(PRINTED);
    FrontOf(Opening(KEY), PRINTED, list, Dumps(Sample(5)));
  }

  lemma {:induction false} FrontOf(opening: string, q: string, list: string, text: string)
    requires opening + list <= text && q + ", " + q + ", " + q + ", " + q <= list
    ensures Front(opening, q) + q <= text
  {
    var four := q + ", " + q + ", " + q + ", " + q;
    assert list == four + list[|four|..];
    assert text == opening + list + text[|opening + list|..];
    assert Front(opening, q) + q == opening + four;
    assert text == (opening + four) + (list[|four|..] + text[|opening + list|..]);
  }

  lemma {:induction false} PlainNotDoubled(s: string)
    requires Plain(s)
    ensures Doubled(s) == 0
  {
    if s != "" { PlainNotDoubled(s[1..]); }
  }

  lemma {:induction false} OpeningDoubled(key: string)
    requires Plain(key)
    ensures |Opening(key)| == |key| + 6 && Doubled(Opening(key)) == 2
  {
    var q := "\"";
    AllDoubled(q);
    PlainNotDoubled("{"); PlainNotDoubled(key); PlainNotDoubled(": [");
    hide Doubled;
    DoubledConcat(q, key);
    DoubledConcat(q + key, q);
    DoubledConcat("{", q + key + q);
    DoubledConcat("{" + (q + key + q), ": [");
  }

  lemma {:induction false} FrontDoubled(opening: string, q: string)
    ensures Doubled(Front(opening, q)) == Doubled(opening) + 3 * Doubled(q)
  {
    PlainNotDoubled(", ");
    hide Doubled;
    DoubledConcat(opening, q);
    DoubledConcat(opening + q, ", ");
    DoubledConcat(opening + q + ", ", q);
    DoubledConcat(opening + q + ", " + q, ", ");
    DoubledConcat(opening + q + ", " + q + ", ", q);
    DoubledConcat(opening + q + ", " + q + ", " + q, ", ");
  }

  lemma {:induction false} CutInside(text: string, front: string, q: string)
    requires Printable(text) && front + q <= text && |text| > PREVIEW_LIMIT
    requires |front| == 872 && |q| > 125 && !IsSpace(q[124])
    requires forall i :: 0 <= i < 125 ==> q[i] == '\\' || q[i] == '"'
    ensures |Escape(TrimText(text, PREVIEW_LIMIT))| == 1125 + Doubled(front)
  {
    hide Escape, Doubled, TrimText;
    var part := q[..125];
    assert text[..997] == (front + q)[..997] == front + part;
    assert text[996] == text[..997][996] == part[124];
    AllDoubled(part);
    DoubledConcat(front, part);
    CutPreview(text);
  }

  lemma {:induction false} SamplePreview()
    ensures |Escape(TrimText(Dumps(Sample(5)), PREVIEW_LIMIT))| == 1973
  {
    hide Escape, Doubled, TrimText, Dumps;
    SampleSize(5);
    FirstItems();
    OpeningDoubled(KEY);
    FrontDoubled(Opening(KEY), PRINTED);
    AllDoubled(PRINTED);
    DumpsPrintable(Sample(5));
    CutInside(Dumps(Sample(5)), Front(Opening(KEY), PRINTED), PRINTED);
  }

  /** The budget of the section is 2000, yet this payload comes out with 2072 characters. */
  lemma {:induction false} OverBudgetExample(show: Json -> string)
    ensures DefaultLimit(SECTION) == 2000
    ensures Enforce(Compactor(show), DefaultLimit(SECTION), None, Sample(10)).report.finalSize == 2072
  {
    hide Size, Escape, TrimText, Shrink, Trim, Sample, Degrade, Compact;
    CompactKeepsSample(show);
    ShrinkSample();
    TrimKeepsSample();
    SampleSize(10);
    SampleSize(5);
    SamplePreview();
    DegradeSize(Sample(5));
  }

  /** It never comes out with more than 2096, and it exceeds 2000 exactly when the halved and trimmed lists do and their
      own preview, escaped and framed, does too. */
  lemma {:induction false} OverBudgetIff(show: Json -> string, payload: Json)
    ensures var final := Enforce(Compactor(show), DefaultLimit(SECTION), None, payload).report.finalSize;
            var compacted := Compact(show, payload, 10);
            var last := Trim(Shrink(compacted), TEXT_LIMIT);
            && final <= 2096
            && (final > 2000 <==> Size(last) > 2000 && 99 + |Escape(TrimText(Dumps(last), PREVIEW_LIMIT))| > 2000)
  {
    hide Escape, TrimText, Dumps, Trim, Shrink, Compact, Degrade, Size;
    var compacted := Compact(show, payload, 10);
    FinalSizeBound(Compactor(show), DefaultLimit(SECTION), None, payload);
    OverLimitIff(Compactor(show), DefaultLimit(SECTION), None, payload);
    ShrinkShorter(compacted);
    TrimShorter(Shrink(compacted), TEXT_LIMIT);
    assert DefaultLimit(SECTION) == 2000;
  }
}
