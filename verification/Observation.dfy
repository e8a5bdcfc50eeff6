/** What a tool result looks like to the model: engine payloads stripped, long text cut to a preview. */
module Observation {
  import opened Text
  import opened Json

  const ENGINE_PAYLOAD: string := "engine_payload"

  function Strip(j: Json): (r: Json)
    decreases j, 1
  {
    match j
    case JList(items) => JList(seq(|items|, i requires 0 <= i < |items| => Strip(items[i])))
    case JObj(fields) => JObj(StripFields(fields))
    case _ => j
  }

  function StripFields(fields: seq<Field>): (r: seq<Field>)
    decreases fields, 0
  {
    if fields == [] then []
    else
      (if fields[0].key == ENGINE_PAYLOAD then [] else [Field(fields[0].key, Strip(fields[0].value))])
      + StripFields(fields[1..])
  }

  predicate HasEnginePayload(j: Json)
    decreases j
  {
    match j
    case JList(items) => exists i :: 0 <= i < |items| && HasEnginePayload(items[i])
    case JObj(fields) => exists i :: 0 <= i < |fields| && (fields[i].key == ENGINE_PAYLOAD || HasEnginePayload(fields[i].value))
    case _ => false
  }

  /** No engine payload reaches the model, at any depth. */
  lemma {:induction false} StripRemovesPayload(j: Json)
    ensures !HasEnginePayload(Strip(j))
    decreases j, 1
  {
    match j
    case JList(items) =>
      forall i | 0 <= i < |items| ensures !HasEnginePayload(Strip(items[i])) { StripRemovesPayload(items[i]); }
    case JObj(fields) => StripFieldsRemoves(fields);
    case _ =>
  }

  lemma {:induction false} StripFieldsRemoves(fields: seq<Field>)
    ensures forall i :: 0 <= i < |StripFields(fields)| ==>
              StripFields(fields)[i].key != ENGINE_PAYLOAD && !HasEnginePayload(StripFields(fields)[i].value)
    decreases fields, 0
  {
    if fields != [] {
      StripRemovesPayload(fields[0].value);
      StripFieldsRemoves(fields[1..]);
    }
  }

  /** A tree without engine payloads is sent unchanged. */
  lemma {:induction false} StripKeepsTheRest(j: Json)
    requires !HasEnginePayload(j)
    ensures Strip(j) == j
    decreases j, 1
  {
    match j
    case JList(items) =>
      forall i | 0 <= i < |items| ensures Strip(items[i]) == items[i] { StripKeepsTheRest(items[i]); }
    case JObj(fields) => StripFieldsKeeps(fields);
    case _ =>
  }

  lemma {:induction false} StripFieldsKeeps(fields: seq<Field>)
    requires forall i :: 0 <= i < |fields| ==> fields[i].key != ENGINE_PAYLOAD && !HasEnginePayload(fields[i].value)
    ensures StripFields(fields) == fields
    decreases fields, 0
  {
    if fields != [] {
      StripKeepsTheRest(fields[0].value);
      StripFieldsKeeps(fields[1..]);
    }
  }

  /** Stripping goes field by field: payloads vanish, every other field keeps its key and its place. */
  lemma {:induction false} StripFieldByField(a: seq<Field>, f: Field, b: seq<Field>)
    ensures StripFields(a + [f] + b)
         == StripFields(a) + (if f.key == ENGINE_PAYLOAD then [] else [Field(f.key, Strip(f.value))]) + StripFields(b)
  {
    StripConcat(a + [f], b);
    StripConcat(a, [f]);
    assert [f][1..] == [];
    assert StripFields([f]) == (if f.key == ENGINE_PAYLOAD then [] else [Field(f.key, Strip(f.value))]) + StripFields([f][1..]);
  }

  lemma {:induction false} StripConcat(a: seq<Field>, b: seq<Field>)
    ensures StripFields(a + b) == StripFields(a) + StripFields(b)
  {
    if a == [] {
      assert a + b == b;
    } else {
      StripConcat(a[1..], b);
      assert (a + b)[1..] == a[1..] + b;
    }
  }

  // ---------- the size of an observation ----------

  function PreviewLimit(maxChars: int): (p: nat) {
    if maxChars - 300 > 200 then maxChars - 300 else 200
  }

  const REASON: string := "observation exceeded runtime max chars"
  const LIMITATION: string := "Tool observation was truncated by runtime"

  function Preview(text: string, maxChars: int): (r: string)
    ensures |r| <= PreviewLimit(maxChars) && r <= text
    ensures forall i :: |r| <= i < |text| && i < PreviewLimit(maxChars) ==> IsSpace(text[i])
  {
    RStrip(if |text| <= PreviewLimit(maxChars) then text else text[..PreviewLimit(maxChars)])
  }

  function FallbackWith(reason: string, limitation: string, originalSize: nat, finalSize: Json, preview: string): (r: Json)
    ensures r.JObj? && |r.fields| == 6
  {
    JObj([
      Field("truncated", JBool(true)),
      Field("reason", JStr(reason)),
      Field("original_size", Number(originalSize)),
      Field("final_size", finalSize),
      Field("preview", JStr(preview)),
      Field("data_limitations", JList([JStr(limitation)]))
    ])
  }

  function Fallback(originalSize: nat, finalSize: Json, preview: string): (r: Json)
    ensures r.JObj? && |r.fields| == 6
  {
    FallbackWith(REASON, LIMITATION, originalSize, finalSize, preview)
  }

  /** The `final_size` the fallback reports: measured while that field still holds null. */
  function ReportedSize(text: string, maxChars: int): nat {
    Size(Fallback(|text|, JNull, Preview(text, maxChars)))
  }

  function SerializeText(text: string, maxChars: int): string {
    if |text| <= maxChars then text
    else Dumps(Fallback(|text|, Number(ReportedSize(text, maxChars)), Preview(text, maxChars)))
  }

  /** `_serialize_observation`. */
  function Serialize(value: Json, maxChars: int): string {
    SerializeText(Dumps(Strip(value)), maxChars)
  }

  const FRAME: nat := 188

  lemma {:induction false} Join6(p: seq<string>)
    requires |p| == 6
    ensures |Join(p)| == |p[0]| + |p[1]| + |p[2]| + |p[3]| + |p[4]| + |p[5]| + 10
  {
    assert Join(p[5..]) == p[5];
    assert Join(p[4..]) == p[4] + ", " + Join(p[4..][1..]) && p[4..][1..] == p[5..];
    assert Join(p[3..]) == p[3] + ", " + Join(p[3..][1..]) && p[3..][1..] == p[4..];
    assert Join(p[2..]) == p[2] + ", " + Join(p[2..][1..]) && p[2..][1..] == p[3..];
    assert Join(p[1..]) == p[1] + ", " + Join(p[1..][1..]) && p[1..][1..] == p[2..];
  }

  lemma {:induction false} SingletonSize(s: string)
    requires Plain(s)
    ensures Size(JList([JStr(s)])) == |s| + 4
  {
    EscapePlain(s);
    var j := JList([JStr(s)]);
    assert ItemTexts(j) == [Quote(s)];
  }

  lemma {:induction false} SixFieldsSize(f: seq<Field>)
    requires |f| == 6 && forall i :: 0 <= i < 6 ==> Plain(f[i].key)
    ensures Size(JObj(f)) == 36 + |f[0].key| + |f[1].key| + |f[2].key| + |f[3].key| + |f[4].key| + |f[5].key|
                          + Size(f[0].value) + Size(f[1].value) + Size(f[2].value)
                          + Size(f[3].value) + Size(f[4].value) + Size(f[5].value)
  {
    var p := FieldTexts(JObj(f));
    forall i | 0 <= i < 6 ensures |p[i]| == |f[i].key| + 4 + Size(f[i].value) { FieldSize(f[i].key, f[i].value); }
    Join6(p);
  }

  lemma {:induction false} FallbackWithSize(reason: string, limitation: string, originalSize: nat, finalSize: Json, preview: string)
    requires Plain(reason) && Plain(limitation)
    ensures Size(FallbackWith(reason, limitation, originalSize, finalSize, preview))
         == 109 + |reason| + |limitation| + |Digits(originalSize)| + Size(finalSize) + |Escape(preview)|
  {
    var j := FallbackWith(reason, limitation, originalSize, finalSize, preview);
    SixFieldsSize(j.fields);
    EscapePlain(reason);
    SingletonSize(limitation);
  }

  lemma {:induction false} PlainReason()
    ensures Plain(REASON) && |REASON| == 38
  {
  }

  lemma {:induction false} PlainLimitation()
    ensures Plain(LIMITATION) && |LIMITATION| == 41
  {
  }

  /** The exact length of the fallback text. */
  lemma {:induction false} FallbackSize(originalSize: nat, finalSize: Json, preview: string)
    ensures Size(Fallback(originalSize, finalSize, preview))
         == FRAME + |Digits(originalSize)| + Size(finalSize) + |Escape(preview)|
  {
    PlainReason();
    PlainLimitation();
    FallbackWithSize(REASON, LIMITATION, originalSize, finalSize, preview);
  }

  /** The hard bound: the limit itself, or a preview that doubles at most, the fixed frame and two numbers. */
  lemma {:induction false} SerializeBound(value: Json, maxChars: int)
    ensures var text := Dumps(Strip(value));
            var out := Serialize(value, maxChars);
            if |text| <= maxChars then out == text
            else |out| <= 2 * PreviewLimit(maxChars) + FRAME + |Digits(|text|)| + |Digits(ReportedSize(text, maxChars))|
  {
    var text := Dumps(Strip(value));
    if |text| > maxChars {
      var preview := Preview(text, maxChars);
      DumpsPrintable(Strip(value));
      EscapeDoubles(preview);
      FallbackSize(|text|, Number(ReportedSize(text, maxChars)), preview);
    }
  }

  lemma {:induction false} FourDigits(n: nat)
    ensures |Digits(n)| == 4 <==> 1000 <= n <= 9999
    ensures |Digits(n)| > 4 <==> n >= 10000
  {
    assert Pow10(3) == 1000 by { assert Pow10(1) == 10; assert Pow10(2) == 100; }
    assert Pow10(4) == 10000;
    if n >= 10000 { DigitsLengthAtLeast(n, 4); } else { DigitsLength(n, 4); }
    if n >= 1000 { DigitsLengthAtLeast(n, 3); } else { DigitsLength(n, 3); }
  }

  /** The size the fallback reports for a text and a limit. */
  function Estimate(text: string, maxChars: int): nat {
    FRAME + 4 + |Digits(|text|)| + |Escape(Preview(text, maxChars))|
  }

  /** The size written into the fallback was measured with `null` in its own place, so it misses its real length by its
      own digits less four: it is too large below 1000, right up to 9999 and too small from there on. */
  lemma {:induction false} ReportedSizeExact(value: Json, maxChars: int)
    requires |Dumps(Strip(value))| > maxChars
    ensures var text := Dumps(Strip(value));
            var reported, actual := ReportedSize(text, maxChars), |Serialize(value, maxChars)|;
            && reported == Estimate(text, maxChars)
            && actual == reported - 4 + |Digits(reported)|
            && (actual == reported <==> 1000 <= Estimate(text, maxChars) <= 9999)
            && (actual > reported <==> Estimate(text, maxChars) >= 10000)
  {
    hide Dumps, Escape, Digits;
    var text := Dumps(Strip(value));
    var preview, reported := Preview(text, maxChars), ReportedSize(text, maxChars);
    FallbackSize(|text|, JNull, preview);
    FallbackSize(|text|, Number(reported), preview);
    NullSize();
    NumberSize(reported);
    FourDigits(reported);
  }

  lemma {:induction false} NullSize()
    ensures Size(JNull) == 4
  {
  }

  lemma {:induction false} NumberSize(n: nat)
    ensures Size(Number(n)) == |Digits(n)|
  {
  }

  const DEFAULT_MAX_CHARS: int := 12000

  /** Under the default limit a cut observation whose preview keeps 9803 characters reports too little. */
  lemma {:induction false} DefaultReportsTooLittle(value: Json)
    requires |Dumps(Strip(value))| > DEFAULT_MAX_CHARS && |Preview(Dumps(Strip(value)), DEFAULT_MAX_CHARS)| >= 9803
    ensures |Serialize(value, DEFAULT_MAX_CHARS)| > ReportedSize(Dumps(Strip(value)), DEFAULT_MAX_CHARS)
  {
    ReportedSizeExact(value, DEFAULT_MAX_CHARS);
    FourDigits(|Dumps(Strip(value))|);
  }

  /** What a cut observation tells the model: that it was cut, the length it had, the reported size, and a preview that
      is the front of the text up to white space. */
  lemma {:induction false} CutSays(value: Json, maxChars: int) returns (fields: seq<Field>)
    requires |Dumps(Strip(value))| > maxChars
    ensures var text := Dumps(Strip(value));
            && Serialize(value, maxChars) == Dumps(JObj(fields))
            && Lookup(fields, "truncated") == JBool(true)
            && Lookup(fields, "original_size") == Number(|text|)
            && Lookup(fields, "final_size") == Number(Estimate(text, maxChars))
            && Lookup(fields, "preview") == JStr(Preview(text, maxChars))
  {
    var text := Dumps(Strip(value));
    ReportedSizeExact(value, maxChars);
    fields := Fallback(|text|, Number(ReportedSize(text, maxChars)), Preview(text, maxChars)).fields;
    hide Dumps, Strip, Estimate, ReportedSize, Preview, Number, Serialize, REASON, LIMITATION, Lookup;
    assert |"truncated"| == 9 && |"reason"| == 6 && |"original_size"| == 13 && |"final_size"| == 10 && |"preview"| == 7;
    SixLookups(fields);
  }

  lemma {:induction false} SixLookups(f: seq<Field>)
    requires |f| == 6 && |f[0].key| == 9 && |f[1].key| == 6 && |f[2].key| == 13 && |f[3].key| == 10 && |f[4].key| == 7
    ensures Lookup(f, f[0].key) == f[0].value && Lookup(f, f[2].key) == f[2].value
    ensures Lookup(f, f[3].key) == f[3].value && Lookup(f, f[4].key) == f[4].value
  {
    assert f[1..][0] == f[1] && f[1..][1..] == f[2..] && f[2..][0] == f[2] && f[2..][1..] == f[3..];
    assert f[3..][0] == f[3] && f[3..][1..] == f[4..] && f[4..][0] == f[4];
    assert Lookup(f[4..], f[4].key) == f[4].value && Lookup(f[3..], f[3].key) == f[3].value && Lookup(f[2..], f[2].key) == f[2].value;
    assert Lookup(f, f[4].key) == Lookup(f[1..], f[4].key) == Lookup(f[2..], f[4].key) == Lookup(f[3..], f[4].key);
    assert Lookup(f, f[3].key) == Lookup(f[1..], f[3].key) == Lookup(f[2..], f[3].key);
    assert Lookup(f, f[2].key) == Lookup(f[1..], f[2].key);
  }

  // ---------- stripping never lengthens ----------

  /** Stripping shortens the text exactly when there is something to strip. */
  lemma {:induction false} StripShorter(j: Json)
    ensures Size(Strip(j)) <= Size(j)
    ensures Size(Strip(j)) < Size(j) <==> HasEnginePayload(j)
    decreases j, 2
  {
    if !HasEnginePayload(j) {
      StripKeepsTheRest(j);
    } else {
      match j
      case JList(items) =>
        var t := Strip(j);
        forall i | 0 <= i < |items|
          ensures |ItemTexts(t)[i]| <= |ItemTexts(j)[i]| && (HasEnginePayload(items[i]) ==> |ItemTexts(t)[i]| < |ItemTexts(j)[i]|) {
          StripShorter(items[i]);
        }
        JoinShorter(ItemTexts(t), ItemTexts(j));
        var i :| 0 <= i < |items| && HasEnginePayload(items[i]);
        assert |ItemTexts(t)[i]| < |ItemTexts(j)[i]|;
      case JObj(fields) =>
        StripFieldsShorter(j);
    }
  }

  predicate CarriesPayload(f: Field) {
    f.key == ENGINE_PAYLOAD || HasEnginePayload(f.value)
  }

  lemma {:induction false} StripFieldsShorter(j: Json)
    requires j.JObj? && HasEnginePayload(j)
    ensures Size(JObj(StripFields(j.fields))) < Size(j)
    decreases j, 1
  {
    var i :| 0 <= i < |j.fields| && (j.fields[i].key == ENGINE_PAYLOAD || HasEnginePayload(j.fields[i].value));
    assert CarriesPayload(j.fields[i]);
    StripTextsShorter(j, j.fields);
  }

  lemma {:induction false} StripTextsShorter(j: Json, rest: seq<Field>)
    requires j.JObj? && forall f :: f in rest ==> f in j.fields
    ensures |StripFields(rest)| <= |rest|
    ensures |Join(Parts(StripFields(rest)))| <= |Join(Parts(rest))|
    ensures (exists f :: f in rest && CarriesPayload(f)) ==> |Join(Parts(StripFields(rest)))| < |Join(Parts(rest))|
    decreases j, 0, |rest|
  {
    hide Dumps, Quote, Join, Parts, Strip, HasEnginePayload;
    if rest == [] {
      EmptyParts();
    } else {
      var f, tail := rest[0], rest[1..];
      assert rest == [f] + tail && f in rest;
      PartsCons(f, tail);
      JoinCons(Quote(f.key) + ": " + Dumps(f.value), Parts(tail));
      StripTextsShorter(j, tail);
      if f.key == ENGINE_PAYLOAD {
        assert StripFields(rest) == StripFields(tail);
        EmptyParts();
      } else {
        var i :| 0 <= i < |j.fields| && j.fields[i] == f;
        StripShorter(j.fields[i].value);
        PartsCons(Field(f.key, Strip(f.value)), StripFields(tail));
        JoinCons(Quote(f.key) + ": " + Dumps(Strip(f.value)), Parts(StripFields(tail)));
      }
    }
  }
}
