/** `_observation_trace_meta`: what a finish event says about the size of its observation. */
module ObservationMeta {
  import opened Text
  import opened Json
  import opened Observation
  import opened Runtime

  /** An engine payload somewhere in the arguments or in the output. */
  predicate HoldsPayload(e: Execution) {
    HasEnginePayload(JObj(e.arguments)) || HasEnginePayload(e.output)
  }

  lemma {:induction false} PayloadSeen(e: Execution)
    ensures HasEnginePayload(ObservationOf(e)) <==> HoldsPayload(e)
  {
    var fields := ObservationOf(e).fields;
    assert |"ok"| == 2 && |"tool"| == 4 && |"arguments"| == 9 && |"data"| == 4 && |ENGINE_PAYLOAD| == 14;
    assert fields[0].value == JBool(e.ok) && fields[1].value == JStr(e.name);
    assert fields[2].value == JObj(e.arguments) && fields[3].value == e.output;
    assert forall i :: 0 <= i < 4 ==> fields[i].key != ENGINE_PAYLOAD;
  }

  /** The four things an observation says about its execution. */
  lemma {:induction false} ObservationSays(e: Execution)
    ensures var f := ObservationOf(e).fields;
            Lookup(f, "ok") == JBool(e.ok) && Lookup(f, "tool") == JStr(e.name)
            && Lookup(f, "arguments") == JObj(e.arguments) && Lookup(f, "data") == e.output
  {
    var f := ObservationOf(e).fields;
    assert |"ok"| == 2 && |"tool"| == 4 && |"arguments"| == 9 && |"data"| == 4 && "tool"[0] == 't' && "data"[0] == 'd';
    assert f[1..][0] == f[1] && f[1..][1..] == f[2..] && f[2..][0] == f[2] && f[2..][1..] == f[3..] && f[3..][0] == f[3];
    assert Lookup(f[3..], "data") == e.output && Lookup(f[2..], "data") == Lookup(f[3..], "data");
    assert Lookup(f[1..], "data") == Lookup(f[2..], "data") && Lookup(f[2..], "arguments") == JObj(e.arguments);
    assert Lookup(f[1..], "arguments") == Lookup(f[2..], "arguments") && Lookup(f[1..], "tool") == JStr(e.name);
  }

  /** The event of an execution: a finish or an error as it went, under its own call, with the size before stripping and
      the size of what is sent. */
  lemma {:induction false} FinishSays(maxChars: int, e: Execution)
    ensures var event := FinishEvent(maxChars, e);
            && event.ToolFinish? == e.ok && event.ToolError? == !e.ok
            && event.callId == e.callId && event.tool == e.name && event.arguments == e.arguments
            && event.originalSize == |Dumps(ObservationOf(e))| && event.finalSize == |Serialize(ObservationOf(e), maxChars)|
  {
  }

  predicate Cut(maxChars: int, e: Execution) {
    Size(Strip(ObservationOf(e))) > maxChars
  }

  predicate Truthful(maxChars: int, e: Execution) {
    FinishEvent(maxChars, e).truncated <==> Cut(maxChars, e)
  }

  /** A cut observation is always flagged. The flag is right under every limit exactly when neither the arguments nor the
      output of the execution hold an engine payload. */
  lemma {:induction false} FlagExact(e: Execution)
    ensures forall maxChars :: Cut(maxChars, e) ==> FinishEvent(maxChars, e).truncated
    ensures (forall maxChars :: Truthful(maxChars, e)) <==> !HoldsPayload(e)
  {
    hide Size, Strip, Serialize, ObservationOf;
    var v := ObservationOf(e);
    PayloadSeen(e);
    StripShorter(v);
    if HoldsPayload(e) {
      assert !Truthful(Size(Strip(v)), e);
    }
  }

  // ---------- concrete executions ----------

  lemma {:induction false} Join4(p: seq<string>)
    requires |p| == 4
    ensures Join(p) == p[0] + ", " + p[1] + ", " + p[2] + ", " + p[3]
  {
    assert Join(p[3..]) == p[3];
    assert Join(p[2..]) == p[2] + ", " + Join(p[2..][1..]) && p[2..][1..] == p[3..];
    assert Join(p[1..]) == p[1] + ", " + Join(p[1..][1..]) && p[1..][1..] == p[2..];
  }

  /** How an object of four fields ends in its last value. */
  lemma {:induction false} FourFieldsText(f: seq<Field>) returns (head: string)
    requires |f| == 4 && forall i :: 0 <= i < 4 ==> Plain(f[i].key)
    ensures |head| == 23 + |f[0].key| + |f[1].key| + |f[2].key| + |f[3].key|
                      + Size(f[0].value) + Size(f[1].value) + Size(f[2].value)
    ensures Dumps(JObj(f)) == head + Dumps(f[3].value) + "}"
  {
    hide Escape, Join, Dumps, Quote;
    var p := FieldTexts(JObj(f));
    FieldSize(f[0].key, f[0].value); FieldSize(f[1].key, f[1].value); FieldSize(f[2].key, f[2].value);
    var key := Quote(f[3].key) + ": ";
    assert |key| == |f[3].key| + 4 by { FieldSize(f[3].key, f[3].value); }
    head := LastPart(p, key, Dumps(f[3].value));
    assert Dumps(JObj(f)) == "{" + Join(p) + "}" by { PrintsObject(f); }
  }

  lemma {:induction false} PrintsObject(f: seq<Field>)
    ensures Dumps(JObj(f)) == "{" + Join(FieldTexts(JObj(f))) + "}"
  {
  }

  lemma {:induction false} LastPart(p: seq<string>, key: string, last: string) returns (head: string)
    requires |p| == 4 && p[3] == key + last
    ensures |head| == |p[0]| + |p[1]| + |p[2]| + |key| + 7
    ensures "{" + Join(p) + "}" == head + last + "}"
  {
    Join4(p);
    hide Join;
    var front := p[0] + ", " + p[1] + ", " + p[2] + ", ";
    head := "{" + front + key;
    assert "{" + (front + (key + last)) + "}" == head + last + "}";
  }

  /** The text of a successful observation of tool "t" without arguments. */
  lemma {:induction false} ObservationText(output: Json) returns (head: string)
    ensures |head| == 51 && Dumps(ObservationOf(Succeeded(output))) == head + Dumps(output) + "}"
  {
    var f := ObservationOf(Succeeded(output)).fields;
    assert |"ok"| == 2 && |"tool"| == 4 && |"arguments"| == 9 && |"data"| == 4;
    assert Size(JBool(true)) == 4 && Size(JObj([])) == 2;
    assert Size(JStr("t")) == 3 by { EscapePlain("t"); }
    assert forall i :: 0 <= i < 4 ==> Plain(f[i].key);
    hide Dumps;
    head := FourFieldsText(f);
  }

  function Letters(n: nat): string {
    seq(n, _ => 'x')
  }

  function Succeeded(output: Json): Execution {
    Execution("c", "t", [], output, true)
  }

  lemma {:induction false} SucceededSize(output: Json)
    ensures Size(ObservationOf(Succeeded(output))) == 52 + Size(output)
  {
    var head := ObservationText(output);
  }

  lemma {:induction false} SingleFieldSize(key: string, value: Json)
    requires Plain(key)
    ensures Size(JObj([Field(key, value)])) == |key| + 6 + Size(value)
  {
    FieldSize(key, value);
    assert FieldTexts(JObj([Field(key, value)])) == [Quote(key) + ": " + Dumps(value)];
  }

  lemma {:induction false} LettersSize(n: nat)
    ensures Dumps(JStr(Letters(n))) == "\"" + Letters(n) + "\""
  {
    EscapePlain(Letters(n));
  }

  lemma {:induction false} StripSucceeded(output: Json)
    ensures Strip(ObservationOf(Succeeded(output))) == ObservationOf(Succeeded(Strip(output)))
  {
    var fields := ObservationOf(Succeeded(output)).fields;
    assert |"ok"| == 2 && |"tool"| == 4 && |"arguments"| == 9 && |"data"| == 4 && |ENGINE_PAYLOAD| == 14;
    assert StripFields(fields[3..]) == [Field("data", Strip(output))];
    assert StripFields(fields[2..]) == [Field("arguments", JObj([]))] + StripFields(fields[2..][1..]) && fields[2..][1..] == fields[3..];
    assert StripFields(fields[1..]) == [fields[1]] + StripFields(fields[1..][1..]) && fields[1..][1..] == fields[2..];
    assert StripFields(fields) == [fields[0]] + StripFields(fields[1..]);
  }

  lemma {:induction false} StripPayloadOnly(value: Json)
    ensures Strip(JObj([Field(ENGINE_PAYLOAD, value)])) == JObj([]) && Size(JObj([])) == 2
  {
    var f := [Field(ENGINE_PAYLOAD, value)];
    assert StripFields(f) == [] + StripFields(f[1..]);
  }

  /** A tool result that holds nothing but an engine payload of 12000 letters is sent whole, in 54 characters, under the
      default limit; its finish event says it was truncated. */
  lemma {:induction false} FlagMisses()
    ensures var e := Succeeded(JObj([Field(ENGINE_PAYLOAD, JStr(Letters(12000)))]));
            && FinishEvent(DEFAULT_MAX_CHARS, e).truncated
            && Serialize(ObservationOf(e), DEFAULT_MAX_CHARS) == Dumps(Strip(ObservationOf(e)))
            && |Serialize(ObservationOf(e), DEFAULT_MAX_CHARS)| == 54
  {
    hide Dumps, Strip, ObservationOf, Letters;
    var payload := JStr(Letters(12000));
    var output := JObj([Field(ENGINE_PAYLOAD, payload)]);
    LettersSize(12000);
    assert |Letters(12000)| == 12000 by { LettersCount(12000); }
    SingleFieldSize(ENGINE_PAYLOAD, payload);
    SucceededSize(output);
    StripSucceeded(output);
    StripPayloadOnly(payload);
    SucceededSize(JObj([]));
  }

  lemma {:induction false} LettersCount(n: nat)
    ensures |Letters(n)| == n
  {
  }

  lemma {:induction false} CutInLetters(text: string, head: string)
    requires |head| <= 60 && text == head + Letters(12000) + "\"}"
    ensures Preview(text, DEFAULT_MAX_CHARS) == text[..11700]
  {
    assert text[11699] == 'x' by { assert Letters(12000)[11699 - |head|] == 'x'; }
    assert text[..11700][11699] == 'x';
  }

  lemma {:induction false} LettersNotStripped()
    ensures var v := ObservationOf(Succeeded(JStr(Letters(12000))));
            Strip(v) == v
  {
    var e := Succeeded(JStr(Letters(12000)));
    PayloadSeen(e);
    assert !HasEnginePayload(JObj([])) && !HasEnginePayload(e.output);
    StripKeepsTheRest(ObservationOf(e));
  }

  /** A tool result of 12000 letters is cut, and the size it reports is smaller than its real one. */
  lemma {:induction false} ReportsTooLittle()
    ensures var v := ObservationOf(Succeeded(JStr(Letters(12000))));
            && Size(Strip(v)) > DEFAULT_MAX_CHARS
            && |Serialize(v, DEFAULT_MAX_CHARS)| > ReportedSize(Dumps(Strip(v)), DEFAULT_MAX_CHARS)
  {
    hide Dumps, Escape, RStrip, ObservationOf, Strip, Digits, Letters, Serialize, ReportedSize, Preview;
    var output := JStr(Letters(12000));
    var v := ObservationOf(Succeeded(output));
    LettersNotStripped();
    LettersCount(12000);
    LettersSize(12000);
    var head := ObservationText(output);
    var text := Dumps(v);
    assert text == (head + "\"") + Letters(12000) + "\"}";
    CutInLetters(text, head + "\"");
    DefaultReportsTooLittle(v);
  }
}
