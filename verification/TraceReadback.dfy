/** `agent_run_trace.py`: tool records read back from runtime traces, and the trace sanitiser. */
module TraceReadback {
  import opened Wrappers
  import opened Text
  import opened Json
  import opened StableSort
  import opened Observation
  import opened Runtime
  import opened ToolOrder
  import opened RunTheorems

  // ---------- sanitize_trace_payload ----------

  const MASK: string := "***"
  const MAX_TRACE_TEXT: nat := 2000

  /** `sensitive` stands for the key pattern. */
  function Sanitize(sensitive: string -> bool, j: Json): (r: Json)
    ensures j.JObj? ==> r.JObj? && Keys(r.fields) == Keys(j.fields)
    ensures j.JList? ==> r.JList? && |r.items| == |j.items|
  {
    match j
    case JObj(fields) =>
      JObj(seq(|fields|, i requires 0 <= i < |fields| =>
        Field(fields[i].key, if sensitive(fields[i].key) then JStr(MASK) else Sanitize(sensitive, fields[i].value))))
    case JList(items) => JList(seq(|items|, i requires 0 <= i < |items| => Sanitize(sensitive, items[i])))
    case JStr(s) => if |s| > MAX_TRACE_TEXT then JStr(s[..MAX_TRACE_TEXT - 3] + ELLIPSIS) else j
    case _ => j
  }

  /** `b` is `a` with secrets masked, text beyond 2000 characters cut to 1997 and three dots, and everything else kept. */
  ghost predicate Masked(sensitive: string -> bool, a: Json, b: Json)
    decreases a
  {
    match a
    case JObj(fields) =>
      && b.JObj? && |b.fields| == |fields|
      && forall i :: 0 <= i < |fields| ==>
           && b.fields[i].key == fields[i].key
           && (if sensitive(fields[i].key) then b.fields[i].value == JStr("***") else Masked(sensitive, fields[i].value, b.fields[i].value))
    case JList(items) => b.JList? && |b.items| == |items| && forall i :: 0 <= i < |items| ==> Masked(sensitive, items[i], b.items[i])
    case JStr(s) => b == if |s| <= 2000 then a else JStr(s[..1997] + "...")
    case _ => b == a
  }

  lemma {:induction false} SanitizeMasks(sensitive: string -> bool, j: Json)
    ensures Masked(sensitive, j, Sanitize(sensitive, j))
  {
    var r := Sanitize(sensitive, j);
    match j
    case JObj(fields) =>
      forall i | 0 <= i < |fields| && !sensitive(fields[i].key) ensures Masked(sensitive, fields[i].value, r.fields[i].value) {
        SanitizeMasks(sensitive, fields[i].value);
      }
    case JList(items) =>
      forall i | 0 <= i < |items| ensures Masked(sensitive, items[i], r.items[i]) { SanitizeMasks(sensitive, items[i]); }
    case _ =>
  }

  /** Nothing but the mask under a sensitive key, and no long text, at any depth. */
  predicate Clean(sensitive: string -> bool, j: Json) {
    match j
    case JObj(fields) => forall i :: 0 <= i < |fields| ==>
                           if sensitive(fields[i].key) then fields[i].value == JStr(MASK) else Clean(sensitive, fields[i].value)
    case JList(items) => forall i :: 0 <= i < |items| ==> Clean(sensitive, items[i])
    case JStr(s) => |s| <= MAX_TRACE_TEXT
    case _ => true
  }

  lemma {:induction false} SanitizeCleans(sensitive: string -> bool, j: Json)
    ensures Clean(sensitive, Sanitize(sensitive, j))
  {
    match j
    case JObj(fields) =>
      forall i | 0 <= i < |fields| && !sensitive(fields[i].key) ensures Clean(sensitive, Sanitize(sensitive, fields[i].value)) {
        SanitizeCleans(sensitive, fields[i].value);
      }
    case JList(items) =>
      forall i | 0 <= i < |items| ensures Clean(sensitive, Sanitize(sensitive, items[i])) { SanitizeCleans(sensitive, items[i]); }
    case _ =>
  }

  /** Exactly the clean trees pass unchanged; so a second pass changes nothing. */
  lemma {:induction false} SanitizeFixedPoint(sensitive: string -> bool, j: Json)
    ensures Sanitize(sensitive, j) == j <==> Clean(sensitive, j)
  {
    SanitizeCleans(sensitive, j);
    match j
    case JObj(fields) =>
      forall i | 0 <= i < |fields| ensures Clean(sensitive, fields[i].value) ==> Sanitize(sensitive, fields[i].value) == fields[i].value {
        SanitizeFixedPoint(sensitive, fields[i].value);
      }
      if Clean(sensitive, j) { assert Sanitize(sensitive, j).fields == fields; }
    case JList(items) =>
      forall i | 0 <= i < |items| ensures Clean(sensitive, items[i]) ==> Sanitize(sensitive, items[i]) == items[i] {
        SanitizeFixedPoint(sensitive, items[i]);
      }
      if Clean(sensitive, j) { assert Sanitize(sensitive, j).items == items; }
    case _ =>
  }

  // ---------- extract_tool_calls_from_trace ----------

  datatype Record = Record(tool: string, argumentsPreview: Json, ok: bool)

  datatype Reader = Reader(starts: map<string, Event>, calls: seq<Record>)

  ghost predicate StartsOnly(starts: map<string, Event>) {
    forall id :: id in starts ==> starts[id].ToolStart?
  }

  function OrNumber(id: string, known: nat): string {
    if id != "" then id else "tool-" + Digits(known + 1)
  }

  function Either(first: seq<Field>, second: seq<Field>): seq<Field> {
    if first != [] then first else second
  }

  function RecordOf(sensitive: string -> bool, start: Option<Event>, e: Event): Record
    requires e.ToolFinish? || e.ToolError?
    requires start.Some? ==> start.value.ToolStart?
  {
    Record(
      if e.tool != "" then e.tool else if start.Some? then start.value.tool else "",
      Sanitize(sensitive, JObj(if start.Some? then Either(start.value.arguments, e.arguments) else e.arguments)),
      e.ToolFinish? && e.ok)
  }

  function ReadEvent(sensitive: string -> bool, st: Reader, e: Event): (r: Reader)
    requires StartsOnly(st.starts)
    ensures StartsOnly(r.starts)
  {
    if e.ToolStart? then st.(starts := st.starts[OrNumber(e.callId, |st.starts|) := e])
    else if e.ToolFinish? || e.ToolError? then
      var id := OrNumber(e.callId, |st.calls|);
      st.(calls := st.calls + [RecordOf(sensitive, if id in st.starts then Some(st.starts[id]) else None, e)])
    else st
  }

  function Read(sensitive: string -> bool, st: Reader, trace: seq<Event>): (r: Reader)
    requires StartsOnly(st.starts)
    ensures StartsOnly(r.starts)
    decreases |trace|
  {
    if trace == [] then st else Read(sensitive, ReadEvent(sensitive, st, trace[0]), trace[1..])
  }

  const EMPTY: Reader := Reader(map[], [])

  /** `extract_tool_calls_from_trace`. */
  method ExtractToolCalls(sensitive: string -> bool, trace: seq<Event>) returns (calls: seq<Record>)
    ensures calls == Read(sensitive, EMPTY, trace).calls
  {
    calls := [];
    var starts: map<string, Event> := map[];
    for i := 0 to |trace|
      invariant StartsOnly(starts)
      invariant Read(sensitive, Reader(starts, calls), trace[i..]) == Read(sensitive, EMPTY, trace)
    {
      var e := trace[i];
      assert trace[i..][1..] == trace[i + 1..];
      if e.ToolStart? {
        var id := if e.callId != "" then e.callId else "tool-" + Digits(|starts| + 1);
        starts := starts[id := e];
      }
      if e.ToolFinish? || e.ToolError? {
        var id := if e.callId != "" then e.callId else "tool-" + Digits(|calls| + 1);
        var start := if id in starts then Some(starts[id]) else None;
        calls := calls + [RecordOf(sensitive, start, e)];
      }
    }
  }

  lemma {:induction false} ReadConcat(sensitive: string -> bool, st: Reader, a: seq<Event>, b: seq<Event>)
    requires StartsOnly(st.starts)
    ensures Read(sensitive, st, a + b) == Read(sensitive, Read(sensitive, st, a), b)
    decreases |a|
  {
    if a == [] {
      assert a + b == b;
    } else {
      assert (a + b)[1..] == a[1..] + b;
      ReadConcat(sensitive, ReadEvent(sensitive, st, a[0]), a[1..], b);
    }
  }

  // ---------- reading one batch ----------

  function StartOf(b: Batch, i: nat): Event
    requires i < |b.calls| && WellFormed(b.calls)
  {
    ToolStart(CallId(b.calls, i), b.calls[i].name, b.calls[i].arguments.fields)
  }

  /** The start a finish event is paired with: the last one of its batch under the same id. */
  function PairedStart(b: Batch, i: nat): (j: nat)
    requires i < |b.calls|
    ensures j < |b.calls|
  {
    assert CallIds(b.calls)[i] == CallId(b.calls, i);
    LastIndex(CallIds(b.calls), CallId(b.calls, i))
  }

  /** What the reader records for the call at position i, whatever the ids. */
  function ReadBack(sensitive: string -> bool, b: Batch, i: nat): Record
    requires i < |b.calls| == |b.executions| && WellFormed(b.calls)
  {
    var j := PairedStart(b, i);
    var call, start := b.calls[i], b.calls[j];
    Record(if call.name != "" then call.name else start.name,
           Sanitize(sensitive, JObj(Either(start.arguments.fields, call.arguments.fields))),
           b.executions[i].ok)
  }

  /** Every id among the first n calls is bound to its last start so far. */
  ghost predicate StartsKnown(starts: map<string, Event>, b: Batch, n: nat)
    requires WellFormed(b.calls) && n <= |b.calls|
  {
    forall id :: id in CallIds(b.calls)[..n] ==>
      id in starts && starts[id] == StartOf(b, LastIndex(CallIds(b.calls)[..n], id))
  }

  lemma {:induction false} StartStep(starts: map<string, Event>, b: Batch, n: nat)
    requires WellFormed(b.calls) && n < |b.calls| && StartsKnown(starts, b, n)
    ensures StartsKnown(starts[CallId(b.calls, n) := StartOf(b, n)], b, n + 1)
  {
    hide CallId, StartOf;
    var ids := CallIds(b.calls);
    assert ids[..n + 1][..n] == ids[..n] && ids[..n + 1] == ids[..n] + [ids[n]];
  }

  lemma {:induction false} ReadStarts(sensitive: string -> bool, st: Reader, b: Batch, n: nat)
    requires StartsOnly(st.starts) && WellFormed(b.calls) && n <= |b.calls|
    ensures var r := Read(sensitive, st, StartEvents(b.calls)[..n]);
            r.calls == st.calls && StartsKnown(r.starts, b, n)
  {
    hide CallId, StartsKnown;
    var events := StartEvents(b.calls);
    if n == 0 {
      NothingKnown(st.starts, b);
    } else {
      ReadStarts(sensitive, st, b, n - 1);
      assert events[..n] == events[..n - 1] + [events[n - 1]];
      ReadConcat(sensitive, st, events[..n - 1], [events[n - 1]]);
      var before := Read(sensitive, st, events[..n - 1]);
      assert Read(sensitive, before, [events[n - 1]]) == ReadEvent(sensitive, before, events[n - 1]);
      StartStep(before.starts, b, n - 1);
    }
  }

  lemma {:induction false} NothingKnown(starts: map<string, Event>, b: Batch)
    requires WellFormed(b.calls)
    ensures StartsKnown(starts, b, 0)
  {
  }

  lemma {:induction false} ReadFinishes(sensitive: string -> bool, maxChars: int, st: Reader, b: Batch, n: nat)
    requires Valid(b) && StartsOnly(st.starts) && n <= |b.order|
    requires forall i :: 0 <= i < |b.calls| ==>
               CallId(b.calls, i) in st.starts && st.starts[CallId(b.calls, i)] == StartOf(b, PairedStart(b, i))
    ensures var r := Read(sensitive, st, FinishEvents(maxChars, Completed(b))[..n]);
            && r.starts == st.starts
            && |r.calls| == |st.calls| + n && r.calls[..|st.calls|] == st.calls
            && forall k :: 0 <= k < n ==> r.calls[|st.calls| + k] == ReadBack(sensitive, b, b.order[k])
  {
    hide Serialize, ObservationOf, FinishEvent, ReadBack, Sanitize, ReadEvent, CallId, PairedStart, StartOf;
    var events := FinishEvents(maxChars, Completed(b));
    if n > 0 {
      ReadFinishes(sensitive, maxChars, st, b, n - 1);
      assert events[..n] == events[..n - 1] + [events[n - 1]];
      ReadConcat(sensitive, st, events[..n - 1], [events[n - 1]]);
      var before := Read(sensitive, st, events[..n - 1]);
      assert Read(sensitive, before, [events[n - 1]]) == ReadEvent(sensitive, before, events[n - 1]);
      FinishRecord(sensitive, maxChars, before, b, b.order[n - 1]);
    }
  }

  lemma {:induction false} FinishRecord(sensitive: string -> bool, maxChars: int, st: Reader, b: Batch, i: nat)
    requires Valid(b) && StartsOnly(st.starts) && i < |b.calls|
    requires CallId(b.calls, i) in st.starts && st.starts[CallId(b.calls, i)] == StartOf(b, PairedStart(b, i))
    ensures ReadEvent(sensitive, st, FinishEvent(maxChars, b.executions[i]))
         == st.(calls := st.calls + [ReadBack(sensitive, b, i)])
  {
  }

  function Records(sensitive: string -> bool, b: Batch): seq<Record>
    requires |b.calls| == |b.executions| && WellFormed(b.calls) && InRange(b.order, |b.calls|)
  {
    seq(|b.order|, k requires 0 <= k < |b.order| => ReadBack(sensitive, b, b.order[k]))
  }

  /** Reading a batch adds one record per call, in completion order, whatever was read before and whatever the ids. */
  lemma {:induction false} ReadBatch(sensitive: string -> bool, maxChars: int, st: Reader, b: Batch)
    requires Valid(b) && StartsOnly(st.starts)
    ensures Read(sensitive, st, BatchEvents(maxChars, b)).calls == st.calls + Records(sensitive, b)
  {
    hide Serialize, ObservationOf, FinishEvents, ReadBack, Sanitize, ReadEvent, CallId, StartOf, StartEvents, Read;
    var starts, finishes := StartEvents(b.calls), FinishEvents(maxChars, Completed(b));
    ReadConcat(sensitive, st, starts, finishes);
    ReadStarts(sensitive, st, b, |b.calls|);
    assert starts[..|b.calls|] == starts && CallIds(b.calls)[..|b.calls|] == CallIds(b.calls);
    var after := Read(sensitive, st, starts);
    forall i | 0 <= i < |b.calls|
      ensures CallId(b.calls, i) in after.starts && after.starts[CallId(b.calls, i)] == StartOf(b, PairedStart(b, i)) {
      assert CallIds(b.calls)[i] == CallId(b.calls, i);
      assert CallIds(b.calls)[i] in CallIds(b.calls);
    }
    ReadFinishes(sensitive, maxChars, after, b, |b.order|);
    assert finishes[..|b.order|] == finishes;
    var calls := Read(sensitive, st, BatchEvents(maxChars, b)).calls;
    assert calls == calls[..|st.calls|] + calls[|st.calls|..];
    assert calls[|st.calls|..] == Records(sensitive, b);
  }

  /** What ought to be recorded for a call: its own tool, arguments and outcome. */
  function OwnRecord(sensitive: string -> bool, b: Batch, i: nat): Record
    requires i < |b.calls| == |b.executions| && WellFormed(b.calls)
  {
    Record(b.calls[i].name, Sanitize(sensitive, JObj(b.calls[i].arguments.fields)), b.executions[i].ok)
  }

  /** The call at position i shares its id with no later call that would lend it other arguments or a name. */
  predicate CallKept(sensitive: string -> bool, calls: seq<ToolCall>, i: nat)
    requires WellFormed(calls) && i < |calls|
  {
    assert CallIds(calls)[i] == CallId(calls, i);
    var call, last := calls[i], calls[LastIndex(CallIds(calls), CallId(calls, i))];
    && (last.arguments.fields == []
        || Sanitize(sensitive, JObj(last.arguments.fields)) == Sanitize(sensitive, JObj(call.arguments.fields)))
    && (call.name == "" ==> last.name == "")
  }

  /** What can be seen of a batch before it runs. */
  ghost predicate CallsKept(sensitive: string -> bool, calls: seq<ToolCall>)
    requires WellFormed(calls)
  {
    forall i :: 0 <= i < |calls| ==> CallKept(sensitive, calls, i)
  }

  /** A call is read back as itself exactly when no later call of its batch stands in for it. */
  lemma {:induction false} ReadBackIff(sensitive: string -> bool, b: Batch, i: nat)
    requires Valid(b) && i < |b.calls|
    ensures ReadBack(sensitive, b, i) == OwnRecord(sensitive, b, i) <==> CallKept(sensitive, b.calls, i)
  {
    hide Sanitize, CallId, LastIndex;
  }

  lemma {:induction false} DistinctKept(sensitive: string -> bool, calls: seq<ToolCall>)
    requires WellFormed(calls) && Distinct(CallIds(calls))
    ensures CallsKept(sensitive, calls)
  {
    forall i | 0 <= i < |calls| ensures CallKept(sensitive, calls, i) {
      assert CallIds(calls)[i] == CallIds(calls)[LastIndex(CallIds(calls), CallId(calls, i))];
    }
  }

  /** With ids distinct inside the batch, every call is read back as itself. */
  lemma {:induction false} DistinctReadBack(sensitive: string -> bool, b: Batch, i: nat)
    requires Valid(b) && i < |b.calls| && Distinct(CallIds(b.calls))
    ensures ReadBack(sensitive, b, i) == OwnRecord(sensitive, b, i)
  {
    DistinctKept(sensitive, b.calls);
    ReadBackIff(sensitive, b, i);
  }

  function OwnRecords(sensitive: string -> bool, b: Batch): seq<Record>
    requires |b.calls| == |b.executions| && WellFormed(b.calls) && InRange(b.order, |b.calls|)
  {
    seq(|b.order|, k requires 0 <= k < |b.order| => OwnRecord(sensitive, b, b.order[k]))
  }

  lemma {:induction false} CompletedSomewhere(order: seq<nat>, n: nat, i: nat) returns (k: nat)
    requires IsPermutation(order, n) && i < n
    ensures k < |order| && order[k] == i
  {
    assert Range(n)[i] == i;
    assert i in multiset(Range(n));
    assert i in order;
    k :| 0 <= k < |order| && order[k] == i;
  }

  lemma {:induction false} RecordsIff(sensitive: string -> bool, b: Batch)
    requires Valid(b)
    ensures Records(sensitive, b) == OwnRecords(sensitive, b) <==> CallsKept(sensitive, b.calls)
  {
    hide ReadBack, OwnRecord, CallKept, CallIds;
    var own, read := OwnRecords(sensitive, b), Records(sensitive, b);
    if read == own {
      forall i | 0 <= i < |b.calls| ensures CallKept(sensitive, b.calls, i) {
        var k := CompletedSomewhere(b.order, |b.calls|, i);
        assert read[k] == own[k];
        ReadBackIff(sensitive, b, i);
      }
    }
    if CallsKept(sensitive, b.calls) {
      forall k | 0 <= k < |b.order| ensures read[k] == own[k] { ReadBackIff(sensitive, b, b.order[k]); }
      assert read == own;
    }
  }

  /** A batch is read back as it was requested exactly when it keeps its calls. */
  lemma {:induction false} BatchReadBackIff(sensitive: string -> bool, maxChars: int, b: Batch)
    requires Valid(b)
    ensures Read(sensitive, EMPTY, BatchEvents(maxChars, b)).calls == OwnRecords(sensitive, b) <==> CallsKept(sensitive, b.calls)
  {
    hide Read, BatchEvents, Records, OwnRecords, CallsKept;
    ReadBatch(sensitive, maxChars, EMPTY, b);
    RecordsIff(sensitive, b);
    assert [] + Records(sensitive, b) == Records(sensitive, b);
  }

  // ---------- reading a whole run ----------

  ghost function RecordsOf(sensitive: string -> bool, cfg: Config, history: seq<Segment>): seq<Record>
    requires Fits(cfg, history)
  {
    if history == [] then []
    else
      var last := history[|history| - 1];
      RecordsOf(sensitive, cfg, history[..|history| - 1]) + if last.Ran? then Records(sensitive, last.batch) else []
  }

  lemma {:induction false} NoteIgnored(sensitive: string -> bool, st: Reader, e: Event)
    requires StartsOnly(st.starts) && !IsToolEvent(e)
    ensures Read(sensitive, st, [e]) == st
  {
    assert Read(sensitive, st, [e]) == Read(sensitive, ReadEvent(sensitive, st, e), []);
  }

  lemma {:induction false} ReadHistory(sensitive: string -> bool, cfg: Config, st: Reader, history: seq<Segment>)
    requires Fits(cfg, history) && StartsOnly(st.starts)
    ensures Read(sensitive, st, TraceOf(cfg, history)).calls == st.calls + RecordsOf(sensitive, cfg, history)
  {
    hide BatchEvents, Records, ReadEvent, Valid, OriginFits;
    if history != [] {
      var front, last := history[..|history| - 1], history[|history| - 1];
      ReadHistory(sensitive, cfg, st, front);
      ReadConcat(sensitive, st, TraceOf(cfg, front), EventsOf(cfg, last));
      var middle := Read(sensitive, st, TraceOf(cfg, front));
      if last.Ran? {
        ReadBatch(sensitive, cfg.maxChars, middle, last.batch);
      } else {
        NoteIgnored(sensitive, middle, last.event);
      }
    }
  }

  ghost function OwnRecordsOf(sensitive: string -> bool, cfg: Config, history: seq<Segment>): seq<Record>
    requires Fits(cfg, history)
  {
    if history == [] then []
    else
      var last := history[|history| - 1];
      OwnRecordsOf(sensitive, cfg, history[..|history| - 1]) + if last.Ran? then OwnRecords(sensitive, last.batch) else []
  }

  ghost predicate DistinctBatches(history: seq<Segment>) {
    history == [] ||
    (DistinctBatches(history[..|history| - 1]) &&
     (history[|history| - 1].Ran? ==> Distinct(CallIds(history[|history| - 1].batch.calls))))
  }

  ghost predicate BatchesKept(sensitive: string -> bool, cfg: Config, history: seq<Segment>)
    requires Fits(cfg, history)
  {
    history == [] ||
    (BatchesKept(sensitive, cfg, history[..|history| - 1]) &&
     (history[|history| - 1].Ran? ==> CallsKept(sensitive, history[|history| - 1].batch.calls)))
  }

  /** Distinct ids inside every batch are enough. */
  lemma {:induction false} DistinctBatchesKept(sensitive: string -> bool, cfg: Config, history: seq<Segment>)
    requires Fits(cfg, history) && DistinctBatches(history)
    ensures BatchesKept(sensitive, cfg, history)
  {
    hide CallsKept, OriginFits;
    if history != [] {
      var last := history[|history| - 1];
      DistinctBatchesKept(sensitive, cfg, history[..|history| - 1]);
      if last.Ran? { DistinctKept(sensitive, last.batch.calls); }
    }
  }

  lemma {:induction false} SplitsAlike<T>(a: seq<T>, b: seq<T>, c: seq<T>, d: seq<T>)
    requires |b| == |d|
    ensures a + b == c + d <==> a == c && b == d
  {
    if a + b == c + d {
      assert |a| == |c|;
      assert a == (a + b)[..|a|] == (c + d)[..|c|] == c;
      assert b == (a + b)[|a|..] == (c + d)[|c|..] == d;
    }
  }

  lemma {:induction false} HistoryIff(sensitive: string -> bool, cfg: Config, history: seq<Segment>)
    requires Fits(cfg, history)
    ensures RecordsOf(sensitive, cfg, history) == OwnRecordsOf(sensitive, cfg, history) <==> BatchesKept(sensitive, cfg, history)
  {
    hide ReadBack, OwnRecord, CallsKept, OriginFits;
    if history != [] {
      var front, last := history[..|history| - 1], history[|history| - 1];
      HistoryIff(sensitive, cfg, front);
      if last.Ran? {
        var b := last.batch;
        RecordsIff(sensitive, b);
        SplitsAlike(RecordsOf(sensitive, cfg, front), Records(sensitive, b), OwnRecordsOf(sensitive, cfg, front), OwnRecords(sensitive, b));
      } else {
        SplitsAlike(RecordsOf(sensitive, cfg, front), [], OwnRecordsOf(sensitive, cfg, front), []);
      }
    }
  }

  /** Reading the trace of a finished run back yields one record per executed call, batch by batch in completion
      order. Each has that call's own tool, sanitised arguments and outcome exactly when every batch keeps its calls,
      as it does with ids distinct inside each batch; ids may repeat across batches. */
  lemma {:induction false} RunReadBack(sensitive: string -> bool, cfg: Config, env: Env, messages: seq<Message>)
    requires Fair(env)
    ensures var out := Runtime.Run(cfg, env, messages);
            out.result.Returned? ==>
            && Fits(cfg, out.state.history)
            && Read(sensitive, EMPTY, out.result.trace).calls == RecordsOf(sensitive, cfg, out.state.history)
            && (RecordsOf(sensitive, cfg, out.state.history) == OwnRecordsOf(sensitive, cfg, out.state.history)
                <==> BatchesKept(sensitive, cfg, out.state.history))
            && (DistinctBatches(out.state.history) ==> BatchesKept(sensitive, cfg, out.state.history))
  {
    hide Runtime.Run, Read, Fits, TraceOf, RecordsOf, OwnRecordsOf, DistinctBatches, BatchesKept, StopsWell;
    RunStopsWell(cfg, env, messages);
    var out := Runtime.Run(cfg, env, messages);
    if out.result.Raised? { return; }
    var history := out.state.history;
    ReadHistory(sensitive, cfg, EMPTY, history);
    assert [] + RecordsOf(sensitive, cfg, history) == RecordsOf(sensitive, cfg, history);
    HistoryIff(sensitive, cfg, history);
    if DistinctBatches(history) { DistinctBatchesKept(sensitive, cfg, history); }
  }

  // ---------- two calls under one id ----------

  function One(value: Json): seq<Field> {
    [Field("k", value)]
  }

  /** What a model may ask for: the same tool twice under one id, with different arguments. */
  const TWICE: seq<ToolCall> := [ToolCall("a", "t", Args(One(JNull))), ToolCall("a", "t", Args(One(JBool(true))))]

  function TwiceBatch(): Batch {
    Batch(Requested(1, Turn("", TWICE, None)), TWICE, Range(2),
          [Execution("a", "t", One(JNull), JNull, true), Execution("a", "t", One(JBool(true)), JNull, true)])
  }

  lemma {:induction false} TwiceIds()
    ensures CallIds(TWICE) == ["a", "a"] && LastIndex(CallIds(TWICE), "a") == 1
    ensures CallId(TWICE, 0) == "a" && CallId(TWICE, 1) == "a"
  {
    assert CallIds(TWICE) == ["a", "a"];
  }

  lemma {:induction false} TwiceValid(cfg: Config)
    requires cfg.maxRounds >= 2 && "t" in cfg.tools
    ensures SegmentFits(cfg, Ran(TwiceBatch()))
  {
    TwiceIds();
  }

  lemma {:induction false} SanitizeOne(sensitive: string -> bool, b: bool)
    requires !sensitive("k")
    ensures Sanitize(sensitive, JObj(One(JNull))) == JObj(One(JNull)) && Sanitize(sensitive, JObj(One(JBool(b)))) == JObj(One(JBool(b)))
  {
    assert Sanitize(sensitive, JObj(One(JNull))).fields == One(JNull);
    assert Sanitize(sensitive, JObj(One(JBool(b)))).fields == One(JBool(b));
  }

  /** Such a batch fits any run of two rounds or more, and its trace reads back the second call's arguments twice. */
  lemma {:induction false} SharedIdMixesArguments(sensitive: string -> bool, cfg: Config)
    requires !sensitive("k") && cfg.maxRounds >= 2 && "t" in cfg.tools
    ensures SegmentFits(cfg, Ran(TwiceBatch()))
    ensures var second := Record("t", JObj(One(JBool(true))), true);
            Read(sensitive, EMPTY, BatchEvents(cfg.maxChars, TwiceBatch())).calls == [second, second]
    ensures OwnRecords(sensitive, TwiceBatch()) == [Record("t", JObj(One(JNull)), true), Record("t", JObj(One(JBool(true))), true)]
  {
    hide Read, BatchEvents, CallIds, LastIndex, CallId, Sanitize;
    var b := TwiceBatch();
    TwiceValid(cfg);
    TwiceIds();
    SanitizeOne(sensitive, true);
    ReadBatch(sensitive, cfg.maxChars, EMPTY, b);
    var second := Record("t", JObj(One(JBool(true))), true);
    assert Range(2) == [0, 1];
    assert ReadBack(sensitive, b, 0) == second && ReadBack(sensitive, b, 1) == second;
    assert Records(sensitive, b) == [second, second];
    assert [] + Records(sensitive, b) == Records(sensitive, b);
  }

  // ---------- flattening node traces ----------

  /** A trace handed to the reader: runtime events, or a node event that carries a runtime trace. */
  datatype Item = Direct(event: Event) | Node(children: seq<Event>)

  predicate Kept(e: Event) {
    e.LlmStart? || e.LlmFinish? || e.Final? || IsToolEvent(e)
  }

  /** `_flatten_runtime_events`. */
  function Flatten(items: seq<Item>): seq<Event> {
    if items == [] then []
    else (match items[0]
          case Direct(e) => if Kept(e) then [e] else []
          case Node(children) => children) + Flatten(items[1..])
  }

  function AllEvents(items: seq<Item>): seq<Event> {
    if items == [] then []
    else (match items[0] case Direct(e) => [e] case Node(children) => children) + AllEvents(items[1..])
  }

  /** Dropping the other runtime events and unfolding node traces loses no tool record. */
  lemma {:induction false} FlattenKeepsRecords(sensitive: string -> bool, st: Reader, items: seq<Item>)
    requires StartsOnly(st.starts)
    ensures Read(sensitive, st, Flatten(items)) == Read(sensitive, st, AllEvents(items))
    decreases |items|
  {
    if items != [] {
      var rest := items[1..];
      match items[0]
      case Node(children) =>
        ReadConcat(sensitive, st, children, Flatten(rest));
        ReadConcat(sensitive, st, children, AllEvents(rest));
        FlattenKeepsRecords(sensitive, Read(sensitive, st, children), rest);
      case Direct(e) =>
        var kept: seq<Event> := if Kept(e) then [e] else [];
        ReadConcat(sensitive, st, kept, Flatten(rest));
        ReadConcat(sensitive, st, [e], AllEvents(rest));
        assert Read(sensitive, st, [e]) == ReadEvent(sensitive, st, e);
        FlattenKeepsRecords(sensitive, ReadEvent(sensitive, st, e), rest);
    }
  }
}
