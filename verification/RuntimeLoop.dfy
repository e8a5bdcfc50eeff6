/** The loop as it runs: lists that grow in place, a dict of futures, early exits. Each method is tied to
    the specification functions of module Runtime. */
module RuntimeLoop {
  import opened Wrappers
  import opened Text
  import opened Json
  import opened StableSort
  import opened Observation
  import opened Runtime

  datatype Started = Started(callId: string, name: string, arguments: seq<Field>)

  class ToolCallingRuntime {
    const cfg: Config
    const env: Env
    var conversation: seq<Message>
    var trace: seq<Event>
    var attempts: nat
    var batches: nat
    ghost var history: seq<Segment>

    constructor (cfg: Config, env: Env)
      ensures this.cfg == cfg && this.env == env
    {
      this.cfg, this.env := cfg, env;
      conversation, trace, attempts, batches, history := [], [], 0, 0, [];
    }

    ghost predicate Ready()
      reads this
    {
      Fair(env) && batches == |Batches(history)|
    }

    ghost function View(): State
      reads this
    {
      State(conversation, trace, attempts, history)
    }

    method Append(e: Event)
      requires Ready()
      modifies `trace, `history
      ensures Ready() && View() == Log(old(View()), e)
    {
      trace := trace + [e];
      history := history + [Note(e)];
      assert history[..|history| - 1] == old(history);
    }

    /** Submits the calls one by one; stops at the first whose arguments are not a JSON object. */
    method SubmitAll(calls: seq<ToolCall>) returns (ok: bool, started: seq<Started>)
      modifies `trace
      ensures ok <==> WellFormed(calls)
      ensures ok ==> trace == old(trace) + StartEvents(calls)
      ensures ok ==> |started| == |calls| && forall i :: 0 <= i < |calls| ==>
                started[i] == Started(CallId(calls, i), calls[i].name, calls[i].arguments.fields)
    {
      ok, started := true, [];
      ghost var news: seq<Event> := [];
      for i := 0 to |calls|
        invariant |started| == i && |news| == i && trace == old(trace) + news && ok
        invariant forall j :: 0 <= j < i ==>
                    && calls[j].arguments.Args?
                    && started[j] == Started(CallId(calls, j), calls[j].name, calls[j].arguments.fields)
                    && news[j] == ToolStart(CallId(calls, j), calls[j].name, calls[j].arguments.fields)
      {
        var call := calls[i];
        if call.arguments.Malformed? { return false, started; }
        var callId := if call.id != "" then call.id else "tool-" + Digits(|started| + 1);
        trace := trace + [ToolStart(callId, call.name, call.arguments.fields)];
        news := news + [ToolStart(callId, call.name, call.arguments.fields)];
        started := started + [Started(callId, call.name, call.arguments.fields)];
      }
      assert news == StartEvents(calls);
    }

    /** Collects the results in whatever order the pool finishes them. */
    method Collect(started: seq<Started>, order: seq<nat>) returns (executions: seq<Execution>)
      requires InRange(order, |started|)
      modifies `trace
      ensures |executions| == |order|
      ensures forall k :: 0 <= k < |order| ==>
                executions[k] == RunTool(cfg, env.handler(batches, order[k]),
                                         started[order[k]].callId, started[order[k]].name, started[order[k]].arguments)
      ensures trace == old(trace) + FinishEvents(cfg.maxChars, executions)
    {
      executions := [];
      for k := 0 to |order|
        invariant |executions| == k
        invariant forall j :: 0 <= j < k ==>
                    executions[j] == RunTool(cfg, env.handler(batches, order[j]),
                                             started[order[j]].callId, started[order[j]].name, started[order[j]].arguments)
        invariant trace == old(trace) + FinishEvents(cfg.maxChars, executions)
      {
        var s := started[order[k]];
        var execution := RunTool(cfg, env.handler(batches, order[k]), s.callId, s.name, s.arguments);
        ghost var before := executions;
        trace := trace + [FinishEvent(cfg.maxChars, execution)];
        executions := executions + [execution];
        assert FinishEvents(cfg.maxChars, executions) == FinishEvents(cfg.maxChars, before) + [FinishEvent(cfg.maxChars, execution)];
      }
    }

    /** The dict from request id to position, later positions overwriting earlier ones. */
    method ExecutionOrder(calls: seq<ToolCall>) returns (positions: map<string, int>)
      ensures forall id: string :: (if id in positions then positions[id] else |positions|) == OrderKey(calls, id)
    {
      positions := map[];
      ghost var ids := RawIds(calls);
      for i := 0 to |calls|
        invariant positions.Keys == set j | 0 <= j < i :: ids[j]
        invariant forall id :: id in positions ==> positions[id] == LastIndex(ids[..i], id)
      {
        ghost var before := positions;
        positions := positions[calls[i].id := i];
        assert ids[..i + 1][..i] == ids[..i] && ids[..i + 1][i] == calls[i].id;
      }
      assert ids[..|calls|] == ids;
      assert positions.Keys == set j | 0 <= j < |ids| :: ids[j];
      assert |positions| == |positions.Keys|;
      forall id: string ensures (if id in positions then positions[id] else |positions|) == OrderKey(calls, id) {
        if id in positions {
          assert id in ids;
        }
      }
    }

    /** The pool phase: submit every call, collect every result. */
    method RunPool(calls: seq<ToolCall>, ghost origin: Origin, ghost b: Batch) returns (completed: Option<seq<Execution>>)
      requires Ready() && (WellFormed(calls) ==> b == MakeBatch(cfg, env, batches, origin, calls))
      modifies `trace
      ensures completed.None? <==> !WellFormed(calls)
      ensures completed.Some? ==> InRange(b.order, |b.executions|) && completed.value == Completed(b)
      ensures completed.Some? ==> trace == old(trace) + BatchEvents(cfg.maxChars, b)
    {
      hide Serialize, ObservationOf, FinishEvents, StartEvents, RunTool, CallId;
      var ok, started := SubmitAll(calls);
      if !ok { return None; }
      var order := env.finish(batches, |calls|);
      var executions := Collect(started, order);
      assert InRange(b.order, |b.executions|);
      assert executions == Completed(b);
      completed := Some(executions);
    }

    /** `_execute_tool_calls`; None when the arguments of some call do not parse. */
    method ExecuteToolCalls(calls: seq<ToolCall>, ghost origin: Origin) returns (executions: Option<seq<Execution>>)
      requires Ready()
      modifies `trace, `history, `batches
      ensures executions.None? <==> !WellFormed(calls)
      ensures executions.Some? ==> Ready() && (View(), executions.value) == RunBatch(cfg, env, old(View()), origin, calls)
    {
      hide MakeBatch, BatchEvents, Completed, Sort, OrderKey;
      ghost var b := if WellFormed(calls) then MakeBatch(cfg, env, batches, origin, calls) else Batch(origin, [], [], []);
      var completed := RunPool(calls, origin, b);
      if completed.None? { return None; }
      var positions := ExecutionOrder(calls);
      var key := (e: Execution) => if e.callId in positions then positions[e.callId] else |positions|;
      SortSameKeys(completed.value, key, ByRequest(calls));
      executions := Some(Sort(completed.value, key));
      history := history + [Ran(b)];
      batches := batches + 1;
      assert history[..|history| - 1] == old(history);
    }

    /** Runs a default plan and reports its results as user messages. */
    method RunDefaultPlan(planned: seq<Planned>, intro: string, ghost origin: Origin)
      requires Ready()
      modifies `trace, `history, `batches, `conversation
      ensures Ready()
      ensures var (ran, executions) := RunBatch(cfg, env, old(View()), origin, FallbackCalls(planned));
              View() == Say(ran, SyntheticMessages(cfg.maxChars, executions, intro))
    {
      var executions := ExecuteToolCalls(FallbackCalls(planned), origin);
      conversation := conversation + SyntheticMessages(cfg.maxChars, executions.value, intro);
    }

    method SynthesizeWithoutTools() returns (turn: Option<Turn>)
      requires Ready()
      modifies `trace, `history, `attempts
      ensures Ready() && (View(), turn) == Synthesize(env, old(View()))
    {
      var content := env.synth(attempts);
      attempts := attempts + 1;
      if content.None? { return None; }
      Append(NoToolsSynthesisFinish);
      turn := Some(Turn(content.value, [], None));
    }

    method ForceFinalAnswer() returns (result: Result)
      requires Ready()
      modifies `trace, `history, `attempts
      ensures result == Force(cfg, env, old(View())).result
      ensures attempts == Force(cfg, env, old(View())).state.attempts
    {
      Append(FinalRoundForced(None));
      var turn := SynthesizeWithoutTools();
      if turn.None? { return Raised(LlmUnavailable); }
      if turn.value.calls != [] { return Raised(NoJson); }
      Append(Final(cfg.maxRounds));
      result := Returned(turn.value.content, trace, StripReasoning(conversation + [Assistant(turn.value)]));
    }

    method AskModel(round: int) returns (turn: Option<Turn>)
      requires Ready()
      modifies `trace, `history, `attempts, `conversation
      ensures Ready() && (View(), turn) == Ask(cfg, env, OpenRound(cfg, old(View()), round), round)
    {
      var isFinal := round == cfg.maxRounds;
      if isFinal {
        Append(FinalRoundForced(Some(round)));
        conversation := conversation + [User(cfg.finalPrompt)];
      }
      Append(LlmStart(round));
      var reply := env.chat(attempts);
      attempts := attempts + 1;
      if reply.Unavailable? {
        if !isFinal { return None; }
        Append(ToolChoiceUnsupported(round));
        turn := SynthesizeWithoutTools();
        if turn.None? { return; }
      } else {
        turn := Some(reply.turn);
      }
      Append(LlmFinish(round));
    }

    /** One tool message per execution. */
    method AppendToolMessages(executions: seq<Execution>)
      modifies `conversation
      ensures conversation == old(conversation) + ToolMessages(cfg.maxChars, executions)
    {
      hide Serialize, ObservationOf;
      ghost var news: seq<Message> := [];
      for i := 0 to |executions|
        invariant |news| == i && conversation == old(conversation) + news
        invariant forall j :: 0 <= j < i ==>
                    news[j] == ToolResult(executions[j].callId, Serialize(ObservationOf(executions[j]), cfg.maxChars))
      {
        var message := ToolResult(executions[i].callId, Serialize(ObservationOf(executions[i]), cfg.maxChars));
        conversation := conversation + [message];
        news := news + [message];
      }
      assert news == ToolMessages(cfg.maxChars, executions);
    }

    /** The assistant message, its batch, its tool messages. */
    method RunRequested(round: int, turn: Turn) returns (ran: bool)
      requires Ready()
      modifies `trace, `history, `batches, `conversation
      ensures ran <==> WellFormed(turn.calls)
      ensures ran ==> Ready()
      ensures ran ==> var (after, executions) := RunBatch(cfg, env, old(View()), Requested(round, turn), turn.calls);
                      View() == Say(after, [Assistant(turn)] + ToolMessages(cfg.maxChars, executions))
    {
      hide Serialize, ObservationOf, MakeBatch, BatchEvents, InRequestOrder, Completed, ToolMessages, WellFormed;
      conversation := conversation + [Assistant(turn)];
      var executions := ExecuteToolCalls(turn.calls, Requested(round, turn));
      if executions.None? { return false; }
      AppendToolMessages(executions.value);
      ran := true;
    }

    /** One turn of the loop; Some: the run ends here. */
    method PlayRound(round: int) returns (result: Option<Result>)
      requires Ready() && round <= cfg.maxRounds
      modifies this
      ensures match Round(cfg, env, old(View()), round)
              case Stop(out) => result == Some(out.result) && attempts == out.state.attempts
              case Continue(next) => result == None && Ready() && View() == next
    {
      hide RunBatch, Synthesize, Ask, OpenRound, StripReasoning, SyntheticMessages, ToolMessages;
      var answer := AskModel(round);
      if answer.None? { return Some(Raised(LlmUnavailable)); }
      var turn := answer.value;
      if turn.calls != [] && round == cfg.maxRounds {
        Append(BlockedOnFinalRound(round, |turn.calls|));
        var replaced := SynthesizeWithoutTools();
        if replaced.None? { return Some(Raised(LlmUnavailable)); }
        turn := replaced.value;
        if turn.calls != [] { return Some(Raised(NoJson)); }
      }
      if turn.calls == [] {
        if cfg.requireInitial && round == 1 && cfg.fallbackCalls != [] {
          Append(FallbackToolPlan(round));
          RunDefaultPlan(cfg.fallbackCalls, cfg.fallbackIntro, Fallback);
          return None;
        }
        Append(Final(round));
        return Some(Returned(turn.content, trace, StripReasoning(conversation + [Assistant(turn)])));
      }
      var ran := RunRequested(round, turn);
      result := if ran then None else Some(Raised(BadArguments));
    }

    /** `run`. */
    method Run(messages: seq<Message>) returns (result: Result)
      requires Fair(env)
      modifies this
      ensures result == Runtime.Run(cfg, env, messages).result
      ensures attempts == Runtime.Run(cfg, env, messages).state.attempts
    {
      hide RunBatch, Round, Force, SyntheticMessages;
      conversation, trace, attempts, batches, history := messages, [], 0, 0, [];
      if cfg.hasPlan { Append(Plan); }
      if cfg.initialCalls != [] {
        Append(InitialToolPlan);
        RunDefaultPlan(cfg.initialCalls, cfg.initialIntro, Initial);
      }
      var round := 1;
      while round <= cfg.maxRounds
        invariant Ready()
        invariant Rounds(cfg, env, View(), round) == Runtime.Run(cfg, env, messages)
        decreases cfg.maxRounds - round
      {
        var ended := PlayRound(round);
        if ended.Some? { return ended.value; }
        round := round + 1;
      }
      result := ForceFinalAnswer();
    }
  }
}
