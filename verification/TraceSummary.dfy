/** `trace_summary.py`: the counters computed from a runtime trace, against what the run really did. */
module TraceSummary {
  import opened Wrappers
  import opened Json
  import opened Observation
  import opened Runtime
  import opened RunTheorems

  datatype ToolLine = ToolLine(tool: string, ok: bool, truncated: bool)

  datatype Counters = Counters(toolCalls: nat, success: nat, error: nat, truncated: nat, rounds: nat, tools: seq<ToolLine>)

  const ZERO: Counters := Counters(0, 0, 0, 0, 0, [])

  function Count(c: Counters, e: Event): Counters {
    match e
    case LlmStart(_) => c.(rounds := c.rounds + 1)
    case ToolStart(_, _, _) => c.(toolCalls := c.toolCalls + 1)
    case ToolFinish(_, tool, _, ok, truncated, _, _) =>
      c.(success := c.success + (if ok then 1 else 0), error := c.error + (if ok then 0 else 1),
         truncated := c.truncated + (if truncated then 1 else 0), tools := c.tools + [ToolLine(tool, ok, truncated)])
    case ToolError(_, tool, _, _, _, _, _) =>
      c.(toolCalls := c.toolCalls + 1, error := c.error + 1, tools := c.tools + [ToolLine(tool, false, false)])
    case _ => c
  }

  function CountAll(c: Counters, trace: seq<Event>): Counters
    decreases |trace|
  {
    if trace == [] then c else CountAll(Count(c, trace[0]), trace[1..])
  }

  /** The loop over runtime events in `build_run_trace_summary`. */
  method Summarize(trace: seq<Event>) returns (c: Counters)
    ensures c == CountAll(ZERO, trace)
  {
    var toolCalls, success, error, truncated, rounds := 0, 0, 0, 0, 0;
    var tools: seq<ToolLine> := [];
    for i := 0 to |trace|
      invariant CountAll(Counters(toolCalls, success, error, truncated, rounds, tools), trace[i..]) == CountAll(ZERO, trace)
    {
      var e := trace[i];
      assert trace[i..][1..] == trace[i + 1..];
      if e.LlmStart? { rounds := rounds + 1; }
      if e.ToolStart? { toolCalls := toolCalls + 1; }
      if e.ToolFinish? {
        if e.ok { success := success + 1; } else { error := error + 1; }
        if e.truncated { truncated := truncated + 1; }
        tools := tools + [ToolLine(e.tool, e.ok, e.truncated)];
      }
      if e.ToolError? {
        toolCalls := toolCalls + 1;
        error := error + 1;
        tools := tools + [ToolLine(e.tool, false, false)];
      }
    }
    c := Counters(toolCalls, success, error, truncated, rounds, tools);
  }

  lemma {:induction false} CountConcat(c: Counters, a: seq<Event>, b: seq<Event>)
    ensures CountAll(c, a + b) == CountAll(CountAll(c, a), b)
    decreases |a|
  {
    if a == [] {
      assert a + b == b;
    } else {
      assert (a + b)[1..] == a[1..] + b;
      CountConcat(Count(c, a[0]), a[1..], b);
    }
  }

  // ---------- one batch ----------

  function Failures(executions: seq<Execution>): nat {
    if executions == [] then 0
    else Failures(executions[..|executions| - 1]) + if executions[|executions| - 1].ok then 0 else 1
  }

  /** The observation of a successful call exceeded the limit; failed calls are never counted as truncated. */
  predicate CountsAsTruncated(maxChars: int, e: Execution) {
    e.ok && Size(ObservationOf(e)) > maxChars
  }

  function Truncations(maxChars: int, executions: seq<Execution>): nat {
    if executions == [] then 0
    else Truncations(maxChars, executions[..|executions| - 1]) + if CountsAsTruncated(maxChars, executions[|executions| - 1]) then 1 else 0
  }

  function Lines(maxChars: int, executions: seq<Execution>): (r: seq<ToolLine>)
    ensures |r| == |executions|
  {
    seq(|executions|, k requires 0 <= k < |executions| =>
      ToolLine(executions[k].name, executions[k].ok, CountsAsTruncated(maxChars, executions[k])))
  }

  /** What a list of executions adds: a failed call is counted a second time. */
  function AddExecutions(maxChars: int, c: Counters, started: nat, done: seq<Execution>): Counters
    requires Failures(done) <= |done|
  {
    Counters(c.toolCalls + started + Failures(done), c.success + |done| - Failures(done), c.error + Failures(done),
             c.truncated + Truncations(maxChars, done), c.rounds, c.tools + Lines(maxChars, done))
  }

  lemma {:induction false} FailuresBound(executions: seq<Execution>)
    ensures Failures(executions) <= |executions|
  {
    if executions != [] { FailuresBound(executions[..|executions| - 1]); }
  }

  lemma {:induction false} CountStarts(c: Counters, calls: seq<ToolCall>, n: nat)
    requires WellFormed(calls) && n <= |calls|
    ensures CountAll(c, StartEvents(calls)[..n]) == c.(toolCalls := c.toolCalls + n)
  {
    var events := StartEvents(calls);
    if n > 0 {
      CountStarts(c, calls, n - 1);
      assert events[..n] == events[..n - 1] + [events[n - 1]];
      CountConcat(c, events[..n - 1], [events[n - 1]]);
      CountOne(CountAll(c, events[..n - 1]), events[n - 1]);
    }
  }

  lemma {:induction false} CountOne(c: Counters, e: Event)
    ensures CountAll(c, [e]) == Count(c, e)
  {
    assert CountAll(c, [e]) == CountAll(Count(c, e), []);
  }

  lemma {:induction false} AddOne(maxChars: int, c: Counters, front: seq<Execution>, last: Execution)
    requires Failures(front) <= |front| && Failures(front + [last]) <= |front| + 1
    ensures Count(AddExecutions(maxChars, c, 0, front), FinishEvent(maxChars, last))
         == AddExecutions(maxChars, c, 0, front + [last])
  {
    hide Serialize, ObservationOf;
    var done := front + [last];
    assert done[..|done| - 1] == front;
    assert Lines(maxChars, done) == Lines(maxChars, front) + [ToolLine(last.name, last.ok, CountsAsTruncated(maxChars, last))];
  }

  lemma {:induction false} CountFinishes(maxChars: int, c: Counters, done: seq<Execution>)
    ensures Failures(done) <= |done|
    ensures CountAll(c, FinishEvents(maxChars, done)) == AddExecutions(maxChars, c, 0, done)
  {
    hide Serialize, ObservationOf, FinishEvent, Count;
    FailuresBound(done);
    if done == [] {
      assert c.tools + Lines(maxChars, done) == c.tools;
    } else {
      var front, last := done[..|done| - 1], done[|done| - 1];
      CountFinishes(maxChars, c, front);
      assert FinishEvents(maxChars, done) == FinishEvents(maxChars, front) + [FinishEvent(maxChars, last)];
      CountConcat(c, FinishEvents(maxChars, front), [FinishEvent(maxChars, last)]);
      assert done == front + [last];
      CountOne(CountAll(c, FinishEvents(maxChars, front)), FinishEvent(maxChars, last));
      AddOne(maxChars, c, front, last);
    }
  }

  lemma {:induction false} CountBatch(maxChars: int, c: Counters, b: Batch)
    requires Valid(b)
    ensures Failures(Completed(b)) <= |b.calls|
    ensures CountAll(c, BatchEvents(maxChars, b)) == AddExecutions(maxChars, c, |b.calls|, Completed(b))
  {
    hide FinishEvents, StartEvents, CountAll, Failures, Truncations, Lines;
    CountConcat(c, StartEvents(b.calls), FinishEvents(maxChars, Completed(b)));
    CountStarts(c, b.calls, |b.calls|);
    assert StartEvents(b.calls)[..|b.calls|] == StartEvents(b.calls);
    CountFinishes(maxChars, c.(toolCalls := c.toolCalls + |b.calls|), Completed(b));
  }

  // ---------- a whole run ----------

  /** The calls a run executed, batch by batch, in completion order. */
  ghost function Executed(cfg: Config, history: seq<Segment>): seq<Execution>
    requires Fits(cfg, history)
  {
    if history == [] then []
    else
      var last := history[|history| - 1];
      Executed(cfg, history[..|history| - 1]) + if last.Ran? then Completed(last.batch) else []
  }

  function RoundsStarted(history: seq<Segment>): nat {
    if history == [] then 0
    else
      var last := history[|history| - 1];
      RoundsStarted(history[..|history| - 1]) + if last.Note? && last.event.LlmStart? then 1 else 0
  }

  function RoundsFinished(history: seq<Segment>): nat {
    if history == [] then 0
    else
      var last := history[|history| - 1];
      RoundsFinished(history[..|history| - 1]) + if last.Note? && last.event.LlmFinish? then 1 else 0
  }

  lemma {:induction false} AppendCounts(maxChars: int, a: seq<Execution>, b: seq<Execution>)
    ensures Failures(a + b) == Failures(a) + Failures(b)
    ensures Truncations(maxChars, a + b) == Truncations(maxChars, a) + Truncations(maxChars, b)
    ensures Lines(maxChars, a + b) == Lines(maxChars, a) + Lines(maxChars, b)
    decreases |b|
  {
    if b == [] {
      assert a + b == a;
    } else {
      assert (a + b)[..|a + b| - 1] == a + b[..|b| - 1];
      AppendCounts(maxChars, a, b[..|b| - 1]);
    }
  }

  ghost predicate Agrees(maxChars: int, c: Counters, executed: seq<Execution>, rounds: nat) {
    && c.toolCalls == |executed| + Failures(executed)
    && c.error == Failures(executed)
    && c.success + c.error == |executed|
    && c.truncated == Truncations(maxChars, executed)
    && c.tools == Lines(maxChars, executed)
    && c.rounds == rounds
  }

  lemma {:induction false} CountHistory(cfg: Config, history: seq<Segment>)
    requires Fits(cfg, history)
    ensures Agrees(cfg.maxChars, CountAll(ZERO, TraceOf(cfg, history)), Executed(cfg, history), RoundsStarted(history))
  {
    hide BatchEvents, Valid, OriginFits, Completed, Lines, Truncations, Failures;
    if history == [] {
      NothingExecuted(cfg.maxChars);
    } else {
      var front, last := history[..|history| - 1], history[|history| - 1];
      CountHistory(cfg, front);
      CountConcat(ZERO, TraceOf(cfg, front), EventsOf(cfg, last));
      var c := CountAll(ZERO, TraceOf(cfg, front));
      if last.Ran? {
        CompletedSize(last.batch);
        CountBatch(cfg.maxChars, c, last.batch);
        AppendCounts(cfg.maxChars, Executed(cfg, front), Completed(last.batch));
      } else {
        CountOne(c, last.event);
        assert Executed(cfg, history) == Executed(cfg, front);
      }
    }
  }

  lemma {:induction false} NothingExecuted(maxChars: int)
    ensures Failures([]) == 0 && Truncations(maxChars, []) == 0 && Lines(maxChars, []) == []
  {
  }

  lemma {:induction false} CompletedSize(b: Batch)
    requires Valid(b)
    ensures InRange(b.order, |b.executions|) && |Completed(b)| == |b.calls|
  {
  }

  /** The summary of a finished run: every executed call is listed once and is a success or an error; failed calls
      are counted twice in `tool_call_count`; rounds are those started. */
  lemma {:induction false} SummaryAgrees(cfg: Config, env: Env, messages: seq<Message>)
    requires Fair(env)
    ensures var out := Runtime.Run(cfg, env, messages);
            out.result.Returned? ==>
            Fits(cfg, out.state.history) &&
            Agrees(cfg.maxChars, CountAll(ZERO, out.result.trace), Executed(cfg, out.state.history), RoundsStarted(out.state.history))
  {
    hide Runtime.Run, Fits, TraceOf, Executed, Agrees;
    RunStopsWell(cfg, env, messages);
    var out := Runtime.Run(cfg, env, messages);
    if out.result.Returned? { CountHistory(cfg, out.state.history); }
  }

  // ---------- rounds ----------

  ghost predicate Even(st: State, started: int, finished: int) {
    RoundsStarted(st.history) == started && RoundsFinished(st.history) == finished
  }

  lemma {:induction false} LogMarks(st: State, e: Event, s: int, f: int)
    requires Even(st, s, f)
    ensures Even(Log(st, e), s + (if e.LlmStart? then 1 else 0), f + (if e.LlmFinish? then 1 else 0))
  {
    assert Log(st, e).history[..|st.history|] == st.history;
  }

  lemma {:induction false} BatchMarks(cfg: Config, env: Env, st: State, origin: Origin, calls: seq<ToolCall>, s: int, f: int)
    requires Fair(env) && WellFormed(calls) && Even(st, s, f)
    ensures Even(RunBatch(cfg, env, st, origin, calls).0, s, f)
  {
    var h := RunBatch(cfg, env, st, origin, calls).0.history;
    assert h[..|st.history|] == st.history;
  }

  lemma {:induction false} SynthesizeMarks(env: Env, st: State, s: int, f: int)
    requires Even(st, s, f)
    ensures Even(Synthesize(env, st).0, s, f)
  {
    LogMarks(st.(attempts := st.attempts + 1), NoToolsSynthesisFinish, s, f);
  }

  lemma {:induction false} OpenMarks(cfg: Config, st: State, round: int, n: int)
    requires Even(st, n, n)
    ensures Even(OpenRound(cfg, st, round), n + 1, n)
  {
    LogMarks(st, FinalRoundForced(Some(round)), n, n);
    LogMarks(if round == cfg.maxRounds then Say(Log(st, FinalRoundForced(Some(round))), [User(cfg.finalPrompt)]) else st,
             LlmStart(round), n, n);
  }

  lemma {:induction false} AskMarks(cfg: Config, env: Env, st: State, round: int, n: int)
    requires Even(st, n + 1, n)
    ensures Ask(cfg, env, st, round).1.Some? ==> Even(Ask(cfg, env, st, round).0, n + 1, n + 1)
  {
    hide RoundsStarted, RoundsFinished, Log, Synthesize;
    var tried := st.(attempts := st.attempts + 1);
    if env.chat(st.attempts).Answer? {
      LogMarks(tried, LlmFinish(round), n + 1, n);
    } else if round == cfg.maxRounds {
      LogMarks(tried, ToolChoiceUnsupported(round), n + 1, n);
      SynthesizeMarks(env, Log(tried, ToolChoiceUnsupported(round)), n + 1, n);
      LogMarks(Synthesize(env, Log(tried, ToolChoiceUnsupported(round))).0, LlmFinish(round), n + 1, n);
    }
  }

  lemma {:induction false} BlockMarks(cfg: Config, env: Env, st: State, round: int, turn: Turn, n: int)
    requires Even(st, n, n)
    ensures Even(Block(cfg, env, st, round, turn).0, n, n)
  {
    hide RoundsStarted, RoundsFinished, Log, Synthesize;
    if turn.calls != [] && round == cfg.maxRounds {
      LogMarks(st, BlockedOnFinalRound(round, |turn.calls|), n, n);
      SynthesizeMarks(env, Log(st, BlockedOnFinalRound(round, |turn.calls|)), n, n);
    }
  }

  lemma {:induction false} ActMarks(cfg: Config, env: Env, st: State, round: int, turn: Turn, n: int)
    requires Fair(env) && Even(st, n, n)
    ensures match Act(cfg, env, st, round, turn)
            case Stop(out) => Even(out.state, n, n)
            case Continue(next) => Even(next, n, n)
  {
    hide RoundsStarted, RoundsFinished, Log, RunBatch, WellFormed;
    if turn.calls == [] {
      if cfg.requireInitial && round == 1 && cfg.fallbackCalls != [] {
        LogMarks(st, FallbackToolPlan(round), n, n);
        BatchMarks(cfg, env, Log(st, FallbackToolPlan(round)), Fallback, FallbackCalls(cfg.fallbackCalls), n, n);
      } else {
        LogMarks(st, Final(round), n, n);
      }
    } else if WellFormed(turn.calls) {
      BatchMarks(cfg, env, st, Requested(round, turn), turn.calls, n, n);
    }
  }

  lemma {:induction false} RoundMarks(cfg: Config, env: Env, st: State, round: int, n: int)
    requires Fair(env) && Even(st, n, n)
    ensures match Round(cfg, env, st, round)
            case Stop(out) => out.result.Returned? ==> Even(out.state, n + 1, n + 1)
            case Continue(next) => Even(next, n + 1, n + 1)
  {
    hide Even, OpenRound, Ask, Block, Act;
    OpenMarks(cfg, st, round, n);
    AskMarks(cfg, env, OpenRound(cfg, st, round), round, n);
    var (asked, answer) := Ask(cfg, env, OpenRound(cfg, st, round), round);
    if answer.Some? {
      BlockMarks(cfg, env, asked, round, answer.value, n + 1);
      var (checked, turn) := Block(cfg, env, asked, round, answer.value);
      if turn.Some? { ActMarks(cfg, env, checked, round, turn.value, n + 1); }
    }
  }

  lemma {:induction false} ForceMarks(cfg: Config, env: Env, st: State, n: int)
    requires Even(st, n, n)
    ensures Force(cfg, env, st).result.Returned? ==> Even(Force(cfg, env, st).state, n, n)
  {
    hide RoundsStarted, RoundsFinished, Log, Synthesize;
    LogMarks(st, FinalRoundForced(None), n, n);
    SynthesizeMarks(env, Log(st, FinalRoundForced(None)), n, n);
    LogMarks(Synthesize(env, Log(st, FinalRoundForced(None))).0, Final(cfg.maxRounds), n, n);
  }

  /** The rounds a run went through: all of them when the loop ran out, else as many as were opened. */
  lemma {:induction false} RoundsMarks(cfg: Config, env: Env, st: State, round: int) returns (n: int)
    requires Fair(env) && Even(st, round - 1, round - 1) && 1 <= round
    ensures var out := Rounds(cfg, env, st, round);
            out.result.Returned? ==>
              && Even(out.state, n, n)
              && round - 1 <= n <= (if cfg.maxRounds >= round then cfg.maxRounds else round - 1)
              && (n == round - 1 ==> out.forced)
    decreases cfg.maxRounds - round
  {
    hide Even, Round, Force;
    n := round - 1;
    if round > cfg.maxRounds {
      ForceMarks(cfg, env, st, n);
      ForcedFlag(cfg, env, st);
    } else {
      RoundMarks(cfg, env, st, round, n);
      var step := Round(cfg, env, st, round);
      if step.Continue? {
        assert Rounds(cfg, env, st, round) == Rounds(cfg, env, step.state, round + 1);
        n := RoundsMarks(cfg, env, step.state, round + 1);
      } else {
        n := round;
        assert Rounds(cfg, env, st, round) == step.outcome;
      }
    }
  }

  lemma {:induction false} ForcedFlag(cfg: Config, env: Env, st: State)
    ensures Force(cfg, env, st).forced
  {
  }

  lemma {:induction false} BeginMarks(cfg: Config, env: Env, messages: seq<Message>)
    requires Fair(env)
    ensures Even(Begin(cfg, env, messages), 0, 0)
  {
    var empty := State(messages, [], 0, []);
    assert Even(empty, 0, 0);
    hide RoundsStarted, RoundsFinished, Log, RunBatch;
    LogMarks(empty, Plan, 0, 0);
    var planned := if cfg.hasPlan then Log(empty, Plan) else empty;
    LogMarks(planned, InitialToolPlan, 0, 0);
    BatchMarks(cfg, env, Log(planned, InitialToolPlan), Initial, FallbackCalls(cfg.initialCalls), 0, 0);
  }

  /** In a finished run every round that started also finished, at least one unless there was none to run,
      and never more than `max_rounds`; so the summary's `llm_rounds` is also the number of LLM records. */
  lemma {:induction false} RoundsAgree(cfg: Config, env: Env, messages: seq<Message>)
    requires Fair(env)
    ensures var h := Runtime.Run(cfg, env, messages).state.history;
            Runtime.Run(cfg, env, messages).result.Returned? ==>
            && RoundsStarted(h) == RoundsFinished(h)
            && RoundsStarted(h) <= (if cfg.maxRounds >= 0 then cfg.maxRounds else 0)
            && (RoundsStarted(h) == 0 ==> Runtime.Run(cfg, env, messages).forced)
  {
    hide Rounds, Begin, RoundsStarted, RoundsFinished;
    BeginMarks(cfg, env, messages);
    var n := RoundsMarks(cfg, env, Begin(cfg, env, messages), 1);
  }
}
