/** The bounded tool-calling loop. The model service, the tool handlers and the thread pool are
    outside parties: an `Env` fixes, for one run, what each of them answers at each call, and every
    statement about a run holds for every `Env`. */
module Runtime {
  import opened Wrappers
  import opened Text
  import opened Json
  import opened StableSort
  import opened Observation

  // ---------- entities ----------

  /** Arguments after `_parse_arguments`: a dict, or text that is not a JSON object. */
  datatype Arguments = Malformed | Args(fields: seq<Field>)

  /** A requested call; the empty id stands for a missing one. */
  datatype ToolCall = ToolCall(id: string, name: string, arguments: Arguments)

  /** An assistant message; `reasoning` stands for the provider-private fields. */
  datatype Turn = Turn(content: string, calls: seq<ToolCall>, reasoning: Option<string>)

  datatype Message =
    | System(content: string)
    | User(content: string)
    | Assistant(turn: Turn)
    | ToolResult(callId: string, content: string)

  datatype Execution = Execution(callId: string, name: string, arguments: seq<Field>, output: Json, ok: bool)

  datatype Event =
    | Plan
    | InitialToolPlan
    | FinalRoundForced(announced: Option<int>)
    | LlmStart(round: int)
    | ToolChoiceUnsupported(round: int)
    | NoToolsSynthesisFinish
    | LlmFinish(round: int)
    | BlockedOnFinalRound(round: int, blocked: nat)
    | FallbackToolPlan(round: int)
    | Final(round: int)
    | ToolStart(callId: string, tool: string, arguments: seq<Field>)
    | ToolFinish(callId: string, tool: string, arguments: seq<Field>, ok: bool, truncated: bool, originalSize: nat, finalSize: nat)
    | ToolError(callId: string, tool: string, arguments: seq<Field>, ok: bool, truncated: bool, originalSize: nat, finalSize: nat)

  predicate IsToolEvent(e: Event) {
    e.ToolStart? || e.ToolFinish? || e.ToolError?
  }

  /** A call of the default plan. */
  datatype Planned = Planned(name: string, arguments: seq<Field>)

  datatype Config = Config(
    maxRounds: int,
    maxChars: int,
    tools: set<string>,
    requireInitial: bool,
    hasPlan: bool,
    finalPrompt: string,
    initialIntro: string,
    fallbackIntro: string,
    initialCalls: seq<Planned>,
    fallbackCalls: seq<Planned>)

  datatype Reply = Unavailable | Answer(turn: Turn)

  /** What a handler (with its output compactor) did. */
  datatype HandlerResult = Failed(error: string) | Output(value: Json)

  /** `chat` and `synth` are indexed by the LLM attempt, `finish` and `handler` by the batch. */
  datatype Env = Env(
    chat: nat -> Reply,
    synth: nat -> Option<string>,
    finish: (nat, nat) -> seq<nat>,
    handler: (nat, nat) -> HandlerResult)

  /** The pool runs every submitted call exactly once, in any order. */
  ghost predicate Fair(env: Env) {
    forall batch: nat, size: nat :: IsPermutation(env.finish(batch, size), size)
  }

  // ---------- one batch of tool calls ----------

  datatype Origin = Initial | Requested(round: int, turn: Turn) | Fallback

  /** A batch that ran: `executions[i]` belongs to request i, `order` lists the requests as they completed. */
  datatype Batch = Batch(origin: Origin, calls: seq<ToolCall>, order: seq<nat>, executions: seq<Execution>)

  predicate WellFormed(calls: seq<ToolCall>) {
    forall i :: 0 <= i < |calls| ==> calls[i].arguments.Args?
  }

  /** The id a call runs under: its own, or one made from its position. */
  function CallId(calls: seq<ToolCall>, i: nat): (id: string)
    ensures id != ""
  {
    if i < |calls| && calls[i].id != "" then calls[i].id else "tool-" + Digits(i + 1)
  }

  function CallIds(calls: seq<ToolCall>): (ids: seq<string>)
    ensures |ids| == |calls|
    ensures forall i :: 0 <= i < |calls| ==> ids[i] == CallId(calls, i)
  {
    seq(|calls|, i requires 0 <= i < |calls| => CallId(calls, i))
  }

  /** `output.get("ok") is False` on dicts, anything else counts as success. */
  predicate ReportsFailure(output: Json) {
    output.JObj? && Lookup(output.fields, "ok") == JBool(false)
  }

  /** `_run_tool`: never raises. */
  function RunTool(cfg: Config, result: HandlerResult, callId: string, name: string, arguments: seq<Field>): (e: Execution)
    ensures e.callId == callId && e.name == name && e.arguments == arguments
    ensures e.ok <==> name in cfg.tools && result.Output? && !ReportsFailure(result.value)
    ensures name in cfg.tools && result.Output? ==> e.output == result.value
  {
    if name !in cfg.tools then
      Execution(callId, name, arguments, JObj([Field("error", JStr("Unknown tool: " + name))]), false)
    else match result
      case Failed(error) => Execution(callId, name, arguments, JObj([Field("error", JStr(error))]), false)
      case Output(value) => Execution(callId, name, arguments, value, !ReportsFailure(value))
  }

  function RunCall(cfg: Config, env: Env, batch: nat, calls: seq<ToolCall>, i: nat): (e: Execution)
    requires WellFormed(calls) && i < |calls|
    ensures e.callId == CallId(calls, i) && e.name == calls[i].name && e.arguments == calls[i].arguments.fields
    ensures e.ok ==> e.name in cfg.tools
  {
    RunTool(cfg, env.handler(batch, i), CallId(calls, i), calls[i].name, calls[i].arguments.fields)
  }

  function MakeBatch(cfg: Config, env: Env, number: nat, origin: Origin, calls: seq<ToolCall>): (b: Batch)
    requires WellFormed(calls)
  {
    Batch(origin, calls, env.finish(number, |calls|),
          seq(|calls|, i requires 0 <= i < |calls| => RunCall(cfg, env, number, calls, i)))
  }

  /** Every call of the batch ran once, under its own id, name and arguments. */
  ghost predicate Valid(b: Batch) {
    && WellFormed(b.calls)
    && IsPermutation(b.order, |b.calls|)
    && |b.executions| == |b.calls|
    && forall i :: 0 <= i < |b.calls| ==>
         && b.executions[i].callId == CallId(b.calls, i)
         && b.executions[i].name == b.calls[i].name
         && b.executions[i].arguments == b.calls[i].arguments.fields
  }

  function ObservationOf(e: Execution): Json {
    JObj([Field("ok", JBool(e.ok)), Field("tool", JStr(e.name)), Field("arguments", JObj(e.arguments)), Field("data", e.output)])
  }

  function StartEvents(calls: seq<ToolCall>): (r: seq<Event>)
    requires WellFormed(calls)
    ensures |r| == |calls|
  {
    seq(|calls|, i requires 0 <= i < |calls| => ToolStart(CallId(calls, i), calls[i].name, calls[i].arguments.fields))
  }

  function FinishEvent(maxChars: int, e: Execution): Event {
    var original := Size(ObservationOf(e));
    var final := |Serialize(ObservationOf(e), maxChars)|;
    if e.ok then ToolFinish(e.callId, e.name, e.arguments, e.ok, original > maxChars, original, final)
    else ToolError(e.callId, e.name, e.arguments, e.ok, original > maxChars, original, final)
  }

  ghost predicate InRange(order: seq<nat>, n: nat) {
    forall k :: 0 <= k < |order| ==> order[k] < n
  }

  function Pick(executions: seq<Execution>): nat --> Execution {
    (i: nat) requires i < |executions| => executions[i]
  }

  function Completed(b: Batch): (r: seq<Execution>)
    requires InRange(b.order, |b.executions|)
    ensures |r| == |b.order|
  {
    Map(b.order, Pick(b.executions))
  }

  function FinishEvents(maxChars: int, executions: seq<Execution>): (r: seq<Event>)
    ensures |r| == |executions|
  {
    seq(|executions|, k requires 0 <= k < |executions| => FinishEvent(maxChars, executions[k]))
  }

  function BatchEvents(maxChars: int, b: Batch): seq<Event>
    requires WellFormed(b.calls) && InRange(b.order, |b.executions|)
  {
    StartEvents(b.calls) + FinishEvents(maxChars, Completed(b))
  }

  // ---------- back into request order ----------

  /** The last position of a key, as a dict built left to right keeps it; -1 when absent. */
  function LastIndex(ids: seq<string>, id: string): (k: int)
    ensures -1 <= k < |ids|
    ensures k >= 0 ==> ids[k] == id && forall j :: k < j < |ids| ==> ids[j] != id
    ensures k < 0 ==> id !in ids
  {
    if ids == [] then -1
    else if ids[|ids| - 1] == id then |ids| - 1
    else LastIndex(ids[..|ids| - 1], id)
  }

  function RawIds(calls: seq<ToolCall>): (ids: seq<string>)
    ensures |ids| == |calls|
    ensures forall i :: 0 <= i < |calls| ==> ids[i] == calls[i].id
  {
    seq(|calls|, i requires 0 <= i < |calls| => calls[i].id)
  }

  /** `execution_order.get(id, len(execution_order))`, the dict being keyed by the raw ids. */
  function OrderKey(calls: seq<ToolCall>, id: string): int {
    var ids := RawIds(calls);
    if LastIndex(ids, id) >= 0 then LastIndex(ids, id) else |set i | 0 <= i < |ids| :: ids[i]|
  }

  function ByRequest(calls: seq<ToolCall>): Execution -> int {
    (e: Execution) => OrderKey(calls, e.callId)
  }

  /** The executions as `_execute_tool_calls` returns them. */
  function InRequestOrder(calls: seq<ToolCall>, completed: seq<Execution>): (r: seq<Execution>)
    ensures |r| == |completed|
  {
    Sort(completed, ByRequest(calls))
  }

  // ---------- the conversation ----------

  function ToolMessages(maxChars: int, executions: seq<Execution>): (r: seq<Message>)
    ensures |r| == |executions|
    ensures forall i :: 0 <= i < |r| ==> r[i] == ToolResult(executions[i].callId, Serialize(ObservationOf(executions[i]), maxChars))
  {
    seq(|executions|, i requires 0 <= i < |executions| =>
      ToolResult(executions[i].callId, Serialize(ObservationOf(executions[i]), maxChars)))
  }

  /** `_append_synthetic_observations`. */
  function SyntheticMessages(maxChars: int, executions: seq<Execution>, intro: string): (r: seq<Message>)
    ensures |r| == |executions| + 1 && r[0] == User(intro)
    ensures forall i :: 0 <= i < |executions| ==>
              r[i + 1] == User("工具结果 " + executions[i].name + ":\n" + Serialize(ObservationOf(executions[i]), maxChars))
  {
    [User(intro)] + seq(|executions|, i requires 0 <= i < |executions| =>
      User("工具结果 " + executions[i].name + ":\n" + Serialize(ObservationOf(executions[i]), maxChars)))
  }

  /** `_build_fallback_tool_calls`; its arguments are printed and parsed back, so they are never malformed. */
  function FallbackCalls(planned: seq<Planned>): (calls: seq<ToolCall>)
    ensures |calls| == |planned|
    ensures forall i :: 0 <= i < |planned| ==> calls[i].name == planned[i].name && calls[i].arguments == Args(planned[i].arguments)
    ensures forall i :: 0 <= i < |planned| ==> calls[i].id == "fallback-" + Digits(i + 1) + "-" + planned[i].name
    ensures WellFormed(calls)
  {
    seq(|planned|, i requires 0 <= i < |planned| =>
      ToolCall("fallback-" + Digits(i + 1) + "-" + planned[i].name, planned[i].name, Args(planned[i].arguments)))
  }

  function StripTurn(m: Message): Message {
    if m.Assistant? then Assistant(m.turn.(reasoning := None)) else m
  }

  /** `_strip_reasoning_from_messages`. */
  function StripReasoning(messages: seq<Message>): (r: seq<Message>)
    ensures |r| == |messages|
    ensures forall i :: 0 <= i < |r| ==> r[i] == StripTurn(messages[i])
  {
    seq(|messages|, i requires 0 <= i < |messages| => StripTurn(messages[i]))
  }

  // ---------- a run ----------

  datatype Segment = Note(event: Event) | Ran(batch: Batch)

  /** `history` explains the trace: single events and whole batches, in order. */
  datatype State = State(conversation: seq<Message>, trace: seq<Event>, attempts: nat, history: seq<Segment>)

  datatype Error = LlmUnavailable | BadArguments | NoJson

  datatype Result = Returned(content: string, trace: seq<Event>, messages: seq<Message>) | Raised(error: Error)

  /** `forced` records whether the loop ran out of rounds. */
  datatype Outcome = Outcome(result: Result, state: State, forced: bool)

  datatype Step = Stop(outcome: Outcome) | Continue(state: State)

  function Log(st: State, e: Event): State {
    st.(trace := st.trace + [e], history := st.history + [Note(e)])
  }

  function Say(st: State, messages: seq<Message>): State {
    st.(conversation := st.conversation + messages)
  }

  function Batches(history: seq<Segment>): (bs: seq<Batch>) {
    if history == [] then []
    else if history[|history| - 1].Ran? then Batches(history[..|history| - 1]) + [history[|history| - 1].batch]
    else Batches(history[..|history| - 1])
  }

  /** The state after a batch, and the executions it hands back. */
  ghost function RunBatch(cfg: Config, env: Env, st: State, origin: Origin, calls: seq<ToolCall>): (r: (State, seq<Execution>))
    requires Fair(env) && WellFormed(calls)
  {
    var b := MakeBatch(cfg, env, |Batches(st.history)|, origin, calls);
    (st.(trace := st.trace + BatchEvents(cfg.maxChars, b), history := st.history + [Ran(b)]),
     InRequestOrder(calls, Completed(b)))
  }

  /** `_synthesize_without_tools`: the message it builds carries an empty list of tool calls. */
  ghost function Synthesize(env: Env, st: State): (r: (State, Option<Turn>)) {
    match env.synth(st.attempts)
    case None => (st.(attempts := st.attempts + 1), None)
    case Some(content) =>
      (Log(st.(attempts := st.attempts + 1), NoToolsSynthesisFinish), Some(Turn(content, [], None)))
  }

  ghost function Deliver(st: State, round: int, turn: Turn, forced: bool): Outcome {
    var done := Log(st, Final(round));
    Outcome(Returned(turn.content, done.trace, StripReasoning(st.conversation + [Assistant(turn)])), done, forced)
  }

  /** The optional plan and the default tool set. */
  ghost function Begin(cfg: Config, env: Env, messages: seq<Message>): State
    requires Fair(env)
  {
    var empty := State(messages, [], 0, []);
    var planned := if cfg.hasPlan then Log(empty, Plan) else empty;
    if cfg.initialCalls == [] then planned
    else
      var (ran, executions) := RunBatch(cfg, env, Log(planned, InitialToolPlan), Initial, FallbackCalls(cfg.initialCalls));
      Say(ran, SyntheticMessages(cfg.maxChars, executions, cfg.initialIntro))
  }

  /** The announcements of a round. */
  ghost function OpenRound(cfg: Config, st: State, round: int): State {
    var announced :=
      if round == cfg.maxRounds then Say(Log(st, FinalRoundForced(Some(round))), [User(cfg.finalPrompt)]) else st;
    Log(announced, LlmStart(round))
  }

  /** The LLM call, with the synthesis fallback of the final round. None: the call raised. */
  ghost function Ask(cfg: Config, env: Env, st: State, round: int): (r: (State, Option<Turn>)) {
    var tried := st.(attempts := st.attempts + 1);
    match env.chat(st.attempts)
    case Answer(turn) => (Log(tried, LlmFinish(round)), Some(turn))
    case Unavailable =>
      if round != cfg.maxRounds then (tried, None)
      else
        var (synthesized, turn) := Synthesize(env, Log(tried, ToolChoiceUnsupported(round)));
        if turn.None? then (synthesized, None) else (Log(synthesized, LlmFinish(round)), turn)
  }

  /** Tool calls asked for in the final round are blocked and replaced by a synthesis. */
  ghost function Block(cfg: Config, env: Env, st: State, round: int, turn: Turn): (r: (State, Option<Turn>)) {
    if turn.calls != [] && round == cfg.maxRounds then
      Synthesize(env, Log(st, BlockedOnFinalRound(round, |turn.calls|)))
    else (st, Some(turn))
  }

  /** Answer, run the default tools, or run the requested ones. */
  ghost function Act(cfg: Config, env: Env, st: State, round: int, turn: Turn): Step
    requires Fair(env)
  {
    if turn.calls == [] then
      if cfg.requireInitial && round == 1 && cfg.fallbackCalls != [] then
        var (ran, executions) := RunBatch(cfg, env, Log(st, FallbackToolPlan(round)), Fallback, FallbackCalls(cfg.fallbackCalls));
        Continue(Say(ran, SyntheticMessages(cfg.maxChars, executions, cfg.fallbackIntro)))
      else Stop(Deliver(st, round, turn, false))
    else if !WellFormed(turn.calls) then Stop(Outcome(Raised(BadArguments), st, false))
    else
      var (ran, executions) := RunBatch(cfg, env, st, Requested(round, turn), turn.calls);
      Continue(Say(ran, [Assistant(turn)] + ToolMessages(cfg.maxChars, executions)))
  }

  ghost function Round(cfg: Config, env: Env, st: State, round: int): Step
    requires Fair(env)
  {
    var (asked, answer) := Ask(cfg, env, OpenRound(cfg, st, round), round);
    if answer.None? then Stop(Outcome(Raised(LlmUnavailable), asked, false))
    else
      var (checked, turn) := Block(cfg, env, asked, round, answer.value);
      if turn.None? then Stop(Outcome(Raised(LlmUnavailable), checked, false))
      else if round == cfg.maxRounds && answer.value.calls != [] && turn.value.calls != [] then
        Stop(Outcome(Raised(NoJson), checked, false))
      else Act(cfg, env, checked, round, turn.value)
  }

  /** `_force_no_tools_final_answer`. */
  ghost function Force(cfg: Config, env: Env, st: State): Outcome {
    var (synthesized, turn) := Synthesize(env, Log(st, FinalRoundForced(None)));
    if turn.None? then Outcome(Raised(LlmUnavailable), synthesized, true)
    else if turn.value.calls != [] then Outcome(Raised(NoJson), synthesized, true)
    else Deliver(synthesized, cfg.maxRounds, turn.value, true)
  }

  ghost function Rounds(cfg: Config, env: Env, st: State, round: int): Outcome
    requires Fair(env)
    decreases cfg.maxRounds - round
  {
    if round > cfg.maxRounds then Force(cfg, env, st)
    else match Round(cfg, env, st, round)
      case Stop(outcome) => outcome
      case Continue(next) => Rounds(cfg, env, next, round + 1)
  }

  ghost function Run(cfg: Config, env: Env, messages: seq<Message>): Outcome
    requires Fair(env)
  {
    Rounds(cfg, env, Begin(cfg, env, messages), 1)
  }
}
