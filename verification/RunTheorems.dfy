/** What every run of the tool-calling loop keeps, for every model, tool set and completion order. */
module RunTheorems {
  import opened Wrappers
  import opened StableSort
  import opened Observation
  import opened Runtime
  import opened ToolOrder

  // ---------- the trace and the transcript a history stands for ----------

  /** Requested batches carry exactly the calls of their assistant message and never belong to the final round;
      the default plans run at most where the configuration has them. */
  ghost predicate OriginFits(cfg: Config, b: Batch) {
    match b.origin
    case Initial => b.calls == FallbackCalls(cfg.initialCalls)
    case Fallback => cfg.requireInitial && b.calls == FallbackCalls(cfg.fallbackCalls)
    case Requested(round, turn) => 1 <= round < cfg.maxRounds && turn.calls == b.calls && b.calls != []
  }

  /** A call succeeds only when its tool is one the loop was given. */
  ghost predicate OnlyKnownSucceed(cfg: Config, b: Batch) {
    forall i :: 0 <= i < |b.executions| && b.executions[i].ok ==> b.executions[i].name in cfg.tools
  }

  ghost predicate SegmentFits(cfg: Config, s: Segment) {
    match s
    case Note(e) => !IsToolEvent(e)
    case Ran(b) => Valid(b) && OriginFits(cfg, b) && OnlyKnownSucceed(cfg, b)
  }

  ghost predicate Fits(cfg: Config, history: seq<Segment>) {
    history == [] || (Fits(cfg, history[..|history| - 1]) && SegmentFits(cfg, history[|history| - 1]))
  }

  ghost function EventsOf(cfg: Config, s: Segment): seq<Event>
    requires SegmentFits(cfg, s)
  {
    match s
    case Note(e) => [e]
    case Ran(b) => BatchEvents(cfg.maxChars, b)
  }

  ghost function TraceOf(cfg: Config, history: seq<Segment>): seq<Event>
    requires Fits(cfg, history)
  {
    if history == [] then []
    else TraceOf(cfg, history[..|history| - 1]) + EventsOf(cfg, history[|history| - 1])
  }

  /** What a segment adds to the conversation. */
  ghost function MessagesOf(cfg: Config, s: Segment): seq<Message>
    requires SegmentFits(cfg, s)
  {
    match s
    case Note(e) => if e.FinalRoundForced? && e.announced.Some? then [User(cfg.finalPrompt)] else []
    case Ran(b) =>
      var executions := InRequestOrder(b.calls, Completed(b));
      match b.origin
      case Initial => SyntheticMessages(cfg.maxChars, executions, cfg.initialIntro)
      case Fallback => SyntheticMessages(cfg.maxChars, executions, cfg.fallbackIntro)
      case Requested(_, turn) => [Assistant(turn)] + ToolMessages(cfg.maxChars, executions)
  }

  ghost function TranscriptOf(cfg: Config, history: seq<Segment>): seq<Message>
    requires Fits(cfg, history)
  {
    if history == [] then []
    else TranscriptOf(cfg, history[..|history| - 1]) + MessagesOf(cfg, history[|history| - 1])
  }

  ghost predicate Explained(cfg: Config, messages: seq<Message>, st: State) {
    && Fits(cfg, st.history)
    && st.trace == TraceOf(cfg, st.history)
    && st.conversation == messages + TranscriptOf(cfg, st.history)
  }

  ghost function Extend(cfg: Config, st: State, s: Segment): State
    requires SegmentFits(cfg, s)
  {
    State(st.conversation + MessagesOf(cfg, s), st.trace + EventsOf(cfg, s), st.attempts, st.history + [s])
  }

  lemma {:induction false} ExtendExplained(cfg: Config, messages: seq<Message>, st: State, s: Segment)
    requires Explained(cfg, messages, st)
    requires SegmentFits(cfg, s)
    ensures Explained(cfg, messages, Extend(cfg, st, s))
  {
    var h := st.history + [s];
    assert h[..|h| - 1] == st.history && h[|h| - 1] == s;
    Associate(messages, TranscriptOf(cfg, st.history), MessagesOf(cfg, s));
  }

  lemma {:induction false} Associate<T>(a: seq<T>, b: seq<T>, c: seq<T>)
    ensures a + b + c == a + (b + c)
  {
  }

  lemma {:induction false} LogExplained(cfg: Config, messages: seq<Message>, st: State, e: Event)
    requires Explained(cfg, messages, st)
    requires !(e.FinalRoundForced? && e.announced.Some?) && !IsToolEvent(e)
    ensures Explained(cfg, messages, Log(st, e)) && Log(st, e).attempts == st.attempts
  {
    ExtendExplained(cfg, messages, st, Note(e));
    assert st.conversation + [] == st.conversation;
  }

  lemma {:induction false} AnnounceExplained(cfg: Config, messages: seq<Message>, st: State, round: int)
    requires Explained(cfg, messages, st)
    ensures Explained(cfg, messages, Say(Log(st, FinalRoundForced(Some(round))), [User(cfg.finalPrompt)]))
  {
    ExtendExplained(cfg, messages, st, Note(FinalRoundForced(Some(round))));
  }

  lemma {:induction false} BatchExplained(cfg: Config, env: Env, messages: seq<Message>, st: State, origin: Origin, calls: seq<ToolCall>)
    requires Fair(env) && WellFormed(calls) && Explained(cfg, messages, st)
    requires OriginFits(cfg, MakeBatch(cfg, env, |Batches(st.history)|, origin, calls))
    ensures var b := MakeBatch(cfg, env, |Batches(st.history)|, origin, calls);
            Valid(b) &&
            Explained(cfg, messages, Say(RunBatch(cfg, env, st, origin, calls).0, MessagesOf(cfg, Ran(b))))
  {
    var b := MakeBatch(cfg, env, |Batches(st.history)|, origin, calls);
    assert Valid(b);
    ExtendExplained(cfg, messages, st, Ran(b));
  }

  lemma {:induction false} BeginExplained(cfg: Config, env: Env, messages: seq<Message>)
    requires Fair(env)
    ensures Explained(cfg, messages, Begin(cfg, env, messages))
    ensures Begin(cfg, env, messages).attempts == 0
  {
    var empty := State(messages, [], 0, []);
    assert messages + [] == messages;
    assert Explained(cfg, messages, empty);
    hide Explained, Log, MakeBatch;
    LogExplained(cfg, messages, empty, Plan);
    var planned := if cfg.hasPlan then Log(empty, Plan) else empty;
    LogExplained(cfg, messages, planned, InitialToolPlan);
    if cfg.initialCalls != [] {
      BatchExplained(cfg, env, messages, Log(planned, InitialToolPlan), Initial, FallbackCalls(cfg.initialCalls));
    }
  }

  lemma {:induction false} OpenExplained(cfg: Config, messages: seq<Message>, st: State, round: int)
    requires Explained(cfg, messages, st)
    ensures Explained(cfg, messages, OpenRound(cfg, st, round))
  {
    AnnounceExplained(cfg, messages, st, round);
    LogExplained(cfg, messages,
                 if round == cfg.maxRounds then Say(Log(st, FinalRoundForced(Some(round))), [User(cfg.finalPrompt)]) else st,
                 LlmStart(round));
  }

  lemma {:induction false} SynthesizeExplained(cfg: Config, env: Env, messages: seq<Message>, st: State)
    requires Explained(cfg, messages, st)
    ensures Explained(cfg, messages, Synthesize(env, st).0)
    ensures Synthesize(env, st).0.attempts == st.attempts + 1
    ensures Synthesize(env, st).1.Some? ==> Synthesize(env, st).1.value.calls == []
  {
    LogExplained(cfg, messages, st.(attempts := st.attempts + 1), NoToolsSynthesisFinish);
  }

  lemma {:induction false} AttemptExplained(cfg: Config, messages: seq<Message>, st: State)
    requires Explained(cfg, messages, st)
    ensures Explained(cfg, messages, st.(attempts := st.attempts + 1))
  {
  }

  lemma {:induction false} AskExplained(cfg: Config, env: Env, messages: seq<Message>, st: State, round: int)
    requires Explained(cfg, messages, st)
    ensures Explained(cfg, messages, Ask(cfg, env, st, round).0)
    ensures Ask(cfg, env, st, round).0.attempts <= st.attempts + if round == cfg.maxRounds then 2 else 1
    ensures Ask(cfg, env, st, round).0.attempts == st.attempts + 2 && Ask(cfg, env, st, round).1.Some? ==> Ask(cfg, env, st, round).1.value.calls == []
  {
    hide Explained, Synthesize, Log;
    var tried := st.(attempts := st.attempts + 1);
    AttemptExplained(cfg, messages, st);
    if env.chat(st.attempts).Answer? {
      LogExplained(cfg, messages, tried, LlmFinish(round));
    } else if round == cfg.maxRounds {
      LogExplained(cfg, messages, tried, ToolChoiceUnsupported(round));
      var unsupported := Log(tried, ToolChoiceUnsupported(round));
      SynthesizeExplained(cfg, env, messages, unsupported);
      LogExplained(cfg, messages, Synthesize(env, unsupported).0, LlmFinish(round));
    }
  }

  lemma {:induction false} BlockExplained(cfg: Config, env: Env, messages: seq<Message>, st: State, round: int, turn: Turn)
    requires Explained(cfg, messages, st)
    ensures Explained(cfg, messages, Block(cfg, env, st, round, turn).0)
    ensures Block(cfg, env, st, round, turn).0.attempts
         == st.attempts + if turn.calls != [] && round == cfg.maxRounds then 1 else 0
    ensures round == cfg.maxRounds && Block(cfg, env, st, round, turn).1.Some? ==> Block(cfg, env, st, round, turn).1.value.calls == []
  {
    LogExplained(cfg, messages, st, BlockedOnFinalRound(round, |turn.calls|));
    SynthesizeExplained(cfg, env, messages, Log(st, BlockedOnFinalRound(round, |turn.calls|)));
  }

  /** A finished run delivers exactly the transcript of its history and one answer without tool calls. */
  ghost predicate Delivered(cfg: Config, messages: seq<Message>, out: Outcome) {
    && out.result.Returned?
    && Fits(cfg, out.state.history)
    && out.result.trace == out.state.trace == TraceOf(cfg, out.state.history)
    && exists answer: Turn ::
         && answer.calls == []
         && out.result.content == answer.content
         && out.result.messages
            == StripReasoning(messages + TranscriptOf(cfg, out.state.history) + [Assistant(answer)])
  }

  lemma {:induction false} DeliverDelivers(cfg: Config, messages: seq<Message>, st: State, round: int, turn: Turn, forced: bool)
    requires Explained(cfg, messages, st) && turn.calls == []
    ensures Delivered(cfg, messages, Deliver(st, round, turn, forced))
  {
    LogExplained(cfg, messages, st, Final(round));
  }

  ghost predicate StopsWell(cfg: Config, messages: seq<Message>, out: Outcome) {
    match out.result
    case Raised(e) => e != NoJson
    case Returned(_, _, _) => Delivered(cfg, messages, out)
  }

  ghost predicate GoesOnWell(cfg: Config, messages: seq<Message>, before: State, after: State, round: int) {
    && Explained(cfg, messages, after)
    && after.attempts <= before.attempts + (if round == cfg.maxRounds then 2 else 1)
    && (round == cfg.maxRounds ==> round == 1 && cfg.requireInitial && cfg.fallbackCalls != [])
  }

  lemma {:induction false} ActWell(cfg: Config, env: Env, messages: seq<Message>, st: State, round: int, turn: Turn)
    requires Fair(env) && Explained(cfg, messages, st)
    requires 1 <= round <= cfg.maxRounds && (round == cfg.maxRounds ==> turn.calls == [])
    ensures match Act(cfg, env, st, round, turn)
            case Stop(out) => StopsWell(cfg, messages, out) && out.state.attempts == st.attempts && !out.forced
            case Continue(next) =>
              && Explained(cfg, messages, next) && next.attempts == st.attempts
              && (round == cfg.maxRounds ==> round == 1 && cfg.requireInitial && cfg.fallbackCalls != [])
  {
    if turn.calls == [] {
      if cfg.requireInitial && round == 1 && cfg.fallbackCalls != [] {
        LogExplained(cfg, messages, st, FallbackToolPlan(round));
        BatchExplained(cfg, env, messages, Log(st, FallbackToolPlan(round)), Fallback, FallbackCalls(cfg.fallbackCalls));
      } else {
        DeliverDelivers(cfg, messages, st, round, turn, false);
      }
    } else if WellFormed(turn.calls) {
      BatchExplained(cfg, env, messages, st, Requested(round, turn), turn.calls);
    }
  }

  lemma {:induction false} RoundWell(cfg: Config, env: Env, messages: seq<Message>, st: State, round: int)
    requires Fair(env) && Explained(cfg, messages, st)
    requires 1 <= round <= cfg.maxRounds
    ensures match Round(cfg, env, st, round)
            case Stop(out) =>
              && StopsWell(cfg, messages, out) && !out.forced
              && out.state.attempts <= st.attempts + (if round == cfg.maxRounds then 2 else 1)
            case Continue(next) => GoesOnWell(cfg, messages, st, next, round)
  {
    var ready := OpenRound(cfg, st, round);
    OpenExplained(cfg, messages, st, round);
    AskExplained(cfg, env, messages, ready, round);
    var (asked, answer) := Ask(cfg, env, ready, round);
    if answer.Some? {
      BlockExplained(cfg, env, messages, asked, round, answer.value);
      var (checked, turn) := Block(cfg, env, asked, round, answer.value);
      if turn.Some? {
        ActWell(cfg, env, messages, checked, round, turn.value);
      }
    }
  }

  lemma {:induction false} ForceWell(cfg: Config, env: Env, messages: seq<Message>, st: State)
    requires Explained(cfg, messages, st)
    ensures var out := Force(cfg, env, st);
            StopsWell(cfg, messages, out) && out.forced && out.state.attempts == st.attempts + 1
  {
    LogExplained(cfg, messages, st, FinalRoundForced(None));
    SynthesizeExplained(cfg, env, messages, Log(st, FinalRoundForced(None)));
    var (synthesized, turn) := Synthesize(env, Log(st, FinalRoundForced(None)));
    if turn.Some? {
      DeliverDelivers(cfg, messages, synthesized, cfg.maxRounds, turn.value, true);
    }
  }

  /** One round only, and it must start with the default tool set. */
  predicate DefaultPlanOnly(cfg: Config) {
    cfg.maxRounds == 1 && cfg.requireInitial && cfg.fallbackCalls != []
  }

  /** LLM attempts left when `round` is about to start. */
  function Allowance(cfg: Config, round: int): int {
    if round > cfg.maxRounds then 1
    else cfg.maxRounds - round + 2 + if round == 1 && cfg.maxRounds == 1 then 1 else 0
  }

  lemma {:induction false} RoundsWell(cfg: Config, env: Env, messages: seq<Message>, st: State, round: int)
    requires Fair(env) && Explained(cfg, messages, st) && round >= 1
    ensures StopsWell(cfg, messages, Rounds(cfg, env, st, round))
    ensures Rounds(cfg, env, st, round).state.attempts <= st.attempts + Allowance(cfg, round)
    ensures Rounds(cfg, env, st, round).forced ==> round > cfg.maxRounds || DefaultPlanOnly(cfg)
    decreases cfg.maxRounds - round
  {
    hide Round, Force, StopsWell, Explained;
    if round > cfg.maxRounds {
      ForceWell(cfg, env, messages, st);
    } else {
      RoundWell(cfg, env, messages, st, round);
      var step := Round(cfg, env, st, round);
      if step.Continue? {
        RoundsWell(cfg, env, messages, step.state, round + 1);
        assert Rounds(cfg, env, st, round) == Rounds(cfg, env, step.state, round + 1);
      } else {
        assert Rounds(cfg, env, st, round) == step.outcome;
      }
    }
  }

  /** Every run stops after a bounded number of LLM attempts, never raises "did not produce JSON", and when it
      returns, its trace and its messages are exactly those of one history of events and batches. */
  lemma {:induction false} RunStopsWell(cfg: Config, env: Env, messages: seq<Message>)
    requires Fair(env)
    ensures var out := Run(cfg, env, messages);
            && (out.result.Raised? ==> out.result.error != NoJson)
            && (out.result.Returned? ==> Delivered(cfg, messages, out))
            && out.state.attempts <= (if cfg.maxRounds >= 2 then cfg.maxRounds + 1 else if cfg.maxRounds == 1 then 3 else 1)
  {
    BeginExplained(cfg, env, messages);
    RoundsWell(cfg, env, messages, Begin(cfg, env, messages), 1);
  }

  /** The loop runs out of rounds only when there is none, or when its single round went to the default plan. */
  lemma {:induction false} ForcedOnly(cfg: Config, env: Env, messages: seq<Message>)
    requires Fair(env)
    ensures cfg.maxRounds <= 0 ==> Run(cfg, env, messages).forced
    ensures Run(cfg, env, messages).forced ==> cfg.maxRounds <= 0 || DefaultPlanOnly(cfg)
    ensures DefaultPlanOnly(cfg) && !Run(cfg, env, messages).forced ==> Run(cfg, env, messages).result.Raised?
  {
    BeginExplained(cfg, env, messages);
    var st := Begin(cfg, env, messages);
    RoundsWell(cfg, env, messages, st, 1);
    if cfg.maxRounds <= 0 {
      ForceWell(cfg, env, messages, st);
    } else if DefaultPlanOnly(cfg) {
      SingleRound(cfg, env, messages, st);
    }
  }

  lemma {:induction false} SingleRound(cfg: Config, env: Env, messages: seq<Message>, st: State)
    requires Fair(env) && Explained(cfg, messages, st) && DefaultPlanOnly(cfg)
    ensures var out := Rounds(cfg, env, st, 1); out.forced || out.result.Raised?
  {
    var ready := OpenRound(cfg, st, 1);
    OpenExplained(cfg, messages, st, 1);
    AskExplained(cfg, env, messages, ready, 1);
    var (asked, answer) := Ask(cfg, env, ready, 1);
    if answer.Some? {
      BlockExplained(cfg, env, messages, asked, 1, answer.value);
    }
    var step := Round(cfg, env, st, 1);
    if step.Continue? {
      assert Rounds(cfg, env, st, 1) == Rounds(cfg, env, step.state, 2) == Force(cfg, env, step.state);
    }
  }

  // ---------- protocol shape ----------

  function ReplyIds(replies: seq<Message>): seq<string> {
    seq(|replies|, i requires 0 <= i < |replies| => if replies[i].ToolResult? then replies[i].callId else "")
  }

  /** One tool message per call, each under its call's id, in request order when the ids allow it. */
  ghost predicate Answers(calls: seq<ToolCall>, replies: seq<Message>) {
    && |replies| == |calls|
    && (forall i :: 0 <= i < |replies| ==> replies[i].ToolResult?)
    && multiset(ReplyIds(replies)) == multiset(CallIds(calls))
    && (OrderKept(calls) ==> ReplyIds(replies) == CallIds(calls))
  }

  /** Every assistant message carries calls and is followed at once by its answers. */
  ghost predicate Shaped(ms: seq<Message>)
    decreases |ms|
  {
    ms == [] || (Opens(ms) && Shaped(ms[Span(ms[0])..]))
  }

  /** How many messages belong to the exchange a message opens. */
  function Span(m: Message): nat {
    if m.Assistant? then |m.turn.calls| + 1 else 1
  }

  ghost predicate Opens(ms: seq<Message>)
    requires ms != []
  {
    match ms[0]
    case User(_) => true
    case Assistant(turn) => 1 < Span(ms[0]) <= |ms| && Answers(turn.calls, ms[1..Span(ms[0])])
    case _ => false
  }

  lemma {:induction false} ShapedAppend(a: seq<Message>, b: seq<Message>)
    requires Shaped(a) && Shaped(b)
    ensures Shaped(a + b)
    decreases |a|
  {
    if a == [] {
      assert a + b == b;
    } else {
      var k := Span(a[0]);
      assert (a + b)[1..k] == a[1..k];
      assert (a + b)[k..] == a[k..] + b;
      ShapedAppend(a[k..], b);
    }
  }

  lemma {:induction false} UsersShaped(ms: seq<Message>)
    requires forall i :: 0 <= i < |ms| ==> ms[i].User?
    ensures Shaped(ms)
  {
    if ms != [] { UsersShaped(ms[1..]); }
  }

  function IdAt(calls: seq<ToolCall>): nat -> string {
    (i: nat) => CallId(calls, i)
  }

  lemma {:induction false} ReplyIdsAs(maxChars: int, b: Batch, p: seq<nat>)
    requires Valid(b) && IsPermutation(p, |b.calls|)
    ensures ReplyIds(ToolMessages(maxChars, Map(p, Pick(b.executions)))) == Map(p, IdAt(b.calls))
  {
    hide Serialize, ObservationOf, CallId;
  }

  lemma {:induction false} ToolMessagesAnswer(maxChars: int, b: Batch)
    requires Valid(b)
    ensures Answers(b.calls, ToolMessages(maxChars, InRequestOrder(b.calls, Completed(b))))
  {
    var p := Sort(b.order, Key(b.calls));
    var replies := ToolMessages(maxChars, InRequestOrder(b.calls, Completed(b)));
    hide Serialize, ObservationOf, CallId, InRequestOrder, Completed, Sort, Pick, IsPermutation;
    ReturnedAs(b);
    ReplyIdsAs(maxChars, b, p);
    assert CallIds(b.calls) == Map(Range(|b.calls|), IdAt(b.calls));
    PermutedIds(b.calls, p);
    if OrderKept(b.calls) { ReturnedInRequestOrder(b); }
  }

  lemma {:induction false} PermutedIds(calls: seq<ToolCall>, p: seq<nat>)
    requires IsPermutation(p, |calls|)
    ensures multiset(Map(p, IdAt(calls))) == multiset(Map(Range(|calls|), IdAt(calls)))
  {
    MapMultiset(p, Range(|calls|), IdAt(calls));
  }

  lemma {:induction false} ExchangeShaped(turn: Turn, replies: seq<Message>)
    requires turn.calls != [] && Answers(turn.calls, replies)
    ensures Shaped([Assistant(turn)] + replies)
  {
    var ms := [Assistant(turn)] + replies;
    assert ms[1..Span(ms[0])] == replies;
    assert ms[Span(ms[0])..] == [];
  }

  lemma {:induction false} SegmentShaped(cfg: Config, s: Segment)
    requires SegmentFits(cfg, s)
    ensures Shaped(MessagesOf(cfg, s))
  {
    if s.Ran? && s.batch.origin.Requested? {
      hide Serialize, ObservationOf, InRequestOrder, Completed, Answers;
      ToolMessagesAnswer(cfg.maxChars, s.batch);
      ExchangeShaped(s.batch.origin.turn, ToolMessages(cfg.maxChars, InRequestOrder(s.batch.calls, Completed(s.batch))));
    } else {
      hide Serialize, ObservationOf, InRequestOrder, Completed;
      UsersShaped(MessagesOf(cfg, s));
    }
  }

  /** Whatever the loop adds to the conversation is protocol-shaped. */
  lemma {:induction false} TranscriptShaped(cfg: Config, history: seq<Segment>)
    requires Fits(cfg, history)
    ensures Shaped(TranscriptOf(cfg, history))
  {
    if history != [] {
      var front, last := history[..|history| - 1], history[|history| - 1];
      TranscriptShaped(cfg, front);
      SegmentShaped(cfg, last);
      ShapedAppend(TranscriptOf(cfg, front), MessagesOf(cfg, last));
    }
  }

  lemma {:induction false} StripKeepsShape(ms: seq<Message>)
    requires Shaped(ms)
    ensures Shaped(StripReasoning(ms))
    decreases |ms|
  {
    if ms != [] {
      var k := Span(ms[0]);
      var r := StripReasoning(ms);
      StripKeepsShape(ms[k..]);
      assert r[k..] == StripReasoning(ms[k..]);
      assert r[1..k] == ms[1..k];
    }
  }

  /** The caller's own messages, then a protocol-shaped exchange, then an answer that asks for no tool;
      and no private reasoning anywhere. */
  ghost predicate Exchange(messages: seq<Message>, ms: seq<Message>) {
    var n := |messages|;
    && |ms| > n
    && ms[..n] == StripReasoning(messages)
    && Shaped(ms[n..|ms| - 1])
    && ms[|ms| - 1].Assistant? && ms[|ms| - 1].turn.calls == []
    && forall i :: 0 <= i < |ms| && ms[i].Assistant? ==> ms[i].turn.reasoning.None?
  }

  /** Every transcript a run returns is protocol-shaped. */
  lemma {:induction false} ReturnedMessagesShaped(cfg: Config, env: Env, messages: seq<Message>)
    requires Fair(env)
    ensures Run(cfg, env, messages).result.Returned? ==> Exchange(messages, Run(cfg, env, messages).result.messages)
  {
    hide Run, Shaped, Fits, TranscriptOf, TraceOf;
    RunStopsWell(cfg, env, messages);
    var out := Run(cfg, env, messages);
    if out.result.Raised? { return; }
    var ms, n := out.result.messages, |messages|;
    var middle := TranscriptOf(cfg, out.state.history);
    TranscriptShaped(cfg, out.state.history);
    StripKeepsShape(middle);
    assert ms[..n] == StripReasoning(messages);
    assert ms[n..|ms| - 1] == StripReasoning(middle);
  }
}
