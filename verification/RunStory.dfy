/** What a run does with each answer of the model, told round by round from the answers alone. */
module RunStory {
  import opened Wrappers
  import opened Text
  import opened Json
  import opened Runtime

  // ---------- the skeleton of a history ----------

  /** A segment without what the tools did: an event, or a batch and where it came from. */
  datatype Mark = Said(event: Event) | Ran(origin: Origin)

  function MarkOf(s: Segment): Mark {
    match s
    case Note(event) => Said(event)
    case Ran(batch) => Mark.Ran(batch.origin)
  }

  function Marks(history: seq<Segment>): (r: seq<Mark>)
    ensures |r| == |history|
  {
    seq(|history|, i requires 0 <= i < |history| => MarkOf(history[i]))
  }

  /** The default tool set is due: required, first round, not empty. */
  predicate PlanDue(cfg: Config, round: int) {
    cfg.requireInitial && round == 1 && cfg.fallbackCalls != []
  }

  function Opening(cfg: Config): seq<Mark> {
    (if cfg.hasPlan then [Said(Plan)] else [])
    + (if cfg.initialCalls != [] then [Said(InitialToolPlan), Mark.Ran(Initial)] else [])
  }

  /** Round k, before the last, is followed by another: the model asked for tools in a readable way, or it asked for none
      and the default tool set was due. Round k is attempt k - 1. */
  predicate GoesOn(cfg: Config, env: Env, k: nat)
    requires k > 0
  {
    match env.chat(k - 1)
    case Unavailable => false
    case Answer(turn) => if turn.calls == [] then PlanDue(cfg, k) else forall c :: c in turn.calls ==> c.arguments.Args?
  }

  /** What such a round leaves behind: the batch the model asked for in that very answer, or the default tool set. */
  function RoundMarks(cfg: Config, env: Env, k: nat): seq<Mark>
    requires k > 0 && env.chat(k - 1).Answer?
  {
    var turn := env.chat(k - 1).turn;
    [Said(LlmStart(k)), Said(LlmFinish(k))]
    + if turn.calls != [] then [Mark.Ran(Requested(k, turn))] else [Said(FallbackToolPlan(k)), Mark.Ran(Fallback)]
  }

  /** The skeleton after n rounds that went on. */
  function Told(cfg: Config, env: Env, n: nat): seq<Mark>
    requires forall k :: 1 <= k <= n ==> GoesOn(cfg, env, k)
  {
    if n == 0 then Opening(cfg)
    else
      assert GoesOn(cfg, env, n);
      Told(cfg, env, n - 1) + RoundMarks(cfg, env, n)
  }

  // ---------- how a run ends ----------

  ghost predicate Publishes(out: Outcome, content: Option<string>) {
    match content
    case None => out.result == Raised(LlmUnavailable)
    case Some(text) => out.result.Returned? && out.result.content == text
  }

  /** The run ends in round `last`, before the final one. */
  ghost predicate EndsEarly(cfg: Config, env: Env, last: nat, out: Outcome)
    requires last > 0 && forall k :: 1 <= k < last ==> GoesOn(cfg, env, k)
  {
    var marks, told := Marks(out.state.history), Told(cfg, env, last - 1) + [Said(LlmStart(last))];
    && out.state.attempts == last
    && match env.chat(last - 1)
       case Unavailable => out.result == Raised(LlmUnavailable) && marks == told
       case Answer(turn) =>
         if turn.calls != [] then out.result == Raised(BadArguments) && marks == told + [Said(LlmFinish(last))]
         else Publishes(out, Some(turn.content)) && marks == told + [Said(LlmFinish(last)), Said(Final(last))]
  }

  /** The model's own answer in the final round, when it came and asked for no tools. */
  function DirectAnswer(env: Env, last: nat): Option<string>
    requires last > 0
  {
    match env.chat(last - 1)
    case Unavailable => None
    case Answer(turn) => if turn.calls == [] then Some(turn.content) else None
  }

  /** What the final round logs once it is announced: an answer, or the failed or blocked attempt and a synthesis. */
  function FinalMarks(env: Env, last: nat): seq<Mark>
    requires last > 0
  {
    match env.chat(last - 1)
    case Unavailable =>
      [Said(ToolChoiceUnsupported(last))]
      + if env.synth(last).None? then [] else [Said(NoToolsSynthesisFinish), Said(LlmFinish(last))]
    case Answer(turn) =>
      [Said(LlmFinish(last))]
      + if turn.calls == [] then []
        else [Said(BlockedOnFinalRound(last, |turn.calls|))] + if env.synth(last).None? then [] else [Said(NoToolsSynthesisFinish)]
  }

  /** The run reaches its final round. An answer that asks for no tools is published; otherwise the next attempt is a
      synthesis. Only when the default tool set is due there does one more synthesis follow. */
  ghost predicate EndsLast(cfg: Config, env: Env, last: nat, out: Outcome)
    requires last > 0 && forall k :: 1 <= k < last ==> GoesOn(cfg, env, k)
  {
    var marks := Marks(out.state.history);
    var told := Told(cfg, env, last - 1) + [Said(FinalRoundForced(Some(last))), Said(LlmStart(last))] + FinalMarks(env, last);
    var direct := DirectAnswer(env, last);
    var used := if direct.Some? then last else last + 1;
    var content := if direct.Some? then direct else env.synth(last);
    if content.None? || !PlanDue(cfg, last) then
      && out.state.attempts == used && Publishes(out, content)
      && marks == told + if content.None? then [] else [Said(Final(last))]
    else
      && out.state.attempts == used + 1 && Publishes(out, env.synth(used))
      && marks == told + [Said(FallbackToolPlan(last)), Mark.Ran(Fallback), Said(FinalRoundForced(None))]
                  + if env.synth(used).None? then [] else [Said(NoToolsSynthesisFinish), Said(Final(last))]
  }

  // ---------- what the tools did ----------

  function ErrorOutput(text: string): Json {
    JObj([Field("error", JStr(text))])
  }

  /** The execution of call i of batch m reports what the handler did at that place. */
  predicate Reports(cfg: Config, env: Env, m: nat, i: nat, e: Execution) {
    if e.name !in cfg.tools then !e.ok && e.output == ErrorOutput("Unknown tool: " + e.name)
    else match env.handler(m, i)
      case Failed(error) => !e.ok && e.output == ErrorOutput(error)
      case Output(value) => e.output == value && (e.ok <==> !(value.JObj? && Lookup(value.fields, "ok") == JBool(false)))
  }

  /** Batch m ran its own calls, each once, under the ids they carry, and completed them as the pool did. */
  ghost predicate Honest(cfg: Config, env: Env, m: nat, b: Batch) {
    && b.order == env.finish(m, |b.calls|)
    && |b.executions| == |b.calls|
    && forall i :: 0 <= i < |b.calls| ==>
         && b.executions[i].name == b.calls[i].name
         && b.calls[i].arguments == Args(b.executions[i].arguments)
         && b.executions[i].callId == (if b.calls[i].id != "" then b.calls[i].id else "tool-" + Digits(i + 1))
         && Reports(cfg, env, m, i, b.executions[i])
  }

  ghost predicate AllHonest(cfg: Config, env: Env, history: seq<Segment>) {
    forall m :: 0 <= m < |Batches(history)| ==> Honest(cfg, env, m, Batches(history)[m])
  }

  // ---------- the loop tells this story ----------

  lemma {:induction false} MarksGrow(history: seq<Segment>, s: Segment)
    ensures Marks(history + [s]) == Marks(history) + [MarkOf(s)]
    ensures Batches(history + [s]) == Batches(history) + if s.Ran? then [s.batch] else []
  {
    assert (history + [s])[..|history|] == history;
    assert Batches(history) + [] == Batches(history);
  }

  lemma {:induction false} LogMarks(cfg: Config, env: Env, st: State, e: Event)
    ensures Marks(Log(st, e).history) == Marks(st.history) + [Said(e)] && Log(st, e).attempts == st.attempts
    ensures AllHonest(cfg, env, st.history) ==> AllHonest(cfg, env, Log(st, e).history)
  {
    hide Honest;
    MarksGrow(st.history, Note(e));
    assert Batches(st.history) + [] == Batches(st.history);
  }

  lemma {:induction false} MadeHonest(cfg: Config, env: Env, m: nat, origin: Origin, calls: seq<ToolCall>)
    requires WellFormed(calls)
    ensures Honest(cfg, env, m, MakeBatch(cfg, env, m, origin, calls))
  {
  }

  lemma {:induction false} BatchMarks(cfg: Config, env: Env, st: State, origin: Origin, calls: seq<ToolCall>)
    requires Fair(env) && WellFormed(calls)
    ensures var r := RunBatch(cfg, env, st, origin, calls).0;
            && Marks(r.history) == Marks(st.history) + [Mark.Ran(origin)] && r.attempts == st.attempts
            && (AllHonest(cfg, env, st.history) ==> AllHonest(cfg, env, r.history))
  {
    hide Honest;
    MadeHonest(cfg, env, |Batches(st.history)|, origin, calls);
    MarksGrow(st.history, Segment.Ran(MakeBatch(cfg, env, |Batches(st.history)|, origin, calls)));
  }

  lemma {:induction false} OpeningTold(cfg: Config, env: Env, messages: seq<Message>)
    requires Fair(env)
    ensures var st := Begin(cfg, env, messages); st.attempts == 0 && Marks(st.history) == Opening(cfg) && AllHonest(cfg, env, st.history)
  {
    var empty := State(messages, [], 0, []);
    LogMarks(cfg, env, empty, Plan);
    var planned := if cfg.hasPlan then Log(empty, Plan) else empty;
    LogMarks(cfg, env, planned, InitialToolPlan);
    if cfg.initialCalls != [] {
      BatchMarks(cfg, env, Log(planned, InitialToolPlan), Initial, FallbackCalls(cfg.initialCalls));
    }
  }

  lemma {:induction false} SynthesisMarks(cfg: Config, env: Env, st: State)
    ensures var (r, turn) := Synthesize(env, st);
            && r.attempts == st.attempts + 1
            && (turn.None? <==> env.synth(st.attempts).None?)
            && (turn.Some? ==> turn.value.calls == [] && Some(turn.value.content) == env.synth(st.attempts))
            && Marks(r.history) == Marks(st.history) + (if turn.None? then [] else [Said(NoToolsSynthesisFinish)])
            && (AllHonest(cfg, env, st.history) ==> AllHonest(cfg, env, r.history))
  {
    LogMarks(cfg, env, st.(attempts := st.attempts + 1), NoToolsSynthesisFinish);
    assert Marks(st.history) + [] == Marks(st.history);
  }

  ghost predicate EarlyStep(cfg: Config, env: Env, k: nat, step: Step)
    requires k > 0 && forall i :: 1 <= i < k ==> GoesOn(cfg, env, i)
  {
    match step
    case Stop(out) => !GoesOn(cfg, env, k) && EndsEarly(cfg, env, k, out) && AllHonest(cfg, env, out.state.history)
    case Continue(next) => GoesOn(cfg, env, k) && Reaches(cfg, env, next, k + 1)
  }

  ghost predicate Reaches(cfg: Config, env: Env, st: State, k: nat) {
    && k > 0 && st.attempts == k - 1 && AllHonest(cfg, env, st.history)
    && (forall i :: 1 <= i < k ==> GoesOn(cfg, env, i)) && Marks(st.history) == Told(cfg, env, k - 1)
  }

  /** A round before the last goes on as told, or ends the run. */
  lemma {:induction false} EarlyRound(cfg: Config, env: Env, st: State, k: nat)
    requires Fair(env) && k < cfg.maxRounds && Reaches(cfg, env, st, k)
    ensures EarlyStep(cfg, env, k, Round(cfg, env, st, k))
  {
    hide RunBatch, Synthesize, SyntheticMessages, ToolMessages, StripReasoning, Marks, AllHonest;
    LogMarks(cfg, env, st, LlmStart(k));
    var tried := Log(st, LlmStart(k)).(attempts := k);
    LogMarks(cfg, env, tried, LlmFinish(k));
    var asked := Log(tried, LlmFinish(k));
    match env.chat(k - 1)
    case Unavailable =>
    case Answer(turn) =>
      if turn.calls == [] {
        LogMarks(cfg, env, asked, Final(k));
        if PlanDue(cfg, k) {
          LogMarks(cfg, env, asked, FallbackToolPlan(k));
          BatchMarks(cfg, env, Log(asked, FallbackToolPlan(k)), Fallback, FallbackCalls(cfg.fallbackCalls));
        }
      } else if WellFormed(turn.calls) {
        BatchMarks(cfg, env, asked, Requested(k, turn), turn.calls);
      }
  }

  /** The state of the final round once its answer is settled. */
  ghost predicate Settled(cfg: Config, env: Env, before: seq<Mark>, last: nat, st: State, turn: Option<Turn>)
    requires last > 0
  {
    var direct := DirectAnswer(env, last);
    var content := if direct.Some? then direct else env.synth(last);
    && st.attempts == (if direct.Some? then last else last + 1)
    && (turn.None? <==> content.None?)
    && (turn.Some? ==> turn.value.calls == [] && Some(turn.value.content) == content)
    && Marks(st.history) == before + [Said(FinalRoundForced(Some(last))), Said(LlmStart(last))] + FinalMarks(env, last)
    && AllHonest(cfg, env, st.history)
  }

  lemma {:induction false} FinalOpened(cfg: Config, env: Env, st: State)
    ensures var r := OpenRound(cfg, st, cfg.maxRounds);
            && r.attempts == st.attempts
            && (AllHonest(cfg, env, st.history) ==> AllHonest(cfg, env, r.history))
            && Marks(r.history) == Marks(st.history) + [Said(FinalRoundForced(Some(cfg.maxRounds))), Said(LlmStart(cfg.maxRounds))]
  {
    hide Marks, AllHonest;
    var last := cfg.maxRounds;
    LogMarks(cfg, env, st, FinalRoundForced(Some(last)));
    var announced := Say(Log(st, FinalRoundForced(Some(last))), [User(cfg.finalPrompt)]);
    LogMarks(cfg, env, announced, LlmStart(last));
  }

  lemma {:induction false} FinalSettled(cfg: Config, env: Env, st: State)
    requires cfg.maxRounds > 0 && st.attempts == cfg.maxRounds - 1 && AllHonest(cfg, env, st.history)
    ensures var last: nat := cfg.maxRounds;
            var (asked, answer) := Ask(cfg, env, OpenRound(cfg, st, last), last);
            if answer.None? then Settled(cfg, env, Marks(st.history), last, asked, None)
            else var (checked, turn) := Block(cfg, env, asked, last, answer.value); Settled(cfg, env, Marks(st.history), last, checked, turn)
  {
    hide Marks, Synthesize, OpenRound, AllHonest;
    var last: nat := cfg.maxRounds;
    FinalOpened(cfg, env, st);
    var tried := OpenRound(cfg, st, last).(attempts := last);
    match env.chat(last - 1)
    case Unavailable =>
      LogMarks(cfg, env, tried, ToolChoiceUnsupported(last));
      SynthesisMarks(cfg, env, Log(tried, ToolChoiceUnsupported(last)));
      LogMarks(cfg, env, Synthesize(env, Log(tried, ToolChoiceUnsupported(last))).0, LlmFinish(last));
    case Answer(turn) =>
      LogMarks(cfg, env, tried, LlmFinish(last));
      var asked := Log(tried, LlmFinish(last));
      LogMarks(cfg, env, asked, BlockedOnFinalRound(last, |turn.calls|));
      SynthesisMarks(cfg, env, Log(asked, BlockedOnFinalRound(last, |turn.calls|)));
  }

  /** The synthesis after the loop. */
  lemma {:induction false} ForceTold(cfg: Config, env: Env, st: State)
    requires AllHonest(cfg, env, st.history)
    ensures var out := Force(cfg, env, st);
            && out.state.attempts == st.attempts + 1 && Publishes(out, env.synth(st.attempts))
            && AllHonest(cfg, env, out.state.history)
            && Marks(out.state.history) == Marks(st.history) + [Said(FinalRoundForced(None))]
               + if env.synth(st.attempts).None? then [] else [Said(NoToolsSynthesisFinish), Said(Final(cfg.maxRounds))]
  {
    hide Marks, AllHonest, Synthesize, StripReasoning;
    LogMarks(cfg, env, st, FinalRoundForced(None));
    var forced := Log(st, FinalRoundForced(None));
    SynthesisMarks(cfg, env, forced);
    LogMarks(cfg, env, Synthesize(env, forced).0, Final(cfg.maxRounds));
  }

  ghost predicate LastStep(cfg: Config, env: Env, last: nat, out: Outcome)
    requires last > 0 && forall i :: 1 <= i < last ==> GoesOn(cfg, env, i)
  {
    EndsLast(cfg, env, last, out) && AllHonest(cfg, env, out.state.history)
  }

  lemma {:induction false} LastRound(cfg: Config, env: Env, st: State)
    requires Fair(env) && cfg.maxRounds > 0 && Reaches(cfg, env, st, cfg.maxRounds)
    ensures LastStep(cfg, env, cfg.maxRounds, Rounds(cfg, env, st, cfg.maxRounds))
  {
    hide Marks, AllHonest, Ask, Block, RunBatch, SyntheticMessages, StripReasoning, Force, FinalMarks, Told;
    var last: nat := cfg.maxRounds;
    FinalSettled(cfg, env, st);
    var (asked, answer) := Ask(cfg, env, OpenRound(cfg, st, last), last);
    if answer.Some? {
      var (checked, turn) := Block(cfg, env, asked, last, answer.value);
      if turn.Some? {
        if PlanDue(cfg, last) {
          LogMarks(cfg, env, checked, FallbackToolPlan(last));
          var due := Log(checked, FallbackToolPlan(last));
          BatchMarks(cfg, env, due, Fallback, FallbackCalls(cfg.fallbackCalls));
          var step := Round(cfg, env, st, last);
          assert step.Continue?;
          ForceTold(cfg, env, step.state);
          assert Rounds(cfg, env, st, last) == Rounds(cfg, env, step.state, last + 1) == Force(cfg, env, step.state);
        } else {
          LogMarks(cfg, env, checked, Final(last));
        }
      }
    }
  }

  /** What a run of at least one round comes to, and in which round. */
  ghost predicate Follows(cfg: Config, env: Env, last: nat, out: Outcome) {
    && 1 <= last <= cfg.maxRounds
    && (forall k :: 1 <= k < last ==> GoesOn(cfg, env, k))
    && (last < cfg.maxRounds ==> !GoesOn(cfg, env, last) && EndsEarly(cfg, env, last, out))
    && (last == cfg.maxRounds ==> EndsLast(cfg, env, last, out))
    && AllHonest(cfg, env, out.state.history)
  }

  lemma {:induction false} RoundsStep(cfg: Config, env: Env, st: State, k: int)
    requires Fair(env) && k <= cfg.maxRounds
    ensures Rounds(cfg, env, st, k) == match Round(cfg, env, st, k) case Stop(out) => out case Continue(next) => Rounds(cfg, env, next, k + 1)
  {
    hide Round, Force;
  }

  lemma {:induction false} StopFollows(cfg: Config, env: Env, st: State, k: nat, out: Outcome)
    requires k < cfg.maxRounds && Reaches(cfg, env, st, k) && EarlyStep(cfg, env, k, Stop(out))
    ensures Follows(cfg, env, k, out)
  {
    hide EndsEarly, EndsLast, GoesOn, AllHonest, Told, Marks;
  }

  lemma {:induction false} FollowsFrom(cfg: Config, env: Env, st: State, k: nat) returns (last: nat)
    requires Fair(env) && k <= cfg.maxRounds && Reaches(cfg, env, st, k)
    ensures Follows(cfg, env, last, Rounds(cfg, env, st, k))
    decreases cfg.maxRounds - k
  {
    if k == cfg.maxRounds {
      last := k;
      LastRound(cfg, env, st);
    } else {
      RoundsStep(cfg, env, st, k);
      EarlyRound(cfg, env, st, k);
      hide Round, Rounds, EndsEarly, EndsLast, GoesOn, AllHonest, Follows, Told, Marks;
      match Round(cfg, env, st, k)
      case Stop(out) =>
        last := k;
        StopFollows(cfg, env, st, k, out);
      case Continue(next) =>
        last := FollowsFrom(cfg, env, next, k + 1);
    }
  }

  /** Every run does with the model's answers exactly what the story says: the rounds before the last go on, run the batch
      each answer asked for, and stop at the first answer that asks for nothing; the published content is that of the
      answer, or of the synthesis, at the last attempt; and every tool result is the handler's. */
  lemma {:induction false} RunFollowsModel(cfg: Config, env: Env, messages: seq<Message>) returns (last: nat)
    requires Fair(env)
    ensures cfg.maxRounds > 0 ==> Follows(cfg, env, last, Run(cfg, env, messages))
    ensures cfg.maxRounds <= 0 ==>
              var out := Run(cfg, env, messages);
              && out.state.attempts == 1 && Publishes(out, env.synth(0)) && AllHonest(cfg, env, out.state.history)
              && Marks(out.state.history) == Opening(cfg) + [Said(FinalRoundForced(None))]
                 + if env.synth(0).None? then [] else [Said(NoToolsSynthesisFinish), Said(Final(cfg.maxRounds))]
  {
    hide Begin, Marks, AllHonest, Round, Force, Follows;
    OpeningTold(cfg, env, messages);
    var st := Begin(cfg, env, messages);
    if cfg.maxRounds > 0 {
      last := FollowsFrom(cfg, env, st, 1);
    } else {
      last := 0;
      ForceTold(cfg, env, st);
    }
  }

  /** The published content is the model's: that of its last answer, which asked for no tools, or of a last synthesis. */
  lemma {:induction false} AnswerFromModel(cfg: Config, env: Env, messages: seq<Message>)
    requires Fair(env)
    ensures var out := Run(cfg, env, messages);
            var n := out.state.attempts;
            out.result.Returned? ==>
            && n > 0
            && (env.synth(n - 1) == Some(out.result.content)
                || exists turn :: env.chat(n - 1) == Answer(turn) && turn.calls == [] && turn.content == out.result.content)
  {
    hide Run, GoesOn, Told, FinalMarks, AllHonest, Marks;
    var last := RunFollowsModel(cfg, env, messages);
  }

  // ---------- which batches run ----------

  /** A requested batch stems from the answer of its own round, one of the first n. */
  predicate AskedFor(env: Env, m: Mark, n: int) {
    m.Ran? && m.origin.Requested? ==>
      && 1 <= m.origin.round <= n && env.chat(m.origin.round - 1) == Answer(m.origin.turn) && m.origin.turn.calls != []
  }

  predicate InOrder(a: Mark, b: Mark) {
    a.Ran? && a.origin.Requested? && b.Ran? && b.origin.Requested? ==> a.origin.round < b.origin.round
  }

  ghost predicate InRoundOrder(marks: seq<Mark>) {
    forall i, j :: 0 <= i < j < |marks| ==> InOrder(marks[i], marks[j])
  }

  /** If the model asked for tools in round k, they ran. */
  predicate WasRun(env: Env, marks: seq<Mark>, k: nat)
    requires k > 0
  {
    match env.chat(k - 1)
    case Unavailable => true
    case Answer(turn) => turn.calls != [] ==> Mark.Ran(Requested(k, turn)) in marks
  }

  /** The requested batches of the rounds that went on: one per answer that asked for tools, in the order of the rounds. */
  lemma {:induction false} ToldRequests(cfg: Config, env: Env, n: nat)
    requires forall k :: 1 <= k <= n ==> GoesOn(cfg, env, k)
    ensures forall i :: 0 <= i < |Told(cfg, env, n)| ==> AskedFor(env, Told(cfg, env, n)[i], n)
    ensures InRoundOrder(Told(cfg, env, n))
    ensures forall k :: 1 <= k <= n ==> WasRun(env, Told(cfg, env, n), k)
  {
    if n > 0 {
      ToldRequests(cfg, env, n - 1);
      assert GoesOn(cfg, env, n);
      RoundRequests(cfg, env, n);
      var front, more := Told(cfg, env, n - 1), RoundMarks(cfg, env, n);
      assert Told(cfg, env, n) == front + more;
      hide Told, RoundMarks, GoesOn;
      forall i | 0 <= i < |front + more| ensures AskedFor(env, (front + more)[i], n) {
        if i < |front| { assert AskedFor(env, front[i], n - 1); } else { assert AskedFor(env, more[i - |front|], n); }
      }
      forall i, j | 0 <= i < j < |front + more| ensures InOrder((front + more)[i], (front + more)[j]) {
        if j < |front| {
          assert InOrder(front[i], front[j]);
        } else if i < |front| {
          assert AskedFor(env, front[i], n - 1);
        } else {
          assert InOrder(more[i - |front|], more[j - |front|]);
        }
      }
      forall k | 1 <= k <= n ensures WasRun(env, front + more, k) {
        if k < n { assert WasRun(env, front, k); }
      }
    }
  }

  lemma {:induction false} RoundRequests(cfg: Config, env: Env, n: nat)
    requires n > 0 && env.chat(n - 1).Answer?
    ensures var marks := RoundMarks(cfg, env, n);
            && (forall i :: 0 <= i < |marks| ==> AskedFor(env, marks[i], n))
            && (forall i :: 0 <= i < |marks| && marks[i].Ran? && marks[i].origin.Requested? ==> marks[i].origin.round == n)
            && InRoundOrder(marks) && WasRun(env, marks, n)
  {
    var marks, turn := RoundMarks(cfg, env, n), env.chat(n - 1).turn;
    if turn.calls != [] {
      assert marks[2] == Mark.Ran(Requested(n, turn));
    }
  }

  /** What a run's batches have to do with the model's answers. */
  ghost predicate RequestsMatch(cfg: Config, env: Env, out: Outcome) {
    var marks := Marks(out.state.history);
    && (forall i :: 0 <= i < |marks| ==> AskedFor(env, marks[i], cfg.maxRounds - 1))
    && InRoundOrder(marks)
    && (out.result.Returned? ==> forall k :: 1 <= k <= out.state.attempts && k < cfg.maxRounds ==> WasRun(env, marks, k))
  }

  /** No tool runs that the model did not ask for in that very round or the configuration did not plan, none in the last
      round, and in a run that returns every request before the last round was run, in the order of the attempts. */
  lemma {:induction false} RequestsFromModel(cfg: Config, env: Env, messages: seq<Message>)
    requires Fair(env) && cfg.maxRounds > 0
    ensures RequestsMatch(cfg, env, Run(cfg, env, messages))
  {
    hide Run, AllHonest, Marks, GoesOn;
    var last := RunFollowsModel(cfg, env, messages);
    var out := Run(cfg, env, messages);
    ToldRequests(cfg, env, last - 1);
    var told, marks := Told(cfg, env, last - 1), Marks(out.state.history);
    TailAsksNothing(cfg, env, last, out);
    hide Told, EndsEarly, EndsLast;
    forall i | 0 <= i < |marks| ensures AskedFor(env, marks[i], cfg.maxRounds - 1) {
      if i < |told| { assert AskedFor(env, told[i], last - 1); }
    }
    forall i, j | 0 <= i < j < |marks| ensures InOrder(marks[i], marks[j]) {
      if j < |told| { assert InOrder(told[i], told[j]); }
    }
    if out.result.Returned? {
      forall k | 1 <= k <= out.state.attempts && k < cfg.maxRounds ensures WasRun(env, marks, k) {
        if k < last { assert WasRun(env, told, k); }
      }
    }
  }

  /** Nothing behind the rounds that went on was asked for by the model; and a round that ended the run returned only on
      an answer without requests. */
  lemma {:induction false} TailAsksNothing(cfg: Config, env: Env, last: nat, out: Outcome)
    requires Follows(cfg, env, last, out)
    ensures var marks, n := Marks(out.state.history), |Told(cfg, env, last - 1)|;
            Told(cfg, env, last - 1) <= marks
            && forall i :: n <= i < |marks| ==> !(marks[i].Ran? && marks[i].origin.Requested?)
    ensures last < cfg.maxRounds ==> out.state.attempts == last
    ensures last < cfg.maxRounds && out.result.Returned? ==> env.chat(last - 1).Answer? && env.chat(last - 1).turn.calls == []
  {
    hide Told, AllHonest, Marks;
  }
}
