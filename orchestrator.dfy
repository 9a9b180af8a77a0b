/** The message handler of the chat cog as a transition on its state: the
    session histories, the per-thread costs and the two global totals, with
    the registry of watched channels read but never changed. */
module Orchestrator {
  import opened Costs
  import opened Sessions
  import opened Triage

  type ThreadId = int

  /** Where an inbound message arrived: inside a thread (an open session),
      or in an ordinary channel of a guild. */
  datatype Location = InThread(thread: ThreadId) | InChannel(guild: string, channel: string)

  datatype Inbound = Inbound(fromBot: bool, location: Location, content: string)

  /** The outcome of asking the transport to open a thread on a message. */
  datatype Creation = Created(thread: ThreadId) | HttpFailure | OtherFailure

  /** Everything the outside world answers while one message is handled:
      the classifier's outcome for each possible triage call, the outcome of
      thread creation, the outcome of the one completion call, and whether
      the reply could be sent to the thread. */
  datatype Environment = Environment(answers: Answers, creation: Creation, completion: Outcome, delivered: bool)

  /** What the user can see. */
  datatype Effect =
    | NoEffect
    | Replied(thread: ThreadId, text: string)
    | ErrorNotice(thread: ThreadId)
    | CreateFailedNotice

  /** The messages passed to the completion call, if one was made. */
  datatype Prompt = NoCompletion | Prompted(messages: seq<ChatMessage>)

  datatype Trace = Trace(classifierCalls: nat, prompt: Prompt, effect: Effect)

  /** The cog's state.  `activeChannels` maps a guild to the channels watched
      in it; `decisionTotal` and `responseTotal` are the "decision_calls"
      and "thread_responses" entries of the global cost record. */
  datatype State = State(
    activeChannels: map<string, seq<string>>,
    history: map<ThreadId, seq<ChatMessage>>,
    threadCosts: map<ThreadId, real>,
    decisionTotal: real,
    responseTotal: real)

  datatype StepResult = StepResult(state: State, trace: Trace)

  /** The state after construction, given the channel registry read from
      its file (or the empty registry when there is none). */
  function Initial(channels: map<string, seq<string>>): State
  {
    State(channels, map[], map[], 0.0, 0.0)
  }

  predicate Watched(s: State, guild: string, channel: string)
  {
    guild in s.activeChannels && channel in s.activeChannels[guild]
  }

  /** A cost record whose every figure is non-negative. */
  ghost predicate LedgerValid(s: State)
  {
    s.decisionTotal >= 0.0 && s.responseTotal >= 0.0 &&
    forall t :: t in s.threadCosts ==> s.threadCosts[t] >= 0.0
  }

  function CostOr(costs: map<ThreadId, real>, t: ThreadId, default: real): real
  {
    if t in costs then costs[t] else default
  }

  /** The history a thread message is answered from: the stored history (a
      fresh one holding just the system prompt if there is none) with the
      user's turn appended. */
  function TurnPrompt(s: State, t: ThreadId, content: string): seq<ChatMessage>
  {
    (if t in s.history then s.history[t] else [SystemEntry()]) + [UserEntry(content)]
  }

  /** A message inside an open thread. */
  function ThreadTurn(s: State, t: ThreadId, content: string, completion: Outcome, delivered: bool): StepResult
  {
    var prompt := TurnPrompt(s, t, content);
    var s1 := s.(history := s.history[t := prompt]);
    match completion
    case Failed => StepResult(s1, Trace(0, Prompted(prompt), ErrorNotice(t)))
    case Answered(reply) =>
      var cost := ComputeCost(reply.usage);
      var s2 := s1.(responseTotal := s1.responseTotal + cost,
                    threadCosts := s1.threadCosts[t := CostOr(s1.threadCosts, t, 0.0) + cost]);
      if !delivered then StepResult(s2, Trace(0, Prompted(prompt), ErrorNotice(t)))
      else
        var s3 := s2.(history := s2.history[t := Trim(prompt + [AssistantEntry(reply.text)])]);
        StepResult(s3, Trace(0, Prompted(prompt), Replied(t, reply.text)))
  }

  /** After a "YES": open a thread, seed it, and answer once. */
  function OpenSession(s: State, content: string, env: Environment, calls: nat): StepResult
  {
    match env.creation
    case HttpFailure => StepResult(s, Trace(calls, NoCompletion, CreateFailedNotice))
    case OtherFailure => StepResult(s, Trace(calls, NoCompletion, NoEffect))
    case Created(t) =>
      var seed := [SystemEntry(), UserEntry(content)];
      var s1 := s.(threadCosts := s.threadCosts[t := 0.0], history := s.history[t := seed]);
      match env.completion
      case Failed => StepResult(s1, Trace(calls, Prompted(seed), ErrorNotice(t)))
      case Answered(reply) =>
        var cost := ComputeCost(reply.usage);
        var s2 := s1.(responseTotal := s1.responseTotal + cost,
                      threadCosts := s1.threadCosts[t := s1.threadCosts[t] + cost]);
        if !env.delivered then StepResult(s2, Trace(calls, Prompted(seed), ErrorNotice(t)))
        else
          var s3 := s2.(history := s2.history[t := seed + [AssistantEntry(reply.text)]]);
          StepResult(s3, Trace(calls, Prompted(seed), Replied(t, reply.text)))
  }

  /** One inbound message. */
  function Step(s: State, msg: Inbound, env: Environment): StepResult
  {
    if msg.fromBot then StepResult(s, Trace(0, NoCompletion, NoEffect))
    else
      match msg.location
      case InThread(t) => ThreadTurn(s, t, msg.content, env.completion, env.delivered)
      case InChannel(guild, channel) =>
        if !Watched(s, guild, channel) then StepResult(s, Trace(0, NoCompletion, NoEffect))
        else
          var triage := RunTriage(env.answers);
          var s1 := s.(decisionTotal := s.decisionTotal + Sum(triage.costs));
          if triage.decision != Yes then StepResult(s1, Trace(triage.calls, NoCompletion, NoEffect))
          else OpenSession(s1, msg.content, env, triage.calls)
  }

  datatype Event = Event(msg: Inbound, env: Environment)

  /** The state after a sequence of messages, handled one after another. */
  function Run(s: State, events: seq<Event>): State
    decreases |events|
  {
    if events == [] then s
    else Run(Step(s, events[0].msg, events[0].env).state, events[1..])
  }

  // ---------------------------------------------------------------------
  // Properties of one step

  /** The bot's own messages change nothing and call nothing. */
  lemma OwnMessageIgnored(s: State, msg: Inbound, env: Environment)
    requires msg.fromBot
    ensures Step(s, msg, env) == StepResult(s, Trace(0, NoCompletion, NoEffect))
  {
  }

  /** A channel message outside the watched channels changes nothing and
      makes no classifier call. */
  lemma UnwatchedChannelIgnored(s: State, msg: Inbound, env: Environment)
    requires !msg.fromBot && msg.location.InChannel?
    requires !Watched(s, msg.location.guild, msg.location.channel)
    ensures Step(s, msg, env) == StepResult(s, Trace(0, NoCompletion, NoEffect))
  {
  }

  /** In a watched channel, every classifier call that returned usage is
      charged to the decision total and to nothing else, whatever the
      decision; between one and three calls are made. */
  lemma DecisionCharged(s: State, msg: Inbound, env: Environment)
    requires !msg.fromBot && msg.location.InChannel?
    requires Watched(s, msg.location.guild, msg.location.channel)
    ensures var r := Step(s, msg, env);
      var calls := RunTriage(env.answers).calls;
      1 <= r.trace.classifierCalls == calls <= MAX_ATTEMPTS &&
      r.state.decisionTotal == s.decisionTotal + Sum(CostsOf(env.answers[..calls])) &&
      r.state.decisionTotal >= s.decisionTotal
  {
    TriageCharge(env.answers);
  }

  /** Without a "YES" decision (a "NO", no valid answer in three attempts,
      or a failed classifier call) only the decision total changes: no
      thread, no history, no thread cost, no completion, nothing visible. */
  lemma NoSessionWithoutYes(s: State, msg: Inbound, env: Environment)
    requires !msg.fromBot && msg.location.InChannel?
    requires Watched(s, msg.location.guild, msg.location.channel)
    requires RunTriage(env.answers).decision != Yes
    ensures var r := Step(s, msg, env);
      r.state.history == s.history && r.state.threadCosts == s.threadCosts &&
      r.state.responseTotal == s.responseTotal && r.state.activeChannels == s.activeChannels &&
      r.trace.prompt == NoCompletion && r.trace.effect == NoEffect
  {
  }

  /** When every answer is rejected, the triage makes exactly three charged
      calls and nothing else happens. */
  lemma ThreeRejectionsAbandon(s: State, msg: Inbound, env: Environment)
    requires !msg.fromBot && msg.location.InChannel?
    requires Watched(s, msg.location.guild, msg.location.channel)
    requires forall j :: 0 <= j < MAX_ATTEMPTS ==> Rejected(env.answers[j])
    ensures var r := Step(s, msg, env);
      r.trace.classifierCalls == MAX_ATTEMPTS &&
      r.state == s.(decisionTotal := s.decisionTotal + Sum(CostsOf(env.answers))) &&
      r.trace.effect == NoEffect
  {
    TriageSpec(env.answers);
    assert env.answers[..MAX_ATTEMPTS] == env.answers;
  }

  /** A new session after "YES": the completion is asked with exactly the
      system prompt and the user's message; on a delivered reply the history
      is those two entries and the reply, and the thread's cost is the one
      response cost, which is also added to the response total. */
  lemma NewSessionSeeded(s: State, msg: Inbound, env: Environment)
    requires !msg.fromBot && msg.location.InChannel?
    requires Watched(s, msg.location.guild, msg.location.channel)
    requires RunTriage(env.answers).decision == Yes
    requires env.creation.Created?
    ensures var r := Step(s, msg, env);
      var t := env.creation.thread;
      r.trace.prompt == Prompted([SystemEntry(), UserEntry(msg.content)]) &&
      t in r.state.history && t in r.state.threadCosts &&
      (env.completion.Failed? ==>
        r.state.history[t] == [SystemEntry(), UserEntry(msg.content)] &&
        r.state.threadCosts[t] == 0.0 && r.state.responseTotal == s.responseTotal &&
        r.trace.effect == ErrorNotice(t)) &&
      (env.completion.Answered? ==>
        var cost := ComputeCost(env.completion.reply.usage);
        r.state.threadCosts[t] == cost &&
        r.state.responseTotal == s.responseTotal + cost &&
        r.state.history[t] == (if env.delivered
          then [SystemEntry(), UserEntry(msg.content), AssistantEntry(env.completion.reply.text)]
          else [SystemEntry(), UserEntry(msg.content)]))
  {
  }

  /** A failed thread creation opens nothing and charges no response. */
  lemma CreationFailureOpensNothing(s: State, msg: Inbound, env: Environment)
    requires !msg.fromBot && msg.location.InChannel?
    requires Watched(s, msg.location.guild, msg.location.channel)
    requires !env.creation.Created?
    ensures var r := Step(s, msg, env);
      r.state.history == s.history && r.state.threadCosts == s.threadCosts &&
      r.state.responseTotal == s.responseTotal && r.trace.prompt == NoCompletion &&
      r.trace.effect == (if RunTriage(env.answers).decision == Yes && env.creation.HttpFailure?
                         then CreateFailedNotice else NoEffect)
  {
  }

  /** A thread message is answered from the thread's whole history, seeded
      with the system prompt if the thread had none, with the user's turn
      last. */
  lemma ThreadTurnPrompt(s: State, msg: Inbound, env: Environment)
    requires !msg.fromBot && msg.location.InThread?
    ensures var r := Step(s, msg, env);
      var t := msg.location.thread;
      var prompt := TurnPrompt(s, t, msg.content);
      r.trace.classifierCalls == 0 &&
      r.trace.prompt == Prompted(prompt) &&
      (t in s.history ==> prompt == s.history[t] + [UserEntry(msg.content)]) &&
      (t !in s.history ==> prompt == [SystemEntry(), UserEntry(msg.content)])
  {
  }

  /** A delivered reply in a thread: the stored history ends with the reply,
      holds the last ten entries of the prompt followed by the reply (all of
      them when there are at most ten), so the oldest entries go first; the
      response cost is added both to the thread and to the response total. */
  lemma ThreadReplyWindowed(s: State, msg: Inbound, env: Environment)
    requires !msg.fromBot && msg.location.InThread?
    requires env.completion.Answered? && env.delivered
    ensures var r := Step(s, msg, env);
      var t := msg.location.thread;
      var full := TurnPrompt(s, t, msg.content) + [AssistantEntry(env.completion.reply.text)];
      var h := r.state.history[t];
      var cost := ComputeCost(env.completion.reply.usage);
      t in r.state.history &&
      1 <= |h| <= HISTORY_WINDOW &&
      h[|h| - 1] == AssistantEntry(env.completion.reply.text) &&
      h == full[|full| - |h|..] &&
      |h| == (if |full| <= HISTORY_WINDOW then |full| else HISTORY_WINDOW) &&
      (|full| <= HISTORY_WINDOW ==> h == full) &&
      r.state.threadCosts[t] == CostOr(s.threadCosts, t, 0.0) + cost &&
      r.state.responseTotal == s.responseTotal + cost &&
      r.trace.effect == Replied(t, env.completion.reply.text)
  {
    var t := msg.location.thread;
    var full := TurnPrompt(s, t, msg.content) + [AssistantEntry(env.completion.reply.text)];
    TrimKeepsNewest(full);
  }

  /** A thread message whose completion answers but whose reply cannot be
      sent: the cost is charged to the thread and to the response total, the
      history keeps the appended user turn untrimmed and without the reply,
      and an error notice is the only visible effect. */
  lemma ThreadReplyUndelivered(s: State, msg: Inbound, env: Environment)
    requires !msg.fromBot && msg.location.InThread?
    requires env.completion.Answered? && !env.delivered
    ensures var r := Step(s, msg, env);
      var t := msg.location.thread;
      var cost := ComputeCost(env.completion.reply.usage);
      r.state == s.(history := s.history[t := TurnPrompt(s, t, msg.content)],
                    threadCosts := s.threadCosts[t := CostOr(s.threadCosts, t, 0.0) + cost],
                    responseTotal := s.responseTotal + cost) &&
      r.trace.classifierCalls == 0 &&
      r.trace.effect == ErrorNotice(t)
  {
  }

  /** A thread message whose completion fails keeps the appended user turn,
      untrimmed, and charges nothing. */
  lemma ThreadCompletionFailure(s: State, msg: Inbound, env: Environment)
    requires !msg.fromBot && msg.location.InThread?
    requires env.completion.Failed?
    ensures var r := Step(s, msg, env);
      var t := msg.location.thread;
      r.state == s.(history := s.history[t := TurnPrompt(s, t, msg.content)]) &&
      r.trace.effect == ErrorNotice(t)
  {
  }

  /** A full ten-entry thread that gets one more turn answered keeps ten
      entries: its two oldest entries make room for the turn and the reply. */
  lemma FullThreadDropsTwoOldest(s: State, msg: Inbound, env: Environment)
    requires !msg.fromBot && msg.location.InThread?
    requires msg.location.thread in s.history && |s.history[msg.location.thread]| == HISTORY_WINDOW
    requires env.completion.Answered? && env.delivered
    ensures var t := msg.location.thread;
      Step(s, msg, env).state.history[t] ==
        s.history[t][2..] + [UserEntry(msg.content), AssistantEntry(env.completion.reply.text)]
  {
    var t := msg.location.thread;
    TrimAfterTurnOnFull(s.history[t], UserEntry(msg.content), AssistantEntry(env.completion.reply.text));
  }

  /** The thread a message can change: the thread it was posted in, or the
      thread opened for it. */
  predicate Addressed(msg: Inbound, env: Environment, t: ThreadId)
  {
    match msg.location
    case InThread(u) => t == u
    case InChannel(_, _) => env.creation == Created(t)
  }

  /** What one step may change: only the entries of thread `t`; the registry
      stays, and no session or cost entry is removed. */
  ghost predicate ChangesOnly(s: State, r: State, changed: ThreadId -> bool)
  {
    r.activeChannels == s.activeChannels &&
    r.history.Keys >= s.history.Keys &&
    r.threadCosts.Keys >= s.threadCosts.Keys &&
    (forall u :: u in s.history && !changed(u) ==> r.history[u] == s.history[u]) &&
    (forall u :: u in s.threadCosts && !changed(u) ==> r.threadCosts[u] == s.threadCosts[u])
  }

  /** The ledger grows: every figure stays non-negative, and neither total
      decreases. */
  ghost predicate LedgerGrows(s: State, r: State)
  {
    LedgerValid(r) && r.decisionTotal >= s.decisionTotal && r.responseTotal >= s.responseTotal
  }

  lemma ThreadTurnBounds(s: State, t: ThreadId, content: string, completion: Outcome, delivered: bool)
    ensures ChangesOnly(s, ThreadTurn(s, t, content, completion, delivered).state, u => u == t)
    ensures LedgerValid(s) ==> LedgerGrows(s, ThreadTurn(s, t, content, completion, delivered).state)
  {
  }

  lemma OpenSessionBounds(s: State, content: string, env: Environment, calls: nat)
    ensures ChangesOnly(s, OpenSession(s, content, env, calls).state, u => env.creation == Created(u))
    ensures LedgerValid(s) ==> LedgerGrows(s, OpenSession(s, content, env, calls).state)
  {
  }

  /** One step changes only the entries of the thread it addresses: every
      other history and thread cost, and the channel registry, are left as
      they were; no session is removed; every cost figure stays
      non-negative and neither global total decreases. */
  lemma StepBounds(s: State, msg: Inbound, env: Environment)
    ensures ChangesOnly(s, Step(s, msg, env).state, u => Addressed(msg, env, u))
    ensures LedgerValid(s) ==> LedgerGrows(s, Step(s, msg, env).state)
  {
    if !msg.fromBot {
      match msg.location
      case InThread(t) =>
        ThreadTurnBounds(s, t, msg.content, env.completion, env.delivered);
      case InChannel(guild, channel) =>
        if Watched(s, guild, channel) {
          var triage := RunTriage(env.answers);
          TriageCostNonNegative(env.answers);
          var s1 := s.(decisionTotal := s.decisionTotal + Sum(triage.costs));
          if triage.decision == Yes {
            OpenSessionBounds(s1, msg.content, env, triage.calls);
          }
        }
    }
  }

  // ---------------------------------------------------------------------
  // Properties of a run of messages

  /** Over any run of messages the ledger stays non-negative, the totals
      never decrease, no session is removed and the registry is unchanged. */
  lemma {:induction false} RunKeepsLedgerValid(s: State, events: seq<Event>)
    requires LedgerValid(s)
    ensures var r := Run(s, events);
      LedgerValid(r) &&
      r.decisionTotal >= s.decisionTotal && r.responseTotal >= s.responseTotal &&
      r.history.Keys >= s.history.Keys && r.activeChannels == s.activeChannels
    decreases |events|
  {
    if events != [] {
      var s1 := Step(s, events[0].msg, events[0].env).state;
      StepBounds(s, events[0].msg, events[0].env);
      RunKeepsLedgerValid(s1, events[1..]);
    }
  }

  /** A run of messages from the bot itself changes nothing. */
  lemma {:induction false} RunOfOwnMessages(s: State, events: seq<Event>)
    requires forall i :: 0 <= i < |events| ==> events[i].msg.fromBot
    ensures Run(s, events) == s
    decreases |events|
  {
    if events != [] {
      assert forall i :: 0 <= i < |events[1..]| ==> events[1..][i].msg.fromBot by {
        forall i | 0 <= i < |events[1..]| ensures events[1..][i].msg.fromBot {
          assert events[1..][i] == events[i + 1];
        }
      }
      RunOfOwnMessages(s, events[1..]);
    }
  }
}
