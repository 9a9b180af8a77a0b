/** The chat cog as an object: the fields its constructor sets up, updated
    in place by the message handler.  Each method is proved to make exactly
    the change the corresponding transition of `Orchestrator` describes. */
module Chat {
  import opened Costs
  import opened Text
  import opened Sessions
  import opened Triage
  import opened Orchestrator

  class ChatCog {
    /** Guild id to the ids of its watched channels. */
    var activeChannels: map<string, seq<string>>
    /** Thread id to that thread's conversation history. */
    var messageHistory: map<ThreadId, seq<ChatMessage>>
    /** Thread id to the response cost accrued in that thread. */
    var threadCosts: map<ThreadId, real>
    /** total_costs["decision_calls"] */
    var decisionCalls: real
    /** total_costs["thread_responses"] */
    var threadResponses: real

    /** The cog's state as a value. */
    function Model(): State
      reads this
    {
      State(activeChannels, messageHistory, threadCosts, decisionCalls, threadResponses)
    }

    /** `channels` is the "guilds" record of the channel file, or the empty
        map when there is no such file. */
    constructor (channels: map<string, seq<string>>)
      ensures Model() == Initial(channels)
      ensures LedgerValid(Model())
    {
      activeChannels := channels;
      messageHistory := map[];
      threadCosts := map[];
      decisionCalls := 0.0;
      threadResponses := 0.0;
    }

    /** The decision loop: up to three classifier calls, each one's cost
        added to the decision total as soon as it is known, stopping at the
        first answer that normalises to "YES" or "NO".  A failing call ends
        the loop at once. */
    method Decide(answers: Answers) returns (decision: Decision, calls: nat, decisionCost: real)
      modifies this`decisionCalls
      ensures var t := RunTriage(answers);
        decision == t.decision && calls == t.calls && decisionCost == Sum(t.costs)
      ensures decisionCalls == old(decisionCalls) + decisionCost
    {
      var attempts := 0;
      decision := Indeterminate;
      decisionCost := 0.0;
      calls := 0;
      while attempts < MAX_ATTEMPTS
        invariant 0 <= attempts <= MAX_ATTEMPTS
        invariant calls == attempts
        invariant decision == Indeterminate
        invariant decisionCalls == old(decisionCalls) + decisionCost
        invariant RunTriage(answers).decision == TriageFrom(answers, attempts).decision
        invariant RunTriage(answers).calls == attempts + TriageFrom(answers, attempts).calls
        invariant Sum(RunTriage(answers).costs) == decisionCost + Sum(TriageFrom(answers, attempts).costs)
      {
        var outcome := answers[attempts];
        calls := calls + 1;
        match outcome
        case Failed =>
          decision := CallFailed;
          AttemptFails(answers, attempts);
          break;
        case Answered(reply) =>
          var cost := ComputeCost(reply.usage);
          decisionCost := decisionCost + cost;
          decisionCalls := decisionCalls + cost;
          var text := Normalize(reply.text);
          AttemptAnswers(answers, attempts, text);
          if text == "YES" || text == "NO" {
            decision := if text == "YES" then Yes else No;
            break;
          }
          attempts := attempts + 1;
      }
    }

    /** A message inside a thread. */
    method HandleThreadMessage(t: ThreadId, content: string, completion: Outcome, delivered: bool)
      returns (trace: Trace)
      modifies this
      ensures Model() == ThreadTurn(old(Model()), t, content, completion, delivered).state
      ensures trace == ThreadTurn(old(Model()), t, content, completion, delivered).trace
    {
      ghost var s0 := Model();
      if t !in messageHistory {
        messageHistory := messageHistory[t := [SystemEntry()]];
      }
      messageHistory := messageHistory[t := messageHistory[t] + [UserEntry(content)]];
      var prompt := messageHistory[t];
      assert prompt == TurnPrompt(s0, t, content);
      assert Model() == s0.(history := s0.history[t := prompt]);
      match completion
      case Failed =>
        trace := Trace(0, Prompted(prompt), ErrorNotice(t));
      case Answered(reply) =>
        var cost := ComputeCost(reply.usage);
        threadResponses := threadResponses + cost;
        threadCosts := threadCosts[t := CostOr(threadCosts, t, 0.0) + cost];
        ghost var s2 := s0.(history := s0.history[t := prompt], responseTotal := s0.responseTotal + cost,
                            threadCosts := s0.threadCosts[t := CostOr(s0.threadCosts, t, 0.0) + cost]);
        assert Model() == s2;
        if !delivered {
          trace := Trace(0, Prompted(prompt), ErrorNotice(t));
        } else {
          var full := prompt + [AssistantEntry(reply.text)];
          messageHistory := messageHistory[t := full];
          if |full| > HISTORY_WINDOW {
            messageHistory := messageHistory[t := full[|full| - HISTORY_WINDOW..]];
          }
          assert messageHistory[t] == Trim(full);
          assert Model() == s2.(history := s2.history[t := Trim(full)]);
          trace := Trace(0, Prompted(prompt), Replied(t, reply.text));
        }
    }

    /** After a "YES": open a thread on the message, seed its history with
        the system prompt and the message, and answer once. */
    method OpenThread(content: string, env: Environment, calls: nat) returns (trace: Trace)
      modifies this
      ensures Model() == OpenSession(old(Model()), content, env, calls).state
      ensures trace == OpenSession(old(Model()), content, env, calls).trace
    {
      match env.creation
      case HttpFailure =>
        trace := Trace(calls, NoCompletion, CreateFailedNotice);
      case OtherFailure =>
        trace := Trace(calls, NoCompletion, NoEffect);
      case Created(t) =>
        threadCosts := threadCosts[t := 0.0];
        messageHistory := messageHistory[t := [SystemEntry(), UserEntry(content)]];
        var prompt := messageHistory[t];
        match env.completion
        case Failed =>
          trace := Trace(calls, Prompted(prompt), ErrorNotice(t));
        case Answered(reply) =>
          var cost := ComputeCost(reply.usage);
          threadResponses := threadResponses + cost;
          threadCosts := threadCosts[t := threadCosts[t] + cost];
          if !env.delivered {
            trace := Trace(calls, Prompted(prompt), ErrorNotice(t));
          } else {
            messageHistory := messageHistory[t := messageHistory[t] + [AssistantEntry(reply.text)]];
            trace := Trace(calls, Prompted(prompt), Replied(t, reply.text));
          }
    }

    /** The message listener. */
    method OnMessage(msg: Inbound, env: Environment) returns (trace: Trace)
      modifies this
      ensures Model() == Step(old(Model()), msg, env).state
      ensures trace == Step(old(Model()), msg, env).trace
    {
      if msg.fromBot {
        return Trace(0, NoCompletion, NoEffect);
      }
      match msg.location
      case InThread(t) =>
        trace := HandleThreadMessage(t, msg.content, env.completion, env.delivered);
      case InChannel(guild, channel) =>
        if Watched(Model(), guild, channel) {
          var decision, calls, decisionCost := Decide(env.answers);
          if decision != Yes {
            trace := Trace(calls, NoCompletion, NoEffect);
          } else {
            trace := OpenThread(msg.content, env, calls);
          }
        } else {
          trace := Trace(0, NoCompletion, NoEffect);
        }
    }
  }

  /** A failing call at attempt `a` ends the triage there, charging
      nothing more. */
  lemma AttemptFails(answers: Answers, a: nat)
    requires a < MAX_ATTEMPTS && answers[a].Failed?
    ensures TriageFrom(answers, a).decision == CallFailed
    ensures TriageFrom(answers, a).calls == 1
    ensures Sum(TriageFrom(answers, a).costs) == 0.0
  {
  }

  /** An answer at attempt `a` that normalises to `text`: it ends the triage
      with its verdict when `text` is one, and otherwise passes on to the next
      attempt; either way its cost is charged. */
  lemma AttemptAnswers(answers: Answers, a: nat, text: string)
    requires a < MAX_ATTEMPTS && answers[a].Answered?
    requires text == Normalize(answers[a].reply.text)
    ensures var u := TriageFrom(answers, a);
      var cost := ComputeCost(answers[a].reply.usage);
      if text == "YES" || text == "NO" then
        u.decision == (if text == "YES" then Yes else No) && u.calls == 1 && Sum(u.costs) == cost
      else
        var rest := TriageFrom(answers, a + 1);
        u.decision == rest.decision && u.calls == 1 + rest.calls && Sum(u.costs) == cost + Sum(rest.costs)
  {
    var cost := ComputeCost(answers[a].reply.usage);
    assert [cost][..0] == [];
    if !(text == "YES" || text == "NO") {
      SumAppend([cost], TriageFrom(answers, a + 1).costs);
    }
  }
}
