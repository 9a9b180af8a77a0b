/** The triage decision: up to three classifier calls, each charged, the
    first answer that normalises to "YES" or "NO" deciding. */
module Triage {
  import opened Costs
  import opened Text

  /** What a remote chat-completion call returns: the generated text and its
      token usage. */
  datatype Reply = Reply(text: string, usage: Usage)

  /** A remote call either answers or raises. */
  datatype Outcome = Answered(reply: Reply) | Failed

  const MAX_ATTEMPTS: nat := 3

  /** The classifier's outcome for each of the (at most) three calls the
      triage can make, in call order. */
  type Answers = s: seq<Outcome> | |s| == MAX_ATTEMPTS witness [Failed, Failed, Failed]

  datatype Decision = Yes | No | Indeterminate | CallFailed

  /** What the triage did: its decision, how many classifier calls it made,
      and the cost charged for each call that returned usage, in order. */
  datatype TriageOutcome = TriageOutcome(decision: Decision, calls: nat, costs: seq<real>)

  /** An answer that arrived but is neither "YES" nor "NO" once normalised:
      the triage must try again. */
  predicate Rejected(o: Outcome)
  {
    o.Answered? && !IsVerdictText(Normalize(o.reply.text))
  }

  /** The decision an outcome stands for when the triage stops at it. */
  function DecisionOf(o: Outcome): Decision
  {
    match o
    case Failed => CallFailed
    case Answered(reply) =>
      var text := Normalize(reply.text);
      if text == "YES" then Yes else if text == "NO" then No else Indeterminate
  }

  /** The costs charged for a run of calls: one per call that returned usage. */
  function CostsOf(calls: seq<Outcome>): seq<real>
  {
    if calls == [] then []
    else
      var last := calls[|calls| - 1];
      CostsOf(calls[..|calls| - 1]) + (if last.Answered? then [ComputeCost(last.reply.usage)] else [])
  }

  lemma {:induction false} CostsOfAppend(a: seq<Outcome>, b: seq<Outcome>)
    ensures CostsOf(a + b) == CostsOf(a) + CostsOf(b)
    decreases |b|
  {
    if b == [] {
      assert a + b == a;
    } else {
      var b' := b[..|b| - 1];
      assert (a + b)[..|a + b| - 1] == a + b';
      CostsOfAppend(a, b');
    }
  }

  /** Every charged cost is non-negative. */
  lemma {:induction false} CostsOfNonNegative(calls: seq<Outcome>)
    ensures forall i :: 0 <= i < |CostsOf(calls)| ==> CostsOf(calls)[i] >= 0.0
    ensures Sum(CostsOf(calls)) >= 0.0
    decreases |calls|
  {
    if calls != [] {
      CostsOfNonNegative(calls[..|calls| - 1]);
    }
    assert forall i :: 0 <= i < |CostsOf(calls)| ==> CostsOf(calls)[i] >= 0.0;
    SumNonNegative(CostsOf(calls));
  }

  /** Reference definition of the retry protocol from attempt `attempts` on. */
  function TriageFrom(answers: Answers, attempts: nat): TriageOutcome
    requires attempts <= MAX_ATTEMPTS
    decreases MAX_ATTEMPTS - attempts
  {
    if attempts == MAX_ATTEMPTS then TriageOutcome(Indeterminate, 0, [])
    else
      match answers[attempts]
      case Failed => TriageOutcome(CallFailed, 1, [])
      case Answered(reply) =>
        var cost := ComputeCost(reply.usage);
        if Rejected(answers[attempts]) then
          var rest := TriageFrom(answers, attempts + 1);
          TriageOutcome(rest.decision, rest.calls + 1, [cost] + rest.costs)
        else
          TriageOutcome(DecisionOf(answers[attempts]), 1, [cost])
  }

  function RunTriage(answers: Answers): TriageOutcome
  {
    TriageFrom(answers, 0)
  }

  lemma CostsOfSingle(o: Outcome)
    ensures CostsOf([o]) == if o.Answered? then [ComputeCost(o.reply.usage)] else []
  {
    assert [o][..0] == [];
  }

  /** Splitting off the first call of a run of calls. */
  lemma CostsOfSlice(calls: seq<Outcome>, lo: nat, hi: nat)
    requires lo < hi <= |calls|
    ensures CostsOf(calls[lo..hi]) == CostsOf([calls[lo]]) + CostsOf(calls[lo + 1..hi])
  {
    assert calls[lo..hi] == [calls[lo]] + calls[lo + 1..hi];
    CostsOfAppend([calls[lo]], calls[lo + 1..hi]);
  }

  /** Extending a run of calls by one call that returned usage. */
  lemma CostsOfSnoc(calls: seq<Outcome>, a: nat)
    requires 0 < a <= |calls|
    ensures CostsOf(calls[..a]) == CostsOf(calls[..a - 1]) + CostsOf([calls[a - 1]])
  {
    assert calls[..a] == calls[..a - 1] + [calls[a - 1]];
    CostsOfAppend(calls[..a - 1], [calls[a - 1]]);
  }

  lemma TriageFromRejected(answers: Answers, a: nat)
    requires a < MAX_ATTEMPTS
    requires Rejected(answers[a])
    ensures var rest := TriageFrom(answers, a + 1);
      TriageFrom(answers, a) == TriageOutcome(rest.decision, rest.calls + 1, CostsOf([answers[a]]) + rest.costs)
  {
    CostsOfSingle(answers[a]);
  }

  lemma TriageFromStopping(answers: Answers, a: nat)
    requires a < MAX_ATTEMPTS
    requires !Rejected(answers[a])
    ensures TriageFrom(answers, a) == TriageOutcome(DecisionOf(answers[a]), 1, CostsOf([answers[a]]))
  {
    CostsOfSingle(answers[a]);
  }

  /** Skipping a prefix of rejected answers: the protocol from attempt `a` on
      decides the same, and the prefix adds its calls and costs in front. */
  lemma {:induction false} TriageAfterRejectedPrefix(answers: Answers, a: nat)
    requires a <= MAX_ATTEMPTS
    requires forall j :: 0 <= j < a ==> Rejected(answers[j])
    ensures RunTriage(answers).decision == TriageFrom(answers, a).decision
    ensures RunTriage(answers).calls == a + TriageFrom(answers, a).calls
    ensures RunTriage(answers).costs == CostsOf(answers[..a]) + TriageFrom(answers, a).costs
  {
    if a > 0 {
      TriageAfterRejectedPrefix(answers, a - 1);
      TriageFromRejected(answers, a - 1);
      CostsOfSnoc(answers, a);
      SeqAssoc(CostsOf(answers[..a - 1]), CostsOf([answers[a - 1]]), TriageFrom(answers, a).costs);
    } else {
      assert answers[..a] == [];
    }
  }

  lemma SeqAssoc(x: seq<real>, y: seq<real>, z: seq<real>)
    ensures x + (y + z) == (x + y) + z
  {
  }

  /** `u` is what the protocol does from attempt `a` on, stated without
      recursion: the calls it makes, the answers it skips, where it stops and
      what it charges. */
  ghost predicate StopsAt(answers: Answers, a: nat, u: TriageOutcome)
    requires a <= MAX_ATTEMPTS
  {
    u.calls <= MAX_ATTEMPTS - a &&
    (a < MAX_ATTEMPTS ==> 1 <= u.calls) &&
    (forall j :: a <= j < a + u.calls - 1 ==> Rejected(answers[j])) &&
    (u.calls < MAX_ATTEMPTS - a ==> !Rejected(answers[a + u.calls - 1])) &&
    (u.decision == if u.calls == 0 then Indeterminate else DecisionOf(answers[a + u.calls - 1])) &&
    u.costs == CostsOf(answers[a..a + u.calls])
  }

  /** Skipping one rejected answer in front of a run that stops. */
  lemma StopsAfterRejected(answers: Answers, a: nat, rest: TriageOutcome)
    requires a < MAX_ATTEMPTS
    requires Rejected(answers[a])
    requires StopsAt(answers, a + 1, rest)
    ensures StopsAt(answers, a, TriageOutcome(rest.decision, rest.calls + 1, CostsOf([answers[a]]) + rest.costs))
  {
    CostsOfSlice(answers, a, a + 1 + rest.calls);
  }

  /** Stopping at the first answer. */
  lemma StopsAtOnce(answers: Answers, a: nat)
    requires a < MAX_ATTEMPTS
    requires !Rejected(answers[a])
    ensures StopsAt(answers, a, TriageOutcome(DecisionOf(answers[a]), 1, CostsOf([answers[a]])))
  {
    assert answers[a..a + 1] == [answers[a]];
  }

  /** The reference protocol from attempt `a` stops as `StopsAt` says. */
  lemma {:induction false} TriageFromStops(answers: Answers, a: nat)
    requires a <= MAX_ATTEMPTS
    ensures StopsAt(answers, a, TriageFrom(answers, a))
    decreases MAX_ATTEMPTS - a
  {
    if a == MAX_ATTEMPTS {
      assert answers[a..a] == [];
    } else if Rejected(answers[a]) {
      TriageFromStops(answers, a + 1);
      TriageFromRejected(answers, a);
      StopsAfterRejected(answers, a, TriageFrom(answers, a + 1));
    } else {
      TriageFromStopping(answers, a);
      StopsAtOnce(answers, a);
    }
  }

  /** First valid answer wins: the triage makes between one and three calls;
      every call but the last got a rejected answer; it stops early only at
      an answer that is not rejected, and decides what that answer says;
      it ends Indeterminate only after three rejected answers; and it charges
      exactly the costs of the calls it made. */
  lemma TriageSpec(answers: Answers)
    ensures var t := RunTriage(answers);
      1 <= t.calls <= MAX_ATTEMPTS &&
      (forall j :: 0 <= j < t.calls - 1 ==> Rejected(answers[j])) &&
      (t.calls < MAX_ATTEMPTS ==> !Rejected(answers[t.calls - 1])) &&
      t.decision == DecisionOf(answers[t.calls - 1]) &&
      (t.decision == Indeterminate <==> forall j :: 0 <= j < MAX_ATTEMPTS ==> Rejected(answers[j])) &&
      t.costs == CostsOf(answers[..t.calls])
  {
    TriageFromStops(answers, 0);
    var t := RunTriage(answers);
    assert answers[0..t.calls] == answers[..t.calls];
    if t.decision == Indeterminate {
      assert !answers[t.calls - 1].Failed?;
      assert Rejected(answers[t.calls - 1]);
    }
  }

  /** With the answer at position k the first one not rejected, the triage
      makes exactly k + 1 calls and decides what that answer says. */
  lemma TriageStopsAtFirstVerdict(answers: Answers, k: nat)
    requires k < MAX_ATTEMPTS
    requires forall j :: 0 <= j < k ==> Rejected(answers[j])
    requires !Rejected(answers[k])
    ensures RunTriage(answers).calls == k + 1
    ensures RunTriage(answers).decision == DecisionOf(answers[k])
    ensures Sum(RunTriage(answers).costs) == Sum(CostsOf(answers[..k + 1]))
  {
    TriageSpec(answers);
    var t := RunTriage(answers);
    assert !(t.calls - 1 < k);
    assert !(t.calls - 1 > k);
  }

  /** What a triage charges: the costs of the one to three calls it made. */
  lemma TriageCharge(answers: Answers)
    ensures var t := RunTriage(answers);
      1 <= t.calls <= MAX_ATTEMPTS && t.costs == CostsOf(answers[..t.calls]) && Sum(t.costs) >= 0.0
  {
    TriageSpec(answers);
    TriageCostNonNegative(answers);
  }

  /** The charge of a triage is never negative. */
  lemma TriageCostNonNegative(answers: Answers)
    ensures Sum(RunTriage(answers).costs) >= 0.0
  {
    TriageSpec(answers);
    CostsOfNonNegative(answers[..RunTriage(answers).calls]);
  }

  /** Example: "yes" on the first call decides Yes after that one call. */
  lemma TriageExampleYes(u1: Usage)
    ensures var t := RunTriage([Answered(Reply(" Yes ", u1)), Failed, Failed]);
      t.decision == Yes && t.calls == 1 && t.costs == [ComputeCost(u1)]
  {
    NormalizeExampleYes();
    var answers: Answers := [Answered(Reply(" Yes ", u1)), Failed, Failed];
    TriageFromStopping(answers, 0);
    CostsOfSingle(answers[0]);
  }

  lemma CostsOfThree(calls: seq<Outcome>)
    requires |calls| == 3 && calls[0].Answered? && calls[1].Answered? && calls[2].Answered?
    ensures CostsOf(calls) == [ComputeCost(calls[0].reply.usage), ComputeCost(calls[1].reply.usage), ComputeCost(calls[2].reply.usage)]
  {
    CostsOfSingle(calls[0]);
    CostsOfSingle(calls[1]);
    CostsOfSingle(calls[2]);
    assert calls == ([calls[0]] + [calls[1]]) + [calls[2]];
    CostsOfAppend([calls[0]] + [calls[1]], [calls[2]]);
    CostsOfAppend([calls[0]], [calls[1]]);
  }

  lemma SumThree(x: real, y: real, z: real)
    ensures Sum([x, y, z]) == x + y + z
  {
    assert [x][..0] == [];
    assert Sum([x]) == x;
    assert [x, y][..1] == [x];
    assert Sum([x, y]) == x + y;
    assert [x, y, z][..2] == [x, y];
  }

  /** Three rejected answers: the triage gives up Indeterminate after three
      calls and charges all three. */
  lemma TriageAllRejected(answers: Answers)
    requires Rejected(answers[0]) && Rejected(answers[1]) && Rejected(answers[2])
    ensures var t := RunTriage(answers);
      t.decision == Indeterminate && t.calls == 3 &&
      Sum(t.costs) == ComputeCost(answers[0].reply.usage) + ComputeCost(answers[1].reply.usage) + ComputeCost(answers[2].reply.usage)
  {
    TriageAfterRejectedPrefix(answers, 3);
    assert TriageFrom(answers, 3) == TriageOutcome(Indeterminate, 0, []);
    assert answers[..3] == answers;
    var t := RunTriage(answers);
    assert t.costs == CostsOf(answers) + [];
    assert CostsOf(answers) + [] == CostsOf(answers);
    CostsOfThree(answers);
    SumThree(ComputeCost(answers[0].reply.usage), ComputeCost(answers[1].reply.usage), ComputeCost(answers[2].reply.usage));
  }

  /** Example: three "MAYBE" answers end Indeterminate after three charged
      calls. */
  lemma TriageExampleMaybe(u1: Usage, u2: Usage, u3: Usage)
    ensures var t := RunTriage([Answered(Reply("MAYBE", u1)), Answered(Reply("MAYBE", u2)), Answered(Reply("MAYBE", u3))]);
      t.decision == Indeterminate && t.calls == 3 && Sum(t.costs) == ComputeCost(u1) + ComputeCost(u2) + ComputeCost(u3)
  {
    NormalizeExampleMaybe();
    TriageAllRejected([Answered(Reply("MAYBE", u1)), Answered(Reply("MAYBE", u2)), Answered(Reply("MAYBE", u3))]);
  }
}
