/** The cost ledger's arithmetic: what one remote call costs, given its
    token usage, and the total of a run of such costs.  Money is an exact
    rational number of dollars; the source rounds each cost to six decimal
    places, which this model does not do. */
module Costs {

  /** Token usage reported by the remote capability for one call. */
  datatype Usage = Usage(promptTokens: nat, completionTokens: nat)

  /** Dollars per 1000 prompt (input) tokens. */
  const INPUT_COST_PER_1K: real := 0.01
  /** Dollars per 1000 completion (output) tokens. */
  const OUTPUT_COST_PER_1K: real := 0.02

  /** The cost of one call: prompt tokens at the input rate plus completion
      tokens at the output rate, both per thousand tokens. */
  function ComputeCost(usage: Usage): (cost: real)
    ensures cost >= 0.0
    ensures cost == (usage.promptTokens + 2 * usage.completionTokens) as real / 100000.0
  {
    var inputCost := (usage.promptTokens as real / 1000.0) * INPUT_COST_PER_1K;
    var outputCost := (usage.completionTokens as real / 1000.0) * OUTPUT_COST_PER_1K;
    inputCost + outputCost
  }

  /** 1000 prompt tokens and 500 completion tokens cost two cents. */
  lemma CostExample()
    ensures ComputeCost(Usage(1000, 500)) == 0.02
  {
  }

  /** Cost is additive in the usage: charging two calls separately costs the
      same as charging their combined token counts once. */
  lemma CostAdditive(a: Usage, b: Usage)
    ensures ComputeCost(Usage(a.promptTokens + b.promptTokens, a.completionTokens + b.completionTokens))
         == ComputeCost(a) + ComputeCost(b)
  {
  }

  /** Using more tokens never costs less. */
  lemma CostMonotone(a: Usage, b: Usage)
    requires a.promptTokens <= b.promptTokens && a.completionTokens <= b.completionTokens
    ensures ComputeCost(a) <= ComputeCost(b)
  {
  }

  /** The total of a sequence of costs, added in order. */
  function Sum(costs: seq<real>): real
  {
    if costs == [] then 0.0 else Sum(costs[..|costs| - 1]) + costs[|costs| - 1]
  }

  /** Totals of concatenated runs add up. */
  lemma {:induction false} SumAppend(a: seq<real>, b: seq<real>)
    ensures Sum(a + b) == Sum(a) + Sum(b)
    decreases |b|
  {
    if b == [] {
      assert a + b == a;
    } else {
      var b' := b[..|b| - 1];
      assert (a + b)[..|a + b| - 1] == a + b';
      SumAppend(a, b');
    }
  }

  /** A total of non-negative costs is non-negative. */
  lemma {:induction false} SumNonNegative(costs: seq<real>)
    requires forall i :: 0 <= i < |costs| ==> costs[i] >= 0.0
    ensures Sum(costs) >= 0.0
    decreases |costs|
  {
    if costs != [] {
      SumNonNegative(costs[..|costs| - 1]);
    }
  }
}
