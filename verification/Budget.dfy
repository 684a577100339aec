/** The shared budget ledger (src/agent/context/budget.rs, src/agent/context.rs). */
module Budget {
  import opened Wrappers

  const U64_MAX: nat := 0xFFFF_FFFF_FFFF_FFFF

  datatype Usage = Usage(steps: nat, tokens: nat, cost: nat)
  datatype Limits = Limits(steps: Option<nat>, tokens: Option<nat>, cost: Option<nat>)
  datatype Dimension = Steps | Tokens | Cost
  datatype BudgetError = Exceeded(over: Dimension) | CounterOverflow(overflowed: Dimension)

  function Plus(a: Usage, b: Usage): Usage {
    Usage(a.steps + b.steps, a.tokens + b.tokens, a.cost + b.cost)
  }

  predicate AtMost(used: nat, limit: Option<nat>) {
    used <= U64_MAX && (limit.Some? ==> used <= limit.value)
  }

  predicate Within(used: Usage, limits: Limits) {
    AtMost(used.steps, limits.steps) && AtMost(used.tokens, limits.tokens) && AtMost(used.cost, limits.cost)
  }

  /** The dimension is limited and has no headroom left. */
  predicate SpentIn(used: Usage, limits: Limits, dimension: Dimension) {
    match dimension
    case Steps => limits.steps.Some? && limits.steps.value <= used.steps
    case Tokens => limits.tokens.Some? && limits.tokens.value <= used.tokens
    case Cost => limits.cost.Some? && limits.cost.value <= used.cost
  }

  predicate Spent(used: Usage, limits: Limits) {
    SpentIn(used, limits, Steps) || SpentIn(used, limits, Tokens) || SpentIn(used, limits, Cost)
  }

  function CheckedCounter(dimension: Dimension, current: nat, charge: nat, limit: Option<nat>)
    : (r: Result<nat, BudgetError>)
    ensures r.Ok? <==> AtMost(current + charge, limit)
    ensures r.Ok? <==> current + charge <= 0xFFFF_FFFF_FFFF_FFFF && (limit.Some? ==> current + charge <= limit.value)
    ensures r.Ok? ==> r.value == current + charge
    ensures r == Err(CounterOverflow(dimension)) <==> current + charge > 0xFFFF_FFFF_FFFF_FFFF
  {
    if current + charge > U64_MAX then Err(CounterOverflow(dimension))
    else if limit.Some? && current + charge > limit.value then Err(Exceeded(dimension))
    else Ok(current + charge)
  }

  /** One ledger behind every handle of a run and of the runs derived from it. */
  class Ledger {
    const limits: Limits
    var used: Usage

    constructor (limits: Limits, used: Usage)
      ensures this.limits == limits && this.used == used
    {
      this.limits := limits;
      this.used := used;
    }

    /** All three counters move, or none does. */
    method TryCharge(charge: Usage) returns (result: Result<Usage, BudgetError>)
      modifies this
      ensures result.Ok? <==> Within(Plus(old(used), charge), limits)
      ensures used == if result.Ok? then Plus(old(used), charge) else old(used)
      ensures result.Ok? ==>
                && used.steps == old(used).steps + charge.steps
                && (limits.steps.Some? ==> used.steps <= limits.steps.value)
                && used.tokens == old(used).tokens + charge.tokens
                && (limits.tokens.Some? ==> used.tokens <= limits.tokens.value)
                && used.cost == old(used).cost + charge.cost && (limits.cost.Some? ==> used.cost <= limits.cost.value)
      ensures result.Err? ==>
                || CheckedCounter(Steps, old(used).steps, charge.steps, limits.steps).Err?
                || CheckedCounter(Tokens, old(used).tokens, charge.tokens, limits.tokens).Err?
                || CheckedCounter(Cost, old(used).cost, charge.cost, limits.cost).Err?
    {
      var steps := CheckedCounter(Steps, used.steps, charge.steps, limits.steps);
      if steps.Err? {
        return Err(steps.error);
      }
      var tokens := CheckedCounter(Tokens, used.tokens, charge.tokens, limits.tokens);
      if tokens.Err? {
        return Err(tokens.error);
      }
      var cost := CheckedCounter(Cost, used.cost, charge.cost, limits.cost);
      if cost.Err? {
        return Err(cost.error);
      }
      used := Usage(steps.value, tokens.value, cost.value);
      return Ok(used);
    }

    /** The first count-like dimension that is spent, in the ledger's order; not a reservation. */
    function ExhaustedDimension(): (dimension: Option<Dimension>)
      reads this
      ensures dimension.Some? <==> Spent(used, limits)
      ensures dimension.Some? <==>
              || (limits.steps.Some? && used.steps >= limits.steps.value)
              || (limits.tokens.Some? && used.tokens >= limits.tokens.value)
              || (limits.cost.Some? && used.cost >= limits.cost.value)
      ensures dimension.Some? ==> SpentIn(used, limits, dimension.value)
      ensures dimension == Some(Tokens) ==> !SpentIn(used, limits, Steps)
      ensures dimension == Some(Cost) ==> !SpentIn(used, limits, Steps) && !SpentIn(used, limits, Tokens)
    {
      if limits.steps.Some? && used.steps >= limits.steps.value then Some(Steps)
      else if limits.tokens.Some? && used.tokens >= limits.tokens.value then Some(Tokens)
      else if limits.cost.Some? && used.cost >= limits.cost.value then Some(Cost)
      else None
    }
  }
}
