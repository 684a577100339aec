/**
 A drive whose budget stops in the middle of a batch and that goes on all the same:
 two model requests, headroom for one step, and a tool the first answer asks for.
*/
module DriveExample {
  import opened Wrappers
  import opened Effects
  import opened Budget
  import opened Trace
  import opened Routing
  import opened Batch
  import opened DriveLog
  import opened DriveAgenda
  import opened DriveState
  import opened DriveSteps
  import opened Drive

  const FIRST := Requirement(RequirementId("first"), 0, NeedLlm(1))
  const SECOND := Requirement(RequirementId("second"), 0, NeedLlm(2))
  const TOOL := Requirement(RequirementId("tool"), 0, NeedTool(1, 1))

  const BOTH: seq<Requirement> := [FIRST, SECOND]

  /** Asks two models at once and, once the first answered, for a tool. */
  function Ask(s: nat, input: StepInput): (nat, seq<Requirement>) {
    match input
    case External(_) => (1, BOTH)
    case Resume(id, _) => if id == FIRST.id then (2, [TOOL]) else (s, [])
    case Abandon(_) => (0, [])
  }

  const ASKER: Machine<nat> := Machine(Ask, (s: nat) => (0, []), (s: nat) => s == 0)

  function Answered(req: Requirement): Resolved {
    Resolved(req.id, Llm(Ok(Response(0, 0))), 0)
  }

  predicate IsNothing(u: Usage) {
    u.steps == 0 && u.tokens == 0 && u.cost == 0
  }

  const ANSWERS: seq<Resolved> := [Answered(FIRST), Answered(SECOND)]

  /** What is fed to the machine when only the first answer can be afforded. */
  lemma FirstAnswerAsksForTheTool()
    ensures FedAsks(ASKER, 1, ANSWERS, 1) == [TOOL]
  {
    assert FedState(ASKER, 1, ANSWERS, 0) == 1 && FedAsks(ASKER, 1, ANSWERS, 0) == [];
    assert Ask(1, Resume(FIRST.id, Answered(FIRST).result)) == (2, [TOOL]);
  }

  /** A scope whose model answers every request at once. */
  const ANSWERER :=
    Scope(Some((kind: RequirementKind, draw: nat) => Llm(Ok(Response(0, 0)))), None, None, None, None, None)

  const CHAIN: seq<Scope> := [ANSWERER]

  /** Both answers, in request order, are what the two requests give alone. */
  lemma TheAnswererAnswersBoth(depth: nat)
    ensures Fulfils(BOTH, ANSWERS, CHAIN, depth)
  {
    assert Alone(FIRST, CHAIN, depth, 0) == Ok(Answered(FIRST));
    assert Alone(SECOND, CHAIN, depth, 0) == Ok(Answered(SECOND));
    assert Permutation([0, 1], 2) by {
      assert 0 in [0, 1] && 1 in [0, 1];
    }
    assert FulfilledAs(BOTH, ANSWERS, CHAIN, depth, [0, 1], [0, 0]);
  }

  lemma BothAnswersAreTheBatch()
    ensures multiset(ResolvedKeys(ANSWERS)) == KeysOf(BOTH)
    ensures ModelResults(ANSWERS, 2) == 2 && ModelResults(ANSWERS, 1) == 1
  {
    assert ResolvedKeys(ANSWERS) == Keys(BOTH);
    assert ModelResults(ANSWERS, 0) == 0 && ModelResults(ANSWERS, 1) == 1;
  }

  predicate OneStepOnly(limits: Limits) {
    limits.steps.Some? && limits.steps.value == 1 && limits.tokens.None? && limits.cost.None?
  }

  /** The ledger has no room for the next charge: no tokens after a counted step, else one step. */
  predicate NoRoom(counted: bool, used: Usage, limits: Limits) {
    if counted then !Within(used, limits)
    else !(AtMost(used.steps + 1, limits.steps) && AtMost(used.tokens, limits.tokens) && AtMost(used.cost, limits.cost))
  }

  lemma RefusedMeansNoRoom(counted: bool, used: Usage, limits: Limits)
    requires !Within(Plus(used, if counted then Usage(0, 0, 0) else ONE_STEP), limits)
    ensures NoRoom(counted, used, limits)
  {
    assert counted ==> Plus(used, Usage(0, 0, 0)) == used;
  }

  lemma LedgerOfALoneDrive(r: Reading, entry: Entry, others: Usage, used: Usage, limits: Limits)
    requires Paid(r, entry, others, used, limits) && IsNothing(entry.used) && IsNothing(entry.others)
    ensures r.meter.steps <= used.steps
    ensures r.meter.steps > 0 ==> Within(used, limits)
    ensures IsNothing(others) ==> used.steps == r.meter.steps && used.tokens == r.meter.tokens && used.cost == 0
    ensures IsNothing(others) && r.meter.steps == 0 ==> used.tokens == 0
  {}

  /** With one step of headroom at most one answer is paid for, and exactly one when nobody else charges. */
  lemma OneStepPaysForOneAnswer(steps: nat, used: Usage, limits: Limits, fed: nat, counted: bool, alone: bool)
    requires OneStepOnly(limits) && fed <= 2 && steps == fed + (if counted then 1 else 0) <= used.steps
    requires steps > 0 ==> Within(used, limits)
    requires alone ==> used.steps == steps && used.cost == 0 && (steps == 0 ==> used.tokens == 0)
    requires fed < 2 ==> NoRoom(counted, used, limits)
    ensures fed <= 1 && (alone ==> fed == 1 && used.steps == 1)
  {}

  lemma EveryAnswerNeedsAStep(counted: bool, used: Usage, limits: Limits, fed: nat)
    requires fed <= 2
    ensures ModelResults(ANSWERS, fed) == fed
    ensures fed < 2 && Refused(counted, used, limits, ANSWERS[fed].result) ==> NoRoom(counted, used, limits)
  {
    BothAnswersAreTheBatch();
    assert ModelResults(ANSWERS, 0) == 0;
    assert ANSWERS[0].result == Llm(Ok(Response(0, 0))) && ANSWERS[1].result == Llm(Ok(Response(0, 0)));
    if fed < 2 && Refused(counted, used, limits, ANSWERS[fed].result) {
      RefusedMeansNoRoom(counted, used, limits);
    }
  }

  /** What is fed and what is pending after it, from how far the loop got. */
  lemma OnlyTheFirstIsFed(r: Reading, entry: Entry, others: Usage, used: Usage, limits: Limits,
                          pending: seq<Requirement>, fed: nat, counted: bool)
    requires fed <= 2 && pending == FedAsks(ASKER, 1, ANSWERS, fed)
    requires OneStepOnly(limits) && Paid(r, entry, others, used, limits)
    requires IsNothing(entry.used) && IsNothing(entry.others)
    requires r.meter.steps == ModelResults(ANSWERS, fed) + (if counted then 1 else 0)
    requires fed < 2 ==> Refused(counted, used, limits, ANSWERS[fed].result)
    ensures fed <= 1 && (IsNothing(others) ==> fed == 1 && pending == [TOOL] && Spent(used, limits))
  {
    EveryAnswerNeedsAStep(counted, used, limits, fed);
    LedgerOfALoneDrive(r, entry, others, used, limits);
    OneStepPaysForOneAnswer(r.meter.steps, used, limits, fed, counted, IsNothing(others));
    FirstAnswerAsksForTheTool();
  }

  /** The two answers fed to the machine that waits for them. */
  method FeedTheAnswers(live: Live<nat>, ctx: RunContext, ghost entry: Entry)
    returns (pending: seq<Requirement>, fed: nat)
    requires Driving(live, ctx, entry, KeysOf(BOTH), Resuming) && Feeding(live.reading, ANSWERS, 0)
    requires live.machine == ASKER && live.state == 1 && live.reading.agenda.asked == []
             && live.reading.meter.steps == 0
    requires OneStepOnly(ctx.ledger.limits) && IsNothing(entry.used) && IsNothing(entry.others)
    modifies live, ctx, ctx.ledger, ctx.trace
    ensures Driving(live, ctx, entry, KeysOf(pending), Resuming) && !live.reading.meter.stepPaid
    ensures live.reading.agenda.asked == pending && fed <= 1 && EndsInterrupted(live.log)
    ensures live.reading.feed.done == |live.reading.feed.answers|
    ensures IsNothing(ctx.others) ==> fed == 1 && pending == [TOOL] && Spent(ctx.ledger.used, ctx.ledger.limits)
  {
    BothAnswersAreTheBatch();
    ghost var counted;
    pending, fed, counted := ResumeAll(live, ctx, ANSWERS, entry);
    OnlyTheFirstIsFed(live.reading, entry, ctx.others, ctx.ledger.used, ctx.ledger.limits, pending, fed, counted);
    assert [] + pending == pending;
  }

  /** The log ends with a budget stop, the closing of its loop and one more pass of the checks on a spent ledger. */
  ghost predicate StoppedAndChecked(log: seq<Event>, c: int) {
    && 2 <= c < |log| && log[c - 2].Interrupted? && log[c - 1].ResumesEnded?
    && log[c].Considered? && Spent(log[c].used, log[c].limits)
  }

  ghost predicate StartsTheTool(log: seq<Event>, c: int, cancelled: bool) {
    StoppedAndChecked(log, c) && log[c + 1..] == if cancelled then [] else [BatchStarted([TOOL])]
  }

  /** The drive was stopped, checked again on a spent ledger, and started its tool's batch unless the token flipped. */
  ghost predicate GoesOn(log: seq<Event>, cancelled: bool) {
    exists c :: StartsTheTool(log, c, cancelled)
  }

  /** The pass of the checks after the stop: whatever the budget says, a tool needs no model. */
  method CheckAfterTheStop(live: Live<nat>, ctx: RunContext, ghost entry: Entry)
    requires Driving(live, ctx, entry, KeysOf([TOOL]), Resuming) && live.reading.agenda.asked == [TOOL]
    requires live.reading.feed.done == |live.reading.feed.answers|
    requires EndsInterrupted(live.log) && !live.reading.meter.stepPaid && Spent(ctx.ledger.used, ctx.ledger.limits)
    modifies live`log, live`reading
    ensures live.Valid() && GoesOn(live.log, ctx.cancelled)
  {
    assert !NeedsModel([TOOL]);
    ghost var stopped := live.log;
    CloseLoop(live, ctx, entry, KeysOf([TOOL]));
    ghost var c := |live.log|;
    assert live.log[c - 2] == stopped[|stopped| - 1];
    var move := Consider(live, ctx, [TOOL], entry);
    assert live.log[c - 2] == stopped[|stopped| - 1];
    assert StartsTheTool(live.log, c, ctx.cancelled);
  }

  lemma AskerAsksBoth(message: nat, state: nat, asked: seq<Requirement>)
    requires (state, asked) == ASKER.step(0, External(message))
    ensures state == 1 && asked == BOTH && asked != []
  {}

  /** The opening step and the first pass of the checks, with the token down and headroom left. */
  method OpenAndCheck<S(!new)>(live: Live<S>, ctx: RunContext, message: nat, ghost entry: Entry)
    returns (pending: seq<Requirement>, move: Move)
    requires live.Valid() && live.log == [] && ctx.Valid() && entry.message == message
    requires entry.used == ctx.ledger.used && entry.others == ctx.others && entry.ids == ctx.trace.ids
    requires !ctx.cancelled && !Spent(ctx.ledger.used, ctx.ledger.limits)
    modifies live
    ensures (live.state, pending) == live.machine.step(old(live.state), External(message))
    ensures pending != [] ==> move == StartBatch
    ensures Driving(live, ctx, entry, KeysOf(pending), After(move)) && live.reading.meter.steps == 0
    ensures !ctx.cancelled && (move.StartBatch? ==> live.reading.feed.batch == pending)
  {
    pending := Open(live, ctx, message, entry);
    move := Consider(live, ctx, pending, entry);
  }

  /** The handler answers both and the resume loop opens. */
  ghost method OpenTheLoop(live: Live<nat>, ctx: RunContext, asked: seq<Requirement>, phase: Phase, entry: Entry)
    requires asked == BOTH && phase == InBatch && Driving(live, ctx, entry, KeysOf(asked), phase)
    requires live.reading.feed.batch == asked && !ctx.cancelled && live.reading.meter.steps == 0
    requires entry.chain == CHAIN
    modifies live`log, live`reading
    ensures Driving(live, ctx, entry, KeysOf(BOTH), Resuming) && Feeding(live.reading, ANSWERS, 0)
    ensures live.reading.agenda.asked == [] && live.reading.meter.steps == 0
  {
    TheAnswererAnswersBoth(entry.depth);
    OpenLoop(live, ctx, asked, ANSWERS, entry, KeysOf(asked));
  }

  /** From the batch's answers to the end of the loop's next pass. */
  method AnswerAndGoOn(live: Live<nat>, ctx: RunContext, ghost asked: seq<Requirement>, ghost phase: Phase,
                       ghost entry: Entry)
    requires asked == BOTH && phase == InBatch && Driving(live, ctx, entry, KeysOf(asked), phase)
    requires live.reading.feed.batch == asked && !ctx.cancelled && live.reading.meter.steps == 0
    requires live.machine == ASKER && live.state == 1 && OneStepOnly(ctx.ledger.limits)
    requires entry.chain == CHAIN && IsNothing(entry.used) && IsNothing(entry.others)
    modifies live, ctx, ctx.ledger, ctx.trace
    ensures live.Valid() && (IsNothing(ctx.others) ==> GoesOn(live.log, ctx.cancelled))
  {
    OpenTheLoop(live, ctx, asked, phase, entry);
    var pending, fed := FeedTheAnswers(live, ctx, entry);
    if pending == [TOOL] && ctx.ledger.ExhaustedDimension().Some? {
      CheckAfterTheStop(live, ctx, entry);
    }
  }

  /**
   The driver's own steps on that machine. At most one answer is fed; when nobody
   else charges the ledger it is the first one, the machine is interrupted over the
   second, and unless the token flipped the tool's batch starts on the spent ledger.
  */
  method StopAndGoOn(live: Live<nat>, ctx: RunContext, message: nat, depth: nat)
    requires live.Valid() && live.log == [] && live.machine == ASKER && live.state == 0
    requires ctx.Valid() && !ctx.cancelled && IsNothing(ctx.others)
    requires OneStepOnly(ctx.ledger.limits) && IsNothing(ctx.ledger.used)
    modifies live, ctx, ctx.ledger, ctx.trace
    ensures live.Valid()
    ensures IsNothing(ctx.others) ==> GoesOn(live.log, ctx.cancelled)
  {
    ghost var entry := EntryOf(ctx, message, CHAIN, depth);
    var asked, move := OpenAndCheck(live, ctx, message, entry);
    AskerAsksBoth(message, live.state, asked);
    AnswerAndGoOn(live, ctx, asked, After(move), entry);
  }
}
