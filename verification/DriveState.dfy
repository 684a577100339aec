/**
 A drive in progress: the run context it shares, the machine it steps, and what
 holds between any two events of its log (src/agent/context.rs, src/agent/drive.rs).
*/
module DriveState {
  import opened Wrappers
  import opened Effects
  import opened Trace
  import opened Budget
  import opened Routing
  import opened Batch
  import opened DriveLog
  import opened DriveAgenda
  import opened DriveStops
  import opened DriveFeed

  /**
   A run context: the token, ledger and trace it shares with every other handle.
   `signals` says at which waits somebody else cancels; the drive itself never does.
  */
  class RunContext {
    var cancelled: bool
    var waits: nat
    const signals: nat -> bool
    const ledger: Ledger
    const trace: TraceHandle
    ghost var others: Usage      // charged by every other holder of the ledger

    ghost predicate SignalledBefore(n: nat) {
      exists k :: 0 <= k < n && signals(k)
    }

    ghost predicate Valid()
      reads this, trace
    {
      trace.Valid() && (cancelled <==> SignalledBefore(waits))
    }

    constructor (ledger: Ledger, trace: TraceHandle, signals: nat -> bool)
      requires trace.Valid()
      ensures Valid() && !cancelled && this.ledger == ledger && this.trace == trace && others == Usage(0, 0, 0)
    {
      this.cancelled, this.waits, this.signals := false, 0, signals;
      this.ledger, this.trace, this.others := ledger, trace, Usage(0, 0, 0);
    }

    /**
     Others run: the token may flip, siblings may charge the shared ledger and
     append to the shared trace. Nothing is ever taken back.
    */
    method Await() returns (flipped: bool, ghost charged: Usage)
      requires Valid()
      modifies this, ledger, trace
      ensures Valid() && cancelled == (old(cancelled) || flipped) && (flipped ==> !old(cancelled))
      ensures ledger.used == Plus(old(ledger.used), charged) && others == Plus(old(others), charged)
      ensures Within(old(ledger.used), ledger.limits) ==> Within(ledger.used, ledger.limits)
      ensures old(trace.ids) <= trace.ids && old(trace.records) <= trace.records
    {
      var steps: nat, tokens: nat, cost: nat := *, *, *;
      var tried := ledger.TryCharge(Usage(steps, tokens, cost));
      charged := if tried.Ok? then Usage(steps, tokens, cost) else Usage(0, 0, 0);
      others := Plus(others, charged);
      var nodes: seq<TraceRecord> := *;
      for i := 0 to |nodes|
        invariant trace.Valid()
        invariant old(trace.ids) <= trace.ids && old(trace.records) <= trace.records
        modifies trace
      {
        var recorded := trace.RecordRequirement(nodes[i].node, nodes[i].tag, nodes[i].hops, nodes[i].disposition);
      }
      flipped := signals(waits) && !cancelled;
      cancelled, waits := cancelled || flipped, waits + 1;
    }
  }

  // ----- all readings together -----

  datatype Reading = Reading(tally: Tally, watch: Watch, meter: Meter, agenda: Agenda, stops: Stops, feed: Feed)

  const NOTHING_READ := Reading(NO_TALLY, NO_WATCH, NO_METER, NO_AGENDA, NO_STOPS, NO_FEED)

  /** Every reading moves by the one event alone. */
  function ReadOn(r: Reading, e: Event): Reading {
    Reading(CountEvent(r.tally, e), WatchEvent(r.watch, e), MeterEvent(r.meter, e),
            AgendaEvent(r.agenda, e), StopsEvent(r.stops, e), FeedEvent(r.feed, e))
  }

  /** The readings after every number of events, the machine's states beside them. */
  datatype Step<!S> = Step(reading: Reading, state: S)

  ghost predicate MovedAt<S>(m: Machine<S>, steps: seq<Step<S>>, log: seq<Event>, k: nat)
    requires |steps| == |log| + 1 && k < |log|
  {
    && steps[k + 1] == Step(ReadOn(steps[k].reading, log[k]), MachineStep(m, steps[k].state, log[k]))
    && Honest(m, steps[k].state, log[k])
  }

  ghost predicate Run<S(!new)>(m: Machine<S>, start: S, log: seq<Event>, steps: seq<Step<S>>) {
    && |steps| == |log| + 1 && steps[0] == Step(NOTHING_READ, start)
    && forall k :: 0 <= k < |log| ==> MovedAt(m, steps, log, k)
  }

  /** The log is a run of the machine that ends in `state`, and `reading` is what it says. */
  ghost predicate Ran<S(!new)>(m: Machine<S>, start: S, log: seq<Event>, state: S, reading: Reading) {
    exists steps :: Run(m, start, log, steps) && steps[|log|] == Step(reading, state)
  }

  lemma NothingRan<S(!new)>(m: Machine<S>, start: S)
    ensures Ran(m, start, [], start, NOTHING_READ)
  {
    assert Run(m, start, [], [Step(NOTHING_READ, start)]);
  }

  lemma RanOnceMore<S(!new)>(m: Machine<S>, start: S, log: seq<Event>, state: S, reading: Reading, e: Event)
    requires Ran(m, start, log, state, reading) && Honest(m, state, e)
    ensures Ran(m, start, log + [e], MachineStep(m, state, e), ReadOn(reading, e))
  {
    var steps :| Run(m, start, log, steps) && steps[|log|] == Step(reading, state);
    var next := Step(ReadOn(reading, e), MachineStep(m, state, e));
    var more, longer := steps + [next], log + [e];
    forall k | 0 <= k < |longer|
      ensures MovedAt(m, more, longer, k)
    {
      if k < |log| {
        assert MovedAt(m, steps, log, k) && more[k] == steps[k] && more[k + 1] == steps[k + 1] && longer[k] == log[k];
      }
    }
    assert Run(m, start, longer, more);
  }

  lemma {:induction false} StepsAreFolds<O>(start: O, move: (O, Event) -> O, log: seq<Event>, steps: seq<O>, n: nat)
    requires n <= |log| && |steps| == |log| + 1 && steps[0] == start
    requires forall k :: 0 <= k < |log| ==> steps[k + 1] == move(steps[k], log[k])
    ensures steps[n] == Fold(start, move, log, n)
  {
    if n > 0 {
      StepsAreFolds(start, move, log, steps, n - 1);
      assert steps[n - 1 + 1] == move(steps[n - 1], log[n - 1]);
    }
  }

  /** The readings kept beside a run are those of its log. */
  lemma ReadingsAreTheLogs<S(!new)>(m: Machine<S>, start: S, log: seq<Event>, steps: seq<Step<S>>, n: nat)
    requires Run(m, start, log, steps) && n <= |log|
    ensures steps[n].reading
            == Reading(TallyTo(log, n), WatchTo(log, n), MeterTo(log, n), AgendaTo(log, n), StopsTo(log, n),
                       FeedTo(log, n))
    ensures steps[n].state == StateAt(m, start, log, n)
  {
    forall k | 0 <= k < |log|
      ensures steps[k + 1] == Step(ReadOn(steps[k].reading, log[k]), MachineStep(m, steps[k].state, log[k]))
    {
      assert MovedAt(m, steps, log, k);
    }
    StepsAreFolds(NO_TALLY, CountEvent, log, seq(|steps|, k requires 0 <= k < |steps| => steps[k].reading.tally), n);
    StepsAreFolds(NO_WATCH, WatchEvent, log, seq(|steps|, k requires 0 <= k < |steps| => steps[k].reading.watch), n);
    StepsAreFolds(NO_METER, MeterEvent, log, seq(|steps|, k requires 0 <= k < |steps| => steps[k].reading.meter), n);
    StepsAreFolds(NO_AGENDA, AgendaEvent, log, seq(|steps|, k requires 0 <= k < |steps| => steps[k].reading.agenda), n);
    StepsAreFolds(NO_STOPS, StopsEvent, log, seq(|steps|, k requires 0 <= k < |steps| => steps[k].reading.stops), n);
    StepsAreFolds(NO_FEED, FeedEvent, log, seq(|steps|, k requires 0 <= k < |steps| => steps[k].reading.feed), n);
    StepsAreFolds(start, MovesOf(m), log, seq(|steps|, k requires 0 <= k < |steps| => steps[k].state), n);
  }

  /** What is kept beside the log is what the log says, and the log is a run of the machine. */
  lemma RanMeansReplays<S(!new)>(m: Machine<S>, start: S, log: seq<Event>, state: S, reading: Reading)
    requires Ran(m, start, log, state, reading)
    ensures reading == Reading(TallyOf(log), WatchOf(log), MeterOf(log), AgendaOf(log), StopsOf(log), FeedOf(log))
    ensures Replays(m, start, log) && state == StateAfter(m, start, log)
  {
    var steps :| Run(m, start, log, steps) && steps[|log|] == Step(reading, state);
    ReadingsAreTheLogs(m, start, log, steps, |log|);
    forall k | 0 <= k < |log|
      ensures Honest(m, StateAt(m, start, log, k), log[k])
    {
      ReadingsAreTheLogs(m, start, log, steps, k);
      assert MovedAt(m, steps, log, k);
    }
  }

  /** Nothing was emitted for driving, nothing was resumed and no batch started in between. */
  predicate NoProgress(before: Reading, after: Reading) {
    && after.tally.emitted == before.tally.emitted && after.tally.resumed == before.tally.resumed
    && after.agenda.asked == before.agenda.asked && after.agenda.batches == before.agenda.batches
    && after.meter.llmResumed == before.meter.llmResumed && after.feed.batch == before.feed.batch
  }

  /** Nothing but charges and a flip of the token can have happened. */
  predicate Steady(before: Reading, after: Reading) {
    && NoProgress(before, after) && after.tally == before.tally && after.agenda.stopped == before.agenda.stopped
  }

  /** A machine under a drive, with the log of what was done to it and what that log says. */
  class Live<S(!new)> {
    const machine: Machine<S>
    var state: S
    ghost const start: S
    ghost var log: seq<Event>
    ghost var reading: Reading

    ghost predicate Valid()
      reads this
    {
      Ran(machine, start, log, state, reading)
    }

    constructor (machine: Machine<S>, state: S)
      ensures Valid() && log == [] && start == state && this.machine == machine && this.state == state
    {
      this.machine, this.state, this.start, this.log, this.reading := machine, state, state, [], NOTHING_READ;
      NothingRan(machine, state);
    }

    method Step(input: StepInput) returns (emitted: seq<Requirement>)
      requires Valid()
      modifies this
      ensures Valid() && log == old(log) + [Stepped(input, emitted)]
      ensures reading == ReadOn(old(reading), Stepped(input, emitted))
      ensures (state, emitted) == machine.step(old(state), input)
    {
      var outcome := machine.step(state, input);
      emitted := outcome.1;
      ghost var e := Stepped(input, emitted);
      RanOnceMore(machine, start, log, state, reading, e);
      state := outcome.0;
      log, reading := log + [e], ReadOn(reading, e);
    }

    /** Closes in-flight work on a spent budget; what it emits is not driven. */
    method Interrupt() returns (emitted: seq<Requirement>)
      requires Valid()
      modifies this
      ensures Valid() && log == old(log) + [Interrupted(emitted)]
      ensures reading == ReadOn(old(reading), Interrupted(emitted))
      ensures (state, emitted) == machine.interrupt(old(state))
    {
      var outcome := machine.interrupt(state);
      emitted := outcome.1;
      ghost var e := Interrupted(emitted);
      RanOnceMore(machine, start, log, state, reading, e);
      state := outcome.0;
      log, reading := log + [e], ReadOn(reading, e);
    }

    ghost method Note(e: Event)
      requires Valid() && !e.Stepped? && !e.Interrupted?
      modifies this`log, this`reading
      ensures Valid() && log == old(log) + [e] && reading == ReadOn(old(reading), e)
    {
      RanOnceMore(machine, start, log, state, reading, e);
      log, reading := log + [e], ReadOn(reading, e);
    }
  }

  lemma NothingReadYet<S(!new)>(live: Live<S>)
    requires live.Valid() && live.log == []
    ensures live.reading == NOTHING_READ && live.state == live.start
  {
    var steps :| Run(live.machine, live.start, live.log, steps) && steps[|live.log|] == Step(live.reading, live.state);
  }

  // ----- what the readings say between two events -----

  /** What the drive was given, and the shared parts as it found them. */
  datatype Entry = Entry(message: nat, chain: seq<Scope>, depth: nat, used: Usage, others: Usage, ids: set<string>)

  /** Between batches, waiting for one, feeding one back, or on the way to a budget stop. */
  datatype Phase = Between | InBatch | Resuming | Halting(inLoop: bool)

  predicate Looping(phase: Phase) {
    phase.Resuming? || (phase.Halting? && phase.inLoop)
  }

  /** Everything emitted is settled once or still `unsettled`; what was resumed was fed. */
  predicate Balanced(r: Reading, unsettled: multiset<Key>) {
    var t := r.tally;
    && t.lawful && t.begun && t.awaiting.None? && t.fed == t.resumed
    && t.emitted == t.resumed + t.never + unsettled
  }

  predicate Watched(r: Reading, cancelled: bool, phase: Phase) {
    var w := r.watch;
    && w.lawful && w.flipped == cancelled
    && w.resuming == Looping(phase) && w.inBatch == phase.InBatch?
    && (w.late <==> Looping(phase) && cancelled)
    && (w.struck <==> phase.InBatch? && cancelled)
  }

  /** The agenda was followed, and outside a resume loop nothing is paid ahead. */
  predicate Ordered(r: Reading, cancelled: bool, phase: Phase) {
    var o := r.agenda;
    && o.lawful && !o.due && o.flipped == cancelled && (Looping(phase) ==> o.looped)
    && (!Looping(phase) ==> !r.meter.stepPaid)
  }

  /** Every budget failure was answered, unless the drive is on the way to its stop. */
  predicate Answering(r: Reading, cancelled: bool, phase: Phase) {
    var s := r.stops;
    && s.lawful && s.giving.None? && s.flipped == cancelled
    && s.looping == Looping(phase) && s.due == phase.Halting?
  }

  /** The answers are settled in their turn. */
  predicate Serving(r: Reading, phase: Phase) {
    var f := r.feed;
    f.lawful && !f.announced && f.looping == Looping(phase)
  }

  /** What the ledger must read: what it read at entry, what this drive charged and what the others did. */
  function LedgerAfter(entry: Entry, m: Meter): Usage {
    Usage(entry.used.steps + m.steps + m.others.steps, entry.used.tokens + m.tokens + m.others.tokens,
          entry.used.cost + m.others.cost)
  }

  /**
   The ledger is conserved. Every resumed model result has its charge, and what is
   paid but not yet resumed is at most one result's.
  */
  predicate Paid(r: Reading, entry: Entry, others: Usage, used: Usage, limits: Limits) {
    var m := r.meter;
    && m.lawful && (m.tokensPaid.Some? ==> m.stepPaid)
    && used == LedgerAfter(entry, m) && others == Plus(entry.others, m.others)
    && m.llmResumed + (if m.stepPaid then 1 else 0) <= m.steps
    && m.llmTokens + (if m.tokensPaid.Some? then m.tokensPaid.value else 0) <= m.tokens
    && (if m.steps > 0 then Within(used, limits) else m.tokens == 0)
  }

  /** Every reading but the meter says the drive is on course. */
  predicate OnCourse(r: Reading, unsettled: multiset<Key>, cancelled: bool, phase: Phase) {
    && Balanced(r, unsettled) && Watched(r, cancelled, phase) && Ordered(r, cancelled, phase)
    && Answering(r, cancelled, phase) && Serving(r, phase)
  }

  // ----- what the log says about the world -----

  /** The event reports what the ledger read at that moment. */
  predicate Reads(e: Event) {
    e.Considered? || e.ChargeRefused?
  }

  /** This ledger was read, as it was at that moment. */
  ghost predicate ReadThen(e: Event, m: Meter, entry: Entry, limits: Limits)
    requires Reads(e)
  {
    e.limits == limits && e.used == LedgerAfter(entry, m)
  }

  ghost predicate ConsultedAt(log: seq<Event>, k: nat, entry: Entry, limits: Limits)
    requires k < |log|
  {
    Reads(log[k]) ==> ReadThen(log[k], MeterTo(log, k), entry, limits)
  }

  ghost predicate Consulted(log: seq<Event>, entry: Entry, limits: Limits) {
    forall k :: 0 <= k < |log| ==> ConsultedAt(log, k, entry, limits)
  }

  /** The answers are, in some order, what each requirement of the batch gives alone. */
  ghost predicate Fulfils(batch: seq<Requirement>, answers: seq<Resolved>, chain: seq<Scope>, depth: nat) {
    chain != [] && exists taken, draws :: FulfilledAs(batch, answers, chain, depth, taken, draws)
  }

  /** Answer `k` is what requirement `taken[k]` gives alone at its own draw. */
  ghost predicate FulfilledAs(batch: seq<Requirement>, answers: seq<Resolved>, chain: seq<Scope>, depth: nat,
                              taken: seq<nat>, draws: seq<nat>)
    requires chain != []
  {
    && |draws| == |batch| && Permutation(taken, |batch|) && |answers| == |taken|
    && forall k :: 0 <= k < |taken| ==> Alone(batch[taken[k]], chain, depth, draws[taken[k]]) == Ok(answers[k])
  }

  /** The machine is opened with the drive's own message, and loops only over what the handlers answered. */
  ghost predicate GenuineEvent(e: Event, entry: Entry) {
    match e
    case Stepped(External(message), _) => message == entry.message
    case ResumesStarted(batch, answers) => Fulfils(batch, answers, entry.chain, entry.depth)
    case _ => true
  }

  ghost predicate GenuineAt(log: seq<Event>, k: nat, entry: Entry)
    requires k < |log|
  {
    GenuineEvent(log[k], entry)
  }

  ghost predicate Genuine(log: seq<Event>, entry: Entry) {
    forall k :: 0 <= k < |log| ==> GenuineAt(log, k, entry)
  }

  function RecordOf(e: Event): TraceRecord
    requires e.Settled?
  {
    TraceRecord(e.node, e.key.tag, e.hops, e.disposition)
  }

  ghost predicate IsNodeOf(node: string, id: RequirementId, attempt: nat) {
    attempt >= 1 && node == NodeId(id.text, attempt)
  }

  /** A settlement has its own record, under a fresh node id made from the requirement id. */
  ghost predicate Recorded(e: Event, records: seq<TraceRecord>, ids: set<string>, earlier: set<string>)
    requires e.Settled?
  {
    && RecordOf(e) in records && e.node in ids && e.node !in earlier
    && exists attempt :: IsNodeOf(e.node, e.key.id, attempt)
  }

  ghost predicate TracedAt(log: seq<Event>, k: nat, records: seq<TraceRecord>, ids: set<string>, earlier: set<string>)
    requires k < |log|
  {
    log[k].Settled? ==> Recorded(log[k], records, ids, earlier)
  }

  predicate NodesDiffer(log: seq<Event>, j: nat, k: nat)
    requires j < k < |log|
  {
    log[j].Settled? && log[k].Settled? ==> log[j].node != log[k].node
  }

  ghost predicate Traced(log: seq<Event>, records: seq<TraceRecord>, ids: set<string>, earlier: set<string>) {
    && (forall k :: 0 <= k < |log| ==> TracedAt(log, k, records, ids, earlier))
    && (forall j, k :: 0 <= j < k < |log| ==> NodesDiffer(log, j, k))
  }

  /** Ledger, handlers and trace bear the log out. */
  ghost predicate Grounded(log: seq<Event>, entry: Entry, limits: Limits, records: seq<TraceRecord>, ids: set<string>) {
    Consulted(log, entry, limits) && Traced(log, records, ids, entry.ids) && Genuine(log, entry)
  }

  /** What holds between any two events of a drive. */
  ghost predicate Driving<S(!new)>(live: Live<S>, ctx: RunContext, entry: Entry, unsettled: multiset<Key>, phase: Phase)
    reads live, ctx, ctx.ledger, ctx.trace
  {
    && live.Valid() && ctx.Valid() && entry.ids <= ctx.trace.ids
    && OnCourse(live.reading, unsettled, ctx.cancelled, phase)
    && Paid(live.reading, entry, ctx.others, ctx.ledger.used, ctx.ledger.limits)
    && Grounded(live.log, entry, ctx.ledger.limits, ctx.trace.records, ctx.trace.ids)
  }

  // ----- the world moves on, or the log does -----

  lemma TraceGrows(log: seq<Event>, records: seq<TraceRecord>, ids: set<string>, earlier: set<string>,
                   moreRecords: seq<TraceRecord>, moreIds: set<string>)
    requires Traced(log, records, ids, earlier) && records <= moreRecords && ids <= moreIds
    ensures Traced(log, moreRecords, moreIds, earlier)
  {
    forall k | 0 <= k < |log|
      ensures TracedAt(log, k, moreRecords, moreIds, earlier)
    {
      assert TracedAt(log, k, records, ids, earlier);
      if log[k].Settled? {
        var i :| 0 <= i < |records| && records[i] == RecordOf(log[k]);
        assert moreRecords[i] == records[i];
      }
    }
  }

  lemma GroundedGrows(log: seq<Event>, entry: Entry, limits: Limits, records: seq<TraceRecord>, ids: set<string>,
                      moreRecords: seq<TraceRecord>, moreIds: set<string>)
    requires Grounded(log, entry, limits, records, ids) && records <= moreRecords && ids <= moreIds
    ensures Grounded(log, entry, limits, moreRecords, moreIds)
  {
    TraceGrows(log, records, ids, entry.ids, moreRecords, moreIds);
  }

  lemma ConsultedOnceMore(before: seq<Event>, e: Event, entry: Entry, limits: Limits)
    requires Consulted(before, entry, limits)
    requires Reads(e) ==> ReadThen(e, MeterOf(before), entry, limits)
    ensures Consulted(before + [e], entry, limits)
  {
    var after := before + [e];
    forall k | 0 <= k < |after|
      ensures ConsultedAt(after, k, entry, limits)
    {
      FoldSame(NO_METER, MeterEvent, before, e, k);
      assert MeterTo(after, k) == MeterTo(before, k);
      if k < |before| {
        assert after[k] == before[k] && ConsultedAt(before, k, entry, limits);
      }
    }
  }

  lemma GenuineOnceMore(before: seq<Event>, e: Event, entry: Entry)
    requires Genuine(before, entry) && GenuineEvent(e, entry)
    ensures Genuine(before + [e], entry)
  {
    var after := before + [e];
    forall k | 0 <= k < |after|
      ensures GenuineAt(after, k, entry)
    {
      if k < |before| {
        assert after[k] == before[k] && GenuineAt(before, k, entry);
      }
    }
  }

  lemma NodesStayApart(before: seq<Event>, e: Event)
    requires forall j, k :: 0 <= j < k < |before| ==> NodesDiffer(before, j, k)
    requires e.Settled? ==> forall j :: 0 <= j < |before| && before[j].Settled? ==> before[j].node != e.node
    ensures forall j, k :: 0 <= j < k < |before + [e]| ==> NodesDiffer(before + [e], j, k)
  {
    var after := before + [e];
    forall j, k | 0 <= j < k < |after|
      ensures NodesDiffer(after, j, k)
    {
      assert after[j] == before[j];
      if k < |before| {
        assert after[k] == before[k] && NodesDiffer(before, j, k);
      }
    }
  }

  lemma TracedUnlessSettled(before: seq<Event>, e: Event, records: seq<TraceRecord>, ids: set<string>,
                            earlier: set<string>)
    requires Traced(before, records, ids, earlier) && !e.Settled?
    ensures Traced(before + [e], records, ids, earlier)
  {
    var after := before + [e];
    forall k | 0 <= k < |after|
      ensures TracedAt(after, k, records, ids, earlier)
    {
      if k < |before| {
        assert after[k] == before[k] && TracedAt(before, k, records, ids, earlier);
      }
    }
    NodesStayApart(before, e);
  }

  lemma TracedWhenSettled(before: seq<Event>, e: Event, records: seq<TraceRecord>, ids: set<string>,
                          earlier: set<string>, attempt: nat)
    requires Traced(before, records, ids, earlier) && e.Settled?
    requires earlier <= ids && e.node !in ids && IsNodeOf(e.node, e.key.id, attempt)
    ensures Traced(before + [e], records + [RecordOf(e)], ids + {e.node}, earlier)
  {
    var after, records', ids' := before + [e], records + [RecordOf(e)], ids + {e.node};
    TraceGrows(before, records, ids, earlier, records', ids');
    assert records'[|records|] == RecordOf(e);
    forall k | 0 <= k < |after|
      ensures TracedAt(after, k, records', ids', earlier)
    {
      if k < |before| {
        assert after[k] == before[k] && TracedAt(before, k, records', ids', earlier);
      }
    }
    forall j | 0 <= j < |before| && before[j].Settled?
      ensures before[j].node != e.node
    {
      assert TracedAt(before, j, records, ids, earlier);
    }
    NodesStayApart(before, e);
  }

  /** An event that settles and reads nothing keeps the log grounded when it is itself genuine. */
  lemma StaysGrounded(before: seq<Event>, e: Event, entry: Entry, limits: Limits,
                      records: seq<TraceRecord>, ids: set<string>)
    requires Grounded(before, entry, limits, records, ids)
    requires !e.Settled? && !Reads(e) && GenuineEvent(e, entry)
    ensures Grounded(before + [e], entry, limits, records, ids)
  {
    TracedUnlessSettled(before, e, records, ids, entry.ids);
    ConsultedOnceMore(before, e, entry, limits);
    GenuineOnceMore(before, e, entry);
  }

  /** What the ledger says now is what it must read after this log. */
  lemma GroundedWhenRead<S(!new)>(live: Live<S>, e: Event, entry: Entry, others: Usage, used: Usage, limits: Limits,
                                  records: seq<TraceRecord>, ids: set<string>)
    requires live.Valid() && Grounded(live.log, entry, limits, records, ids)
    requires Paid(live.reading, entry, others, used, limits) && Reads(e) && e.used == used && e.limits == limits
    ensures Grounded(live.log + [e], entry, limits, records, ids)
  {
    RanMeansReplays(live.machine, live.start, live.log, live.state, live.reading);
    TracedUnlessSettled(live.log, e, records, ids, entry.ids);
    ConsultedOnceMore(live.log, e, entry, limits);
    GenuineOnceMore(live.log, e, entry);
  }

  lemma GroundedWhenSettled(before: seq<Event>, e: Event, entry: Entry, limits: Limits,
                            records: seq<TraceRecord>, ids: set<string>, attempt: nat)
    requires Grounded(before, entry, limits, records, ids) && e.Settled?
    requires entry.ids <= ids && e.node !in ids && IsNodeOf(e.node, e.key.id, attempt)
    ensures Grounded(before + [e], entry, limits, records + [RecordOf(e)], ids + {e.node})
  {
    TracedWhenSettled(before, e, records, ids, entry.ids, attempt);
    ConsultedOnceMore(before, e, entry, limits);
    GenuineOnceMore(before, e, entry);
  }
}
