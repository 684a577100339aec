/**
 The reference driver over an arbitrary machine (src/agent/drive.rs, `drain` and
 the `settle_*` helpers). The outside world is the `Await` of the run context.
*/
module Drive {
  import opened Wrappers
  import opened Effects
  import opened Trace
  import opened Budget
  import opened Routing
  import opened Batch
  import opened DriveLog
  import opened DriveAgenda
  import opened DriveStops
  import opened DriveFeed
  import opened DriveState
  import opened DriveSteps

  /** Others run during the drive; what they charged and whether they cancelled is logged. */
  method Yield<S(!new)>(live: Live<S>, ctx: RunContext, ghost entry: Entry, ghost unsettled: multiset<Key>,
                        ghost phase: Phase)
    requires Driving(live, ctx, entry, unsettled, phase) && !phase.Halting?
    modifies live`log, live`reading, ctx, ctx.ledger, ctx.trace
    ensures Driving(live, ctx, entry, unsettled, phase)
    ensures old(ctx.cancelled) ==> ctx.cancelled
    ensures Steady(old(live.reading), live.reading) && live.reading.feed == old(live.reading).feed
    ensures live.reading.meter == old(live.reading).meter.(others := live.reading.meter.others)
    ensures exists charged :: live.log == old(live.log) + [OthersCharged(charged)]
                                          + (if ctx.cancelled && !old(ctx.cancelled) then [TokenFlipped] else [])
  {
    ghost var before, others, used := live.log, ctx.others, ctx.ledger.used;
    ghost var records, ids := ctx.trace.records, ctx.trace.ids;
    var flipped;
    ghost var charged;
    flipped, charged := ctx.Await();
    GroundedGrows(before, entry, ctx.ledger.limits, records, ids, ctx.trace.records, ctx.trace.ids);
    live.Note(OthersCharged(charged));
    AfterWait(old(live.reading), live.reading, charged, unsettled, old(ctx.cancelled), phase);
    PaidAfterWait(old(live.reading), live.reading, charged, entry, others, used, ctx.ledger.limits);
    StaysGrounded(before, OthersCharged(charged), entry, ctx.ledger.limits, ctx.trace.records, ctx.trace.ids);
    if flipped {
      ghost var middle, midway := live.log, live.reading;
      live.Note(TokenFlipped);
      AfterFlip(midway, live.reading, unsettled, phase);
      StaysGrounded(middle, TokenFlipped, entry, ctx.ledger.limits, ctx.trace.records, ctx.trace.ids);
    }
  }

  // ----- settling one requirement -----

  /** Appends one settlement node and logs it. */
  method Record<S(!new)>(live: Live<S>, ctx: RunContext, key: Key, hops: nat, disposition: Disposition,
                         ghost entry: Entry)
    returns (node: string)
    requires live.Valid() && ctx.Valid() && entry.ids <= ctx.trace.ids
    requires Grounded(live.log, entry, ctx.ledger.limits, ctx.trace.records, ctx.trace.ids)
    modifies live`log, live`reading, ctx.trace
    ensures live.Valid() && ctx.Valid() && entry.ids <= ctx.trace.ids
    ensures Grounded(live.log, entry, ctx.ledger.limits, ctx.trace.records, ctx.trace.ids)
    ensures live.log == old(live.log) + [Settled(key, hops, disposition, node)]
    ensures live.reading == ReadOn(old(live.reading), Settled(key, hops, disposition, node))
  {
    ghost var before, records, ids := live.log, ctx.trace.records, ctx.trace.ids;
    ghost var attempt;
    node, attempt := ctx.trace.RecordRequirementNode(key.tag, key.id, hops, disposition);
    assert IsNodeOf(node, key.id, attempt);
    GroundedWhenSettled(before, Settled(key, hops, disposition, node), entry, ctx.ledger.limits,
                        records, ids, attempt);
    live.Note(Settled(key, hops, disposition, node));
  }

  /** On the way to a budget stop a requirement is recorded and nothing else. */
  method SettleNever<S(!new)>(live: Live<S>, ctx: RunContext, key: Key, ghost entry: Entry,
                              ghost unsettled: multiset<Key>, ghost phase: Phase)
    returns (node: string)
    requires Driving(live, ctx, entry, multiset{key} + unsettled, phase) && phase.Halting?
    requires phase.inLoop ==> live.reading.feed.stopped && UpNext(live.reading.feed, key)
    modifies live`log, live`reading, ctx.trace
    ensures Driving(live, ctx, entry, unsettled, phase)
    ensures live.log == old(live.log) + [Settled(key, 0, NeverResumed, node)]
            && NoProgress(old(live.reading), live.reading)
    ensures !live.reading.meter.stepPaid && live.reading.agenda.stopped == old(live.reading).agenda.stopped
    ensures live.reading.meter.steps == old(live.reading).meter.steps
    ensures live.reading.feed
            == old(live.reading).feed.(done := old(live.reading).feed.done + (if phase.inLoop then 1 else 0))
  {
    node := Record(live, ctx, key, 0, NeverResumed, entry);
    AfterNever(old(live.reading), live.reading, key, node, unsettled, ctx.cancelled, phase);
    PaidAfterNever(old(live.reading), live.reading, key, node, entry, ctx.others, ctx.ledger.used, ctx.ledger.limits);
  }

  /** The charge the ledger refused: the step, or after a counted step the reported tokens. */
  predicate Refused(stepPaid: bool, used: Usage, limits: Limits, result: RequirementResult) {
    && NeedsCharge(result)
    && !Within(Plus(used, if stepPaid then Usage(0, result.llm.value.tokens, 0) else ONE_STEP), limits)
  }

  /** The ledger's refusal is logged with what it read: from here on the drive halts. */
  ghost method NoteRefusal<S(!new)>(live: Live<S>, ctx: RunContext, charge: Usage, e: Event, entry: Entry,
                              unsettled: multiset<Key>)
    requires Driving(live, ctx, entry, unsettled, Resuming)
    requires Charges(e, charge) && InTurn(e, live.reading.meter) && Bills(live.reading.feed, charge)
    requires !Within(Plus(ctx.ledger.used, charge), ctx.ledger.limits)
    modifies live`log, live`reading
    ensures Driving(live, ctx, entry, unsettled, Halting(true)) && Steady(old(live.reading), live.reading)
    ensures live.log == old(live.log) + [ChargeRefused(charge, ctx.ledger.used, ctx.ledger.limits)]
    ensures live.reading.meter == old(live.reading).meter
    ensures live.reading.feed == old(live.reading).feed.(stopped := true)
  {
    var refusal := ChargeRefused(charge, ctx.ledger.used, ctx.ledger.limits);
    GroundedWhenRead(live, refusal, entry, ctx.others, ctx.ledger.used, ctx.ledger.limits,
                     ctx.trace.records, ctx.trace.ids);
    live.Note(refusal);
    AfterRefusal(old(live.reading), live.reading, charge, ctx.ledger.used, ctx.ledger.limits, unsettled, ctx.cancelled);
    PaidAfterRefusal(old(live.reading), live.reading, e, charge, entry, ctx.others, ctx.ledger.used, ctx.ledger.limits);
  }

  /** One charge: the ledger moves and the charge is logged, or it stays and its refusal is logged. */
  method Charge<S(!new)>(live: Live<S>, ctx: RunContext, charge: Usage, ghost e: Event, ghost entry: Entry,
                   ghost unsettled: multiset<Key>)
    returns (ok: bool)
    requires Driving(live, ctx, entry, unsettled, Resuming)
    requires Charges(e, charge) && InTurn(e, live.reading.meter) && Bills(live.reading.feed, charge)
    modifies live`log, live`reading, ctx.ledger
    ensures Driving(live, ctx, entry, unsettled, if ok then Resuming else Halting(true))
    ensures Steady(old(live.reading), live.reading)
    ensures ctx.ledger.used == if ok then Plus(old(ctx.ledger.used), charge) else old(ctx.ledger.used)
    ensures live.log == old(live.log) + [if ok then e else ChargeRefused(charge, ctx.ledger.used, ctx.ledger.limits)]
    ensures live.reading.feed == old(live.reading).feed.(stopped := !ok)
    ensures if ok then live.reading.meter == MeterEvent(old(live.reading).meter, e)
            else
              && !Within(Plus(ctx.ledger.used, charge), ctx.ledger.limits)
              && live.reading.meter == old(live.reading).meter
  {
    var charged := ctx.ledger.TryCharge(charge);
    ok := charged.Ok?;
    if ok {
      ghost var before, used := live.log, old(ctx.ledger.used);
      live.Note(e);
      AfterCharge(old(live.reading), live.reading, e, charge, unsettled, ctx.cancelled);
      PaidAfterCharge(old(live.reading), live.reading, e, charge, entry, ctx.others, used, ctx.ledger.limits);
      StaysGrounded(before, e, entry, ctx.ledger.limits, ctx.trace.records, ctx.trace.ids);
    } else {
      NoteRefusal(live, ctx, charge, e, entry, unsettled);
    }
  }

  /**
   One step, then the reported tokens; not a reservation, and a refused token
   charge leaves the step counted. It fails only on a charge the ledger refuses.
  */
  method ChargeResolution<S(!new)>(live: Live<S>, ctx: RunContext, resolved: Resolved, ghost entry: Entry,
                             ghost unsettled: multiset<Key>)
    returns (ok: bool)
    requires Driving(live, ctx, entry, unsettled, Resuming) && !live.reading.meter.stepPaid
    requires Upcoming(live.reading.feed, resolved)
    modifies live`log, live`reading, ctx, ctx.ledger, ctx.trace
    ensures Driving(live, ctx, entry, unsettled, if ok then Resuming else Halting(true))
    ensures Steady(old(live.reading), live.reading) && (old(ctx.cancelled) ==> ctx.cancelled)
    ensures live.reading.feed == old(live.reading).feed.(stopped := !ok)
    ensures ok ==> ChargedFor(live.reading, resolved.result)
    ensures !NeedsCharge(resolved.result) ==> ok && live.log == old(live.log) && live.reading == old(live.reading)
    ensures live.reading.meter.steps == old(live.reading).meter.steps + (if live.reading.meter.stepPaid then 1 else 0)
    ensures !ok ==> Refused(live.reading.meter.stepPaid, ctx.ledger.used, ctx.ledger.limits, resolved.result)
  {
    if !NeedsCharge(resolved.result) {
      return true;
    }
    ok := Charge(live, ctx, ONE_STEP, StepCharged, entry, unsettled);
    if !ok {
      return;
    }
    Yield(live, ctx, entry, unsettled, Resuming);
    var tokens := resolved.result.llm.value.tokens;
    ok := Charge(live, ctx, Usage(0, tokens, 0), TokensCharged(tokens), entry, unsettled);
  }

  /** Records the settlement, then feeds the result back; the machine may emit more. */
  method ResumeOne<S(!new)>(live: Live<S>, ctx: RunContext, resolved: Resolved, ghost entry: Entry,
                            ghost unsettled: multiset<Key>)
    returns (emitted: seq<Requirement>, node: string)
    requires Driving(live, ctx, entry, multiset{KeyOfResolved(resolved)} + unsettled, Resuming)
    requires Upcoming(live.reading.feed, resolved)
    requires ChargedFor(live.reading, resolved.result) && !live.reading.agenda.stopped
    requires !NeedsCharge(resolved.result) ==> !live.reading.meter.stepPaid
    modifies live, ctx.trace
    ensures Driving(live, ctx, entry, unsettled + KeysOf(emitted), Resuming)
    ensures live.log == old(live.log) +
              [Settled(KeyOfResolved(resolved), resolved.hops, Resumed, node),
               Stepped(Resume(resolved.id, resolved.result), emitted)]
    ensures live.reading.tally.emitted == old(live.reading).tally.emitted + KeysOf(emitted)
    ensures live.reading.tally.resumed == old(live.reading).tally.resumed + multiset{KeyOfResolved(resolved)}
    ensures (live.state, emitted) == live.machine.step(old(live.state), Resume(resolved.id, resolved.result))
    ensures live.reading.agenda.asked == old(live.reading).agenda.asked + emitted && !live.reading.agenda.stopped
    ensures live.reading.agenda.batches == old(live.reading).agenda.batches && !live.reading.meter.stepPaid
    ensures live.reading.meter.llmResumed
            == old(live.reading).meter.llmResumed + (if NeedsCharge(resolved.result) then 1 else 0)
    ensures live.reading.meter.steps == old(live.reading).meter.steps
    ensures live.reading.feed == old(live.reading).feed.(done := old(live.reading).feed.done + 1)
  {
    var key := KeyOfResolved(resolved);
    node := Record(live, ctx, key, resolved.hops, Resumed, entry);
    ghost var middle, midway := live.log, live.reading;
    emitted := live.Step(Resume(resolved.id, resolved.result));
    StaysGrounded(middle, Stepped(Resume(resolved.id, resolved.result), emitted), entry,
                  ctx.ledger.limits, ctx.trace.records, ctx.trace.ids);
    AfterResume(old(live.reading), midway, live.reading, resolved, node, emitted, unsettled, ctx.cancelled);
    PaidAfterResume(old(live.reading), midway, live.reading, resolved, node, emitted,
                    entry, ctx.others, ctx.ledger.used, ctx.ledger.limits);
  }

  method InterruptOnBudget<S(!new)>(live: Live<S>, ctx: RunContext, ghost entry: Entry, ghost unsettled: multiset<Key>,
                              ghost phase: Phase)
    returns (emitted: seq<Requirement>)
    requires Driving(live, ctx, entry, unsettled, phase) && phase.Halting? && Owes(live.reading.feed, phase, [])
    requires ctx.cancelled ==> phase.inLoop
    modifies live
    ensures Driving(live, ctx, entry, unsettled, Halted(phase))
    ensures live.log == old(live.log) + [Interrupted(emitted)] && NoProgress(old(live.reading), live.reading)
    ensures live.reading.meter == old(live.reading).meter
    ensures phase.inLoop ==> live.reading.feed.done == |live.reading.feed.answers|
    ensures (live.state, emitted) == live.machine.interrupt(old(live.state))
  {
    emitted := live.Interrupt();
    AfterStop(old(live.reading), live.reading, emitted, unsettled, ctx.cancelled, phase);
    StaysGrounded(old(live.log), Interrupted(emitted), entry, ctx.ledger.limits,
                  ctx.trace.records, ctx.trace.ids);
  }

  /** A resume loop opens over what the batch's handlers answered: only now does the agenda start afresh. */
  ghost method OpenLoop<S(!new)>(live: Live<S>, ctx: RunContext, batch: seq<Requirement>, answers: seq<Resolved>,
                                 entry: Entry, unsettled: multiset<Key>)
    requires Driving(live, ctx, entry, unsettled, InBatch) && !ctx.cancelled
    requires live.reading.feed.batch == batch && Fulfils(batch, answers, entry.chain, entry.depth)
    modifies live`log, live`reading
    ensures Driving(live, ctx, entry, unsettled, Resuming)
    ensures live.log == old(live.log) + [ResumesStarted(batch, answers)]
    ensures live.reading.tally == old(live.reading).tally
    ensures live.reading.agenda == old(live.reading).agenda.(asked := [], looped := true, stopped := false)
    ensures live.reading.meter == old(live.reading).meter
    ensures ServingAt(live.reading, answers, 0) && !live.reading.feed.stopped
  {
    StaysGrounded(live.log, ResumesStarted(batch, answers), entry, ctx.ledger.limits,
                  ctx.trace.records, ctx.trace.ids);
    live.Note(ResumesStarted(batch, answers));
    AfterOpening(old(live.reading), live.reading, batch, answers, unsettled);
  }

  ghost method CloseLoop<S(!new)>(live: Live<S>, ctx: RunContext, entry: Entry, unsettled: multiset<Key>)
    requires Driving(live, ctx, entry, unsettled, Resuming) && !live.reading.meter.stepPaid
    requires live.reading.feed.done == |live.reading.feed.answers|
    modifies live`log, live`reading
    ensures Driving(live, ctx, entry, unsettled, Between)
    ensures live.log == old(live.log) + [ResumesEnded] && Steady(old(live.reading), live.reading)
  {
    StaysGrounded(live.log, ResumesEnded, entry, ctx.ledger.limits, ctx.trace.records, ctx.trace.ids);
    live.Note(ResumesEnded);
    AfterClosing(old(live.reading), live.reading, unsettled, ctx.cancelled);
  }

  // ----- settling and resuming whole batches -----

  ghost predicate NeverEvent(e: Event, key: Key) {
    e.Settled? && e.key == key && e.hops == 0 && e.disposition.NeverResumed?
  }

  ghost predicate AbandonEvent(e: Event, id: RequirementId) {
    e.Stepped? && e.input == Abandon(id)
  }

  ghost predicate EndsInterrupted(log: seq<Event>) {
    |log| > 0 && log[|log| - 1].Interrupted?
  }

  ghost predicate EndsAbandoned(log: seq<Event>) {
    |log| > 0 && IsAbandon(log[|log| - 1])
  }

  /** The last pass of the checks found nothing pending. */
  ghost predicate EndsAtRest(log: seq<Event>) {
    |log| > 0 && log[|log| - 1].Considered? && log[|log| - 1].pending == []
  }

  /** The events at `at` record the requirement as never resumed and abandon it. */
  ghost predicate GivenUp(log: seq<Event>, at: int, key: Key) {
    0 <= at && at + 1 < |log| && NeverEvent(log[at], key) && AbandonEvent(log[at + 1], key.id)
  }

  /** After `before`, the log holds exactly the giving up of the first `n` keys, in order. */
  ghost predicate AllGivenUp(before: seq<Event>, after: seq<Event>, keys: seq<Key>, n: nat)
    requires n <= |keys|
  {
    && |after| == |before| + 2 * n && before <= after
    && forall k :: 0 <= k < n ==> GivenUp(after, |before| + 2 * k, keys[k])
  }

  lemma OneMoreGivenUp(before: seq<Event>, middle: seq<Event>, after: seq<Event>, keys: seq<Key>, i: nat)
    requires i < |keys| && AllGivenUp(before, middle, keys, i)
    requires |after| == |middle| + 2 && middle <= after && GivenUp(after, |middle|, keys[i])
    ensures AllGivenUp(before, after, keys, i + 1)
  {
    forall k | 0 <= k < i
      ensures GivenUp(after, |before| + 2 * k, keys[k])
    {
      assert GivenUp(middle, |before| + 2 * k, keys[k]);
    }
  }

  lemma LastIsAbandoned(before: seq<Event>, after: seq<Event>, keys: seq<Key>)
    requires keys != [] && AllGivenUp(before, after, keys, |keys|)
    ensures EndsAbandoned(after)
  {
    assert GivenUp(after, |before| + 2 * (|keys| - 1), keys[|keys| - 1]);
  }

  /** After the flip a requirement is recorded and the machine told to abandon it. */
  method GiveUp<S(!new)>(live: Live<S>, ctx: RunContext, key: Key, ghost entry: Entry, ghost unsettled: multiset<Key>,
                   ghost phase: Phase)
    requires Driving(live, ctx, entry, multiset{key} + unsettled, phase)
    requires ctx.cancelled && !phase.Resuming? && !phase.Halting?
    modifies live, ctx.trace
    ensures Driving(live, ctx, entry, unsettled, phase)
    ensures |live.log| == |old(live.log)| + 2 && old(live.log) <= live.log
    ensures GivenUp(live.log, |old(live.log)|, key) && NoProgress(old(live.reading), live.reading)
  {
    var node := Record(live, ctx, key, 0, NeverResumed, entry);
    ghost var middle, midway := live.log, live.reading;
    var emitted := live.Step(Abandon(key.id));
    StaysGrounded(middle, Stepped(Abandon(key.id), emitted), entry, ctx.ledger.limits,
                  ctx.trace.records, ctx.trace.ids);
    AfterGivingUp(old(live.reading), midway, live.reading, key, node, emitted, unsettled, phase);
    PaidAfterGivingUp(old(live.reading), midway, live.reading, key, node, emitted,
                      entry, ctx.others, ctx.ledger.used, ctx.ledger.limits);
  }

  lemma SplitFirst(keys: seq<Key>, i: nat)
    requires i < |keys|
    ensures multiset(keys[i..]) == multiset{keys[i]} + multiset(keys[i + 1..])
  {
    assert keys[i..] == [keys[i]] + keys[i + 1..];
  }

  /** Records and abandons every outstanding requirement, one after the other. */
  method SettleCancelled<S(!new)>(live: Live<S>, ctx: RunContext, keys: seq<Key>, ghost entry: Entry,
                                  ghost phase: Phase)
    requires Driving(live, ctx, entry, multiset(keys), phase)
    requires ctx.cancelled && !phase.Resuming? && !phase.Halting?
    modifies live, ctx.trace
    ensures Driving(live, ctx, entry, multiset{}, phase)
    ensures AllGivenUp(old(live.log), live.log, keys, |keys|)
    ensures NoProgress(old(live.reading), live.reading) && (keys != [] ==> EndsAbandoned(live.log))
  {
    var i := 0;
    assert keys[0..] == keys;
    while i < |keys|
      invariant 0 <= i <= |keys|
      invariant Driving(live, ctx, entry, multiset(keys[i..]), phase) && ctx.cancelled
      invariant AllGivenUp(old(live.log), live.log, keys, i)
      invariant NoProgress(old(live.reading), live.reading)
    {
      SplitFirst(keys, i);
      ghost var middle := live.log;
      GiveUp(live, ctx, keys[i], entry, multiset(keys[i + 1..]), phase);
      OneMoreGivenUp(old(live.log), middle, live.log, keys, i);
      i := i + 1;
    }
    if keys != [] {
      LastIsAbandoned(old(live.log), live.log, keys);
    }
  }

  /** After `before`, the log holds exactly the never-resumed records of the first `n` keys, in order. */
  ghost predicate AllRecordedNever(before: seq<Event>, after: seq<Event>, keys: seq<Key>, n: nat)
    requires n <= |keys|
  {
    && |after| == |before| + n && before <= after
    && forall k :: 0 <= k < n ==> NeverEvent(after[|before| + k], keys[k])
  }

  /** What is unsettled once the first `i` keys are settled. */
  function Left(keys: seq<Key>, i: nat, rest: multiset<Key>): multiset<Key>
    requires i <= |keys|
  {
    multiset(keys[i..]) + rest
  }

  lemma LeftAtTheEnds(keys: seq<Key>, rest: multiset<Key>)
    ensures Left(keys, 0, rest) == multiset(keys) + rest && Left(keys, |keys|, rest) == rest
  {
    assert keys[0..] == keys;
  }

  /** Nothing was driven or charged, and once a key was recorded nothing stays paid ahead. */
  predicate NeverSoFar(before: Reading, after: Reading, n: nat) {
    NoProgress(before, after) && after.meter.steps == before.meter.steps && (n > 0 ==> !after.meter.stepPaid)
  }

  lemma OneMoreNever(before: seq<Event>, middle: seq<Event>, after: seq<Event>, keys: seq<Key>, i: nat)
    requires i < |keys| && AllRecordedNever(before, middle, keys, i)
    requires |after| == |middle| + 1 && middle <= after && NeverEvent(after[|middle|], keys[i])
    ensures AllRecordedNever(before, after, keys, i + 1)
  {
    forall k | 0 <= k < i
      ensures NeverEvent(after[|before| + k], keys[k])
    {
      assert after[|before| + k] == middle[|before| + k];
    }
  }

  method SettleAllNever<S(!new)>(live: Live<S>, ctx: RunContext, keys: seq<Key>, ghost entry: Entry,
                           ghost rest: multiset<Key>, ghost phase: Phase)
    requires Driving(live, ctx, entry, multiset(keys) + rest, phase)
    requires phase.Halting? && Owes(live.reading.feed, phase, keys)
    modifies live`log, live`reading, ctx.trace
    ensures Driving(live, ctx, entry, rest, phase) && Owes(live.reading.feed, phase, [])
    ensures AllRecordedNever(old(live.log), live.log, keys, |keys|)
    ensures NeverSoFar(old(live.reading), live.reading, |keys|)
  {
    var i := 0;
    ghost var before := live.log;
    ghost var left := multiset(keys) + rest;
    LeftAtTheEnds(keys, rest);
    assert keys[0..] == keys;
    while i < |keys|
      invariant 0 <= i <= |keys| && left == Left(keys, i, rest)
      invariant Driving(live, ctx, entry, left, phase) && Owes(live.reading.feed, phase, keys[i..])
      invariant AllRecordedNever(before, live.log, keys, i) && NeverSoFar(old(live.reading), live.reading, i)
    {
      ghost var middle, fewer := live.log, Left(keys, i + 1, rest);
      ResumeKeys(keys, i, rest);
      OwesOneLess(live.reading.feed, phase, keys, i);
      var node := SettleNever(live, ctx, keys[i], entry, fewer, phase);
      OneMoreNever(before, middle, live.log, keys, i);
      i, left := i + 1, fewer;
    }
  }

  /** Records every unresumed requirement, then interrupts the machine once. */
  method SettleBudgetExhausted<S(!new)>(live: Live<S>, ctx: RunContext, keys: seq<Key>, ghost entry: Entry,
                                  ghost rest: multiset<Key>, ghost phase: Phase)
    requires Driving(live, ctx, entry, multiset(keys) + rest, phase)
    requires phase.Halting? && Owes(live.reading.feed, phase, keys)
    requires ctx.cancelled ==> phase.inLoop
    modifies live, ctx.trace
    ensures Driving(live, ctx, entry, rest, Halted(phase))
    ensures |live.log| == |old(live.log)| + |keys| + 1 && EndsInterrupted(live.log)
    ensures AllRecordedNever(old(live.log), live.log[..|live.log| - 1], keys, |keys|)
    ensures NoProgress(old(live.reading), live.reading) && (keys != [] ==> !live.reading.meter.stepPaid)
    ensures live.reading.meter.steps == old(live.reading).meter.steps
    ensures phase.inLoop ==> live.reading.feed.done == |live.reading.feed.answers|
    ensures live.state == live.machine.interrupt(old(live.state)).0
  {
    SettleAllNever(live, ctx, keys, entry, rest, phase);
    ghost var settled := live.log;
    var emitted := InterruptOnBudget(live, ctx, entry, rest, phase);
    assert live.log[..|live.log| - 1] == settled;
  }

  lemma ResumeKeys(keys: seq<Key>, fed: nat, emitted: multiset<Key>)
    requires fed < |keys|
    ensures multiset(keys[fed..]) + emitted == multiset{keys[fed]} + (multiset(keys[fed + 1..]) + emitted)
  {
    SplitFirst(keys, fed);
  }

  lemma ResumedKeys(keys: seq<Key>, fed: nat, pending: seq<Requirement>, emitted: seq<Requirement>,
                    emittedBefore: multiset<Key>, resumedBefore: multiset<Key>)
    requires fed < |keys|
    ensures multiset(keys[fed + 1..]) + KeysOf(pending) + KeysOf(emitted)
            == multiset(keys[fed + 1..]) + KeysOf(pending + emitted)
    ensures emittedBefore + KeysOf(pending) + KeysOf(emitted) == emittedBefore + KeysOf(pending + emitted)
    ensures resumedBefore + multiset(keys[..fed]) + multiset{keys[fed]} == resumedBefore + multiset(keys[..fed + 1])
  {
    KeysOfConcat(pending, emitted);
    assert keys[..fed + 1] == keys[..fed] + [keys[fed]];
  }

  /** The machine after the first `n` results were fed to it, in order. */
  function FedState<S>(m: Machine<S>, s: S, resolutions: seq<Resolved>, n: nat): S
    requires n <= |resolutions|
  {
    if n == 0 then s
    else m.step(FedState(m, s, resolutions, n - 1), Resume(resolutions[n - 1].id, resolutions[n - 1].result)).0
  }

  /** What it asked for meanwhile. */
  function FedAsks<S>(m: Machine<S>, s: S, resolutions: seq<Resolved>, n: nat): seq<Requirement>
    requires n <= |resolutions|
  {
    if n == 0 then []
    else
      FedAsks(m, s, resolutions, n - 1)
      + m.step(FedState(m, s, resolutions, n - 1), Resume(resolutions[n - 1].id, resolutions[n - 1].result)).1
  }

  function ModelResults(resolutions: seq<Resolved>, n: nat): nat
    requires n <= |resolutions|
  {
    if n == 0 then 0 else ModelResults(resolutions, n - 1) + if NeedsCharge(resolutions[n - 1].result) then 1 else 0
  }

  /** In a resume loop over these answers, with `n` of them resumed, nothing paid ahead and no stop yet. */
  predicate Feeding(r: Reading, answers: seq<Resolved>, n: nat) {
    !r.meter.stepPaid && !r.agenda.stopped && !r.feed.stopped && ServingAt(r, answers, n)
  }

  /** The next result: charged, and if the ledger agrees recorded and fed back. */
  method ResumeNext<S(!new)>(live: Live<S>, ctx: RunContext, resolutions: seq<Resolved>, fed: nat, ghost entry: Entry,
                       ghost unsettled: multiset<Key>)
    returns (ok: bool, emitted: seq<Requirement>)
    requires fed < |resolutions| && Feeding(live.reading, resolutions, fed)
    requires Driving(live, ctx, entry, multiset{KeyOfResolved(resolutions[fed])} + unsettled, Resuming)
    modifies live, ctx, ctx.ledger, ctx.trace
    ensures old(ctx.cancelled) ==> ctx.cancelled
    ensures ok ==>
              && Driving(live, ctx, entry, unsettled + KeysOf(emitted), Resuming)
              && Feeding(live.reading, resolutions, fed + 1)
              && FedOne(live.machine, old(live.state), live.state, old(live.reading), live.reading, resolutions[fed],
                        emitted)
    ensures !ok ==>
              && Driving(live, ctx, entry, multiset{KeyOfResolved(resolutions[fed])} + unsettled, Halting(true))
              && Refused(live.reading.meter.stepPaid, ctx.ledger.used, ctx.ledger.limits, resolutions[fed].result)
              && live.reading.feed.stopped && ServingAt(live.reading, resolutions, fed)
              && Steady(old(live.reading), live.reading) && emitted == [] && live.state == old(live.state)
              && live.reading.meter.steps
                 == old(live.reading).meter.steps + (if live.reading.meter.stepPaid then 1 else 0)
  {
    var resolved := resolutions[fed];
    Yield(live, ctx, entry, multiset{KeyOfResolved(resolved)} + unsettled, Resuming);
    ok := ChargeResolution(live, ctx, resolved, entry, multiset{KeyOfResolved(resolved)} + unsettled);
    emitted := [];
    if ok {
      var node;
      emitted, node := ResumeOne(live, ctx, resolved, entry, unsettled);
    }
  }

  /** How far a resume loop got: what was fed, in order, and nothing else. */
  ghost predicate FedSoFar<S>(m: Machine<S>, start: S, state: S, before: Reading, r: Reading,
                              resolutions: seq<Resolved>, fed: nat, pending: seq<Requirement>)
    requires fed <= |resolutions|
  {
    && state == FedState(m, start, resolutions, fed) && pending == FedAsks(m, start, resolutions, fed)
    && r.agenda.asked == before.agenda.asked + pending
    && r.agenda.batches == before.agenda.batches
    && r.meter.llmResumed == before.meter.llmResumed + ModelResults(resolutions, fed)
    && r.tally.emitted == before.tally.emitted + KeysOf(pending)
    && r.tally.resumed == before.tally.resumed + multiset(ResolvedKeys(resolutions)[..fed])
  }

  /** The log went on by one result that was fed. */
  ghost predicate FedOne<S>(m: Machine<S>, s: S, state: S, middle: Reading, r: Reading, resolved: Resolved,
                            emitted: seq<Requirement>)
  {
    && (state, emitted) == m.step(s, Resume(resolved.id, resolved.result))
    && r.tally.emitted == middle.tally.emitted + KeysOf(emitted)
    && r.tally.resumed == middle.tally.resumed + multiset{KeyOfResolved(resolved)}
    && r.agenda.asked == middle.agenda.asked + emitted
    && r.agenda.batches == middle.agenda.batches
    && r.meter.llmResumed == middle.meter.llmResumed + (if NeedsCharge(resolved.result) then 1 else 0)
    && r.meter.steps == middle.meter.steps + (if NeedsCharge(resolved.result) then 1 else 0)
  }

  lemma FedOneMore<S>(m: Machine<S>, start: S, s: S, state: S, before: Reading, middle: Reading, r: Reading,
                      resolutions: seq<Resolved>, fed: nat, pending: seq<Requirement>, emitted: seq<Requirement>)
    requires fed < |resolutions|
    requires FedSoFar(m, start, s, before, middle, resolutions, fed, pending)
    requires FedOne(m, s, state, middle, r, resolutions[fed], emitted)
    ensures FedSoFar(m, start, state, before, r, resolutions, fed + 1, pending + emitted)
  {
    var keys := ResolvedKeys(resolutions);
    ResumedKeys(keys, fed, pending, emitted, before.tally.emitted, before.tally.resumed);
    assert before.agenda.asked + pending + emitted == before.agenda.asked + (pending + emitted);
    assert FedState(m, start, resolutions, fed + 1)
           == m.step(s, Resume(resolutions[fed].id, resolutions[fed].result)).0;
  }

  /** How far a resume loop over the answers got, and in which state it left the drive. */
  ghost predicate FedUpTo<S(!new)>(live: Live<S>, ctx: RunContext, entry: Entry, start: S, before: Reading,
                             resolutions: seq<Resolved>, fed: nat, pending: seq<Requirement>, ok: bool)
    requires fed <= |resolutions|
    reads live, ctx, ctx.ledger, ctx.trace
  {
    && Driving(live, ctx, entry, multiset(ResolvedKeys(resolutions)[fed..]) + KeysOf(pending),
               if ok then Resuming else Halting(true))
    && FedSoFar(live.machine, start, live.state, before, live.reading, resolutions, fed, pending)
    && ServingAt(live.reading, resolutions, fed)
    && live.reading.meter.steps == before.meter.steps + ModelResults(resolutions, fed)
                                  + (if live.reading.meter.stepPaid then 1 else 0)
    && if ok then Feeding(live.reading, resolutions, fed)
       else
         && fed < |resolutions| && live.reading.feed.stopped
         && Refused(live.reading.meter.stepPaid, ctx.ledger.used, ctx.ledger.limits, resolutions[fed].result)
  }

  /** One more answer, or the first refused charge. */
  method FeedNext<S(!new)>(live: Live<S>, ctx: RunContext, resolutions: seq<Resolved>, fed: nat,
                           pending: seq<Requirement>, ghost entry: Entry, ghost start: S, ghost before: Reading)
    returns (ok: bool, more: seq<Requirement>)
    requires fed < |resolutions| && FedUpTo(live, ctx, entry, start, before, resolutions, fed, pending, true)
    modifies live, ctx, ctx.ledger, ctx.trace
    ensures old(ctx.cancelled) ==> ctx.cancelled
    ensures FedUpTo(live, ctx, entry, start, before, resolutions, if ok then fed + 1 else fed, more, ok)
  {
    var keys := ResolvedKeys(resolutions);
    ResumeKeys(keys, fed, KeysOf(pending));
    var emitted;
    ok, emitted := ResumeNext(live, ctx, resolutions, fed, entry, multiset(keys[fed + 1..]) + KeysOf(pending));
    more := pending;
    if ok {
      FedOneMore(live.machine, start, old(live.state), live.state, before, old(live.reading), live.reading,
                 resolutions, fed, pending, emitted);
      ResumedKeys(keys, fed, pending, emitted, multiset{}, multiset{});
      more := pending + emitted;
    }
  }

  /** Charges, records and feeds back one result after the other, up to the first refused charge. */
  method ResumeUntilRefused<S(!new)>(live: Live<S>, ctx: RunContext, resolutions: seq<Resolved>, ghost entry: Entry)
    returns (pending: seq<Requirement>, fed: nat)
    requires Driving(live, ctx, entry, multiset(ResolvedKeys(resolutions)), Resuming)
             && Feeding(live.reading, resolutions, 0)
    modifies live, ctx, ctx.ledger, ctx.trace
    ensures fed <= |resolutions| && (old(ctx.cancelled) ==> ctx.cancelled)
    ensures FedUpTo(live, ctx, entry, old(live.state), old(live.reading), resolutions, fed, pending,
                    fed == |resolutions|)
  {
    pending := [];
    fed := 0;
    ghost var start, before := live.state, live.reading;
    NothingFedYet(live, ctx, entry, resolutions);
    var ok := true;
    while ok && fed < |resolutions|
      invariant 0 <= fed <= |resolutions| && (old(ctx.cancelled) ==> ctx.cancelled)
      invariant FedUpTo(live, ctx, entry, start, before, resolutions, fed, pending, ok)
      decreases |resolutions| - fed, ok
    {
      ok, pending := FeedNext(live, ctx, resolutions, fed, pending, entry, start, before);
      fed := if ok then fed + 1 else fed;
    }
  }

  lemma NothingFedYet<S(!new)>(live: Live<S>, ctx: RunContext, entry: Entry, resolutions: seq<Resolved>)
    requires Driving(live, ctx, entry, multiset(ResolvedKeys(resolutions)), Resuming)
             && Feeding(live.reading, resolutions, 0)
    ensures FedUpTo(live, ctx, entry, live.state, live.reading, resolutions, 0, [], true)
  {
    var keys := ResolvedKeys(resolutions);
    assert keys[0..] == keys && multiset(keys) == multiset(keys[0..]) + KeysOf([]);
    assert live.reading.agenda.asked + [] == live.reading.agenda.asked;
  }

  /**
   Feeds a fulfilled batch back. A refused charge settles the rest as never
   resumed and interrupts the machine, but keeps what the earlier resumes asked for.
   `counted` says the refused result's step stayed on the ledger.
  */
  method ResumeAll<S(!new)>(live: Live<S>, ctx: RunContext, resolutions: seq<Resolved>, ghost entry: Entry)
    returns (pending: seq<Requirement>, fed: nat, ghost counted: bool)
    requires Driving(live, ctx, entry, multiset(ResolvedKeys(resolutions)), Resuming)
             && Feeding(live.reading, resolutions, 0)
    modifies live, ctx, ctx.ledger, ctx.trace
    ensures Driving(live, ctx, entry, KeysOf(pending), Resuming) && !live.reading.meter.stepPaid
    ensures (old(ctx.cancelled) ==> ctx.cancelled) && live.reading.feed.done == |live.reading.feed.answers|
    ensures fed <= |resolutions|
    ensures var s := FedState(live.machine, old(live.state), resolutions, fed);
            && FedSoFar(live.machine, old(live.state), s, old(live.reading), live.reading, resolutions, fed, pending)
            && live.state == if fed < |resolutions| then live.machine.interrupt(s).0 else s
    ensures live.reading.meter.steps
            == old(live.reading).meter.steps + ModelResults(resolutions, fed) + (if counted then 1 else 0)
    ensures if fed == |resolutions| then !counted
            else
              EndsInterrupted(live.log) && Refused(counted, ctx.ledger.used, ctx.ledger.limits, resolutions[fed].result)
  {
    pending, fed := ResumeUntilRefused(live, ctx, resolutions, entry);
    counted := live.reading.meter.stepPaid;
    var left := ResolvedKeys(resolutions)[fed..];
    if left != [] {
      SettleBudgetExhausted(live, ctx, left, entry, KeysOf(pending), Halting(true));
    } else {
      assert multiset(left) + KeysOf(pending) == KeysOf(pending);
    }
  }

  /** Opens the resume loop, feeds the results in completion order and closes it. */
  method FeedBack<S(!new)>(live: Live<S>, ctx: RunContext, ghost batch: seq<Requirement>, resolutions: seq<Resolved>,
                     ghost entry: Entry)
    returns (pending: seq<Requirement>, fed: nat)
    requires Driving(live, ctx, entry, multiset(ResolvedKeys(resolutions)), InBatch) && !ctx.cancelled
    requires live.reading.feed.batch == batch && Fulfils(batch, resolutions, entry.chain, entry.depth)
    modifies live, ctx, ctx.ledger, ctx.trace
    ensures Driving(live, ctx, entry, KeysOf(pending), Between)
    ensures live.reading.agenda.asked == pending && live.reading.agenda.batches == old(live.reading).agenda.batches
    ensures fed <= |resolutions| && pending == FedAsks(live.machine, old(live.state), resolutions, fed)
  {
    OpenLoop(live, ctx, batch, resolutions, entry, multiset(ResolvedKeys(resolutions)));
    ghost var counted;
    pending, fed, counted := ResumeAll(live, ctx, resolutions, entry);
    assert [] + pending == pending;
    CloseLoop(live, ctx, entry, KeysOf(pending));
  }

  // ----- the drive -----

  lemma ResolvedAloneIsAligned(req: Requirement, chain: seq<Scope>, depth: nat, draw: nat)
    requires chain != [] && Alone(req, chain, depth, draw).Ok?
    ensures KeyOfResolved(Alone(req, chain, depth, draw).value) == KeyOf(req)
  {
    RoutesToTheLeastScope(req, chain, depth, draw);
    var i := LeastScope(chain, KindTag(req.kind)).value;
    AcceptedResultsAreAligned(req.kind, Answer(req, chain[i..], depth, draw));
  }

  /** A fulfilled batch settles exactly the requirements of the batch. */
  lemma BatchKeepsKeys(batch: seq<Requirement>, answers: seq<Resolved>, chain: seq<Scope>, depth: nat)
    requires Fulfils(batch, answers, chain, depth)
    ensures multiset(ResolvedKeys(answers)) == KeysOf(batch) && |answers| == |batch|
  {
    var taken, draws :| FulfilledAs(batch, answers, chain, depth, taken, draws);
    forall k | 0 <= k < |taken|
      ensures ResolvedKeys(answers)[k] == Keys(batch)[taken[k]]
    {
      ResolvedAloneIsAligned(batch[taken[k]], chain, depth, draws[taken[k]]);
    }
    assert ResolvedKeys(answers) == Pick(Keys(batch), taken);
    PickingAllPermutes(Keys(batch), taken);
    assert |multiset(ResolvedKeys(answers))| == |answers| && |KeysOf(batch)| == |batch|;
  }

  datatype Move = Rest | Quiesced | SettleAsCancelled | StopOnBudget | StartBatch

  /** What the loop does next, in the order it checks. */
  function NextMove(pending: seq<Requirement>, terminal: bool, cancelled: bool, exhausted: bool): Move {
    if pending == [] then
      if terminal then Rest else Quiesced
    else if cancelled then SettleAsCancelled
    else if NeedsModel(pending) && exhausted then StopOnBudget
    else StartBatch
  }

  datatype Outcome =
    | Finished(cancelled: bool)
    | Failed(error: AgentError)
    | StillRunning

  ghost predicate FailsAlone(batch: seq<Requirement>, chain: seq<Scope>, depth: nat, draws: seq<nat>, error: AgentError)
    requires chain != []
  {
    |draws| == |batch| && exists i :: 0 <= i < |batch| && Alone(batch[i], chain, depth, draws[i]) == Err(error)
  }

  lemma NothingLoggedYet(before: seq<Event>, log: seq<Event>, message: nat, pending: seq<Requirement>, entry: Entry,
                         limits: Limits, records: seq<TraceRecord>, ids: set<string>)
    requires before == [] || before == [TokenFlipped]
    requires log == before + [Stepped(External(message), pending)] && entry.message == message
    ensures Grounded(log, entry, limits, records, ids)
  {
    assert Grounded([], entry, limits, records, ids);
    if before != [] {
      StaysGrounded([], TokenFlipped, entry, limits, records, ids);
      assert [] + [TokenFlipped] == before;
    }
    StaysGrounded(before, Stepped(External(message), pending), entry, limits, records, ids);
  }

  /** The opening step, with a token that may have been flipped before the drive began. */
  method Open<S(!new)>(live: Live<S>, ctx: RunContext, message: nat, ghost entry: Entry)
    returns (pending: seq<Requirement>)
    requires live.Valid() && live.log == [] && ctx.Valid() && entry.message == message
    requires entry.used == ctx.ledger.used && entry.others == ctx.others && entry.ids == ctx.trace.ids
    modifies live
    ensures Driving(live, ctx, entry, KeysOf(pending), Between)
    ensures live.reading.agenda.asked == pending && live.reading.agenda.batches == 0 && live.reading.meter.steps == 0
    ensures (live.state, pending) == live.machine.step(old(live.state), External(message))
  {
    NothingReadYet(live);
    if ctx.cancelled {
      live.Note(TokenFlipped);
    }
    ghost var before, unread := live.log, live.reading;
    pending := live.Step(External(message));
    AfterOpeningStep(unread, live.reading, ctx.cancelled, message, pending);
    PaidWhenOpened(live.reading, entry, ctx.ledger.limits);
    NothingLoggedYet(before, live.log, message, pending, entry, ctx.ledger.limits, ctx.trace.records, ctx.trace.ids);
  }

  /** Where the drive stands after a pass of the checks. */
  function After(move: Move): Phase {
    match move
    case StartBatch => InBatch
    case StopOnBudget => Halting(false)
    case _ => Between
  }

  ghost method NotePass<S(!new)>(live: Live<S>, ctx: RunContext, pending: seq<Requirement>, entry: Entry)
    requires Driving(live, ctx, entry, KeysOf(pending), Between) && live.reading.agenda.asked == pending
    requires !MayStart(pending, ctx.cancelled, ctx.ledger.used, ctx.ledger.limits)
    modifies live`log, live`reading
    ensures Driving(live, ctx, entry, KeysOf(pending),
                    if pending != [] && !ctx.cancelled then Halting(false) else Between)
    ensures live.log == old(live.log) + [Considered(pending, ctx.ledger.used, ctx.ledger.limits)]
    ensures live.reading.agenda == old(live.reading).agenda && live.reading.meter == old(live.reading).meter
  {
    var pass := Considered(pending, ctx.ledger.used, ctx.ledger.limits);
    GroundedWhenRead(live, pass, entry, ctx.others, ctx.ledger.used, ctx.ledger.limits, ctx.trace.records,
                     ctx.trace.ids);
    live.Note(pass);
    AfterPass(old(live.reading), live.reading, pending, ctx.ledger.used, ctx.ledger.limits, KeysOf(pending),
              ctx.cancelled);
  }

  ghost method NoteStart<S(!new)>(live: Live<S>, ctx: RunContext, pending: seq<Requirement>, entry: Entry)
    requires Driving(live, ctx, entry, KeysOf(pending), Between) && live.reading.agenda.asked == pending
    requires MayStart(pending, ctx.cancelled, ctx.ledger.used, ctx.ledger.limits)
    modifies live`log, live`reading
    ensures Driving(live, ctx, entry, KeysOf(pending), InBatch)
    ensures live.log == old(live.log) + [Considered(pending, ctx.ledger.used, ctx.ledger.limits), BatchStarted(pending)]
    ensures live.reading.agenda.asked == pending && live.reading.meter == old(live.reading).meter
    ensures live.reading.agenda.batches == old(live.reading).agenda.batches + 1 && live.reading.feed.batch == pending
  {
    var pass := Considered(pending, ctx.ledger.used, ctx.ledger.limits);
    GroundedWhenRead(live, pass, entry, ctx.others, ctx.ledger.used, ctx.ledger.limits, ctx.trace.records,
                     ctx.trace.ids);
    live.Note(pass);
    var middle, midway := live.log, live.reading;
    StaysGrounded(middle, BatchStarted(pending), entry, ctx.ledger.limits, ctx.trace.records, ctx.trace.ids);
    live.Note(BatchStarted(pending));
    AfterStart(old(live.reading), midway, live.reading, pending, ctx.ledger.used, ctx.ledger.limits, KeysOf(pending),
               ctx.cancelled);
  }

  /** One pass of the loop's checks over the ledger as it is now; a batch that may start starts. */
  method Consider<S(!new)>(live: Live<S>, ctx: RunContext, pending: seq<Requirement>, ghost entry: Entry)
    returns (move: Move)
    requires Driving(live, ctx, entry, KeysOf(pending), Between) && live.reading.agenda.asked == pending
    modifies live`log, live`reading
    ensures move == NextMove(pending, live.machine.terminal(live.state), ctx.cancelled,
                             Spent(ctx.ledger.used, ctx.ledger.limits))
    ensures Driving(live, ctx, entry, KeysOf(pending), After(move))
    ensures live.log == old(live.log) + [Considered(pending, ctx.ledger.used, ctx.ledger.limits)]
                        + (if move.StartBatch? then [BatchStarted(pending)] else [])
    ensures live.reading.agenda.asked == pending && live.reading.meter == old(live.reading).meter
    ensures live.reading.agenda.batches == old(live.reading).agenda.batches + (if move.StartBatch? then 1 else 0)
    ensures move.StartBatch? ==> live.reading.feed.batch == pending
  {
    var exhausted := ctx.ledger.ExhaustedDimension().Some?;
    move := NextMove(pending, live.machine.terminal(live.state), ctx.cancelled, exhausted);
    if move.StartBatch? {
      NoteStart(live, ctx, pending, entry);
    } else {
      NotePass(live, ctx, pending, entry);
    }
  }

  datatype BatchOutcome = Completed(resolutions: seq<Resolved>) | Preempted

  /**
   The batch wait raced with the token: preempted only after a flip, when the grace
   runs out; otherwise the batch completes with what each of its requirements gives
   alone, or fails with a member's own error.
  */
  method FulfillBatchCancellable<S(!new)>(live: Live<S>, ctx: RunContext, batch: seq<Requirement>, chain: seq<Scope>,
                                          depth: nat, ghost entry: Entry)
    returns (result: Result<BatchOutcome, AgentError>, ghost taken: seq<nat>, ghost draws: seq<nat>)
    requires chain != [] && Driving(live, ctx, entry, KeysOf(batch), InBatch)
    modifies live`log, live`reading, ctx, ctx.ledger, ctx.trace
    ensures Driving(live, ctx, entry, KeysOf(batch), InBatch) && Steady(old(live.reading), live.reading)
    ensures (old(ctx.cancelled) ==> ctx.cancelled) && |draws| == |batch|
    ensures match result
            case Ok(Preempted) => ctx.cancelled
            case Ok(Completed(resolutions)) => FulfilledAs(batch, resolutions, chain, depth, taken, draws)
            case Err(error) => FailsAlone(batch, chain, depth, draws, error)
  {
    assert |seq(|batch|, _ => 0)| == |batch|;
    var answers: seq<nat> :| |answers| == |batch|;
    draws := answers;
    taken := [];
    Yield(live, ctx, entry, KeysOf(batch), InBatch);
    var graceExpired: bool := *;
    if ctx.cancelled && graceExpired {
      return Ok(Preempted), taken, answers;
    }
    SomeCompletionOrder(batch, chain[0]);
    var order: seq<nat> :| CompletionOrder(order, batch, chain[0]);
    var fulfilled;
    fulfilled, taken := FulfillBatch(batch, chain, depth, answers, order);
    if fulfilled.Err? {
      return Err(fulfilled.error), taken, answers;
    }
    return Ok(Completed(fulfilled.value)), taken, answers;
  }

  /** The machine was fed some first part of the answers, and that is what it asked for meanwhile. */
  ghost predicate FedSome<S>(m: Machine<S>, s: S, answers: seq<Resolved>, pending: seq<Requirement>) {
    exists fed: nat :: fed <= |answers| && pending == FedAsks(m, s, answers, fed)
  }

  /**
   Waits for the batch that was started and feeds it back, or settles it when the
   token flips meanwhile. `outcome` is `StillRunning` when the loop goes round again.
  */
  method RunBatch<S(!new)>(live: Live<S>, ctx: RunContext, batch: seq<Requirement>, chain: seq<Scope>, depth: nat,
                           ghost entry: Entry)
    returns (outcome: Outcome, pending: seq<Requirement>, ghost answers: seq<Resolved>, ghost taken: seq<nat>,
             ghost draws: seq<nat>)
    requires Driving(live, ctx, entry, KeysOf(batch), InBatch) && batch != [] && live.reading.feed.batch == batch
    requires chain != [] && entry.chain == chain && entry.depth == depth
    modifies live, ctx, ctx.ledger, ctx.trace
    ensures Driving(live, ctx, entry, KeysOf(pending), if outcome.StillRunning? then Between else InBatch)
    ensures old(ctx.cancelled) ==> ctx.cancelled
    ensures |draws| == |batch| && live.reading.agenda.batches == old(live.reading).agenda.batches
    ensures match outcome
            case Finished(cancelled) =>
              && cancelled && ctx.cancelled && pending == []
              && NoProgress(old(live.reading), live.reading) && EndsAbandoned(live.log)
            case Failed(error) =>
              && pending == batch && NoProgress(old(live.reading), live.reading)
              && FailsAlone(batch, chain, depth, draws, error)
            case StillRunning =>
              && live.reading.agenda.asked == pending && FulfilledAs(batch, answers, chain, depth, taken, draws)
              && FedSome(live.machine, old(live.state), answers, pending)
  {
    var result;
    result, taken, draws := FulfillBatchCancellable(live, ctx, batch, chain, depth, entry);
    answers := [];
    match result
    case Err(error) => return Failed(error), batch, answers, taken, draws;
    case Ok(Preempted) =>
      SettleCancelled(live, ctx, Keys(batch), entry, InBatch);
      return Finished(true), [], answers, taken, draws;
    case Ok(Completed(resolutions)) =>
      assert Fulfils(batch, resolutions, chain, depth);
      BatchKeepsKeys(batch, resolutions, chain, depth);
      if ctx.cancelled {
        SettleCancelled(live, ctx, ResolvedKeys(resolutions), entry, InBatch);
        return Finished(true), [], answers, taken, draws;
      }
      var fed;
      pending, fed := FeedBack(live, ctx, batch, resolutions, entry);
      outcome, answers := StillRunning, resolutions;
  }

  /** How a drive may end: at rest, cancelled, on the budget, or on an error of the batch in flight. */
  ghost predicate EndsWell<S(!new)>(live: Live<S>, ctx: RunContext, outcome: Outcome, pending: seq<Requirement>,
                                    phase: Phase, chain: seq<Scope>, depth: nat, draws: seq<nat>)
    requires chain != []
    reads live, ctx
  {
    var rests := live.machine.terminal(live.state);
    match outcome
    case Finished(cancelled) =>
      && pending == []
      && if cancelled then ctx.cancelled && EndsAbandoned(live.log)
         else phase == Between && ((EndsAtRest(live.log) && rests) || (EndsInterrupted(live.log) && !ctx.cancelled))
    case Failed(error) =>
      if pending == [] then phase == Between && EndsAtRest(live.log) && error == NotTerminal && !rests
      else phase == InBatch && live.reading.agenda.asked == pending && FailsAlone(pending, chain, depth, draws, error)
    case StillRunning => phase == Between && live.reading.agenda.asked == pending
  }

  /** Ends the drive when the checks start no batch. */
  method Conclude<S(!new)>(live: Live<S>, ctx: RunContext, move: Move, pending: seq<Requirement>, chain: seq<Scope>,
                           depth: nat, ghost entry: Entry)
    returns (outcome: Outcome, left: seq<Requirement>)
    requires Driving(live, ctx, entry, KeysOf(pending), After(move)) && !move.StartBatch? && chain != []
    requires pending == [] ==> EndsAtRest(live.log)
    requires move == NextMove(pending, live.machine.terminal(live.state), ctx.cancelled,
                              Spent(ctx.ledger.used, ctx.ledger.limits))
    modifies live, ctx.trace
    ensures Driving(live, ctx, entry, KeysOf(left), Between) && left == [] && !outcome.StillRunning?
    ensures live.reading.agenda.batches == old(live.reading).agenda.batches
    ensures EndsWell(live, ctx, outcome, left, Between, chain, depth, [])
  {
    match move
    case Rest => return Finished(false), pending;
    case Quiesced => return Failed(NotTerminal), pending;
    case SettleAsCancelled =>
      SettleCancelled(live, ctx, Keys(pending), entry, Between);
      assert KeysOf([]) == multiset{};
      return Finished(true), [];
    case StopOnBudget =>
      assert KeysOf(pending) + multiset{} == KeysOf(pending) && KeysOf([]) == multiset{};
      SettleBudgetExhausted(live, ctx, Keys(pending), entry, multiset{}, Halting(false));
      return Finished(false), [];
  }

  /** Once round the loop: wait, check, and either end or run one batch. */
  method Round<S(!new)>(live: Live<S>, ctx: RunContext, pending: seq<Requirement>, chain: seq<Scope>, depth: nat,
                        ghost entry: Entry)
    returns (outcome: Outcome, left: seq<Requirement>, ghost phase: Phase, ghost draws: seq<nat>)
    requires Driving(live, ctx, entry, KeysOf(pending), Between) && live.reading.agenda.asked == pending
    requires chain != [] && entry.chain == chain && entry.depth == depth
    modifies live, ctx, ctx.ledger, ctx.trace
    ensures Driving(live, ctx, entry, KeysOf(left), phase) && (old(ctx.cancelled) ==> ctx.cancelled)
    ensures phase == Between || (phase == InBatch && !outcome.StillRunning?)
    ensures EndsWell(live, ctx, outcome, left, phase, chain, depth, draws)
    ensures outcome.StillRunning? ==> live.reading.agenda.batches == old(live.reading).agenda.batches + 1
    ensures live.reading.agenda.batches <= old(live.reading).agenda.batches + 1
  {
    Yield(live, ctx, entry, KeysOf(pending), Between);
    var move := Consider(live, ctx, pending, entry);
    if move.StartBatch? {
      ghost var answers, taken;
      outcome, left, answers, taken, draws := RunBatch(live, ctx, pending, chain, depth, entry);
      phase := if outcome.StillRunning? then Between else InBatch;
    } else {
      outcome, left := Conclude(live, ctx, move, pending, chain, depth, entry);
      phase, draws := Between, [];
    }
  }

  /** The budget, the ledger and the trace as the drive is about to find them. */
  ghost function EntryOf(ctx: RunContext, message: nat, chain: seq<Scope>, depth: nat): Entry
    reads ctx, ctx.ledger, ctx.trace
  {
    Entry(message, chain, depth, ctx.ledger.used, ctx.others, ctx.trace.ids)
  }

  /**
   Drives the machine for at most `rounds` batches. What holds when it returns
   holds of every finite run of the loop, whatever the machine, the handlers and
   the other holders of the context do.
  */
  method Drain<S(!new)>(live: Live<S>, ctx: RunContext, message: nat, chain: seq<Scope>, depth: nat, rounds: nat)
    returns (outcome: Outcome, pending: seq<Requirement>, ghost phase: Phase, ghost draws: seq<nat>)
    requires live.Valid() && live.log == [] && ctx.Valid() && chain != []
    modifies live, ctx, ctx.ledger, ctx.trace
    ensures Driving(live, ctx, old(EntryOf(ctx, message, chain, depth)), KeysOf(pending), phase)
    ensures (phase == Between || phase == InBatch) && (old(ctx.cancelled) ==> ctx.cancelled)
    ensures EndsWell(live, ctx, outcome, pending, phase, chain, depth, draws)
    ensures live.reading.agenda.batches <= rounds
    ensures outcome.StillRunning? ==> live.reading.agenda.batches == rounds
  {
    ghost var entry := EntryOf(ctx, message, chain, depth);
    pending := Open(live, ctx, message, entry);
    outcome, phase, draws := StillRunning, Between, [];
    var round := 0;
    while round < rounds && outcome.StillRunning?
      invariant 0 <= round <= rounds && live.reading.agenda.batches <= round
      invariant Driving(live, ctx, entry, KeysOf(pending), phase) && (old(ctx.cancelled) ==> ctx.cancelled)
      invariant phase == Between || (phase == InBatch && !outcome.StillRunning?)
      invariant EndsWell(live, ctx, outcome, pending, phase, chain, depth, draws)
      invariant outcome.StillRunning? ==> live.reading.agenda.batches == round
    {
      outcome, pending, phase, draws := Round(live, ctx, pending, chain, depth, entry);
      round := round + 1;
    }
  }
}
