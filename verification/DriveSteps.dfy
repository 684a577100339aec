/** What each move of the driver does to the readings of its log (src/agent/drive.rs, `drain`). */
module DriveSteps {
  import opened Wrappers
  import opened Effects
  import opened Trace
  import opened Budget
  import opened Batch
  import opened DriveLog
  import opened DriveAgenda
  import opened DriveStops
  import opened DriveFeed
  import opened DriveState

  lemma AfterWait(before: Reading, after: Reading, charged: Usage, unsettled: multiset<Key>, cancelled: bool,
                  phase: Phase)
    requires OnCourse(before, unsettled, cancelled, phase) && !phase.Halting?
    requires after == ReadOn(before, OthersCharged(charged))
    ensures OnCourse(after, unsettled, cancelled, phase) && Steady(before, after)
    ensures after.meter == before.meter.(others := Plus(before.meter.others, charged)) && after.feed == before.feed
  {}

  lemma PaidAfterWait(before: Reading, after: Reading, charged: Usage, entry: Entry, others: Usage, used: Usage,
                      limits: Limits)
    requires Paid(before, entry, others, used, limits) && after == ReadOn(before, OthersCharged(charged))
    requires Within(used, limits) ==> Within(Plus(used, charged), limits)
    ensures Paid(after, entry, Plus(others, charged), Plus(used, charged), limits)
  {}

  lemma AfterFlip(before: Reading, after: Reading, unsettled: multiset<Key>, phase: Phase)
    requires OnCourse(before, unsettled, false, phase) && !phase.Halting? && after == ReadOn(before, TokenFlipped)
    ensures OnCourse(after, unsettled, true, phase) && Steady(before, after)
    ensures after.meter == before.meter && after.feed == before.feed
  {}

  // ----- charging -----

  /** What the ledger is asked for when the event is logged. */
  predicate Charges(e: Event, charge: Usage) {
    || (e == StepCharged && charge == ONE_STEP)
    || (e.TokensCharged? && charge == Usage(0, e.charged, 0))
  }

  /** A step comes first and alone, its tokens after it. */
  predicate InTurn(e: Event, m: Meter) {
    && (e.StepCharged? ==> !m.stepPaid)
    && (e.TokensCharged? ==> m.stepPaid && m.tokensPaid.None?)
  }

  lemma PaidAfterCharge(before: Reading, after: Reading, e: Event, charge: Usage,
                        entry: Entry, others: Usage, used: Usage, limits: Limits)
    requires Paid(before, entry, others, used, limits) && after == ReadOn(before, e)
    requires Charges(e, charge) && InTurn(e, before.meter) && Within(Plus(used, charge), limits)
    ensures Paid(after, entry, others, Plus(used, charge), limits)
  {}

  lemma AfterCharge(before: Reading, after: Reading, e: Event, charge: Usage, unsettled: multiset<Key>, cancelled: bool)
    requires OnCourse(before, unsettled, cancelled, Resuming) && after == ReadOn(before, e)
    requires Charges(e, charge) && Bills(before.feed, charge)
    ensures OnCourse(after, unsettled, cancelled, Resuming) && Steady(before, after) && after.feed == before.feed
  {}

  lemma AfterRefusal(before: Reading, after: Reading, charge: Usage, used: Usage, limits: Limits,
                     unsettled: multiset<Key>, cancelled: bool)
    requires OnCourse(before, unsettled, cancelled, Resuming)
    requires Bills(before.feed, charge) && !Within(Plus(used, charge), limits)
    requires after == ReadOn(before, ChargeRefused(charge, used, limits))
    ensures OnCourse(after, unsettled, cancelled, Halting(true)) && Steady(before, after)
    ensures after.feed == before.feed.(stopped := true)
  {}

  lemma PaidAfterRefusal(before: Reading, after: Reading, e: Event, charge: Usage,
                         entry: Entry, others: Usage, used: Usage, limits: Limits)
    requires Paid(before, entry, others, used, limits) && Charges(e, charge) && InTurn(e, before.meter)
    requires after == ReadOn(before, ChargeRefused(charge, used, limits))
    ensures Paid(after, entry, others, used, limits) && after.meter == before.meter
  {}

  // ----- resuming one answer -----

  predicate ChargedFor(after: Reading, result: RequirementResult) {
    NeedsCharge(result) ==> after.meter.stepPaid && after.meter.tokensPaid == Some(result.llm.value.tokens)
  }

  /** The next answer to settle in this resume loop. */
  predicate Upcoming(f: Feed, resolved: Resolved) {
    !f.stopped && f.done < |f.answers| && f.answers[f.done] == resolved
  }

  /** Recorded as resumed, then fed back. */
  predicate ResumedOnce(before: Reading, middle: Reading, after: Reading, resolved: Resolved, node: string,
                              emitted: seq<Requirement>)
  {
    && middle == ReadOn(before, Settled(KeyOfResolved(resolved), resolved.hops, Resumed, node))
    && after == ReadOn(middle, Stepped(Resume(resolved.id, resolved.result), emitted))
  }

  /** The two events together, on the tally and on the feed. */
  lemma CountedOnce(t: Tally, resolved: Resolved, node: string, emitted: seq<Requirement>)
    requires t.awaiting.None?
    ensures var key := KeyOfResolved(resolved);
            CountEvent(CountEvent(t, Settled(key, resolved.hops, Resumed, node)),
                       Stepped(Resume(resolved.id, resolved.result), emitted))
            == t.(resumed := t.resumed + multiset{key}, fed := t.fed + multiset{key},
                  emitted := t.emitted + KeysOf(emitted))
  {}

  lemma ServedOnce(f: Feed, resolved: Resolved, node: string, emitted: seq<Requirement>)
    requires !f.announced && f.looping && Upcoming(f, resolved)
    ensures FeedEvent(FeedEvent(f, Settled(KeyOfResolved(resolved), resolved.hops, Resumed, node)),
                      Stepped(Resume(resolved.id, resolved.result), emitted))
            == f.(done := f.done + 1)
  {}

  lemma BalancedAfterResume(before: Reading, middle: Reading, after: Reading, resolved: Resolved, node: string,
                            emitted: seq<Requirement>, unsettled: multiset<Key>)
    requires Balanced(before, multiset{KeyOfResolved(resolved)} + unsettled)
    requires ResumedOnce(before, middle, after, resolved, node, emitted)
    ensures Balanced(after, unsettled + KeysOf(emitted))
    ensures after.tally.emitted == before.tally.emitted + KeysOf(emitted)
    ensures after.tally.resumed == before.tally.resumed + multiset{KeyOfResolved(resolved)}
  {
    var t, one, more := before.tally, multiset{KeyOfResolved(resolved)}, KeysOf(emitted);
    CountedOnce(t, resolved, node, emitted);
    assert t.resumed + t.never + (one + unsettled) + more == (t.resumed + one) + t.never + (unsettled + more);
  }

  lemma PaidAfterResume(before: Reading, middle: Reading, after: Reading, resolved: Resolved, node: string,
                        emitted: seq<Requirement>, entry: Entry, others: Usage, used: Usage, limits: Limits)
    requires Paid(before, entry, others, used, limits) && ChargedFor(before, resolved.result)
    requires !NeedsCharge(resolved.result) ==> !before.meter.stepPaid
    requires ResumedOnce(before, middle, after, resolved, node, emitted)
    ensures Paid(after, entry, others, used, limits) && !after.meter.stepPaid
    ensures after.meter.llmResumed == before.meter.llmResumed + (if NeedsCharge(resolved.result) then 1 else 0)
    ensures after.meter.steps == before.meter.steps
  {
    assert middle.meter == before.meter;
  }

  lemma WatchedAfterResume(before: Reading, middle: Reading, after: Reading, resolved: Resolved, node: string,
                           emitted: seq<Requirement>, cancelled: bool)
    requires Watched(before, cancelled, Resuming) && ResumedOnce(before, middle, after, resolved, node, emitted)
    requires Ordered(before, cancelled, Resuming) && !before.agenda.stopped
    ensures Watched(after, cancelled, Resuming) && Ordered(after, cancelled, Resuming)
    ensures after.agenda == before.agenda.(asked := before.agenda.asked + emitted)
  {
    assert middle.agenda == before.agenda && middle.watch == before.watch;
  }

  lemma ServedAfterResume(before: Reading, middle: Reading, after: Reading, resolved: Resolved, node: string,
                          emitted: seq<Requirement>, cancelled: bool)
    requires Answering(before, cancelled, Resuming) && Serving(before, Resuming) && Upcoming(before.feed, resolved)
    requires ResumedOnce(before, middle, after, resolved, node, emitted)
    ensures Answering(after, cancelled, Resuming) && Serving(after, Resuming)
    ensures after.feed == before.feed.(done := before.feed.done + 1)
  {
    ServedOnce(before.feed, resolved, node, emitted);
    assert middle.stops == before.stops;
  }

  lemma AfterResume(before: Reading, middle: Reading, after: Reading, resolved: Resolved, node: string,
                    emitted: seq<Requirement>, unsettled: multiset<Key>, cancelled: bool)
    requires OnCourse(before, multiset{KeyOfResolved(resolved)} + unsettled, cancelled, Resuming)
    requires !before.agenda.stopped && Upcoming(before.feed, resolved)
    requires ResumedOnce(before, middle, after, resolved, node, emitted)
    ensures OnCourse(after, unsettled + KeysOf(emitted), cancelled, Resuming)
    ensures after.tally.emitted == before.tally.emitted + KeysOf(emitted)
    ensures after.tally.resumed == before.tally.resumed + multiset{KeyOfResolved(resolved)}
    ensures after.agenda == before.agenda.(asked := before.agenda.asked + emitted)
    ensures after.feed == before.feed.(done := before.feed.done + 1)
  {
    BalancedAfterResume(before, middle, after, resolved, node, emitted, unsettled);
    WatchedAfterResume(before, middle, after, resolved, node, emitted, cancelled);
    ServedAfterResume(before, middle, after, resolved, node, emitted, cancelled);
  }

  // ----- the resume loop -----

  /** The loop serves these answers and has settled the first `n`. */
  predicate ServingAt(after: Reading, answers: seq<Resolved>, n: nat) {
    after.feed.answers == answers && after.feed.done == n
  }

  lemma AfterOpening(before: Reading, after: Reading, batch: seq<Requirement>, answers: seq<Resolved>,
                     unsettled: multiset<Key>)
    requires OnCourse(before, unsettled, false, InBatch) && before.feed.batch == batch
    requires after == ReadOn(before, ResumesStarted(batch, answers))
    ensures OnCourse(after, unsettled, false, Resuming) && after.tally == before.tally
    ensures after.agenda == before.agenda.(asked := [], looped := true, stopped := false)
    ensures after.meter == before.meter && ServingAt(after, answers, 0) && !after.feed.stopped
  {}

  lemma AfterClosing(before: Reading, after: Reading, unsettled: multiset<Key>, cancelled: bool)
    requires OnCourse(before, unsettled, cancelled, Resuming) && !before.meter.stepPaid
    requires before.feed.done == |before.feed.answers| && after == ReadOn(before, ResumesEnded)
    ensures OnCourse(after, unsettled, cancelled, Between) && Steady(before, after) && after.meter == before.meter
  {}

  // ----- stopping on the budget -----

  /** The phase a drive is in once its budget stop is done. */
  function Halted(phase: Phase): Phase
    requires phase.Halting?
  {
    if phase.inLoop then Resuming else Between
  }

  lemma AfterNever(before: Reading, after: Reading, key: Key, node: string, unsettled: multiset<Key>, cancelled: bool,
                   phase: Phase)
    requires OnCourse(before, multiset{key} + unsettled, cancelled, phase) && phase.Halting?
    requires phase.inLoop ==> before.feed.stopped && UpNext(before.feed, key)
    requires after == ReadOn(before, Settled(key, 0, NeverResumed, node))
    ensures OnCourse(after, unsettled, cancelled, phase) && NoProgress(before, after)
    ensures after.agenda.stopped == before.agenda.stopped
    ensures after.feed == before.feed.(done := before.feed.done + (if phase.inLoop then 1 else 0))
  {
    var t, one := before.tally, multiset{key};
    assert t.resumed + t.never + (one + unsettled) == t.resumed + (t.never + one) + unsettled;
  }

  lemma PaidAfterNever(before: Reading, after: Reading, key: Key, node: string,
                       entry: Entry, others: Usage, used: Usage, limits: Limits)
    requires Paid(before, entry, others, used, limits) && after == ReadOn(before, Settled(key, 0, NeverResumed, node))
    ensures Paid(after, entry, others, used, limits) && !after.meter.stepPaid
    ensures after.meter.steps == before.meter.steps && after.meter.llmResumed == before.meter.llmResumed
  {}

  /** What is left to record before the machine may be interrupted. */
  predicate Owes(f: Feed, phase: Phase, keys: seq<Key>)
    requires phase.Halting?
  {
    phase.inLoop ==> f.looping && f.stopped && f.done <= |f.answers| && ResolvedKeys(f.answers)[f.done..] == keys
  }

  lemma OwesOneLess(f: Feed, phase: Phase, keys: seq<Key>, i: nat)
    requires phase.Halting? && i < |keys| && Owes(f, phase, keys[i..])
    ensures phase.inLoop ==> f.stopped && UpNext(f, keys[i])
    ensures Owes(f.(done := f.done + (if phase.inLoop then 1 else 0)), phase, keys[i + 1..])
  {
    if phase.inLoop {
      var all := ResolvedKeys(f.answers);
      assert all[f.done..][0] == keys[i..][0];
      assert all[f.done + 1..] == all[f.done..][1..] == keys[i..][1..] == keys[i + 1..];
    }
  }

  lemma AfterStop(before: Reading, after: Reading, emitted: seq<Requirement>, unsettled: multiset<Key>, cancelled: bool,
                  phase: Phase)
    requires OnCourse(before, unsettled, cancelled, phase) && phase.Halting? && Owes(before.feed, phase, [])
    requires (cancelled ==> phase.inLoop) && after == ReadOn(before, Interrupted(emitted))
    ensures OnCourse(after, unsettled, cancelled, Halted(phase)) && NoProgress(before, after)
    ensures after.meter == before.meter && (phase.inLoop ==> after.feed.done == |after.feed.answers|)
  {}

  // ----- giving up after the flip -----

  /** Recorded as never resumed, then abandoned. */
  predicate GivenUpOnce(before: Reading, middle: Reading, after: Reading, key: Key, node: string,
                              emitted: seq<Requirement>)
  {
    && middle == ReadOn(before, Settled(key, 0, NeverResumed, node))
    && after == ReadOn(middle, Stepped(Abandon(key.id), emitted))
  }

  lemma BalancedAfterGivingUp(before: Reading, middle: Reading, after: Reading, key: Key, node: string,
                              emitted: seq<Requirement>, unsettled: multiset<Key>)
    requires Balanced(before, multiset{key} + unsettled) && GivenUpOnce(before, middle, after, key, node, emitted)
    ensures Balanced(after, unsettled)
    ensures after.tally.emitted == before.tally.emitted && after.tally.resumed == before.tally.resumed
  {
    var t, one := before.tally, multiset{key};
    assert middle.tally == t.(never := t.never + one);
    assert t.resumed + t.never + (one + unsettled) == t.resumed + (t.never + one) + unsettled;
  }

  lemma AfterGivingUp(before: Reading, middle: Reading, after: Reading, key: Key, node: string,
                      emitted: seq<Requirement>, unsettled: multiset<Key>, phase: Phase)
    requires OnCourse(before, multiset{key} + unsettled, true, phase) && (phase == Between || phase == InBatch)
    requires GivenUpOnce(before, middle, after, key, node, emitted)
    ensures OnCourse(after, unsettled, true, phase) && NoProgress(before, after)
  {
    BalancedAfterGivingUp(before, middle, after, key, node, emitted, unsettled);
    assert middle.feed == before.feed && middle.watch == before.watch && middle.agenda == before.agenda;
    assert middle.stops == before.stops.(giving := Some(key.id));
  }

  lemma PaidAfterGivingUp(before: Reading, middle: Reading, after: Reading, key: Key, node: string,
                          emitted: seq<Requirement>, entry: Entry, others: Usage, used: Usage, limits: Limits)
    requires Paid(before, entry, others, used, limits) && GivenUpOnce(before, middle, after, key, node, emitted)
    ensures Paid(after, entry, others, used, limits)
  {}

  // ----- one pass of the checks -----

  /** A pass that starts no batch: at rest, cancelled, or the preflight found the ledger spent. */
  lemma AfterPass(before: Reading, after: Reading, pending: seq<Requirement>, used: Usage, limits: Limits,
                  unsettled: multiset<Key>, cancelled: bool)
    requires OnCourse(before, unsettled, cancelled, Between) && before.agenda.asked == pending
    requires after == ReadOn(before, Considered(pending, used, limits)) && !MayStart(pending, cancelled, used, limits)
    ensures OnCourse(after, unsettled, cancelled,
                     if pending != [] && !cancelled then Halting(false) else Between)
    ensures after.agenda == before.agenda && after.meter == before.meter
  {}

  /** A pass and the batch it lets start. */
  lemma AfterStart(before: Reading, middle: Reading, after: Reading, pending: seq<Requirement>,
                   used: Usage, limits: Limits, unsettled: multiset<Key>, cancelled: bool)
    requires OnCourse(before, unsettled, cancelled, Between) && before.agenda.asked == pending
    requires MayStart(pending, cancelled, used, limits)
    requires middle == ReadOn(before, Considered(pending, used, limits))
    requires after == ReadOn(middle, BatchStarted(pending))
    ensures OnCourse(after, unsettled, cancelled, InBatch) && after.feed.batch == pending
    ensures after.meter == before.meter && after.agenda.asked == pending
    ensures after.agenda.batches == before.agenda.batches + 1
  {
    assert middle.agenda == before.agenda.(due := true) && middle.stops == before.stops;
    assert middle.watch == before.watch && middle.feed == before.feed;
  }

  // ----- opening -----

  /** The token may have been flipped before the drive began. */
  predicate Unopened(r: Reading, cancelled: bool) {
    r == if cancelled then ReadOn(NOTHING_READ, TokenFlipped) else NOTHING_READ
  }

  lemma OpenedTally(message: nat, pending: seq<Requirement>)
    ensures var t := CountEvent(NO_TALLY, Stepped(External(message), pending));
            && t.lawful && t.begun && t.awaiting.None? && t.fed == t.resumed
            && t.emitted == t.resumed + t.never + KeysOf(pending)
  {
    assert multiset{} + KeysOf(pending) == KeysOf(pending);
  }

  lemma UnopenedReadings(after: Reading, cancelled: bool)
    requires Unopened(after, cancelled)
    ensures after.tally == NO_TALLY && after.watch == NO_WATCH.(flipped := cancelled) && after.meter == NO_METER
    ensures after.agenda == NO_AGENDA.(flipped := cancelled) && after.stops == NO_STOPS.(flipped := cancelled)
    ensures after.feed == NO_FEED
  {
  }

  lemma BalancedWhenOpened(before: Reading, after: Reading, message: nat, pending: seq<Requirement>)
    requires before.tally == NO_TALLY && after == ReadOn(before, Stepped(External(message), pending))
    ensures Balanced(after, KeysOf(pending))
  {
    OpenedTally(message, pending);
  }

  lemma OrderedWhenOpened(before: Reading, after: Reading, cancelled: bool, message: nat, pending: seq<Requirement>)
    requires before.agenda == NO_AGENDA.(flipped := cancelled) && before.meter == NO_METER
    requires after == ReadOn(before, Stepped(External(message), pending))
    ensures Ordered(after, cancelled, Between) && after.meter == NO_METER
    ensures after.agenda.asked == pending && after.agenda.batches == 0
  {
    assert [] + pending == pending;
  }

  lemma WatchedWhenOpened(before: Reading, after: Reading, cancelled: bool, message: nat, pending: seq<Requirement>)
    requires before.watch == NO_WATCH.(flipped := cancelled) && before.stops == NO_STOPS.(flipped := cancelled)
    requires before.feed == NO_FEED && after == ReadOn(before, Stepped(External(message), pending))
    ensures Watched(after, cancelled, Between) && Answering(after, cancelled, Between) && Serving(after, Between)
  {}

  lemma PaidWhenOpened(r: Reading, entry: Entry, limits: Limits)
    requires r.meter == NO_METER
    ensures Paid(r, entry, entry.others, entry.used, limits)
  {}

  lemma AfterOpeningStep(before: Reading, after: Reading, cancelled: bool, message: nat, pending: seq<Requirement>)
    requires Unopened(before, cancelled) && after == ReadOn(before, Stepped(External(message), pending))
    ensures OnCourse(after, KeysOf(pending), cancelled, Between) && after.meter == NO_METER
    ensures after.agenda.asked == pending && after.agenda.batches == 0
  {
    UnopenedReadings(before, cancelled);
    BalancedWhenOpened(before, after, message, pending);
    OrderedWhenOpened(before, after, cancelled, message, pending);
    WatchedWhenOpened(before, after, cancelled, message, pending);
  }
}
