/** What every drive promises, whatever the machine, the handlers and the other holders of its context do. */
module DrivePromises {
  import opened Wrappers
  import opened Effects
  import opened Trace
  import opened Budget
  import opened Routing
  import opened Batch
  import opened DriveLog
  import opened DriveAgenda
  import opened DriveStops
  import opened DriveFeed
  import opened DriveState

  /** Every log a drive produces is lawful and a run of the machine, so the laws of the log hold of every run. */
  lemma DrivesAreLawful<S(!new)>(live: Live<S>, ctx: RunContext, entry: Entry, unsettled: multiset<Key>, phase: Phase)
    requires Driving(live, ctx, entry, unsettled, phase)
    ensures Lawful(live.log) && AgendaOf(live.log).lawful && !AgendaOf(live.log).due
    ensures StopsOf(live.log).lawful && StopsOf(live.log).giving.None? && (!phase.Halting? ==> !StopsOf(live.log).due)
    ensures FeedOf(live.log).lawful
    ensures live.reading.tally == TallyOf(live.log) && live.reading.meter == MeterOf(live.log)
    ensures live.reading.agenda == AgendaOf(live.log) && live.reading.watch == WatchOf(live.log)
    ensures Replays(live.machine, live.start, live.log) && live.state == StateAfter(live.machine, live.start, live.log)
  {
    RanMeansReplays(live.machine, live.start, live.log, live.state, live.reading);
  }

  /** The log shows a flip exactly when the token is flipped, and only somebody else flips it. */
  lemma CancelledMeansSignalled<S(!new)>(live: Live<S>, ctx: RunContext, entry: Entry, unsettled: multiset<Key>,
                                         phase: Phase)
    requires Driving(live, ctx, entry, unsettled, phase)
    ensures ctx.cancelled <==> FlippedBefore(live.log, |live.log|)
    ensures ctx.cancelled <==> exists k :: 0 <= k < ctx.waits && ctx.signals(k)
  {
    DrivesAreLawful(live, ctx, entry, unsettled, phase);
    FlippedMeansAFlip(live.log, |live.log|);
    assert ctx.cancelled <==> ctx.SignalledBefore(ctx.waits);
  }

  predicate IsOpening(e: Event) {
    e.Stepped? && e.input.External?
  }

  ghost predicate OpenedBefore(log: seq<Event>, n: nat)
    requires n <= |log|
  {
    exists k :: 0 <= k < n && IsOpening(log[k])
  }

  lemma BegunMoves(o: Tally, e: Event)
    ensures CountEvent(o, e).begun <==> o.begun || IsOpening(e)
    ensures IsOpening(e) && CountEvent(o, e).lawful ==> !o.begun
  {}

  lemma BegunMeansOpened(log: seq<Event>, n: nat)
    requires n <= |log|
    ensures TallyTo(log, n).begun <==> OpenedBefore(log, n)
  {
    var holds := (o: Tally, k: int) => 0 <= k <= |log| && (o.begun <==> OpenedBefore(log, k));
    forall o: Tally, k | 0 <= k < |log| && holds(o, k)
      ensures holds(CountEvent(o, log[k]), k + 1)
    {
      BegunMoves(o, log[k]);
      assert OpenedBefore(log, k + 1) <==> OpenedBefore(log, k) || IsOpening(log[k]);
    }
    assert !OpenedBefore(log, 0) && !NO_TALLY.begun;
    FoldInvariant(NO_TALLY, CountEvent, log, 0, n, holds);
  }

  /** The machine is opened once, with the drive's own message. */
  lemma OpenedOnceWithTheMessage<S(!new)>(live: Live<S>, ctx: RunContext, entry: Entry, unsettled: multiset<Key>,
                                          phase: Phase)
    requires Driving(live, ctx, entry, unsettled, phase)
    ensures OpenedBefore(live.log, |live.log|)
    ensures forall j :: 0 <= j < |live.log| && IsOpening(live.log[j]) ==> live.log[j].input.message == entry.message
    ensures forall j, k :: 0 <= j < k < |live.log| && IsOpening(live.log[j]) ==> !IsOpening(live.log[k])
  {
    DrivesAreLawful(live, ctx, entry, unsettled, phase);
    BegunMeansOpened(live.log, |live.log|);
    forall j | 0 <= j < |live.log| && IsOpening(live.log[j])
      ensures live.log[j].input.message == entry.message
    {
      assert GenuineAt(live.log, j, entry);
    }
    forall j, k | 0 <= j < k < |live.log| && IsOpening(live.log[j])
      ensures !IsOpening(live.log[k])
    {
      LawfulAt(live.log, k);
      BegunMeansOpened(live.log, k);
      BegunMoves(TallyTo(live.log, k), live.log[k]);
    }
  }

  // ----- settlement -----

  function Count(yes: bool): nat {
    if yes then 1 else 0
  }

  predicate SettlesAs(e: Event, key: Key, disposition: Disposition) {
    e.Settled? && e.key == key && e.disposition == disposition
  }

  predicate FeedsBack(e: Event, key: Key) {
    e.Stepped? && e.input.Resume? && e.input.id == key.id && ResultTag(e.input.result) == key.tag
  }

  /** How many of the first `n` events record the requirement's settlement that way. */
  function TimesSettled(log: seq<Event>, n: nat, key: Key, disposition: Disposition): nat
    requires n <= |log|
  {
    if n == 0 then 0 else TimesSettled(log, n - 1, key, disposition) + Count(SettlesAs(log[n - 1], key, disposition))
  }

  /** How many of the first `n` events feed a result back under this id and family. */
  function TimesFedBack(log: seq<Event>, n: nat, key: Key): nat
    requires n <= |log|
  {
    if n == 0 then 0 else TimesFedBack(log, n - 1, key) + Count(FeedsBack(log[n - 1], key))
  }

  lemma TallyCountsOne(o: Tally, e: Event, key: Key)
    ensures CountEvent(o, e).resumed[key] == o.resumed[key] + Count(SettlesAs(e, key, Resumed))
    ensures CountEvent(o, e).never[key] == o.never[key] + Count(SettlesAs(e, key, NeverResumed))
    ensures CountEvent(o, e).fed[key] == o.fed[key] + Count(FeedsBack(e, key))
  {}

  lemma TimesCountOne(log: seq<Event>, n: nat, key: Key)
    requires n < |log|
    ensures forall d ::
              TimesSettled(log, n + 1, key, d) == TimesSettled(log, n, key, d) + Count(SettlesAs(log[n], key, d))
    ensures TimesFedBack(log, n + 1, key) == TimesFedBack(log, n, key) + Count(FeedsBack(log[n], key))
  {}

  predicate Tallied(o: Tally, log: seq<Event>, n: nat, key: Key)
    requires n <= |log|
  {
    && o.resumed[key] == TimesSettled(log, n, key, Resumed)
    && o.never[key] == TimesSettled(log, n, key, NeverResumed)
    && o.fed[key] == TimesFedBack(log, n, key)
  }

  lemma TallyCountsSettlements(log: seq<Event>, n: nat, key: Key)
    requires n <= |log|
    ensures Tallied(TallyTo(log, n), log, n, key)
  {
    var holds := (o: Tally, k: int) => 0 <= k <= |log| && Tallied(o, log, k, key);
    forall o: Tally, k | 0 <= k < |log| && holds(o, k)
      ensures holds(CountEvent(o, log[k]), k + 1)
    {
      TallyCountsOne(o, log[k], key);
      TimesCountOne(log, k, key);
    }
    assert Tallied(NO_TALLY, log, 0, key);
    FoldInvariant(NO_TALLY, CountEvent, log, 0, n, holds);
  }

  /**
   Exactly-once settlement. When nothing is left pending and the machine's closing
   steps emit nothing, every emission of a requirement is settled by one record,
   as resumed or as never resumed, and what is fed back is what is recorded as resumed.
  */
  lemma EverythingSettlesExactlyOnce<S(!new)>(live: Live<S>, ctx: RunContext, entry: Entry, phase: Phase)
    requires Driving(live, ctx, entry, multiset{}, phase) && ClosesQuietly(live.machine)
    ensures forall key: Key ::
              TimesEmitted(live.log, |live.log|, key)
              == TimesSettled(live.log, |live.log|, key, Resumed)
                 + TimesSettled(live.log, |live.log|, key, NeverResumed)
    ensures forall key: Key ::
              TimesFedBack(live.log, |live.log|, key) == TimesSettled(live.log, |live.log|, key, Resumed)
  {
    DrivesAreLawful(live, ctx, entry, multiset{}, phase);
    QuietMachinesDropNothing(live.machine, live.start, live.log, |live.log|);
    forall key: Key
      ensures TimesEmitted(live.log, |live.log|, key) == TallyOf(live.log).resumed[key] + TallyOf(live.log).never[key]
      ensures Tallied(TallyOf(live.log), live.log, |live.log|, key)
    {
      EmittedOrDropped(live.log, |live.log|, key);
      TallyCountsSettlements(live.log, |live.log|, key);
    }
  }

  // ----- the budget -----

  /** The event feeds a model's answer back. */
  predicate FeedsModelAnswer(e: Event) {
    e.Stepped? && e.input.Resume? && e.input.result.Llm? && e.input.result.llm.Ok?
  }

  /** How many model answers the first `n` events fed back. */
  function ModelAnswersFed(log: seq<Event>, n: nat): nat
    requires n <= |log|
  {
    if n == 0 then 0 else ModelAnswersFed(log, n - 1) + if FeedsModelAnswer(log[n - 1]) then 1 else 0
  }

  /** The tokens those answers reported. */
  function ModelTokensFed(log: seq<Event>, n: nat): nat
    requires n <= |log|
  {
    if n == 0 then 0
    else ModelTokensFed(log, n - 1)
         + if FeedsModelAnswer(log[n - 1]) then log[n - 1].input.result.llm.value.tokens else 0
  }

  lemma MeterCountsOne(o: Meter, e: Event)
    ensures MeterEvent(o, e).llmResumed == o.llmResumed + if FeedsModelAnswer(e) then 1 else 0
    ensures MeterEvent(o, e).llmTokens
            == o.llmTokens + if FeedsModelAnswer(e) then e.input.result.llm.value.tokens else 0
  {}

  lemma FedCountsOne(log: seq<Event>, n: nat)
    requires n < |log|
    ensures ModelAnswersFed(log, n + 1) == ModelAnswersFed(log, n) + if FeedsModelAnswer(log[n]) then 1 else 0
    ensures ModelTokensFed(log, n + 1)
            == ModelTokensFed(log, n) + if FeedsModelAnswer(log[n]) then log[n].input.result.llm.value.tokens else 0
  {}

  lemma MeterCountsModelAnswers(log: seq<Event>, n: nat)
    requires n <= |log|
    ensures MeterTo(log, n).llmResumed == ModelAnswersFed(log, n)
    ensures MeterTo(log, n).llmTokens == ModelTokensFed(log, n)
  {
    var holds := (o: Meter, k: int) =>
      0 <= k <= |log| && o.llmResumed == ModelAnswersFed(log, k) && o.llmTokens == ModelTokensFed(log, k);
    forall o: Meter, k | 0 <= k < |log| && holds(o, k)
      ensures holds(MeterEvent(o, log[k]), k + 1)
    {
      MeterCountsOne(o, log[k]);
      FedCountsOne(log, k);
    }
    assert ModelAnswersFed(log, 0) == 0 && ModelTokensFed(log, 0) == 0;
    FoldInvariant(NO_METER, MeterEvent, log, 0, n, holds);
  }

  /** The model answers fed back and the tokens they reported never exceed what the limits left at entry. */
  lemma ResumedWorkFitsTheLimits<S(!new)>(live: Live<S>, ctx: RunContext, entry: Entry, unsettled: multiset<Key>,
                                          phase: Phase)
    requires Driving(live, ctx, entry, unsettled, phase)
    ensures var answers, tokens := ModelAnswersFed(live.log, |live.log|), ModelTokensFed(live.log, |live.log|);
            var limits := ctx.ledger.limits;
            answers > 0 ==>
              && entry.used.steps + answers <= 0xFFFF_FFFF_FFFF_FFFF
              && entry.used.tokens + tokens <= 0xFFFF_FFFF_FFFF_FFFF
              && (limits.steps.Some? ==> entry.used.steps + answers <= limits.steps.value)
              && (limits.tokens.Some? ==> entry.used.tokens + tokens <= limits.tokens.value)
  {
    DrivesAreLawful(live, ctx, entry, unsettled, phase);
    MeterCountsModelAnswers(live.log, |live.log|);
  }

  /** What is resumed was charged before. */
  predicate Charged(m: Meter) {
    && m.llmResumed + (if m.stepPaid then 1 else 0) <= m.steps
    && m.llmTokens + (if m.tokensPaid.Some? then m.tokensPaid.value else 0) <= m.tokens
    && (m.tokensPaid.Some? ==> m.stepPaid)
  }

  lemma ResumedWasCharged(log: seq<Event>, n: nat)
    requires n <= |log| && MeterTo(log, n).lawful
    ensures Charged(MeterTo(log, n))
  {
    var holds := (m: Meter, k: int) => m.lawful ==> Charged(m);
    FoldInvariant(NO_METER, MeterEvent, log, 0, n, holds);
  }

  lemma HeadroomCoversTheResumed(entry: Entry, m: Meter, used: Usage, limits: Limits)
    requires !Spent(used, limits) && Charged(m)
    requires used == LedgerAfter(entry, m)
    ensures limits.steps.Some? ==> entry.used.steps + m.llmResumed < limits.steps.value
    ensures limits.tokens.Some? ==> entry.used.tokens + m.llmTokens < limits.tokens.value
  {}

  /** The ledger as it was before event `n`: what it read at entry and everybody's charges since. */
  lemma PassesReadTheLedger<S(!new)>(live: Live<S>, ctx: RunContext, entry: Entry, unsettled: multiset<Key>,
                                     phase: Phase, c: nat)
    requires Driving(live, ctx, entry, unsettled, phase) && c < |live.log| && live.log[c].Considered?
    ensures live.log[c].used == LedgerAfter(entry, MeterTo(live.log, c)) && live.log[c].limits == ctx.ledger.limits
    ensures live.log[c].pending == AgendaTo(live.log, c).asked
  {
    DrivesAreLawful(live, ctx, entry, unsettled, phase);
    assert ConsultedAt(live.log, c, entry, ctx.ledger.limits);
    AgendaLawfulUpTo(live.log, |live.log|, c + 1);
    assert AgendaTo(live.log, c + 1) == AgendaEvent(AgendaTo(live.log, c), live.log[c]);
    PassesSeeWhatIsAsked(AgendaTo(live.log, c), live.log[c]);
  }

  lemma PassesSeeWhatIsAsked(o: Agenda, e: Event)
    requires e.Considered? && AgendaEvent(o, e).lawful
    ensures e.pending == o.asked
  {}

  /**
   No batch with a model request anywhere in it starts once the ledger has no
   headroom: it follows a reading of this ledger as it was at that moment,
   everybody's charges included, that was below every limit and left room beyond
   every model answer fed back by then.
  */
  lemma NoModelWorkOnASpentLedger<S(!new)>(live: Live<S>, ctx: RunContext, entry: Entry, unsettled: multiset<Key>,
                                          phase: Phase, j: nat)
    requires Driving(live, ctx, entry, unsettled, phase)
    requires j < |live.log| && live.log[j].BatchStarted?
    requires exists i :: 0 <= i < |live.log[j].batch| && live.log[j].batch[i].kind.NeedLlm?
    ensures j > 0 && live.log[j - 1].Considered? && live.log[j - 1].pending == live.log[j].batch
    ensures live.log[j - 1].used == LedgerAfter(entry, MeterTo(live.log, j - 1))
    ensures var used, limits := live.log[j - 1].used, ctx.ledger.limits;
            && (limits.steps.Some? ==> used.steps < limits.steps.value)
            && (limits.tokens.Some? ==> used.tokens < limits.tokens.value)
            && (limits.cost.Some? ==> used.cost < limits.cost.value)
    ensures var limits := ctx.ledger.limits;
            && (limits.steps.Some? ==>
                  entry.used.steps + ModelAnswersFed(live.log, j - 1) < limits.steps.value)
            && (limits.tokens.Some? ==>
                  entry.used.tokens + ModelTokensFed(live.log, j - 1) < limits.tokens.value)
  {
    DrivesAreLawful(live, ctx, entry, unsettled, phase);
    assert NeedsModel(live.log[j].batch);
    BatchesAreConsidered(live.log, j);
    PassesReadTheLedger(live, ctx, entry, unsettled, phase, j - 1);
    BatchStartsExactlyWhen(live.log, j - 1);
    MeterLawfulUpTo(live.log, |live.log|, j - 1);
    ResumedWasCharged(live.log, j - 1);
    HeadroomCoversTheResumed(entry, MeterTo(live.log, j - 1), live.log[j - 1].used, ctx.ledger.limits);
    MeterCountsModelAnswers(live.log, j - 1);
  }

  /** The first interrupt after the failure, with nothing but never-resumed records in between. */
  ghost predicate StopsAfter(log: seq<Event>, c: int, i: int) {
    && 0 <= c < i < |log| && log[i].Interrupted?
    && forall k :: c < k < i ==> log[k].Settled? && log[k].disposition.NeverResumed?
  }

  /**
   What one pass of the checks decides, in every drive. With work pending and the
   token down a batch of all that work starts, unless some request in it, at any
   place, is for a model and the ledger is at or over one of its limits; then the
   machine is interrupted. So work without a model starts on a spent ledger too.
  */
  lemma PassesDecideExactly<S(!new)>(live: Live<S>, ctx: RunContext, entry: Entry, unsettled: multiset<Key>,
                                     phase: Phase, c: nat)
    requires Driving(live, ctx, entry, unsettled, phase) && !phase.Halting?
    requires c < |live.log| && live.log[c].Considered?
    ensures var pending, used, limits := live.log[c].pending, live.log[c].used, ctx.ledger.limits;
            var model := exists i :: 0 <= i < |pending| && pending[i].kind.NeedLlm?;
            var spent := || (limits.steps.Some? && used.steps >= limits.steps.value)
                         || (limits.tokens.Some? && used.tokens >= limits.tokens.value)
                         || (limits.cost.Some? && used.cost >= limits.cost.value);
            var flipped := exists k :: 0 <= k < c && live.log[k].TokenFlipped?;
            var starts := c + 1 < |live.log| && live.log[c + 1].BatchStarted?;
            && (starts <==> pending != [] && !flipped && !(model && spent))
            && (starts ==> live.log[c + 1].batch == pending)
            && (!flipped && model && spent ==> exists i :: StopsAfter(live.log, c, i))
  {
    DrivesAreLawful(live, ctx, entry, unsettled, phase);
    PassesReadTheLedger(live, ctx, entry, unsettled, phase, c);
    BatchStartsExactlyWhen(live.log, c);
    assert StartsNext(live.log, c) <==> c + 1 < |live.log| && live.log[c + 1].BatchStarted?;
    if Fails(live.log[c], FlippedBefore(live.log, c)) {
      assert FailsAt(live.log, c);
      EveryFailureStops(live.log, c);
      var i :| Answers(live.log, c, i);
      assert forall k :: c < k < i ==> IsNever(live.log[k]);
      assert StopsAfter(live.log, c, i);
    }
  }

  /** At `c` this ledger, as it was then, refused a charge or had no headroom for a model. */
  ghost predicate LedgerFailed(log: seq<Event>, c: int, entry: Entry, limits: Limits) {
    && FailsAt(log, c) && log[c].limits == limits && log[c].used == LedgerAfter(entry, MeterTo(log, c))
    && if log[c].ChargeRefused? then !Within(Plus(log[c].used, log[c].charge), limits)
       else NeedsModel(log[c].pending) && Spent(log[c].used, limits) && !FlippedBefore(log, c)
  }

  lemma RefusalsAreReal(log: seq<Event>, c: nat)
    requires StopsOf(log).lawful && c < |log| && log[c].ChargeRefused?
    ensures !Within(Plus(log[c].used, log[c].charge), log[c].limits)
  {
    StopsLawfulUpTo(log, |log|, c + 1);
    assert StopsTo(log, c + 1) == StopsEvent(StopsTo(log, c), log[c]);
    RefusedMeansOver(StopsTo(log, c), log[c]);
  }

  lemma RefusedMeansOver(o: Stops, e: Event)
    requires e.ChargeRefused? && StopsEvent(o, e).lawful
    ensures !Within(Plus(e.used, e.charge), e.limits)
  {}

  /**
   A drive interrupts its machine exactly when its budget failed: every interrupt
   answers a moment at which this ledger refused a charge or was spent before a
   batch that needs a model, and every such moment was answered by an interrupt.
  */
  lemma StopsExactlyWhenTheLedgerFails<S(!new)>(live: Live<S>, ctx: RunContext, entry: Entry, unsettled: multiset<Key>,
                                               phase: Phase)
    requires Driving(live, ctx, entry, unsettled, phase) && !phase.Halting?
    ensures forall i :: 0 <= i < |live.log| && live.log[i].Interrupted? ==>
              exists c :: Answers(live.log, c, i) && LedgerFailed(live.log, c, entry, ctx.ledger.limits)
    ensures forall c :: FailsAt(live.log, c) ==> exists i :: Answers(live.log, c, i)
  {
    DrivesAreLawful(live, ctx, entry, unsettled, phase);
    forall i | 0 <= i < |live.log| && live.log[i].Interrupted?
      ensures exists c :: Answers(live.log, c, i) && LedgerFailed(live.log, c, entry, ctx.ledger.limits)
    {
      EveryStopHasItsCause(live.log, i);
      var c :| Answers(live.log, c, i);
      assert ConsultedAt(live.log, c, entry, ctx.ledger.limits);
      if live.log[c].ChargeRefused? {
        RefusalsAreReal(live.log, c);
      }
      assert LedgerFailed(live.log, c, entry, ctx.ledger.limits);
    }
    forall c | FailsAt(live.log, c)
      ensures exists i :: Answers(live.log, c, i)
    {
      EveryFailureStops(live.log, c);
    }
  }

  // ----- the answers -----

  /**
   The result fed back at `j` is what the handler in scope `s`, the innermost with
   one, says to requirement `i` of the batch started at `b`; it was accepted, and
   recorded just before under that requirement's id and family at distance `s`.
  */
  ghost predicate AnsweredFrom(log: seq<Event>, j: int, b: int, i: int, s: int, chain: seq<Scope>, depth: nat) {
    && 0 <= b < j - 1 && j < |log| && log[b].BatchStarted? && 0 <= i < |log[b].batch| && 0 <= s < |chain|
    && IsResume(log[j]) && log[j - 1].Settled?
    && var req := log[b].batch[i];
       && HasHandler(chain[s], req.kind) && (forall k :: 0 <= k < s ==> !HasHandler(chain[k], req.kind))
       && (exists draw: nat :: log[j].input.result == Said(req, chain, s, depth, draw))
       && Accepts(req.kind, log[j].input.result).Ok? && log[j].input.id == req.id
       && log[j - 1].key == Key(req.id, KindTag(req.kind)) && log[j - 1].hops == s && log[j - 1].disposition.Resumed?
  }

  lemma AloneAsksTheInnermost(req: Requirement, chain: seq<Scope>, depth: nat, draw: nat, answer: Resolved)
    returns (s: nat)
    requires chain != [] && Alone(req, chain, depth, draw) == Ok(answer)
    ensures s < |chain| && HasHandler(chain[s], req.kind) && forall k :: 0 <= k < s ==> !HasHandler(chain[k], req.kind)
    ensures answer == Resolved(req.id, Said(req, chain, s, depth, draw), s) && Accepts(req.kind, answer.result).Ok?
  {
    RoutesToTheLeastScope(req, chain, depth, draw);
    forall k | 0 <= k < |chain|
      ensures HasHandler(chain[k], req.kind) <==> ScopeHandles(chain[k], KindTag(req.kind))
    {
      HandlersAreAdvertised(chain[k], req.kind);
    }
    s := LeastScope(chain, KindTag(req.kind)).value;
    AsksTheInnermostHandler(req, chain, depth, draw);
  }

  /**
   Whatever is fed back to the machine is what the innermost handler said to a
   requirement of a batch that was started, asked that requirement's own question;
   and its settlement shows the requirement and the distance of that handler.
  */
  lemma ResumesAreTheHandlersAnswers<S(!new)>(live: Live<S>, ctx: RunContext, entry: Entry, unsettled: multiset<Key>,
                                             phase: Phase, j: nat)
    requires Driving(live, ctx, entry, unsettled, phase) && j < |live.log| && IsResume(live.log[j]) && entry.chain != []
    ensures exists b, i, s :: AnsweredFrom(live.log, j, b, i, s, entry.chain, entry.depth)
  {
    DrivesAreLawful(live, ctx, entry, unsettled, phase);
    WhatIsFedBackWasAnswered(live.log, j);
    var open, b, k :| Feeds(live.log, j, open, b, k);
    assert GenuineAt(live.log, open, entry);
    var batch, answers := live.log[open].batch, live.log[open].answers;
    var taken, draws :| FulfilledAs(batch, answers, entry.chain, entry.depth, taken, draws);
    var i := taken[k];
    var s := AloneAsksTheInnermost(batch[i], entry.chain, entry.depth, draws[i], answers[k]);
    AcceptedResultsAreAligned(batch[i].kind, answers[k].result);
    assert AnsweredFrom(live.log, j, b, i, s, entry.chain, entry.depth);
  }

  /**
   What one resume loop feeds back is, in completion order, a first part of what
   the batch's requirements give alone; all of it unless a charge was refused.
  */
  lemma LoopsFeedTheBatch<S(!new)>(live: Live<S>, ctx: RunContext, entry: Entry, unsettled: multiset<Key>, phase: Phase,
                                  s: nat, n: nat)
    requires Driving(live, ctx, entry, unsettled, phase)
    requires s < n <= |live.log| && live.log[s].ResumesStarted? && NoLoopOpens(live.log, s + 1, n)
    ensures Fulfils(live.log[s].batch, live.log[s].answers, entry.chain, entry.depth)
    ensures FedBack(live.log, s, n) <= live.log[s].answers
    ensures LoopEnded(live.log, s, n) && !SomeRefusal(live.log, s + 1, n) ==>
              FedBack(live.log, s, n) == live.log[s].answers
  {
    DrivesAreLawful(live, ctx, entry, unsettled, phase);
    assert GenuineAt(live.log, s, entry);
    FedBackInOrder(live.log, s, n);
  }

  // ----- the trace -----

  /**
   Every settlement is a record of its own on the trace, with its family, distance
   and disposition; its node is the requirement's plain id or one of its numbered
   ids, and no node serves two settlements, even of one re-emitted id.
  */
  lemma EverySettlementIsOnTheTrace<S(!new)>(live: Live<S>, ctx: RunContext, entry: Entry, unsettled: multiset<Key>,
                                            phase: Phase, j: nat, k: nat)
    requires Driving(live, ctx, entry, unsettled, phase)
    requires j < |live.log| && k < |live.log| && live.log[j].Settled? && live.log[k].Settled?
    ensures var e := live.log[j];
            TraceRecord(e.node, e.key.tag, e.hops, e.disposition) in ctx.trace.records
    ensures var e := live.log[j];
            e.node == e.key.id.text
            || exists attempt :: attempt >= 2 && e.node == e.key.id.text + "#attempt-" + Decimal(attempt)
    ensures j != k ==> live.log[j].node != live.log[k].node
  {
    assert TracedAt(live.log, j, ctx.trace.records, ctx.trace.ids, entry.ids);
    var attempt :| IsNodeOf(live.log[j].node, live.log[j].key.id, attempt);
    NodeIdsAreNumbered(live.log[j].key.id.text, attempt);
    assert attempt >= 2 ==> live.log[j].node == live.log[j].key.id.text + "#attempt-" + Decimal(attempt);
    assert j < k ==> NodesDiffer(live.log, j, k);
    assert k < j ==> NodesDiffer(live.log, k, j);
  }
}
