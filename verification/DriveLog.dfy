/**
 What one drive does, as a log of events, and three readings of a log that say
 whether it is lawful: the tally (settle exactly once), the watch (stop after
 cancellation) and the meter (charge before resume).
*/
module DriveLog {
  import opened Wrappers
  import opened Effects
  import opened Trace
  import opened Budget
  import opened Batch

  /** The identity a settlement is recorded under. */
  datatype Key = Key(id: RequirementId, tag: Tag)

  function KeyOf(req: Requirement): Key {
    Key(req.id, KindTag(req.kind))
  }

  function KeyOfResolved(resolved: Resolved): Key {
    Key(resolved.id, ResultTag(resolved.result))
  }

  datatype StepInput =
    | External(message: nat)
    | Resume(id: RequirementId, result: RequirementResult)
    | Abandon(abandoned: RequirementId)

  datatype Event =
    | Stepped(input: StepInput, emitted: seq<Requirement>)
    | Interrupted(emitted: seq<Requirement>)
    | Settled(key: Key, hops: nat, disposition: Disposition, node: string)
    | Considered(pending: seq<Requirement>, used: Usage, limits: Limits)  // the loop's checks and the ledger they read
    | BatchStarted(batch: seq<Requirement>)
    | ResumesStarted(batch: seq<Requirement>, answers: seq<Resolved>)
    | ResumesEnded
    | StepCharged
    | TokensCharged(charged: nat)
    | ChargeRefused(charge: Usage, used: Usage, limits: Limits)
    | OthersCharged(usage: Usage)
    | TokenFlipped

  function Keys(reqs: seq<Requirement>): (keys: seq<Key>)
    ensures |keys| == |reqs| && forall i :: 0 <= i < |reqs| ==> keys[i] == KeyOf(reqs[i])
  {
    seq(|reqs|, i requires 0 <= i < |reqs| => KeyOf(reqs[i]))
  }

  function KeysOf(reqs: seq<Requirement>): multiset<Key> {
    multiset(Keys(reqs))
  }

  lemma KeysOfConcat(a: seq<Requirement>, b: seq<Requirement>)
    ensures KeysOf(a + b) == KeysOf(a) + KeysOf(b)
  {
    assert Keys(a + b) == Keys(a) + Keys(b);
  }

  function ResolvedKeys(resolutions: seq<Resolved>): (keys: seq<Key>)
    ensures |keys| == |resolutions|
    ensures forall i :: 0 <= i < |resolutions| ==> keys[i] == KeyOfResolved(resolutions[i])
  {
    seq(|resolutions|, i requires 0 <= i < |resolutions| => KeyOfResolved(resolutions[i]))
  }

  /** Only a model's answer is charged for. */
  predicate NeedsCharge(result: RequirementResult) {
    result.Llm? && result.llm.Ok?
  }

  /** Some requirement of the batch would start budgeted model work. */
  predicate NeedsModel(batch: seq<Requirement>) {
    exists i :: 0 <= i < |batch| && batch[i].kind.NeedLlm?
  }

  // ----- readings of a log -----

  /** A reading: one state, moved by one event at a time. */
  function Fold<O>(start: O, move: (O, Event) -> O, log: seq<Event>, n: nat): O
    requires n <= |log|
  {
    if n == 0 then start else move(Fold(start, move, log, n - 1), log[n - 1])
  }

  /** What holds after `from` events and survives each later one holds of every later state. */
  lemma {:induction false} FoldInvariant<O(!new)>(start: O, move: (O, Event) -> O, log: seq<Event>, from: nat, n: nat,
                                                 holds: (O, int) -> bool)
    requires from <= n <= |log| && holds(Fold(start, move, log, from), from)
    requires forall o, k :: from <= k < |log| && holds(o, k) ==> holds(move(o, log[k]), k + 1)
    ensures holds(Fold(start, move, log, n), n)
    decreases n
  {
    if from < n {
      FoldInvariant(start, move, log, from, n - 1, holds);
      var o := Fold(start, move, log, n - 1);
      assert holds(move(o, log[n - 1]), n - 1 + 1);
    }
  }

  /** A fault no event takes back was not there earlier if it is not there now. */
  lemma {:induction false} FoldLawfulUpTo<O(!new)>(start: O, move: (O, Event) -> O, log: seq<Event>, n: nat, k: nat,
                                                  lawful: O -> bool)
    requires k <= n <= |log| && lawful(Fold(start, move, log, n))
    requires forall o, e :: lawful(move(o, e)) ==> lawful(o)
    ensures lawful(Fold(start, move, log, k))
    decreases n
  {
    if k < n {
      assert lawful(move(Fold(start, move, log, n - 1), log[n - 1]));
      FoldLawfulUpTo(start, move, log, n - 1, k, lawful);
    }
  }

  lemma {:induction false} FoldSame<O>(start: O, move: (O, Event) -> O, log: seq<Event>, e: Event, n: nat)
    requires n <= |log|
    ensures Fold(start, move, log + [e], n) == Fold(start, move, log, n)
  {
    if n > 0 {
      FoldSame(start, move, log, e, n - 1);
      assert (log + [e])[n - 1] == log[n - 1];
    }
  }

  /** One more event moves a reading by that event alone. */
  lemma FoldSnoc<O>(start: O, move: (O, Event) -> O, log: seq<Event>, e: Event)
    ensures Fold(start, move, log + [e], |log + [e]|) == move(Fold(start, move, log, |log|), e)
  {
    FoldSame(start, move, log, e, |log|);
    var longer := log + [e];
    assert |longer| == |log| + 1 && longer[|log|] == e;
  }

  // ----- the machine as a reading -----

  /** A machine as a pure step function over its own state. */
  datatype Machine<!S> = Machine(
    step: (S, StepInput) -> (S, seq<Requirement>),
    interrupt: S -> (S, seq<Requirement>),
    terminal: S -> bool
  )

  function MachineStep<S>(m: Machine<S>, s: S, e: Event): S {
    match e
    case Stepped(input, _) => m.step(s, input).0
    case Interrupted(_) => m.interrupt(s).0
    case _ => s
  }

  function MovesOf<S>(m: Machine<S>): (S, Event) -> S {
    (s: S, e: Event) => MachineStep(m, s, e)
  }

  /** The machine state after the first `n` events. */
  function StateAt<S>(m: Machine<S>, start: S, log: seq<Event>, n: nat): S
    requires n <= |log|
  {
    Fold(start, MovesOf(m), log, n)
  }

  function StateAfter<S>(m: Machine<S>, start: S, log: seq<Event>): S {
    StateAt(m, start, log, |log|)
  }

  /** The event reports what the machine really handed back. */
  predicate Honest<S>(m: Machine<S>, s: S, e: Event) {
    match e
    case Stepped(input, emitted) => emitted == m.step(s, input).1
    case Interrupted(emitted) => emitted == m.interrupt(s).1
    case _ => true
  }

  ghost predicate Replays<S>(m: Machine<S>, start: S, log: seq<Event>) {
    forall k {:trigger StateAt(m, start, log, k)} :: 0 <= k < |log| ==> Honest(m, StateAt(m, start, log, k), log[k])
  }

  lemma SnocReplays<S>(m: Machine<S>, start: S, log: seq<Event>, e: Event)
    requires Replays(m, start, log) && Honest(m, StateAfter(m, start, log), e)
    ensures Replays(m, start, log + [e])
    ensures StateAfter(m, start, log + [e]) == MachineStep(m, StateAfter(m, start, log), e)
  {
    forall k | 0 <= k < |log + [e]|
      ensures Honest(m, StateAt(m, start, log + [e], k), (log + [e])[k])
    {
      FoldSame(start, MovesOf(m), log, e, k);
      assert StateAt(m, start, log + [e], k) == StateAt(m, start, log, k);
    }
    FoldSnoc(start, MovesOf(m), log, e);
  }

  // ----- the tally: what was emitted, settled and fed back -----

  datatype Tally = Tally(
    emitted: multiset<Key>,      // by the opening step and by resumes
    dropped: multiset<Key>,      // by steps that only close the turn
    resumed: multiset<Key>,
    never: multiset<Key>,
    fed: multiset<Key>,
    begun: bool,
    awaiting: Option<Key>,       // settled as resumed, not fed back yet
    lawful: bool
  )

  const NO_TALLY := Tally(multiset{}, multiset{}, multiset{}, multiset{}, multiset{}, false, None, true)

  function CountStep(o: Tally, input: StepInput, emitted: multiset<Key>): Tally {
    match input
    case External(_) =>
      o.(emitted := o.emitted + emitted, begun := true, lawful := o.lawful && !o.begun)
    case Resume(id, result) =>
      var key := Key(id, ResultTag(result));
      o.(emitted := o.emitted + emitted, fed := o.fed + multiset{key}, awaiting := None,
         lawful := o.lawful && o.awaiting == Some(key))
    case Abandon(_) => o.(dropped := o.dropped + emitted)
  }

  function CountEvent(o: Tally, e: Event): Tally {
    match e
    case Stepped(input, emitted) => CountStep(o, input, KeysOf(emitted))
    case Interrupted(emitted) => o.(dropped := o.dropped + KeysOf(emitted))
    case Settled(key, _, Resumed, _) =>
      o.(resumed := o.resumed + multiset{key}, awaiting := Some(key), lawful := o.lawful && o.awaiting.None?)
    case Settled(key, _, NeverResumed, _) =>
      o.(never := o.never + multiset{key}, lawful := o.lawful && o.awaiting.None?)
    case _ => o
  }

  function TallyTo(log: seq<Event>, n: nat): Tally
    requires n <= |log|
  {
    Fold(NO_TALLY, CountEvent, log, n)
  }

  // ----- the watch: where the token flipped, and what came after -----

  datatype Watch = Watch(
    flipped: bool,
    resuming: bool,
    late: bool,                  // the token flipped inside this resume loop
    inBatch: bool,               // a batch was started and is not being fed back
    struck: bool,                // the token flipped while a batch was in flight
    lawful: bool
  )

  const NO_WATCH := Watch(false, false, false, false, false, true)

  function WatchEvent(o: Watch, e: Event): Watch {
    match e
    case Stepped(Resume(_, _), _) => o.(lawful := o.lawful && o.resuming && (o.flipped ==> o.late))
    case Stepped(Abandon(_), _) => o.(lawful := o.lawful && o.flipped && !o.resuming)
    case Interrupted(_) => o.(lawful := o.lawful && (o.flipped ==> o.late))
    case Settled(_, _, Resumed, _) => o.(lawful := o.lawful && o.resuming)
    case BatchStarted(_) =>
      o.(inBatch := true, lawful := o.lawful && !o.flipped && !o.resuming && !o.inBatch)
    case ResumesStarted(_, _) =>
      o.(resuming := true, inBatch := false, lawful := o.lawful && !o.flipped && !o.resuming && o.inBatch)
    case ResumesEnded => o.(resuming := false, late := false)
    case TokenFlipped =>
      o.(flipped := true, late := o.resuming, struck := o.struck || o.inBatch, lawful := o.lawful && !o.flipped)
    case _ => o
  }

  function WatchTo(log: seq<Event>, n: nat): Watch
    requires n <= |log|
  {
    Fold(NO_WATCH, WatchEvent, log, n)
  }

  // ----- the meter: what was charged for what was resumed -----

  const ONE_STEP := Usage(1, 0, 0)

  datatype Meter = Meter(
    stepPaid: bool,
    tokensPaid: Option<nat>,
    llmResumed: nat,
    llmTokens: nat,
    steps: nat,                  // charged in all, resumed or not
    tokens: nat,
    others: Usage,               // charged by the other holders of the ledger
    lawful: bool
  )

  const NO_METER := Meter(false, None, 0, 0, 0, 0, Usage(0, 0, 0), true)

  predicate IsResume(e: Event) {
    e.Stepped? && e.input.Resume?
  }

  predicate LlmResume(e: Event) {
    IsResume(e) && NeedsCharge(e.input.result)
  }

  function TokensOf(e: Event): nat
    requires LlmResume(e)
  {
    e.input.result.llm.value.tokens
  }

  function MeterEvent(o: Meter, e: Event): Meter {
    if LlmResume(e) then
      Meter(false, None, o.llmResumed + 1, o.llmTokens + TokensOf(e), o.steps, o.tokens, o.others,
            o.lawful && o.stepPaid && o.tokensPaid == Some(TokensOf(e)))
    else if e.StepCharged? then o.(stepPaid := true, steps := o.steps + 1, lawful := o.lawful && !o.stepPaid)
    else if e.TokensCharged? then
      o.(tokensPaid := Some(e.charged), tokens := o.tokens + e.charged,
         lawful := o.lawful && o.stepPaid && o.tokensPaid.None?)
    else if e.ChargeRefused? then
      o.(lawful := o.lawful && o.tokensPaid.None? && (o.stepPaid <==> e.charge != ONE_STEP))
    else if e.OthersCharged? then o.(others := Plus(o.others, e.usage))
    else if e.Settled? && e.disposition.NeverResumed? then o.(stepPaid := false, tokensPaid := None)
    else o
  }

  function MeterTo(log: seq<Event>, n: nat): Meter
    requires n <= |log|
  {
    Fold(NO_METER, MeterEvent, log, n)
  }

  // ----- whole logs -----

  function TallyOf(log: seq<Event>): Tally { TallyTo(log, |log|) }
  function WatchOf(log: seq<Event>): Watch { WatchTo(log, |log|) }
  function MeterOf(log: seq<Event>): Meter { MeterTo(log, |log|) }

  predicate Lawful(log: seq<Event>) {
    TallyOf(log).lawful && WatchOf(log).lawful && MeterOf(log).lawful
  }

  /** One more event: every reading moves by that event alone. */
  lemma Snoc(log: seq<Event>, e: Event)
    ensures TallyOf(log + [e]) == CountEvent(TallyOf(log), e)
    ensures WatchOf(log + [e]) == WatchEvent(WatchOf(log), e)
    ensures MeterOf(log + [e]) == MeterEvent(MeterOf(log), e)
  {
    FoldSnoc(NO_TALLY, CountEvent, log, e);
    FoldSnoc(NO_WATCH, WatchEvent, log, e);
    FoldSnoc(NO_METER, MeterEvent, log, e);
  }

  // ----- what lawful means, event by event -----

  lemma NothingForgives()
    ensures forall o: Tally, e: Event :: CountEvent(o, e).lawful ==> o.lawful
    ensures forall o: Watch, e: Event :: WatchEvent(o, e).lawful ==> o.lawful
    ensures forall o: Meter, e: Event :: MeterEvent(o, e).lawful ==> o.lawful
  {}

  /** In a lawful log every event was allowed when it happened. */
  lemma LawfulAt(log: seq<Event>, j: nat)
    requires Lawful(log) && j < |log|
    ensures TallyTo(log, j).lawful && CountEvent(TallyTo(log, j), log[j]).lawful
    ensures WatchTo(log, j).lawful && WatchEvent(WatchTo(log, j), log[j]).lawful
    ensures MeterTo(log, j).lawful && MeterEvent(MeterTo(log, j), log[j]).lawful
  {
    NothingForgives();
    FoldLawfulUpTo(NO_TALLY, CountEvent, log, |log|, j + 1, (o: Tally) => o.lawful);
    FoldLawfulUpTo(NO_WATCH, WatchEvent, log, |log|, j + 1, (o: Watch) => o.lawful);
    FoldLawfulUpTo(NO_METER, MeterEvent, log, |log|, j + 1, (o: Meter) => o.lawful);
  }

  lemma MeterLawfulUpTo(log: seq<Event>, n: nat, k: nat)
    requires k <= n <= |log| && MeterTo(log, n).lawful
    ensures MeterTo(log, k).lawful
  {
    NothingForgives();
    FoldLawfulUpTo(NO_METER, MeterEvent, log, n, k, (o: Meter) => o.lawful);
  }

  ghost predicate FlippedBefore(log: seq<Event>, n: nat)
    requires n <= |log|
  {
    exists i :: 0 <= i < n && log[i].TokenFlipped?
  }

  lemma FlippedBeforeNext(log: seq<Event>, n: nat)
    requires n < |log|
    ensures FlippedBefore(log, n + 1) <==> FlippedBefore(log, n) || log[n].TokenFlipped?
  {}

  lemma OnlyAFlipFlips(o: Watch, e: Event)
    ensures WatchEvent(o, e).flipped <==> o.flipped || e.TokenFlipped?
  {}

  lemma FlippedMeansAFlip(log: seq<Event>, n: nat)
    requires n <= |log|
    ensures WatchTo(log, n).flipped <==> FlippedBefore(log, n)
  {
    var holds := (o: Watch, k: int) => 0 <= k <= |log| && (o.flipped <==> FlippedBefore(log, k));
    forall o: Watch, k | 0 <= k < |log| && holds(o, k)
      ensures holds(WatchEvent(o, log[k]), k + 1)
    {
      FlippedBeforeNext(log, k);
      OnlyAFlipFlips(o, log[k]);
    }
    assert !FlippedBefore(log, 0) && !NO_WATCH.flipped;
    FoldInvariant(NO_WATCH, WatchEvent, log, 0, n, holds);
  }

  ghost predicate NoLoopOpens(log: seq<Event>, from: nat, n: nat)
    requires n <= |log|
  {
    forall k :: from <= k < n ==> !log[k].ResumesStarted?
  }

  /** A resume loop that started at `s` and is still open after `n` events. */
  ghost predicate LoopOpen(log: seq<Event>, n: nat, s: int)
    requires n <= |log|
  {
    && 0 <= s < n && log[s].ResumesStarted?
    && forall k :: s < k < n ==> !log[k].ResumesEnded?
  }

  ghost predicate SomeLoopOpen(log: seq<Event>, n: nat)
    requires n <= |log|
  {
    exists s :: LoopOpen(log, n, s)
  }

  ghost predicate FlipInLoop(log: seq<Event>, n: nat, s: int, i: int)
    requires n <= |log|
  {
    LoopOpen(log, n, s) && s < i < n && log[i].TokenFlipped?
  }

  ghost predicate SomeFlipInLoop(log: seq<Event>, n: nat)
    requires n <= |log|
  {
    exists s, i :: FlipInLoop(log, n, s, i)
  }

  lemma SomeLoopOpenNext(log: seq<Event>, n: nat)
    requires n < |log| && (log[n].ResumesStarted? || (SomeLoopOpen(log, n) && !log[n].ResumesEnded?))
    ensures SomeLoopOpen(log, n + 1)
  {
    if log[n].ResumesStarted? {
      assert LoopOpen(log, n + 1, n);
    } else {
      var s :| LoopOpen(log, n, s);
      assert LoopOpen(log, n + 1, s);
    }
  }

  lemma SomeFlipInLoopNext(log: seq<Event>, n: nat)
    requires n < |log| && !log[n].ResumesEnded?
    requires SomeFlipInLoop(log, n) || (SomeLoopOpen(log, n) && log[n].TokenFlipped?)
    ensures SomeFlipInLoop(log, n + 1)
  {
    if SomeFlipInLoop(log, n) {
      var s, i :| FlipInLoop(log, n, s, i);
      assert FlipInLoop(log, n + 1, s, i);
    } else {
      var s :| LoopOpen(log, n, s);
      assert FlipInLoop(log, n + 1, s, n);
    }
  }

  lemma ResumingAndLate(o: Watch, e: Event)
    ensures WatchEvent(o, e).resuming <==> e.ResumesStarted? || (o.resuming && !e.ResumesEnded?)
    ensures WatchEvent(o, e).late ==> !e.ResumesEnded? && (o.late || (o.resuming && e.TokenFlipped?))
  {}

  lemma ResumingMeansAnOpenLoop(log: seq<Event>, n: nat)
    requires n <= |log|
    ensures WatchTo(log, n).resuming ==> SomeLoopOpen(log, n)
    ensures WatchTo(log, n).late ==> SomeFlipInLoop(log, n)
  {
    var holds := (o: Watch, k: int) =>
      0 <= k <= |log| && (o.resuming ==> SomeLoopOpen(log, k)) && (o.late ==> SomeFlipInLoop(log, k));
    forall o: Watch, k | 0 <= k < |log| && holds(o, k)
      ensures holds(WatchEvent(o, log[k]), k + 1)
    {
      ResumingAndLate(o, log[k]);
      if WatchEvent(o, log[k]).resuming {
        SomeLoopOpenNext(log, k);
      }
      if WatchEvent(o, log[k]).late {
        SomeFlipInLoopNext(log, k);
      }
    }
    FoldInvariant(NO_WATCH, WatchEvent, log, 0, n, holds);
  }

  /** The batch started at `b` is still in flight after `n` events. */
  ghost predicate InFlight(log: seq<Event>, n: nat, b: int)
    requires n <= |log|
  {
    && 0 <= b < n && log[b].BatchStarted?
    && forall k :: b < k < n ==> !log[k].ResumesStarted?
  }

  ghost predicate SomeInFlight(log: seq<Event>, n: nat)
    requires n <= |log|
  {
    exists b :: InFlight(log, n, b)
  }

  lemma SomeInFlightNext(log: seq<Event>, n: nat)
    requires n < |log|
    ensures SomeInFlight(log, n + 1) <==> log[n].BatchStarted? || (SomeInFlight(log, n) && !log[n].ResumesStarted?)
  {
    if log[n].BatchStarted? {
      assert InFlight(log, n + 1, n);
    }
    if SomeInFlight(log, n) && !log[n].ResumesStarted? {
      var b :| InFlight(log, n, b);
      assert InFlight(log, n + 1, b);
    }
    if SomeInFlight(log, n + 1) {
      var b :| InFlight(log, n + 1, b);
      assert b < n ==> InFlight(log, n, b) && !log[n].ResumesStarted?;
    }
  }

  ghost predicate FlippedInFlight(log: seq<Event>, i: int) {
    0 <= i < |log| && log[i].TokenFlipped? && SomeInFlight(log, i)
  }

  ghost predicate StruckBefore(log: seq<Event>, n: nat)
    requires n <= |log|
  {
    exists i :: i < n && FlippedInFlight(log, i)
  }

  lemma StruckBeforeNext(log: seq<Event>, n: nat)
    requires n < |log|
    ensures StruckBefore(log, n + 1) <==> StruckBefore(log, n) || FlippedInFlight(log, n)
  {}

  lemma InBatchAndStruck(o: Watch, e: Event)
    ensures WatchEvent(o, e).inBatch <==> e.BatchStarted? || (o.inBatch && !e.ResumesStarted?)
    ensures WatchEvent(o, e).struck <==> o.struck || (o.inBatch && e.TokenFlipped?)
  {}

  lemma BatchInFlight(log: seq<Event>, n: nat)
    requires n <= |log|
    ensures WatchTo(log, n).inBatch <==> SomeInFlight(log, n)
    ensures WatchTo(log, n).struck <==> StruckBefore(log, n)
  {
    var holds := (o: Watch, k: int) =>
      0 <= k <= |log| && (o.inBatch <==> SomeInFlight(log, k)) && (o.struck <==> StruckBefore(log, k));
    forall o: Watch, k | 0 <= k < |log| && holds(o, k)
      ensures holds(WatchEvent(o, log[k]), k + 1)
    {
      InBatchAndStruck(o, log[k]);
      SomeInFlightNext(log, k);
      StruckBeforeNext(log, k);
    }
    assert !SomeInFlight(log, 0) && !StruckBefore(log, 0);
    FoldInvariant(NO_WATCH, WatchEvent, log, 0, n, holds);
  }

  /** A log is struck exactly when the token flipped while a batch was in flight. */
  lemma StruckMeansFlippedInFlight(log: seq<Event>)
    ensures WatchOf(log).struck <==> exists i :: FlippedInFlight(log, i)
  {
    BatchInFlight(log, |log|);
  }

  /** Once the token has flipped no batch starts and no resume loop starts. */
  lemma NoBatchAfterFlip(log: seq<Event>, i: nat, j: nat)
    requires Lawful(log) && i < j < |log| && log[i].TokenFlipped?
    ensures !log[j].BatchStarted? && !log[j].ResumesStarted? && !log[j].TokenFlipped?
  {
    LawfulAt(log, j);
    FlippedMeansAFlip(log, j);
  }

  /**
   A resume, or a budget interrupt, after the flip belongs to a resume loop that
   was already running when the token flipped; so a batch in flight at the flip
   is never resumed.
  */
  lemma ResumeAfterFlipStartedBefore(log: seq<Event>, i: nat, j: nat)
    requires Lawful(log) && i < j < |log| && log[i].TokenFlipped?
    requires log[j].Interrupted? || IsResume(log[j])
    ensures exists s :: s < i && LoopOpen(log, j, s)
  {
    LawfulAt(log, j);
    FlippedMeansAFlip(log, j);
    ResumingMeansAnOpenLoop(log, j);
    var s, f :| FlipInLoop(log, j, s, f);
    if f < i {
      NoBatchAfterFlip(log, f, i);
    } else if i < f {
      NoBatchAfterFlip(log, i, f);
    }
  }

  /** Only a flipped token abandons anything. */
  lemma AbandonOnlyAfterFlip(log: seq<Event>, j: nat)
    requires Lawful(log) && j < |log| && log[j].Stepped? && log[j].input.Abandon?
    ensures exists i :: 0 <= i < j && log[i].TokenFlipped?
  {
    LawfulAt(log, j);
    FlippedMeansAFlip(log, j);
  }

  /** A step charge at `a` that no successful model resume before `n` has used up. */
  ghost predicate UnspentCharge(log: seq<Event>, n: nat, a: int)
    requires n <= |log|
  {
    && 0 <= a < n && log[a].StepCharged?
    && forall k :: a < k < n && IsResume(log[k]) ==> !(log[k].input.result.Llm? && log[k].input.result.llm.Ok?)
  }

  /** Tokens charged at `b` on top of the unspent step charge at `a`. */
  ghost predicate UnspentTokens(log: seq<Event>, n: nat, a: int, b: int, tokens: nat)
    requires n <= |log|
  {
    UnspentCharge(log, n, a) && a < b < n && log[b] == TokensCharged(tokens)
  }

  ghost predicate Backed(log: seq<Event>, n: nat, o: Meter)
    requires n <= |log|
  {
    && (o.stepPaid ==> exists a :: UnspentCharge(log, n, a))
    && (o.tokensPaid.Some? ==> exists a, b :: UnspentTokens(log, n, a, b, o.tokensPaid.value))
  }

  lemma BackedNext(log: seq<Event>, n: nat, o: Meter)
    requires n < |log| && Backed(log, n, o) && MeterEvent(o, log[n]).lawful
    ensures Backed(log, n + 1, MeterEvent(o, log[n]))
  {
    var e, more := log[n], MeterEvent(o, log[n]);
    if e.StepCharged? {
      assert UnspentCharge(log, n + 1, n);
    } else if more.stepPaid {
      var a :| UnspentCharge(log, n, a);
      assert UnspentCharge(log, n + 1, a);
      if e.TokensCharged? {
        assert UnspentTokens(log, n + 1, a, n, e.charged);
      }
    }
    if more.tokensPaid.Some? && !e.TokensCharged? {
      var a, b :| UnspentTokens(log, n, a, b, o.tokensPaid.value);
      assert UnspentTokens(log, n + 1, a, b, o.tokensPaid.value);
    }
  }

  /**
   Every successful model result that is resumed had its own step charged and
   then its own tokens, after the previous such resume.
  */
  lemma ResumedModelResultsWereCharged(log: seq<Event>, j: nat)
    requires Lawful(log) && j < |log| && log[j].Stepped? && log[j].input.Resume?
    requires log[j].input.result.Llm? && log[j].input.result.llm.Ok?
    ensures exists a, b :: UnspentTokens(log, j, a, b, log[j].input.result.llm.value.tokens)
  {
    LawfulAt(log, j);
    var holds := (o: Meter, k: int) => 0 <= k <= |log| && (o.lawful ==> Backed(log, k, o));
    forall o: Meter, k | 0 <= k < |log| && holds(o, k)
      ensures holds(MeterEvent(o, log[k]), k + 1)
    {
      NothingForgives();
      if MeterEvent(o, log[k]).lawful {
        BackedNext(log, k, o);
      }
    }
    FoldInvariant(NO_METER, MeterEvent, log, 0, j, holds);
  }

  // ----- machines whose closing steps emit nothing -----

  ghost predicate ClosesQuietly<S(!new)>(m: Machine<S>) {
    && (forall s, id :: m.step(s, Abandon(id)).1 == [])
    && (forall s :: m.interrupt(s).1 == [])
  }

  /** The event closes the turn rather than advancing it. */
  predicate Closes(e: Event) {
    e.Interrupted? || (e.Stepped? && e.input.Abandon?)
  }

  lemma QuietEventsDropNothing(o: Tally, e: Event)
    requires Closes(e) ==> e.emitted == []
    ensures CountEvent(o, e).dropped == o.dropped
  {
    if Closes(e) {
      assert KeysOf(e.emitted) == multiset{};
    }
  }

  lemma QuietMachinesDropNothing<S(!new)>(m: Machine<S>, start: S, log: seq<Event>, n: nat)
    requires ClosesQuietly(m) && Replays(m, start, log) && n <= |log|
    ensures TallyTo(log, n).dropped == multiset{}
  {
    var holds := (o: Tally, k: int) => o.dropped == multiset{};
    forall o: Tally, k | 0 <= k < |log| && holds(o, k)
      ensures holds(CountEvent(o, log[k]), k + 1)
    {
      assert Honest(m, StateAt(m, start, log, k), log[k]);
      QuietEventsDropNothing(o, log[k]);
    }
    FoldInvariant(NO_TALLY, CountEvent, log, 0, n, holds);
  }

  /** How often the event's own requirements carry the key. */
  function TimesIn(e: Event, key: Key): nat {
    if e.Stepped? || e.Interrupted? then KeysOf(e.emitted)[key] else 0
  }

  /** How often the machine emitted a requirement with this key in the first `n` events, by whatever step. */
  function TimesEmitted(log: seq<Event>, n: nat, key: Key): nat
    requires n <= |log|
  {
    if n == 0 then 0 else TimesEmitted(log, n - 1, key) + TimesIn(log[n - 1], key)
  }

  lemma EmittedGoesSomewhere(o: Tally, e: Event, key: Key)
    ensures CountEvent(o, e).emitted[key] + CountEvent(o, e).dropped[key]
            == o.emitted[key] + o.dropped[key] + TimesIn(e, key)
  {
    var more := CountEvent(o, e);
    if Closes(e) {
      assert more.emitted == o.emitted && more.dropped == o.dropped + KeysOf(e.emitted);
    } else if e.Stepped? {
      assert more.emitted == o.emitted + KeysOf(e.emitted) && more.dropped == o.dropped;
    } else {
      assert more.emitted == o.emitted && more.dropped == o.dropped;
    }
  }

  /** Key by key, what the machine emitted was either meant for driving or dropped. */
  lemma EmittedOrDropped(log: seq<Event>, n: nat, key: Key)
    requires n <= |log|
    ensures TimesEmitted(log, n, key) == TallyTo(log, n).emitted[key] + TallyTo(log, n).dropped[key]
  {
    var holds := (o: Tally, k: int) =>
      0 <= k <= |log| && TimesEmitted(log, k, key) == o.emitted[key] + o.dropped[key];
    forall o: Tally, k | 0 <= k < |log| && holds(o, k)
      ensures holds(CountEvent(o, log[k]), k + 1)
    {
      EmittedGoesSomewhere(o, log[k], key);
    }
    assert NO_TALLY.emitted == NO_TALLY.dropped == multiset{} && TimesEmitted(log, 0, key) == 0;
    FoldInvariant(NO_TALLY, CountEvent, log, 0, n, holds);
  }
}
