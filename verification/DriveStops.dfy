/**
 A fifth reading of a drive's log: when the budget stops it, and what may be given
 up (src/agent/drive.rs, `budget_precheck_exhausted`, `settle_budget_exhausted`,
 `settle_cancelled`).
*/
module DriveStops {
  import opened Wrappers
  import opened Effects
  import opened Trace
  import opened Budget
  import opened DriveLog

  datatype Stops = Stops(
    flipped: bool,
    looping: bool,
    due: bool,                        // the budget failed and the machine is not interrupted yet
    giving: Option<RequirementId>,    // recorded after the flip, not abandoned yet
    lawful: bool
  )

  const NO_STOPS := Stops(false, false, false, None, true)

  predicate IsNever(e: Event) {
    e.Settled? && e.disposition.NeverResumed?
  }

  predicate IsAbandon(e: Event) {
    e.Stepped? && e.input.Abandon?
  }

  /** The two ways the budget fails: a refused charge, or the preflight of a batch that needs a model. */
  predicate Fails(e: Event, flipped: bool) {
    || e.ChargeRefused?
    || (e.Considered? && !flipped && NeedsModel(e.pending) && Spent(e.used, e.limits))
  }

  function Seen(o: Stops, e: Event): Stops {
    match e
    case ResumesStarted(_, _) => o.(looping := true)
    case ResumesEnded => o.(looping := false)
    case TokenFlipped => o.(flipped := true)
    case ChargeRefused(charge, used, limits) =>
      o.(lawful := o.lawful && o.looping && !Within(Plus(used, charge), limits))
    case _ => o
  }

  /**
   Once the budget failed only never-resumed records may come before the
   interrupt. Without that a requirement is given up only after the flip and
   outside a resume loop, and then it is abandoned at once.
  */
  function StopsEvent(o: Stops, e: Event): Stops {
    if e.Interrupted? then o.(due := false, lawful := o.lawful && o.due && o.giving.None?)
    else if IsNever(e) then
      if o.due then o
      else o.(giving := Some(e.key.id), lawful := o.lawful && o.flipped && !o.looping && o.giving.None?)
    else if IsAbandon(e) then
      o.(due := false, giving := None, lawful := o.lawful && !o.due && o.giving == Some(e.input.abandoned))
    else Seen(o.(due := Fails(e, o.flipped), lawful := o.lawful && !o.due && o.giving.None?), e)
  }

  function StopsTo(log: seq<Event>, n: nat): Stops
    requires n <= |log|
  {
    Fold(NO_STOPS, StopsEvent, log, n)
  }

  function StopsOf(log: seq<Event>): Stops { StopsTo(log, |log|) }

  lemma StopsSnoc(log: seq<Event>, e: Event)
    ensures StopsOf(log + [e]) == StopsEvent(StopsOf(log), e)
  {
    FoldSnoc(NO_STOPS, StopsEvent, log, e);
  }

  lemma StopsLawfulUpTo(log: seq<Event>, n: nat, k: nat)
    requires k <= n <= |log| && StopsTo(log, n).lawful
    ensures StopsTo(log, k).lawful
  {
    forall o: Stops, e: Event
      ensures StopsEvent(o, e).lawful ==> o.lawful
    {}
    FoldLawfulUpTo(NO_STOPS, StopsEvent, log, n, k, (o: Stops) => o.lawful);
  }

  // ----- the effect of one event -----

  lemma FlippedMoves(o: Stops, e: Event)
    ensures StopsEvent(o, e).flipped <==> o.flipped || e.TokenFlipped?
  {}

  lemma LoopingMoves(o: Stops, e: Event)
    ensures StopsEvent(o, e).looping <==> e.ResumesStarted? || (o.looping && !e.ResumesEnded?)
  {}

  lemma DueMoves(o: Stops, e: Event)
    ensures StopsEvent(o, e).due <==> Fails(e, o.flipped) || (o.due && IsNever(e))
  {}

  // ----- causes and stops -----

  ghost predicate FailsAt(log: seq<Event>, c: int) {
    0 <= c < |log| && Fails(log[c], FlippedBefore(log, c))
  }

  ghost predicate OnlyNever(log: seq<Event>, from: int, n: int) {
    0 <= from && n <= |log| && forall k :: from <= k < n ==> IsNever(log[k])
  }

  /** The failure at `c` is not answered by an interrupt among the first `n` events. */
  ghost predicate Unanswered(log: seq<Event>, n: int, c: int) {
    0 <= c < n <= |log| && FailsAt(log, c) && OnlyNever(log, c + 1, n)
  }

  ghost predicate SomeUnanswered(log: seq<Event>, n: int) {
    exists c :: Unanswered(log, n, c)
  }

  /** The interrupt at `i` answers the failure at `c`: nothing but never-resumed records lies between. */
  ghost predicate Answers(log: seq<Event>, c: int, i: int) {
    0 <= i < |log| && log[i].Interrupted? && Unanswered(log, i, c)
  }

  lemma SomeUnansweredNext(log: seq<Event>, n: nat)
    requires n < |log|
    ensures SomeUnanswered(log, n + 1) <==> FailsAt(log, n) || (SomeUnanswered(log, n) && IsNever(log[n]))
  {
    if FailsAt(log, n) {
      assert Unanswered(log, n + 1, n);
    }
    if SomeUnanswered(log, n) && IsNever(log[n]) {
      var c :| Unanswered(log, n, c);
      assert Unanswered(log, n + 1, c);
    }
    if SomeUnanswered(log, n + 1) {
      var c :| Unanswered(log, n + 1, c);
      assert c < n ==> Unanswered(log, n, c) && IsNever(log[n]);
    }
  }

  lemma DueMeansUnanswered(log: seq<Event>, n: nat)
    requires n <= |log|
    ensures StopsTo(log, n).flipped <==> FlippedBefore(log, n)
    ensures StopsTo(log, n).due <==> SomeUnanswered(log, n)
  {
    var holds := (o: Stops, k: int) =>
      0 <= k <= |log| && (o.flipped <==> FlippedBefore(log, k)) && (o.due <==> SomeUnanswered(log, k));
    forall o: Stops, k | 0 <= k < |log| && holds(o, k)
      ensures holds(StopsEvent(o, log[k]), k + 1)
    {
      FlippedMoves(o, log[k]);
      FlippedBeforeNext(log, k);
      DueMoves(o, log[k]);
      SomeUnansweredNext(log, k);
    }
    assert !FlippedBefore(log, 0) && !SomeUnanswered(log, 0);
    FoldInvariant(NO_STOPS, StopsEvent, log, 0, n, holds);
  }

  /** The machine is interrupted only because the budget failed. */
  lemma EveryStopHasItsCause(log: seq<Event>, i: nat)
    requires StopsOf(log).lawful && i < |log| && log[i].Interrupted?
    ensures exists c :: Answers(log, c, i)
  {
    StopsLawfulUpTo(log, |log|, i + 1);
    assert StopsTo(log, i + 1) == StopsEvent(StopsTo(log, i), log[i]);
    DueMeansUnanswered(log, i);
    var c :| Unanswered(log, i, c);
    assert Answers(log, c, i);
  }

  lemma DueIsAnswered(o: Stops, e: Event)
    requires o.due && StopsEvent(o, e).lawful
    ensures o.lawful && (IsNever(e) || e.Interrupted?)
    ensures IsNever(e) ==> StopsEvent(o, e).due
  {}

  /** The failure at `c` was answered among the first `n` events. */
  ghost predicate AnsweredBy(log: seq<Event>, c: int, n: int) {
    exists i :: i < n && Answers(log, c, i)
  }

  lemma AnsweredNext(log: seq<Event>, c: int, o: Stops, k: nat)
    requires c < k < |log| && FailsAt(log, c) && StopsEvent(o, log[k]).lawful
    requires (o.due && OnlyNever(log, c + 1, k)) || AnsweredBy(log, c, k)
    ensures (StopsEvent(o, log[k]).due && OnlyNever(log, c + 1, k + 1)) || AnsweredBy(log, c, k + 1)
  {
    if AnsweredBy(log, c, k) {
      var i :| i < k && Answers(log, c, i);
      assert i < k + 1 && Answers(log, c, i);
    } else {
      DueIsAnswered(o, log[k]);
      if log[k].Interrupted? {
        assert k < k + 1 && Answers(log, c, k);
      }
    }
  }

  /** Whenever the budget failed the machine was interrupted, after never-resumed records alone. */
  lemma EveryFailureStops(log: seq<Event>, c: nat)
    requires StopsOf(log).lawful && !StopsOf(log).due && FailsAt(log, c)
    ensures exists i :: Answers(log, c, i)
  {
    var holds := (o: Stops, k: int) =>
      c < k <= |log| && (o.lawful ==> (o.due && OnlyNever(log, c + 1, k)) || AnsweredBy(log, c, k));
    forall o: Stops, k | c + 1 <= k < |log| && holds(o, k)
      ensures holds(StopsEvent(o, log[k]), k + 1)
    {
      if StopsEvent(o, log[k]).lawful {
        StopsNeverForgive(o, log[k]);
        AnsweredNext(log, c, o, k);
      }
    }
    DueMeansUnanswered(log, c);
    DueMoves(StopsTo(log, c), log[c]);
    assert StopsTo(log, c + 1) == StopsEvent(StopsTo(log, c), log[c]);
    assert StopsTo(log, c + 1).due;
    assert OnlyNever(log, c + 1, c + 1);
    assert holds(StopsTo(log, c + 1), c + 1);
    FoldInvariant(NO_STOPS, StopsEvent, log, c + 1, |log|, holds);
  }

  lemma StopsNeverForgive(o: Stops, e: Event)
    requires StopsEvent(o, e).lawful
    ensures o.lawful
  {}

  /**
   The machine is interrupted if and only if the budget failed: a charge was
   refused inside a resume loop, or a pass of the checks found the ledger spent
   before a batch that needs a model.
  */
  lemma InterruptsExactlyWhen(log: seq<Event>)
    requires StopsOf(log).lawful && !StopsOf(log).due
    ensures (exists i :: 0 <= i < |log| && log[i].Interrupted?) <==> (exists c :: FailsAt(log, c))
  {
    if i :| 0 <= i < |log| && log[i].Interrupted? {
      EveryStopHasItsCause(log, i);
    }
    if c :| FailsAt(log, c) {
      EveryFailureStops(log, c);
    }
  }

  // ----- what is given up -----

  lemma NeverHasAReason(o: Stops, e: Event)
    requires IsNever(e) && StopsEvent(o, e).lawful && !o.due
    ensures o.flipped && !o.looping && StopsEvent(o, e).giving == Some(e.key.id) && !StopsEvent(o, e).due
  {}

  lemma GivingIsAbandoned(o: Stops, e: Event)
    requires o.giving.Some? && !o.due && StopsEvent(o, e).lawful
    ensures IsAbandon(e) && e.input.abandoned == o.giving.value
  {}

  /**
   A requirement is recorded as never resumed only on the way to a budget stop,
   or after the flip, and then the machine is told at once to abandon it.
  */
  lemma GivenUpExactlyWhen(log: seq<Event>, k: nat)
    requires StopsOf(log).lawful && StopsOf(log).giving.None? && k < |log| && IsNever(log[k])
    ensures !SomeUnanswered(log, k) ==>
              && FlippedBefore(log, k)
              && k + 1 < |log| && IsAbandon(log[k + 1]) && log[k + 1].input.abandoned == log[k].key.id
  {
    DueMeansUnanswered(log, k);
    if !SomeUnanswered(log, k) {
      StopsLawfulUpTo(log, |log|, k + 1);
      var o := StopsTo(log, k + 1);
      assert o == StopsEvent(StopsTo(log, k), log[k]);
      NeverHasAReason(StopsTo(log, k), log[k]);
      if k + 1 < |log| {
        StopsLawfulUpTo(log, |log|, k + 2);
        assert StopsTo(log, k + 2) == StopsEvent(o, log[k + 1]);
        GivingIsAbandoned(o, log[k + 1]);
      }
    }
  }
}
