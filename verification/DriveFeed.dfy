/**
 A sixth reading of a drive's log: which answers a resume loop was opened with, and
 how far they were charged for, recorded and fed back (src/agent/drive.rs, `drain`).
*/
module DriveFeed {
  import opened Wrappers
  import opened Effects
  import opened Trace
  import opened Budget
  import opened Batch
  import opened DriveLog

  datatype Feed = Feed(
    batch: seq<Requirement>,     // the last one started
    answers: seq<Resolved>,      // in completion order
    done: nat,                   // answers settled so far
    looping: bool,
    announced: bool,             // recorded as resumed, not fed back yet
    stopped: bool,               // a charge was refused in this loop
    lawful: bool
  )

  const NO_FEED := Feed([], [], 0, false, false, false, true)

  predicate UpNext(o: Feed, key: Key) {
    o.looping && o.done < |o.answers| && key == KeyOfResolved(o.answers[o.done])
  }

  /** The charge is one of the two the next answer asks for. */
  predicate Bills(o: Feed, charge: Usage) {
    && o.looping && !o.stopped && o.done < |o.answers| && NeedsCharge(o.answers[o.done].result)
    && (charge == ONE_STEP || charge == Usage(0, o.answers[o.done].result.llm.value.tokens, 0))
  }

  /** Every answer is settled in its turn: resumed with its own result and hops, or after a refusal never. */
  predicate Allows(o: Feed, e: Event) {
    if o.announced then
      && IsResume(e) && o.looping && o.done < |o.answers|
      && e.input == Resume(o.answers[o.done].id, o.answers[o.done].result)
    else
      match e
      case BatchStarted(_) => !o.looping
      case ResumesStarted(batch, _) => !o.looping && batch == o.batch
      case ResumesEnded => o.looping && o.done == |o.answers|
      case StepCharged => Bills(o, ONE_STEP)
      case TokensCharged(tokens) => Bills(o, Usage(0, tokens, 0))
      case ChargeRefused(charge, _, _) => Bills(o, charge)
      case Settled(key, hops, Resumed, _) => !o.stopped && UpNext(o, key) && hops == o.answers[o.done].hops
      case Settled(key, _, NeverResumed, _) => o.looping ==> o.stopped && UpNext(o, key)
      case Interrupted(_) => o.looping ==> o.stopped && o.done == |o.answers|
      case Stepped(Resume(_, _), _) => false
      case _ => true
  }

  function Moved(o: Feed, e: Event): Feed {
    match e
    case BatchStarted(batch) => o.(batch := batch)
    case ResumesStarted(_, answers) =>
      o.(answers := answers, done := 0, looping := true, announced := false, stopped := false)
    case ResumesEnded => o.(looping := false)
    case ChargeRefused(_, _, _) => o.(stopped := true)
    case Settled(_, _, Resumed, _) => o.(announced := true)
    case Settled(_, _, NeverResumed, _) => if o.looping then o.(done := o.done + 1) else o
    case Stepped(Resume(_, _), _) => o.(announced := false, done := o.done + 1)
    case _ => o
  }

  function FeedEvent(o: Feed, e: Event): Feed {
    Moved(o, e).(lawful := o.lawful && Allows(o, e))
  }

  function FeedTo(log: seq<Event>, n: nat): Feed
    requires n <= |log|
  {
    Fold(NO_FEED, FeedEvent, log, n)
  }

  function FeedOf(log: seq<Event>): Feed { FeedTo(log, |log|) }

  lemma FeedSnoc(log: seq<Event>, e: Event)
    ensures FeedOf(log + [e]) == FeedEvent(FeedOf(log), e)
  {
    FoldSnoc(NO_FEED, FeedEvent, log, e);
  }

  lemma FeedLawfulUpTo(log: seq<Event>, n: nat, k: nat)
    requires k <= n <= |log| && FeedTo(log, n).lawful
    ensures FeedTo(log, k).lawful
  {
    forall o: Feed, e: Event
      ensures FeedEvent(o, e).lawful ==> o.lawful
    {}
    FoldLawfulUpTo(NO_FEED, FeedEvent, log, n, k, (o: Feed) => o.lawful);
  }

  // ----- what one loop fed back -----

  /** The result fed back at `j`, with the hop count recorded just before it. */
  function FedAt(log: seq<Event>, j: nat): Resolved
    requires j < |log| && IsResume(log[j])
  {
    Resolved(log[j].input.id, log[j].input.result, if j > 0 && log[j - 1].Settled? then log[j - 1].hops else 0)
  }

  /** The results fed back after event `s`, in order. */
  function FedBack(log: seq<Event>, s: nat, n: nat): seq<Resolved>
    requires s < n <= |log|
  {
    if n == s + 1 then []
    else if IsResume(log[n - 1]) then FedBack(log, s, n - 1) + [FedAt(log, n - 1)]
    else FedBack(log, s, n - 1)
  }

  predicate IsRefusal(e: Event) {
    e.ChargeRefused?
  }

  ghost predicate SomeRefusal(log: seq<Event>, from: nat, n: nat)
    requires n <= |log|
  {
    exists k :: from <= k < n && IsRefusal(log[k])
  }

  predicate IsAnnounced(o: Feed, e: Event) {
    && e.Settled? && e.disposition.Resumed? && o.done < |o.answers|
    && e.hops == o.answers[o.done].hops && e.key == KeyOfResolved(o.answers[o.done])
  }

  ghost predicate LoopEnded(log: seq<Event>, s: nat, n: nat)
    requires n <= |log|
  {
    exists k :: s < k < n && log[k].ResumesEnded?
  }

  /** How far the loop opened at `s` has come after `k` events. */
  ghost predicate InStep(log: seq<Event>, s: nat, k: nat, o: Feed)
    requires s < k <= |log| && log[s].ResumesStarted?
  {
    && o.answers == log[s].answers && o.done <= |o.answers|
    && FedBack(log, s, k) <= o.answers
    && (if o.stopped then SomeRefusal(log, s + 1, k) else FedBack(log, s, k) == o.answers[..o.done])
    && (o.announced ==> s + 1 < k && !o.stopped && IsAnnounced(o, log[k - 1]))
    && (LoopEnded(log, s, k) ==> !o.looping) && (!o.looping ==> o.done == |o.answers|)
  }

  lemma RefusalStays(log: seq<Event>, from: nat, k: nat)
    requires k < |log| && from <= k && (SomeRefusal(log, from, k) || IsRefusal(log[k]))
    ensures SomeRefusal(log, from, k + 1)
  {}

  lemma InStepNext(log: seq<Event>, s: nat, k: nat, o: Feed)
    requires s < k < |log| && log[s].ResumesStarted? && InStep(log, s, k, o)
    requires Allows(o, log[k]) && !log[k].ResumesStarted?
    ensures InStep(log, s, k + 1, FeedEvent(o, log[k]))
  {
    var e, more := log[k], FeedEvent(o, log[k]);
    if more.stopped {
      RefusalStays(log, s + 1, k);
    }
    if IsResume(e) {
      assert FedAt(log, k) == o.answers[o.done];
      assert o.answers[..o.done] + [o.answers[o.done]] == o.answers[..o.done + 1];
    }
  }

  lemma InStepAtTheStart(log: seq<Event>, s: nat)
    requires s < |log| && log[s].ResumesStarted?
    ensures InStep(log, s, s + 1, FeedEvent(FeedTo(log, s), log[s])) || !FeedTo(log, s + 1).lawful
  {}

  lemma LoopInStep(log: seq<Event>, s: nat, n: nat)
    requires s < n <= |log| && log[s].ResumesStarted? && NoLoopOpens(log, s + 1, n) && FeedTo(log, n).lawful
    ensures InStep(log, s, n, FeedTo(log, n))
  {
    var holds := (o: Feed, k: int) => s < k <= |log| && (k <= n && o.lawful ==> InStep(log, s, k, o));
    forall o: Feed, k | s + 1 <= k < |log| && holds(o, k)
      ensures holds(FeedEvent(o, log[k]), k + 1)
    {
      if k < n && FeedEvent(o, log[k]).lawful {
        InStepNext(log, s, k, o);
      }
    }
    InStepAtTheStart(log, s);
    FoldInvariant(NO_FEED, FeedEvent, log, s + 1, n, holds);
  }

  /**
   What a resume loop feeds back is what it was opened with, in that order, each
   result under the hop count recorded for it; all of it unless a charge was refused.
  */
  lemma FedBackInOrder(log: seq<Event>, s: nat, n: nat)
    requires s < n <= |log| && log[s].ResumesStarted? && NoLoopOpens(log, s + 1, n) && FeedOf(log).lawful
    ensures FedBack(log, s, n) <= log[s].answers
    ensures LoopEnded(log, s, n) && !SomeRefusal(log, s + 1, n) ==> FedBack(log, s, n) == log[s].answers
  {
    FeedLawfulUpTo(log, |log|, n);
    LoopInStep(log, s, n);
    var o := FeedTo(log, n);
    assert o.answers[..|o.answers|] == o.answers;
  }

  // ----- which loop, which batch -----

  ghost predicate LastLoop(log: seq<Event>, n: nat, s: int)
    requires n <= |log|
  {
    0 <= s < n && log[s].ResumesStarted? && NoLoopOpens(log, s + 1, n)
  }

  ghost predicate LastBatch(log: seq<Event>, n: nat, b: int, batch: seq<Requirement>)
    requires n <= |log|
  {
    0 <= b < n && log[b] == BatchStarted(batch) && forall k :: b < k < n ==> !log[k].BatchStarted?
  }

  ghost predicate SomeBatch(log: seq<Event>, n: nat, batch: seq<Requirement>)
    requires n <= |log|
  {
    exists b :: LastBatch(log, n, b, batch)
  }

  ghost predicate SomeLoop(log: seq<Event>, n: nat)
    requires n <= |log|
  {
    exists s :: LastLoop(log, n, s)
  }

  lemma SomeLoopNext(log: seq<Event>, k: nat)
    requires k < |log| && (SomeLoop(log, k) || log[k].ResumesStarted?)
    ensures SomeLoop(log, k + 1)
  {
    if log[k].ResumesStarted? {
      assert LastLoop(log, k + 1, k);
    } else {
      var s :| LastLoop(log, k, s);
      assert LastLoop(log, k + 1, s);
    }
  }

  lemma SomeBatchNext(log: seq<Event>, k: nat, batch: seq<Requirement>)
    requires k < |log| && (if log[k].BatchStarted? then batch == log[k].batch else SomeBatch(log, k, batch))
    ensures SomeBatch(log, k + 1, batch)
  {
    if log[k].BatchStarted? {
      assert LastBatch(log, k + 1, k, batch);
    } else {
      var b :| LastBatch(log, k, b, batch);
      assert LastBatch(log, k + 1, b, batch);
    }
  }

  lemma LoopAndBatchMove(o: Feed, e: Event)
    ensures FeedEvent(o, e).looping ==> o.looping || e.ResumesStarted?
    ensures FeedEvent(o, e).batch == if e.BatchStarted? then e.batch else o.batch
  {}

  lemma LoopingMeansALoop(log: seq<Event>, n: nat)
    requires n <= |log|
    ensures FeedTo(log, n).looping ==> SomeLoop(log, n)
    ensures SomeBatch(log, n, FeedTo(log, n).batch) || forall k :: 0 <= k < n ==> !log[k].BatchStarted?
  {
    var holds := (o: Feed, k: int) =>
      && 0 <= k <= |log| && (o.looping ==> SomeLoop(log, k))
      && (SomeBatch(log, k, o.batch) || forall j :: 0 <= j < k ==> !log[j].BatchStarted?);
    forall o: Feed, k | 0 <= k < |log| && holds(o, k)
      ensures holds(FeedEvent(o, log[k]), k + 1)
    {
      LoopAndBatchMove(o, log[k]);
      if FeedEvent(o, log[k]).looping {
        SomeLoopNext(log, k);
      }
      if log[k].BatchStarted? || SomeBatch(log, k, o.batch) {
        SomeBatchNext(log, k, FeedEvent(o, log[k]).batch);
      }
    }
    FoldInvariant(NO_FEED, FeedEvent, log, 0, n, holds);
  }

  /** The result fed back at `j` is answer `i` of the loop opened at `s`, over the batch started at `b`. */
  ghost predicate Feeds(log: seq<Event>, j: int, s: int, b: int, i: int) {
    && 0 <= b < s < j < |log| && IsResume(log[j]) && log[s].ResumesStarted? && 0 <= i < |log[s].answers|
    && LastBatch(log, s, b, log[s].batch) && LastLoop(log, j, s)
    && log[s].answers[i] == FedAt(log, j)
    && log[j - 1].Settled? && log[j - 1].disposition.Resumed? && log[j - 1].key == KeyOfResolved(FedAt(log, j))
  }

  /** A loop is over the batch that was started last. */
  lemma LoopIsOverTheLastBatch(log: seq<Event>, s: nat)
    requires s < |log| && Lawful(log) && FeedTo(log, s + 1).lawful && log[s].ResumesStarted?
    ensures SomeBatch(log, s, log[s].batch)
  {
    LawfulAt(log, s);
    BatchInFlight(log, s);
    var b :| InFlight(log, s, b);
    LoopingMeansALoop(log, s);
    LoopOpens(FeedTo(log, s), log[s]);
    assert FeedTo(log, s + 1) == FeedEvent(FeedTo(log, s), log[s]);
  }

  lemma LoopOpens(o: Feed, e: Event)
    requires e.ResumesStarted?
    ensures FeedEvent(o, e).lawful ==> e.batch == o.batch
  {}

  lemma OnlyAnnouncedIsFed(o: Feed, e: Event)
    requires IsResume(e) && FeedEvent(o, e).lawful
    ensures o.announced && o.looping && o.done < |o.answers|
    ensures e.input == Resume(o.answers[o.done].id, o.answers[o.done].result)
  {}

  /**
   Whatever is fed back is one of the answers its loop was opened with, its
   settlement is the event before and carries that answer's hop count, and the
   loop is over the batch that was started last.
  */
  lemma WhatIsFedBackWasAnswered(log: seq<Event>, j: nat)
    requires Lawful(log) && FeedOf(log).lawful && j < |log| && IsResume(log[j])
    ensures exists s, b, i :: Feeds(log, j, s, b, i)
  {
    FeedLawfulUpTo(log, |log|, j);
    FeedLawfulUpTo(log, |log|, j + 1);
    var o := FeedTo(log, j);
    assert FeedTo(log, j + 1) == FeedEvent(o, log[j]);
    OnlyAnnouncedIsFed(o, log[j]);
    LoopingMeansALoop(log, j);
    var s :| LastLoop(log, j, s);
    LoopInStep(log, s, j);
    FeedLawfulUpTo(log, |log|, s + 1);
    LoopIsOverTheLastBatch(log, s);
    var b :| LastBatch(log, s, b, log[s].batch);
    assert IsAnnounced(o, log[j - 1]);
    assert Feeds(log, j, s, b, o.done);
  }
}
