/**
 A fourth reading of a drive's log: what the machine has asked for since the last
 resume loop opened, and which batches may therefore start (src/agent/drive.rs, `drain`).
*/
module DriveAgenda {
  import opened Wrappers
  import opened Effects
  import opened Budget
  import opened DriveLog

  datatype Agenda = Agenda(
    asked: seq<Requirement>,
    looped: bool,                // some resume loop has opened
    stopped: bool,               // the budget stopped the drive since it opened
    flipped: bool,
    due: bool,                   // the last event was a check that lets a batch start
    batches: nat,
    lawful: bool
  )

  const NO_AGENDA := Agenda([], false, false, false, false, 0, true)

  /** The checks of one pass of the loop. */
  predicate MayStart(asked: seq<Requirement>, flipped: bool, used: Usage, limits: Limits) {
    asked != [] && !flipped && !(NeedsModel(asked) && Spent(used, limits))
  }

  function Noted(o: Agenda, e: Event): Agenda {
    match e
    case Considered(pending, used, limits) =>
      o.(due := MayStart(o.asked, o.flipped, used, limits), lawful := o.lawful && pending == o.asked)
    case ResumesStarted(_, _) => o.(asked := [], looped := true, stopped := false)
    case Stepped(External(_), emitted) => o.(asked := o.asked + emitted, lawful := o.lawful && !o.looped)
    case Stepped(Resume(_, _), emitted) =>
      o.(asked := o.asked + emitted, lawful := o.lawful && o.looped && !o.stopped)
    case Interrupted(_) => o.(stopped := true)
    case TokenFlipped => o.(flipped := true)
    case _ => o
  }

  /** A batch starts at once when it is due, never otherwise, and drives all that was asked for. */
  function AgendaEvent(o: Agenda, e: Event): Agenda {
    if e.BatchStarted? then
      o.(due := false, batches := o.batches + 1, lawful := o.lawful && o.due && e.batch == o.asked)
    else Noted(o.(due := false, lawful := o.lawful && !o.due), e)
  }

  function AgendaTo(log: seq<Event>, n: nat): Agenda
    requires n <= |log|
  {
    Fold(NO_AGENDA, AgendaEvent, log, n)
  }

  function AgendaOf(log: seq<Event>): Agenda { AgendaTo(log, |log|) }

  lemma AgendaSnoc(log: seq<Event>, e: Event)
    ensures AgendaOf(log + [e]) == AgendaEvent(AgendaOf(log), e)
  {
    FoldSnoc(NO_AGENDA, AgendaEvent, log, e);
  }

  lemma AgendaNeverForgives()
    ensures forall o: Agenda, e: Event :: AgendaEvent(o, e).lawful ==> o.lawful
  {}

  lemma AgendaLawfulUpTo(log: seq<Event>, n: nat, k: nat)
    requires k <= n <= |log| && AgendaTo(log, n).lawful
    ensures AgendaTo(log, k).lawful
  {
    AgendaNeverForgives();
    FoldLawfulUpTo(NO_AGENDA, AgendaEvent, log, n, k, (o: Agenda) => o.lawful);
  }

  // ----- the effect of one event -----

  lemma FlippedMoves(o: Agenda, e: Event)
    ensures AgendaEvent(o, e).flipped <==> o.flipped || e.TokenFlipped?
  {}

  lemma DueMoves(o: Agenda, e: Event)
    ensures AgendaEvent(o, e).due <==> e.Considered? && MayStart(o.asked, o.flipped, e.used, e.limits)
  {}

  lemma AskedMoves(o: Agenda, e: Event)
    requires o.looped && !e.ResumesStarted? && AgendaEvent(o, e).lawful
    ensures AgendaEvent(o, e).looped && o.lawful
    ensures AgendaEvent(o, e).asked == if IsResume(e) then o.asked + e.emitted else o.asked
  {}

  lemma StoppedMoves(o: Agenda, e: Event)
    requires !e.ResumesStarted? && AgendaEvent(o, e).lawful && (o.stopped || e.Interrupted?)
    ensures AgendaEvent(o, e).stopped && !IsResume(e) && o.lawful
  {}

  lemma FlippedIsFlipped(log: seq<Event>, n: nat)
    requires n <= |log|
    ensures AgendaTo(log, n).flipped <==> FlippedBefore(log, n)
  {
    var holds := (o: Agenda, k: int) => 0 <= k <= |log| && (o.flipped <==> FlippedBefore(log, k));
    forall o: Agenda, k | 0 <= k < |log| && holds(o, k)
      ensures holds(AgendaEvent(o, log[k]), k + 1)
    {
      FlippedBeforeNext(log, k);
      FlippedMoves(o, log[k]);
    }
    assert !FlippedBefore(log, 0) && !NO_AGENDA.flipped;
    FoldInvariant(NO_AGENDA, AgendaEvent, log, 0, n, holds);
  }

  // ----- when a batch starts -----

  ghost predicate StartsNext(log: seq<Event>, c: int) {
    0 <= c && c + 1 < |log| && log[c + 1].BatchStarted?
  }

  /** Only a check that lets it start, just before it, allows a batch; and only the batch may follow that. */
  lemma BatchExactlyWhenDue(o: Agenda, e: Event)
    requires AgendaEvent(o, e).lawful
    ensures e.BatchStarted? <==> o.due
    ensures e.BatchStarted? ==> e.batch == o.asked
  {}

  /**
   After a pass of the checks a batch starts exactly when something is asked for,
   the token is down, and that needs no model or the ledger it read has headroom;
   and it drives all of what is asked for.
  */
  lemma BatchStartsExactlyWhen(log: seq<Event>, c: nat)
    requires AgendaOf(log).lawful && !AgendaOf(log).due && c < |log| && log[c].Considered?
    ensures StartsNext(log, c) <==>
            MayStart(AgendaTo(log, c).asked, FlippedBefore(log, c), log[c].used, log[c].limits)
    ensures StartsNext(log, c) ==> log[c + 1].batch == AgendaTo(log, c).asked
  {
    FlippedIsFlipped(log, c);
    DueMoves(AgendaTo(log, c), log[c]);
    var o := AgendaTo(log, c + 1);
    assert o == AgendaEvent(AgendaTo(log, c), log[c]);
    if c + 1 < |log| {
      AgendaLawfulUpTo(log, |log|, c + 2);
      assert AgendaTo(log, c + 2) == AgendaEvent(o, log[c + 1]);
      BatchExactlyWhenDue(o, log[c + 1]);
    }
  }

  /** Every batch follows a pass of the checks that allowed it. */
  lemma BatchesAreConsidered(log: seq<Event>, j: nat)
    requires AgendaOf(log).lawful && j < |log| && log[j].BatchStarted?
    ensures j > 0 && log[j - 1].Considered?
    ensures NeedsModel(log[j].batch) ==> !Spent(log[j - 1].used, log[j - 1].limits)
    ensures !FlippedBefore(log, j - 1)
  {
    AgendaLawfulUpTo(log, |log|, j + 1);
    assert AgendaTo(log, j + 1) == AgendaEvent(AgendaTo(log, j), log[j]);
    BatchExactlyWhenDue(AgendaTo(log, j), log[j]);
    assert AgendaTo(log, j) == AgendaEvent(AgendaTo(log, j - 1), log[j - 1]);
    DueMoves(AgendaTo(log, j - 1), log[j - 1]);
    FlippedIsFlipped(log, j - 1);
  }

  // ----- what is asked for after a resume loop -----

  /** What the resumes after event `s` emitted, in order. */
  function Demanded(log: seq<Event>, s: nat, n: nat): seq<Requirement>
    requires s < n <= |log|
  {
    if n == s + 1 then []
    else if IsResume(log[n - 1]) then Demanded(log, s, n - 1) + log[n - 1].emitted
    else Demanded(log, s, n - 1)
  }

  lemma AskedIsDemanded(log: seq<Event>, s: nat, n: nat)
    requires s < n <= |log| && log[s].ResumesStarted? && NoLoopOpens(log, s + 1, n) && AgendaTo(log, n).lawful
    ensures AgendaTo(log, n).looped && AgendaTo(log, n).asked == Demanded(log, s, n)
  {
    var holds := (o: Agenda, k: int) =>
      s < k <= |log| && (k <= n && o.lawful ==> o.looped && o.asked == Demanded(log, s, k));
    forall o: Agenda, k | s + 1 <= k < |log| && holds(o, k)
      ensures holds(AgendaEvent(o, log[k]), k + 1)
    {
      if k < n && AgendaEvent(o, log[k]).lawful {
        AgendaNeverForgives();
        AskedMoves(o, log[k]);
      }
    }
    assert AgendaTo(log, s + 1) == AgendaEvent(AgendaTo(log, s), log[s]);
    FoldInvariant(NO_AGENDA, AgendaEvent, log, s + 1, n, holds);
  }

  /** The resumes after `s` asked for something exactly when one of them emitted something. */
  lemma {:induction false} DemandedIsNonEmpty(log: seq<Event>, s: nat, n: nat)
    requires s < n <= |log|
    ensures Demanded(log, s, n) != [] <==> exists r :: s < r < n && IsResume(log[r]) && log[r].emitted != []
    decreases n
  {
    if n > s + 1 {
      DemandedIsNonEmpty(log, s, n - 1);
    }
  }

  ghost predicate NothingResumed(log: seq<Event>, from: nat, n: nat)
    requires n <= |log|
  {
    forall r :: from <= r < n ==> !IsResume(log[r])
  }

  /** A budget stop is the last word of its loop: nothing is resumed until another one opens. */
  lemma NothingResumedAfterAStop(log: seq<Event>, i: nat, n: nat)
    requires i < n <= |log| && log[i].Interrupted? && NoLoopOpens(log, i + 1, n) && AgendaTo(log, n).lawful
    ensures AgendaTo(log, n).stopped && NothingResumed(log, i, n)
  {
    var holds := (o: Agenda, k: int) =>
      i <= k <= |log| && (i < k <= n && o.lawful ==> o.stopped && NothingResumed(log, i, k));
    forall o: Agenda, k | i <= k < |log| && holds(o, k)
      ensures holds(AgendaEvent(o, log[k]), k + 1)
    {
      if k < n && AgendaEvent(o, log[k]).lawful {
        StoppedMoves(o, log[k]);
      }
    }
    FoldInvariant(NO_AGENDA, AgendaEvent, log, i, n, holds);
  }

  lemma {:induction false} DemandedBeforeTheStop(log: seq<Event>, s: nat, i: nat, n: nat)
    requires s < i < n <= |log| && NothingResumed(log, i, n)
    ensures Demanded(log, s, n) == Demanded(log, s, i)
    decreases n
  {
    if n > i + 1 {
      DemandedBeforeTheStop(log, s, i, n - 1);
    }
  }

  /**
   A budget stop inside a resume loop is not the end of the drive. At the next
   pass of the checks another batch starts if and only if some result resumed
   before the stop asked for something, the token has not flipped, and that needs
   no model or the ledger still has headroom. It drives exactly what was asked for.
  */
  lemma AnotherBatchFollowsAStopExactlyWhen(log: seq<Event>, s: nat, i: nat, c: nat)
    requires AgendaOf(log).lawful && !AgendaOf(log).due
    requires s < i < c < |log| && log[s].ResumesStarted? && log[i].Interrupted? && log[c].Considered?
    requires NoLoopOpens(log, s + 1, c)
    ensures var demanded := Demanded(log, s, i);
            && (StartsNext(log, c) <==>
                  && (exists r :: s < r < i && IsResume(log[r]) && log[r].emitted != [])
                  && !FlippedBefore(log, c)
                  && !(NeedsModel(demanded) && Spent(log[c].used, log[c].limits)))
            && (StartsNext(log, c) ==> log[c + 1].batch == demanded)
  {
    AgendaLawfulUpTo(log, |log|, c);
    BatchStartsExactlyWhen(log, c);
    AskedIsDemanded(log, s, c);
    NothingResumedAfterAStop(log, i, c);
    DemandedBeforeTheStop(log, s, i, c);
    DemandedIsNonEmpty(log, s, i);
  }
}
