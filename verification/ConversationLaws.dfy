/**
 What each operation of a conversation does, said in terms of the turns, cuts and
 messages themselves (src/conversation/mod.rs, boundary/head.rs, boundary/fork.rs,
 pending/cancel.rs), and what becomes of the messages users send over whole runs.
*/
module ConversationLaws {
  import opened Wrappers
  import opened Turns
  import HV = HistoryViews
  import opened Boundaries
  import opened Projections
  import opened Compactions
  import opened Conversations
  import opened ConversationRuns

  /** Nobody in the retained log owns the message. */
  predicate Unsaid(c: Conversation, message: MessageId) {
    forall t :: t in c.view.raw ==> message !in t.messages
  }

  /** The last turn below the head. */
  function LastShown(c: Conversation): Option<TurnId>
    requires c.view.InRange()
  {
    if c.view.activeLen == 0 then None else Some(c.view.backing[c.view.activeLen - 1].id)
  }

  lemma UnsaidIsTheSet(c: Conversation, message: MessageId)
    requires c.Valid()
    ensures Unsaid(c, message) <==> message !in c.view.messageIds
  {
    MessageSetIsTheLog(c);
  }

  // ----- the open turn -----

  /**
   A turn opens exactly when none is open, neither identity was used before and the
   payload is good. It starts from the last turn shown, with the user's message and
   nothing else in it, and nothing else about the conversation changes.
  */
  lemma TurnsBeginExactlyWhen(c: Conversation, turnId: TurnId, message: MessageId, content: Content, payloadOk: bool)
    requires c.Valid()
    ensures var begun := BeginTurn(c, turnId, message, content, payloadOk);
            && (begun.Ok? <==> c.pending.None? && !HasId(c.view.raw, turnId) && Unsaid(c, message) && payloadOk)
            && (begun.Ok? ==>
                  && begun.value.pending.Some? && begun.value.(pending := None) == c
                  && var p := begun.value.pending.value;
                     && p.id == turnId && p.parent == LastShown(c) && p.messages == [message] && p.calls == []
                     && p.content == content && !p.ready && !p.atStep)
            && (c.pending.Some? ==> begun == Err(AlreadyPending(c.pending.value.id)))
            && (c.pending.None? && HasId(c.view.raw, turnId) ==> begun == Err(PendingDuplicateTurn(turnId)))
            && (begun == Err(InvalidPayload) ==> !payloadOk)
  {
    UnsaidIsTheSet(c, message);
  }

  /**
   A user's message is injected exactly under the token of the current head, while a
   turn is open that just closed a batch of tool results, and with a fresh identity
   and a good payload. It goes to the end of the turn's messages.
  */
  lemma MessagesAreInjectedExactlyWhen(c: Conversation, token: Boundary, message: MessageId, content: Content,
                                       payloadOk: bool)
    requires c.Valid()
    ensures var injected := InjectUserMessage(c, token, message, content, payloadOk);
            && (injected.Ok? <==>
                  && token == Boundary(c.id, c.view.activeLen, LastShown(c), c.version)
                  && c.pending.Some? && c.pending.value.atStep
                  && Unsaid(c, message) && message !in c.pending.value.messages && payloadOk)
            && (injected.Ok? ==>
                  && injected.value.pending.Some? && injected.value.(pending := c.pending) == c
                  && var p, q := c.pending.value, injected.value.pending.value;
                     q == p.(messages := p.messages + [message], content := content))
  {
    UnsaidIsTheSet(c, message);
    PendingStepAcceptsOnlyTheHead(c.Cuts(), token);
  }

  /** A checked transition keeps the turn's identity and parent; every other identity in it must be fresh. */
  lemma TurnsAdvanceExactlyWhen(c: Conversation, next: PendingTurn)
    requires c.Valid()
    ensures var advanced := AdvancePending(c, next);
            && (advanced.Ok? <==>
                  && c.pending.Some? && next.id == c.pending.value.id && next.parent == c.pending.value.parent
                  && NoRepeats(next.messages) && NoRepeats(next.calls)
                  && forall t :: t in c.view.raw ==>
                       && (forall m :: m in t.messages ==> m !in next.messages)
                       && (forall call :: call in t.calls ==> call !in next.calls))
            && (advanced.Ok? ==> advanced.value == c.(pending := Some(next)))
  {
    MessageSetIsTheLog(c);
  }

  /** Exactly the messages, calls and content of a turn that was open end up in the committed one. */
  predicate CommittedAs(c: Conversation, after: Conversation, turn: Turn)
    requires c.view.InRange() && after.view.InRange()
  {
    && after.view.raw == c.view.raw + [turn] && after.view.Active() == c.view.Active() + [turn]
    && after.view.lineageLen == after.view.activeLen && after.pending.None? && after.version == c.version + 1
    && after.id == c.id && after.origin == c.origin
  }

  /** An open turn commits exactly when it is ready and closed and the version can rise. */
  lemma TurnsCommitExactlyWhen(c: Conversation)
    requires c.Valid()
    ensures var committed := CommitPending(c);
            && (committed.Ok? <==>
                  && c.pending.Some? && c.pending.value.ready && c.pending.value.grammatical
                  && c.version < 0xFFFF_FFFF_FFFF_FFFF)
            && (committed.Ok? ==>
                  && committed.value.view.InRange()
                  && var p := c.pending.value;
                     CommittedAs(c, committed.value, Turn(p.id, p.parent, p.messages, p.calls, p.content)))
  {
    if c.pending.Some? {
      ValidateTurnIsTheGate(c.pending.value, c.view);
    }
  }

  /** A turn that is not ready is cancelled into a commit exactly when its closed form passes; it keeps its identity. */
  lemma TurnsAreCancelledExactlyWhen(c: Conversation, closed: PendingTurn)
    requires c.Valid()
    ensures var cancelled := CommitCancelled(c, closed);
            && (cancelled.Ok? <==>
                  && c.pending.Some? && !c.pending.value.ready && closed.grammatical && c.version < MAX_VERSION
                  && NoRepeats(closed.messages) && NoRepeats(closed.calls)
                  && forall t :: t in c.view.raw ==>
                       && (forall m :: m in t.messages ==> m !in closed.messages)
                       && (forall call :: call in t.calls ==> call !in closed.calls))
            && (cancelled.Ok? ==>
                  && cancelled.value.view.InRange()
                  && var p := c.pending.value;
                     CommittedAs(c, cancelled.value,
                                 Turn(p.id, p.parent, closed.messages, closed.calls, closed.content)))
  {
    if c.pending.Some? {
      var p := c.pending.value;
      ValidateTurnIsTheGate(closed.(id := p.id, parent := p.parent), c.view);
    }
  }

  // ----- heads and forks -----

  /** The token issued now at a cut of the lineage. */
  predicate IsTokenAt(c: Conversation, token: Boundary, cut: nat)
    requires c.view.InRange()
  {
    && cut <= c.view.lineageLen && token.conversationId == c.id && token.version == c.version && token.turnCount == cut
    && token.afterTurn == if cut == 0 then None else Some(c.view.backing[cut - 1].id)
  }

  /** A token that is not the one issued at its cut is told what is wrong with it, first things first. */
  lemma TokensAreRefusedBecause(c: Conversation, token: Boundary)
    requires c.view.InRange()
    ensures var resolved := Resolve(c.Cuts(), token);
            && (resolved.Ok? <==> c.pending.None? && IsTokenAt(c, token, token.turnCount))
            && (resolved.Ok? ==> resolved.value == token.turnCount)
            && (token.conversationId != c.id ==> resolved == Err(OwnerMismatch(c.id, token.conversationId)))
            && (token.conversationId == c.id && token.version != c.version ==>
                  resolved == Err(StaleBoundary(token.version, c.version)))
            && (token.conversationId == c.id && token.version == c.version && c.pending.Some? ==>
                  resolved == Err(PendingTurnOpen(c.pending.value.id)))
            && (token.conversationId == c.id && token.version == c.version && c.pending.None? ==>
                  && (token.turnCount > |c.view.backing| ==>
                        resolved == Err(PositionOutOfRange(token.turnCount, |c.view.backing|)))
                  && (c.view.lineageLen < token.turnCount <= |c.view.backing| ==>
                        resolved == Err(BeyondForkCeiling(token.turnCount, c.view.lineageLen)))
                  && (token.turnCount <= c.view.lineageLen && !IsTokenAt(c, token, token.turnCount) ==>
                        resolved.Err? && resolved.error.AnchorMismatch?))
  {
    ResolvesExactlyTheIssued(c.Cuts(), token, token.turnCount, false);
  }

  /**
   The head moves exactly under a token issued now for some cut, redo included,
   while no turn is open and the version can rise. A move changes the head and the
   version, and hands out fresh tokens for the cut it left and the one it reached.
  */
  lemma HeadsMoveExactlyWhen(c: Conversation, token: Boundary)
    requires c.view.InRange()
    ensures var reverted, stays := RevertTo(c, token), token.turnCount == c.view.activeLen;
            && (reverted.Ok? <==>
                  && c.pending.None? && IsTokenAt(c, token, token.turnCount) && (stays || c.version < MAX_VERSION))
            && (reverted.Ok? ==>
                  var after, outcome := reverted.value.0, reverted.value.1;
                  && after == (if stays then c
                               else c.(view := c.view.(activeLen := token.turnCount), version := c.version + 1))
                  && outcome.newHead == token.(version := after.version)
                  && outcome.oldHead == Boundary(c.id, c.view.activeLen, LastShown(c), after.version))
            && (Resolve(c.Cuts(), token).Err? ==> reverted == Err(BadBoundary(Resolve(c.Cuts(), token).error)))
            && (Resolve(c.Cuts(), token).Ok? && reverted.Err? ==> reverted == Err(NonAtomicHeadMove(c.version)))
  {
    TokensAreRefusedBecause(c, token);
    if Resolve(c.Cuts(), token).Ok? {
      ResolvesExactlyTheIssued(c.Cuts(), token, token.turnCount, false);
    }
  }

  /**
   A conversation forks exactly under another identity and a token issued now. The
   child shows the turns below the cut and nothing else: no later turn of its parent
   is in its log, none of its spans is compacted, and its versions start over.
  */
  lemma ForksExactlyWhen(c: Conversation, token: Boundary, childId: ConversationId)
    requires c.Valid()
    ensures var fork := ForkAt(c, token, childId);
            && (fork.Ok? <==> childId != c.id && c.pending.None? && IsTokenAt(c, token, token.turnCount))
            && (childId == c.id ==> fork == Err(DuplicateConversation(childId)))
            && (childId != c.id && Resolve(c.Cuts(), token).Err? ==>
                  fork == Err(BadBoundary(Resolve(c.Cuts(), token).error)))
            && (fork.Ok? ==>
                  var child, prefix := fork.value, c.view.Addressable()[..token.turnCount];
                  && child.id == childId && child.pending.None? && child.version == 0
                  && child.origin == Some(ForkOrigin(c.id, token))
                  && child.view.raw == prefix && child.view.Active() == prefix && child.view.Addressable() == prefix
                  && child.projection.artifacts == [] && forall span :: span in child.projection.spans ==> span.Raw?)
  {
    TokensAreRefusedBecause(c, token);
    ForkKeepsValid(c, token, childId);
  }

  // ----- compaction plans -----

  /**
   Consequence for compactions: over the overlay of a reachable state nothing can
   go wrong while it is rebuilt. A plan succeeds exactly when it was made for the
   conversation as it is now, its own artifacts and steps pass and none of its
   artifact ids is taken; then its covers stand in the new overlay beside every old
   one that no step touches, every artifact is kept, and only the version moves besides.
  */
  lemma CompactionsSucceedExactlyWhen(id: ConversationId, actions: seq<Action>, plan: CompactionPlan)
    ensures var c := Run(NewConversation(id), actions);
            var sources := ActiveSpans(c.projection.spans, id, Ids(c.view.Addressable()), c.view.lineageLen);
            && (ApplyCompaction(c, plan).Ok? <==>
                  && plan.conversationId == c.id && plan.version == c.version && c.pending.None?
                  && plan.head == c.view.activeLen == c.view.lineageLen && plan.steps != []
                  && c.version < MAX_VERSION
                  && PlanFits(plan, sources, id, Ids(c.view.Addressable())) && FreshArtifacts(plan, c.projection))
            && (ApplyCompaction(c, plan).Ok? ==>
                  var after := ApplyCompaction(c, plan).value;
                  && Done(after.projection.spans, sources, plan.steps, |plan.steps|, c.view.lineageLen)
                  && after.projection.artifacts == c.projection.artifacts + plan.artifacts
                  && after == c.(projection := after.projection, version := c.version + 1))
  {
    NewIsValid(id);
    RunKeepsValid(NewConversation(id), actions);
    VersionCountsMoves(NewConversation(id), actions);
    var c := Run(NewConversation(id), actions);
    PlansSucceedExactlyWhen(c.projection, c.id, Ids(c.view.Addressable()), plan);
  }

  lemma {:induction false} ProjectionsStayUnlessMoved(c: Conversation, actions: seq<Action>)
    requires c.view.InRange() && MoveCount(c, actions) == 0
    ensures Run(c, actions).projection == c.projection
    decreases |actions|
  {
    if actions != [] {
      MovesAdvanceTheVersion(c, actions[0]);
      ProjectionsStayUnlessMoved(Next(c, actions[0]), actions[1..]);
    }
  }

  /** The same replacement over the same facts. */
  lemma ReplacedOverTheSameFacts(c: Conversation, later: Conversation, plan: CompactionPlan,
                                 next: Result<Projection, ProjectionError>)
    requires c.view.InRange() && c.pending.None? && later.pending.None?
    requires later.id == c.id && later.view == c.view && later.version == c.version
    ensures match WithOverlay(c, plan, next)
            case Err(e) => WithOverlay(later, plan, next) == Err(e)
            case Ok(now) => WithOverlay(later, plan, next)
                            == Ok(later.(projection := now.projection, version := now.version))
  {
    assert later.Cuts() == c.Cuts();
  }

  lemma PlansForOtherFacts(later: Conversation, plan: CompactionPlan)
    requires later.view.InRange() && plan.conversationId == later.id
    ensures plan.version != later.version ==>
              ApplyCompaction(later, plan) == Err(BadProjection(StaleCompactionPlan(plan.version, later.version)))
    ensures plan.version == later.version && later.pending.Some? ==>
              ApplyCompaction(later, plan) == Err(BadProjection(CompactionWhilePending(later.pending.value.id)))
  {}

  /**
   A plan dies with the state it was made for. After any commit, real head move or
   compaction it is refused as stale, whatever came back since; while a turn is open
   it is refused for that; and with nothing of the kind in between it does what it
   would have done at once.
  */
  lemma PlansNeverComeBack(c: Conversation, actions: seq<Action>, plan: CompactionPlan)
    requires c.view.InRange() && plan.conversationId == c.id && plan.version == c.version && plan.steps != []
    requires c.pending.None? && plan.head == c.view.activeLen == c.view.lineageLen
    ensures var later := Run(c, actions);
            var applied := ApplyCompaction(later, plan);
            && (MoveCount(c, actions) > 0 ==>
                  applied == Err(BadProjection(StaleCompactionPlan(plan.version, later.version))))
            && (MoveCount(c, actions) == 0 && later.pending.Some? ==>
                  applied == Err(BadProjection(CompactionWhilePending(later.pending.value.id))))
            && (MoveCount(c, actions) == 0 && later.pending.None? ==>
                  match ApplyCompaction(c, plan)
                  case Err(e) => applied == Err(e)
                  case Ok(now) => applied == Ok(later.(projection := now.projection, version := now.version)))
  {
    VersionCountsMoves(c, actions);
    var later := Run(c, actions);
    PlansForOtherFacts(later, plan);
    if MoveCount(c, actions) == 0 {
      ProjectionsStayUnlessMoved(c, actions);
      if later.pending.None? {
        var next := Planned(c.projection, c.id, Ids(c.view.Addressable()), plan);
        ReplacedOverTheSameFacts(c, later, plan, next);
        assert ApplyCompaction(c, plan) == WithOverlay(c, plan, next);
        assert ApplyCompaction(later, plan) == WithOverlay(later, plan, next);
      }
    }
  }

  /** No plan is applied at a head below the end of the lineage: the turns above it would be lost from view. */
  lemma NoPlanAtARevertedHead(c: Conversation, plan: CompactionPlan)
    requires c.view.InRange() && c.view.activeLen < c.view.lineageLen
    ensures ApplyCompaction(c, plan).Err?
    ensures plan.conversationId == c.id && plan.version == c.version && c.pending.None?
            && plan.head == c.view.activeLen ==>
              ApplyCompaction(c, plan)
              == Err(BadProjection(CompactionOnRevertedHead(c.view.activeLen, c.view.lineageLen)))
  {}

  // ----- what users say is kept -----

  /** What the users said: in the open turn, and in every turn that was committed. */
  datatype Talk = Talk(open: seq<MessageId>, kept: map<TurnId, seq<MessageId>>)

  const SILENCE := Talk([], map[])

  /** The messages of `said` stand among `messages` at these places, in order, the first one first. */
  predicate SaidAt(messages: seq<MessageId>, said: seq<MessageId>, places: seq<nat>) {
    && |places| == |said| && (said != [] ==> places[0] == 0)
    && (forall i :: 0 <= i < |places| ==> places[i] < |messages| && messages[places[i]] == said[i])
    && forall i, j :: 0 <= i < j < |places| ==> places[i] < places[j]
  }

  ghost predicate Carries(messages: seq<MessageId>, said: seq<MessageId>) {
    exists places :: SaidAt(messages, said, places)
  }

  lemma LongerStillCarries(messages: seq<MessageId>, longer: seq<MessageId>, said: seq<MessageId>)
    requires Carries(messages, said) && messages <= longer
    ensures Carries(longer, said)
  {
    var places :| SaidAt(messages, said, places);
    assert SaidAt(longer, said, places);
  }

  lemma OneMoreIsCarried(messages: seq<MessageId>, said: seq<MessageId>, message: MessageId)
    requires Carries(messages, said) && said != []
    ensures Carries(messages + [message], said + [message])
  {
    var places :| SaidAt(messages, said, places);
    var last: nat := |messages|;
    var longer, more := messages + [message], places + [last];
    forall i | 0 <= i < |more|
      ensures more[i] < |longer| && longer[more[i]] == (said + [message])[i] && (i < |places| ==> more[i] == places[i])
    {}
    assert SaidAt(longer, said + [message], more);
  }

  function Heard(c: Conversation, talk: Talk, a: Action): Talk
    requires c.view.InRange()
  {
    if Perform(c, a).Err? then talk
    else
      match a
      case Begin(_, message, _, _) => talk.(open := [message])
      case Inject(_, message, _, _) => talk.(open := talk.open + [message])
      case Commit => Talk([], talk.kept[c.pending.value.id := talk.open])
      case CancelIntoCommit(_) => Talk([], talk.kept[c.pending.value.id := talk.open])
      case DiscardPending => talk.(open := [])
      case _ => talk
  }

  function AllHeard(c: Conversation, talk: Talk, actions: seq<Action>): Talk
    requires c.view.InRange()
    decreases |actions|
  {
    if actions == [] then talk else AllHeard(Next(c, actions[0]), Heard(c, talk, actions[0]), actions[1..])
  }

  /** A transition inside the open turn, and the closing of a cancelled one, only add messages at its end. */
  predicate OnlyAdds(c: Conversation, a: Action) {
    match a
    case Advance(next) => c.pending.Some? ==> c.pending.value.messages <= next.messages
    case CancelIntoCommit(closed) => c.pending.Some? ==> c.pending.value.messages <= closed.messages
    case _ => true
  }

  predicate AlwaysOnlyAdds(c: Conversation, actions: seq<Action>)
    requires c.view.InRange()
    decreases |actions|
  {
    actions != [] ==> OnlyAdds(c, actions[0]) && AlwaysOnlyAdds(Next(c, actions[0]), actions[1..])
  }

  ghost predicate CarriedInOpenTurn(c: Conversation, talk: Talk) {
    match c.pending
    case None => talk.open == []
    case Some(p) => talk.open != [] && Carries(p.messages, talk.open)
  }

  ghost predicate CarriedInTurn(t: Turn, talk: Talk) {
    t.id in talk.kept && talk.kept[t.id] != [] && Carries(t.messages, talk.kept[t.id])
  }

  /** Every turn starts with the message it was begun with and has the injected ones in order. */
  ghost predicate EverythingSaidIsThere(c: Conversation, talk: Talk) {
    CarriedInOpenTurn(c, talk) && forall t :: t in c.view.raw ==> CarriedInTurn(t, talk)
  }

  lemma CommitsKeepWhatWasSaid(c: Conversation, talk: Talk, after: Conversation, turn: Turn)
    requires c.Valid() && c.pending.Some? && EverythingSaidIsThere(c, talk) && after.pending.None?
    requires turn.id == c.pending.value.id && c.pending.value.messages <= turn.messages
    requires after.view.raw == c.view.raw + [turn]
    ensures EverythingSaidIsThere(after, Talk([], talk.kept[turn.id := talk.open]))
  {
    var kept := Talk([], talk.kept[turn.id := talk.open]);
    LongerStillCarries(c.pending.value.messages, turn.messages, talk.open);
    forall t | t in after.view.raw
      ensures CarriedInTurn(t, kept)
    {
      if t in c.view.raw {
        assert CarriedInTurn(t, talk);
        assert HasId(c.view.raw, t.id) by {
          var i :| 0 <= i < |c.view.raw| && c.view.raw[i] == t;
        }
      }
    }
  }

  lemma StepsKeepWhatWasSaid(c: Conversation, talk: Talk, a: Action)
    requires c.Valid() && EverythingSaidIsThere(c, talk) && OnlyAdds(c, a)
    ensures EverythingSaidIsThere(Next(c, a), Heard(c, talk, a))
  {
    if Perform(c, a).Ok? {
      match a
      case Begin(turnId, message, content, payloadOk) =>
        TurnsBeginExactlyWhen(c, turnId, message, content, payloadOk);
        assert SaidAt([message], [message], [0]);
      case Advance(next) => LongerStillCarries(c.pending.value.messages, next.messages, talk.open);
      case Inject(token, message, content, payloadOk) =>
        MessagesAreInjectedExactlyWhen(c, token, message, content, payloadOk);
        OneMoreIsCarried(c.pending.value.messages, talk.open, message);
      case Commit =>
        TurnsCommitExactlyWhen(c);
        var p, after := c.pending.value, CommitPending(c).value;
        CommitsKeepWhatWasSaid(c, talk, after, Turn(p.id, p.parent, p.messages, p.calls, p.content));
      case CancelIntoCommit(closed) =>
        TurnsAreCancelledExactlyWhen(c, closed);
        var p, after := c.pending.value, CommitCancelled(c, closed).value;
        CommitsKeepWhatWasSaid(c, talk, after, Turn(p.id, p.parent, closed.messages, closed.calls, closed.content));
      case DiscardPending =>
      case Revert(to) => HeadsMoveExactlyWhen(c, to);
      case Compact(plan) =>
    }
  }

  /**
   Over every run in which transitions inside a turn only add to it, the open turn
   and every retained one, on whatever branch, start with the message they were begun
   with and have the messages injected into them in the order they came.
  */
  lemma {:induction false} RunsKeepWhatWasSaid(c: Conversation, talk: Talk, actions: seq<Action>)
    requires c.Valid() && EverythingSaidIsThere(c, talk) && AlwaysOnlyAdds(c, actions)
    ensures EverythingSaidIsThere(Run(c, actions), AllHeard(c, talk, actions))
    decreases |actions|
  {
    if actions != [] {
      StepsKeepWhatWasSaid(c, talk, actions[0]);
      NextKeepsValid(c, actions[0]);
      RunsKeepWhatWasSaid(Next(c, actions[0]), Heard(c, talk, actions[0]), actions[1..]);
    }
  }

  /** From a new conversation on, nothing a user says in a turn that is not discarded gets lost. */
  lemma NothingSaidIsLost(id: ConversationId, actions: seq<Action>)
    requires AlwaysOnlyAdds(NewConversation(id), actions)
    ensures EverythingSaidIsThere(Run(NewConversation(id), actions), AllHeard(NewConversation(id), SILENCE, actions))
  {
    NewIsValid(id);
    RunsKeepWhatWasSaid(NewConversation(id), SILENCE, actions);
  }
}
