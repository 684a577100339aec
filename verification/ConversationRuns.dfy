/** Safety over whole runs of a conversation and of the conversations forked from it. */
module ConversationRuns {
  import opened Wrappers
  import opened Turns
  import opened HistoryViews
  import opened Boundaries
  import opened Conversations
  import opened Projections
  import opened Compactions

  datatype Action =
    | Begin(turnId: TurnId, messageId: MessageId, content: Content, payloadOk: bool)
    | Advance(next: PendingTurn)
    | Inject(token: Boundary, messageId: MessageId, content: Content, payloadOk: bool)
    | Commit
    | CancelIntoCommit(closed: PendingTurn)
    | DiscardPending
    | Revert(to: Boundary)
    | Compact(plan: CompactionPlan)

  function Perform(c: Conversation, a: Action): Result<Conversation, ConversationError>
    requires c.view.InRange()
  {
    match a
    case Begin(turnId, messageId, content, payloadOk) => BeginTurn(c, turnId, messageId, content, payloadOk)
    case Advance(next) => AdvancePending(c, next)
    case Inject(token, messageId, content, payloadOk) => InjectUserMessage(c, token, messageId, content, payloadOk)
    case Commit => CommitPending(c)
    case CancelIntoCommit(closed) => CommitCancelled(c, closed)
    case DiscardPending => Discard(c)
    case Revert(to) => var moved :- RevertTo(c, to); Ok(moved.0)
    case Compact(plan) => ApplyCompaction(c, plan)
  }

  lemma PerformStaysInRange(c: Conversation, a: Action)
    requires c.view.InRange()
    ensures Perform(c, a).Ok? ==> Perform(c, a).value.view.InRange()
  {
    if a.Revert? && RevertTo(c, a.to).Ok? {
      ResolvesExactlyTheIssued(c.Cuts(), a.to, Resolve(c.Cuts(), a.to).value, false);
    }
  }

  /** A refused action leaves the conversation exactly as it was. */
  function Next(c: Conversation, a: Action): (r: Conversation)
    requires c.view.InRange()
    ensures r.view.InRange()
  {
    PerformStaysInRange(c, a);
    match Perform(c, a)
    case Ok(next) => next
    case Err(_) => c
  }

  function Run(c: Conversation, actions: seq<Action>): (r: Conversation)
    requires c.view.InRange()
    ensures r.view.InRange()
    decreases |actions|
  {
    if actions == [] then c else Run(Next(c, actions[0]), actions[1..])
  }

  // ----- the invariant -----

  lemma MessageSetIsTheLog(c: Conversation)
    requires c.Valid()
    ensures c.view.messageIds == MessagesOf(c.view.raw)
  {
    assert c.view.Consistent();
  }

  lemma BeginKeepsValid(c: Conversation, turnId: TurnId, messageId: MessageId, content: Content, payloadOk: bool)
    requires c.Valid()
    ensures var r := BeginTurn(c, turnId, messageId, content, payloadOk);
            r.Ok? ==> r.value.Valid()
  {
    MessageSetIsTheLog(c);
    var r := BeginTurn(c, turnId, messageId, content, payloadOk);
    if r.Ok? {
      var p := r.value.pending.value;
      FreshAgainstRaw(c.view.raw, Turn(p.id, p.parent, p.messages, p.calls, p.content));
    }
  }

  lemma AdvanceKeepsValid(c: Conversation, next: PendingTurn)
    requires c.Valid()
    ensures AdvancePending(c, next).Ok? ==> AdvancePending(c, next).value.Valid()
  {
    MessageSetIsTheLog(c);
    FreshAgainstRaw(c.view.raw, Turn(next.id, next.parent, next.messages, next.calls, next.content));
  }

  lemma InjectKeepsValid(c: Conversation, b: Boundary, messageId: MessageId, content: Content, payloadOk: bool)
    requires c.Valid()
    ensures var r := InjectUserMessage(c, b, messageId, content, payloadOk);
            r.Ok? ==> r.value.Valid()
  {
    MessageSetIsTheLog(c);
    var r := InjectUserMessage(c, b, messageId, content, payloadOk);
    if r.Ok? {
      var p, q := c.pending.value, r.value.pending.value;
      FreshAgainstRaw(c.view.raw, Turn(p.id, p.parent, p.messages, p.calls, p.content));
      FreshAgainstRaw(c.view.raw, Turn(q.id, q.parent, q.messages, q.calls, q.content));
    }
  }

  /** A commit from any head leaves an overlay that covers the new lineage exactly. */
  lemma CommitKeepsTheOverlayFitting(c: Conversation, turn: Turn)
    requires c.Valid()
    ensures Fits(Committed(c, turn).projection, c.id, Ids(Committed(c, turn).view.Addressable()))
  {
    var was, now := c.view.Addressable(), Committed(c, turn).view.Active();
    assert Committed(c, turn).view.Addressable() == now;
    forall i | 0 <= i < c.view.activeLen
      ensures Ids(now)[i] == Ids(was)[i]
    {
      assert now[i] == was[i];
    }
    assert Ids(now)[..c.view.activeLen] == Ids(was)[..c.view.activeLen];
    ExtendedFits(c.projection, c.id, Ids(was), Ids(now), c.view.activeLen);
  }

  lemma CommitKeepsValid(c: Conversation, draft: PendingTurn)
    requires c.Valid()
    ensures CommitDraft(c, draft).Ok? ==> CommitDraft(c, draft).value.(pending := None).Valid()
  {
    ValidateTurnIsTheGate(draft, c.view);
    if CommitDraft(c, draft).Ok? {
      var turn := ValidateTurn(draft, c.view.raw, c.view.Tip()).value;
      AppendKeepsWellFormed(c.view, turn);
      CommitKeepsTheOverlayFitting(c, turn);
    }
  }

  lemma CompactionKeepsValid(c: Conversation, plan: CompactionPlan)
    requires c.Valid()
    ensures ApplyCompaction(c, plan).Ok? ==> ApplyCompaction(c, plan).value.Valid()
  {
    PlansSucceedExactlyWhen(c.projection, c.id, Ids(c.view.Addressable()), plan);
  }

  lemma NextKeepsValid(c: Conversation, a: Action)
    requires c.Valid()
    ensures Next(c, a).Valid()
  {
    match a
    case Begin(turnId, messageId, content, payloadOk) => BeginKeepsValid(c, turnId, messageId, content, payloadOk);
    case Advance(next) => AdvanceKeepsValid(c, next);
    case Inject(token, messageId, content, payloadOk) => InjectKeepsValid(c, token, messageId, content, payloadOk);
    case Commit =>
      if c.pending.Some? {
        CommitKeepsValid(c, c.pending.value);
      }
    case CancelIntoCommit(closed) =>
      if c.pending.Some? {
        CommitKeepsValid(c, closed.(id := c.pending.value.id, parent := c.pending.value.parent));
      }
    case DiscardPending =>
    case Compact(plan) => CompactionKeepsValid(c, plan);
    case Revert(to) =>
      if RevertTo(c, to).Ok? {
        ResolvesExactlyTheIssued(c.Cuts(), to, Resolve(c.Cuts(), to).value, false);
        StepKeepsWellFormed(c.view, MoveHead(Resolve(c.Cuts(), to).value));
      }
  }

  /**
   In every run an open turn extends the current tip and owns identities no
   retained turn has, every redundant part of the history agrees, and the overlay
   covers the lineage exactly with an artifact behind every compacted span.
  */
  lemma {:induction false} RunKeepsValid(c: Conversation, actions: seq<Action>)
    requires c.Valid()
    ensures Run(c, actions).Valid()
    decreases |actions|
  {
    if actions != [] {
      NextKeepsValid(c, actions[0]);
      RunKeepsValid(Next(c, actions[0]), actions[1..]);
    }
  }

  lemma NewIsValid(id: ConversationId)
    ensures NewConversation(id).Valid()
  {
    EmptyIsWellFormed();
  }

  /**
   Consequence for commits: in every reachable state the identity and parent
   checks of the gate cannot fail, so an open turn commits exactly when it is
   ready, its content is closed and the version can still advance.
  */
  lemma ReadyTurnsAlwaysCommit(id: ConversationId, actions: seq<Action>)
    ensures var c := Run(NewConversation(id), actions);
            c.pending.Some? ==>
              && c.pending.value.parent == c.view.Tip()
              && (CommitPending(c).Ok? <==>
                    c.pending.value.ready && c.pending.value.grammatical && c.version < MAX_VERSION)
              && (CommitPending(c).Ok? ==>
                    var t := CommitPending(c).value.view;
                    t.Active() == c.view.Active() + [t.raw[|t.raw| - 1]]
                    && t.raw[|t.raw| - 1].id == c.pending.value.id)
  {
    NewIsValid(id);
    RunKeepsValid(NewConversation(id), actions);
    var c := Run(NewConversation(id), actions);
    if c.pending.Some? {
      ValidateTurnIsTheGate(c.pending.value, c.view);
      if CommitPending(c).Ok? {
        var t := CommitPending(c).value.view;
        assert t.Active() == t.backing;
      }
    }
  }

  // ----- worlds: a conversation and everything forked from it -----

  datatype Event = On(who: nat, action: Action) | ForkFrom(who: nat, token: Boundary, childId: ConversationId)

  ghost predicate AllInRange(world: seq<Conversation>) {
    forall i :: 0 <= i < |world| ==> world[i].view.InRange()
  }

  ghost predicate AllValid(world: seq<Conversation>) {
    forall i :: 0 <= i < |world| ==> world[i].Valid()
  }

  lemma ForkKeepsValid(c: Conversation, b: Boundary, childId: ConversationId)
    requires c.Valid()
    ensures ForkAt(c, b, childId).Ok? ==>
              && ForkAt(c, b, childId).value.Valid()
              && b in ValidBoundaries(c.Cuts())
              && ForkAt(c, b, childId).value.view.Active() == c.view.Addressable()[..b.turnCount]
              && ForkAt(c, b, childId).value.view.raw == c.view.Addressable()[..b.turnCount]
  {
    if ForkAt(c, b, childId).Ok? {
      ResolvesExactlyTheIssued(c.Cuts(), b, b.turnCount, false);
      ForkKeepsWellFormed(c.view, b.turnCount);
      ValidBoundariesAreExact(c.Cuts(), b);
      assert c.view.Addressable()[..b.turnCount] == c.view.backing[..b.turnCount];
      var child := ForkAt(c, b, childId).value;
      assert child.view.Addressable() == child.view.Active();
      RawForFits(childId, Ids(child.view.Active()));
    }
  }

  ghost function NextWorld(world: seq<Conversation>, e: Event): seq<Conversation>
    requires AllInRange(world)
  {
    if e.who >= |world| then world
    else
      match e
      case On(who, action) => world[who := Next(world[who], action)]
      case ForkFrom(who, token, childId) =>
        match ForkAt(world[who], token, childId)
        case Ok(child) => world + [child]
        case Err(_) => world
  }

  lemma NextWorldKeepsValid(world: seq<Conversation>, e: Event)
    requires AllValid(world) && AllInRange(world)
    ensures AllValid(NextWorld(world, e)) && AllInRange(NextWorld(world, e))
    ensures |world| <= |NextWorld(world, e)|
    ensures forall i :: 0 <= i < |world| && !(e.On? && e.who == i) ==> NextWorld(world, e)[i] == world[i]
  {
    if e.who < |world| {
      match e
      case On(who, action) => NextKeepsValid(world[who], action);
      case ForkFrom(who, token, childId) => ForkKeepsValid(world[who], token, childId);
    }
  }

  ghost function RunWorld(world: seq<Conversation>, events: seq<Event>): seq<Conversation>
    requires AllValid(world) && AllInRange(world)
    decreases |events|
  {
    if events == [] then world
    else
      NextWorldKeepsValid(world, events[0]);
      RunWorld(NextWorld(world, events[0]), events[1..])
  }

  ghost function ActionsOn(events: seq<Event>, who: nat): seq<Action> {
    if events == [] then []
    else if events[0].On? && events[0].who == who then [events[0].action] + ActionsOn(events[1..], who)
    else ActionsOn(events[1..], who)
  }

  /**
   Whatever happens to its parents, children and siblings, a conversation ends
   where its own actions alone take it, and every member of the family is valid.
  */
  lemma {:induction false} FamilyMembersAreIndependent(world: seq<Conversation>, events: seq<Event>, who: nat)
    requires AllValid(world) && AllInRange(world) && who < |world|
    ensures AllValid(RunWorld(world, events)) && who < |RunWorld(world, events)|
    ensures RunWorld(world, events)[who] == Run(world[who], ActionsOn(events, who))
    decreases |events|
  {
    if events != [] {
      NextWorldKeepsValid(world, events[0]);
      var next := NextWorld(world, events[0]);
      FamilyMembersAreIndependent(next, events[1..], who);
      var rest := ActionsOn(events[1..], who);
      if events[0].On? && events[0].who == who {
        assert ([events[0].action] + rest)[1..] == rest;
        assert next[who] == Next(world[who], events[0].action);
      }
    }
  }

  // ----- versions and tokens over time -----

  /** The action was a commit, a real head move or a compaction. */
  predicate Moves(c: Conversation, a: Action)
    requires c.view.InRange()
  {
    Perform(c, a).Ok? && match a
                         case Commit => true
                         case CancelIntoCommit(_) => true
                         case Revert(to) => to.turnCount != c.view.activeLen
                         case Compact(_) => true
                         case _ => false
  }

  lemma MovesAdvanceTheVersion(c: Conversation, a: Action)
    requires c.view.InRange()
    ensures Moves(c, a) ==> Next(c, a).version == c.version + 1
    ensures !Moves(c, a) ==> Next(c, a).version == c.version && Next(c, a).view == c.view
    ensures Next(c, a).id == c.id && Next(c, a).origin == c.origin
  {
    if a.Revert? && Resolve(c.Cuts(), a.to).Ok? {
      ResolvesExactlyTheIssued(c.Cuts(), a.to, Resolve(c.Cuts(), a.to).value, false);
    }
  }

  function MoveCount(c: Conversation, actions: seq<Action>): nat
    requires c.view.InRange()
    decreases |actions|
  {
    if actions == [] then 0
    else (if Moves(c, actions[0]) then 1 else 0) + MoveCount(Next(c, actions[0]), actions[1..])
  }

  lemma {:induction false} VersionCountsMoves(c: Conversation, actions: seq<Action>)
    requires c.view.InRange()
    ensures Run(c, actions).version == c.version + MoveCount(c, actions)
    ensures MoveCount(c, actions) == 0 ==> Run(c, actions).view == c.view
    ensures Run(c, actions).id == c.id
    decreases |actions|
  {
    if actions != [] {
      MovesAdvanceTheVersion(c, actions[0]);
      VersionCountsMoves(Next(c, actions[0]), actions[1..]);
    }
  }

  /**
   No ABA. A token issued now is accepted after a run exactly when no commit, real
   head move or compaction lies between and no turn is open; after any of them it
   is stale for every consumer, even when its position and anchor have come back.
  */
  lemma TokensNeverComeBack(c: Conversation, actions: seq<Action>, position: nat)
    requires c.view.InRange() && position <= c.view.lineageLen
    ensures var token := IssueAt(c.Cuts(), position);
            var later := Run(c, actions);
            && (Resolve(later.Cuts(), token).Ok? <==> MoveCount(c, actions) == 0 && later.pending.None?)
            && (Resolve(later.Cuts(), token).Ok? ==> Resolve(later.Cuts(), token) == Ok(position))
            && (MoveCount(c, actions) > 0 ==>
                  && Resolve(later.Cuts(), token) == Err(StaleBoundary(c.version, later.version))
                  && ResolvePendingStep(later.Cuts(), token) == Err(StaleBoundary(c.version, later.version)))
  {
    VersionCountsMoves(c, actions);
    var token := IssueAt(c.Cuts(), position);
    var later := Run(c, actions);
    if MoveCount(c, actions) == 0 {
      assert IssueAt(later.Cuts(), position) == token;
      ResolvesExactlyTheIssued(later.Cuts(), token, position, false);
    }
  }

  /** The ABA situation does occur: position and anchor recur, the token stays dead. */
  lemma RevertAndRedoReissuesThePosition(c: Conversation, target: nat)
    requires c.Valid() && c.pending.None? && c.version + 2 <= MAX_VERSION
    requires target <= c.view.lineageLen && target != c.view.activeLen
    ensures var away := RevertTo(c, IssueAt(c.Cuts(), target));
            && away.Ok?
            && away.value.1.newHead == Head(away.value.0.Cuts())
            && var back := RevertTo(away.value.0, away.value.1.oldHead);
               && back.Ok?
               && back.value.0 == c.(version := c.version + 2)
               && Head(back.value.0.Cuts()) != Head(c.Cuts())
               && Head(back.value.0.Cuts()).afterTurn == Head(c.Cuts()).afterTurn
               && Head(back.value.0.Cuts()).turnCount == Head(c.Cuts()).turnCount
  {
    ResolvesExactlyTheIssued(c.Cuts(), IssueAt(c.Cuts(), target), target, false);
    var moved := RevertTo(c, IssueAt(c.Cuts(), target)).value;
    ResolvesExactlyTheIssued(moved.0.Cuts(), moved.1.oldHead, c.view.activeLen, false);
  }

  /** At the last version number every structural change is refused. */
  lemma LastVersionRefusesMoves(c: Conversation, a: Action)
    requires c.view.InRange() && c.version == MAX_VERSION
    ensures !Moves(c, a) && Next(c, a).view == c.view && Next(c, a).version == c.version
    ensures (a.Commit? || a.CancelIntoCommit? || a.Compact?) ==> Perform(c, a).Err? && Next(c, a) == c
  {
    if a.Revert? && Resolve(c.Cuts(), a.to).Ok? {
      ResolvesExactlyTheIssued(c.Cuts(), a.to, Resolve(c.Cuts(), a.to).value, false);
    }
  }
}
