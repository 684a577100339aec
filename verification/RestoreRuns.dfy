/**
 Which runs of a conversation leave it unable to come back from its own snapshot.
*/
module RestoreRuns {
  import opened Wrappers
  import opened Turns
  import opened ParentGraph
  import HV = HistoryViews
  import B = Boundaries
  import opened Spec = Conversations
  import opened ConversationRuns
  import opened Snapshots

  predicate CanRestore(c: Conversation)
    requires c.view.InRange()
  {
    SingleRoot(c.view.raw) && StillAnchored(c)
  }

  /** The turn the conversation was forked after is one of its own raw turns. */
  predicate AnchorRetained(c: Conversation) {
    c.origin.Some? && c.origin.value.forkPoint.afterTurn.Some? ==>
      HasId(c.view.raw, c.origin.value.forkPoint.afterTurn.value)
  }

  /** The head lies where a commit starts a second root or leaves the fork point. */
  predicate RiskyHead(c: Conversation) {
    || (c.view.activeLen == 0 && c.view.raw != [])
    || (c.origin.Some? && c.view.activeLen < c.origin.value.forkPoint.turnCount)
  }

  predicate CommitsAt(c: Conversation, a: Action)
    requires c.view.InRange()
  {
    (a.Commit? || a.CancelIntoCommit?) && Perform(c, a).Ok?
  }

  /** No successful commit of the run happens at a risky head. */
  predicate CommitsSafely(c: Conversation, actions: seq<Action>)
    requires c.view.InRange()
    decreases |actions|
  {
    actions != [] ==>
      && !(CommitsAt(c, actions[0]) && RiskyHead(c))
      && CommitsSafely(Next(c, actions[0]), actions[1..])
  }

  /** A fork point that left the lineage never comes back. */
  lemma LostForkPointStaysLost(c: Conversation, turn: Turn)
    requires c.Valid() && AnchorRetained(c) && !StillAnchored(c) && HV.Admissible(c.view, turn)
    ensures !StillAnchored(c.(view := HV.Appended(c.view, turn)))
  {
    var point := c.origin.value.forkPoint;
    var before, after := c.view.Addressable(), HV.Appended(c.view, turn).Addressable();
    assert after == c.view.backing[..c.view.activeLen] + [turn];
    assert forall k :: 0 <= k < c.view.activeLen ==> after[k] == before[k];
  }

  lemma SingleRootOfExtended(turns: seq<Turn>, turn: Turn)
    ensures SingleRoot(turns + [turn]) ==> SingleRoot(turns)
  {
    if SingleRoot(turns + [turn]) {
      forall i, j | 0 <= i < j < |turns|
        ensures turns[i].parent.Some? || turns[j].parent.Some?
      {
        assert (turns + [turn])[i] == turns[i] && (turns + [turn])[j] == turns[j];
      }
    }
  }

  lemma CommitDecidesRestore(c: Conversation, draft: PendingTurn)
    requires c.Valid() && AnchorRetained(c) && CommitDraft(c, draft).Ok?
    ensures var after := CommitDraft(c, draft).value;
            && AnchorRetained(after)
            && (CanRestore(after) <==> CanRestore(c) && !RiskyHead(c))
  {
    ValidateTurnIsTheGate(draft, c.view);
    var turn := ValidateTurn(draft, c.view.raw, c.view.Tip()).value;
    var after := CommitDraft(c, draft).value;
    assert after == Committed(c, turn);
    CommitsThatLoseTheRoot(c.view, turn);
    SingleRootOfExtended(c.view.raw, turn);
    if c.origin.Some? {
      if c.origin.value.forkPoint.afterTurn.Some? {
        HV.HasIdInExtended(c.view.raw, turn, c.origin.value.forkPoint.afterTurn.value);
      }
      if StillAnchored(c) {
        CommitsThatLoseTheForkPoint(c, turn);
      } else {
        LostForkPointStaysLost(c, turn);
      }
    }
  }

  lemma StepDecidesRestore(c: Conversation, a: Action)
    requires c.Valid() && AnchorRetained(c)
    ensures AnchorRetained(Next(c, a))
    ensures CanRestore(Next(c, a)) <==> CanRestore(c) && !(CommitsAt(c, a) && RiskyHead(c))
  {
    if CommitsAt(c, a) {
      var p := c.pending.value;
      var draft := if a.Commit? then p else a.closed.(id := p.id, parent := p.parent);
      CommitDecidesRestore(c, draft);
    } else {
      MovesAdvanceTheVersion(c, a);
      if a.Revert? && B.Resolve(c.Cuts(), a.to).Ok? {
        B.ResolvesExactlyTheIssued(c.Cuts(), a.to, B.Resolve(c.Cuts(), a.to).value, false);
      }
      assert Next(c, a).view.raw == c.view.raw && Next(c, a).view.Addressable() == c.view.Addressable();
    }
  }

  /**
   Over whole runs: a conversation can come back from its snapshot exactly when it
   could at the start and no commit was made from the zero-turn cut over a
   non-empty log or from a head below its fork point.
  */
  lemma {:induction false} RunsThatStayRestorable(c: Conversation, actions: seq<Action>)
    requires c.Valid() && AnchorRetained(c)
    ensures CanRestore(Run(c, actions)) <==> CanRestore(c) && CommitsSafely(c, actions)
    decreases |actions|
  {
    if actions != [] {
      StepDecidesRestore(c, actions[0]);
      NextKeepsValid(c, actions[0]);
      RunsThatStayRestorable(Next(c, actions[0]), actions[1..]);
    }
  }

  /** A conversation started from nothing comes back exactly while its run commits safely. */
  lemma NewConversationsRestoreExactlyWhen(id: ConversationId, actions: seq<Action>)
    ensures CanRestore(Run(NewConversation(id), actions)) <==> CommitsSafely(NewConversation(id), actions)
  {
    NewIsValid(id);
    RunsThatStayRestorable(NewConversation(id), actions);
  }

  lemma ForksCanRestore(c: Conversation, b: B.Boundary, childId: ConversationId)
    requires c.Valid() && ForkAt(c, b, childId).Ok?
    ensures CanRestore(ForkAt(c, b, childId).value) && AnchorRetained(ForkAt(c, b, childId).value)
  {
    B.ResolvesExactlyTheIssued(c.Cuts(), b, b.turnCount, false);
    var child := ForkAt(c, b, childId).value;
    assert c.view.Consistent();
    var raw := child.view.raw;
    assert child.view.Addressable() == raw;
    ChainPrefix(c.view.backing, b.turnCount);
    forall i, j | 0 <= i < j < |raw|
      ensures raw[i].parent.Some? || raw[j].parent.Some?
    {
      assert raw[j].parent == Anchor(raw, j);
    }
    if b.turnCount > 0 {
      assert raw[b.turnCount - 1].id == b.afterTurn.value;
    }
  }

  // ----- the two families, on the smallest runs -----

  function Filled(turnId: TurnId, parent: Option<TurnId>, message: MessageId, body: Content): PendingTurn {
    PendingTurn(turnId, parent, [message], [], body, true, false, true)
  }

  /** Begin a turn, receive its answer, commit it. */
  function OneTurn(turnId: TurnId, parent: Option<TurnId>, message: MessageId, body: Content): seq<Action> {
    [Begin(turnId, message, body, true), Advance(Filled(turnId, parent, message, body)), Commit]
  }

  lemma RunOfThree(c: Conversation, a: Action, b: Action, d: Action)
    requires c.view.InRange()
    ensures Run(c, [a, b, d]) == Next(Next(Next(c, a), b), d)
  {
    var first, second := Next(c, a), Next(Next(c, a), b);
    assert [a, b, d][1..] == [b, d] && [b, d][1..] == [d];
    assert Run(second, [d]) == Run(Next(second, d), []);
    assert Run(first, [b, d]) == Run(second, [d]);
  }

  predicate FreshFor(c: Conversation, turnId: TurnId, message: MessageId) {
    !HasId(c.view.raw, turnId) && message !in c.view.messageIds
  }

  lemma FilledCommits(c: Conversation, turnId: TurnId, message: MessageId, body: Content)
    requires c.view.WellFormed() && c.version < MAX_VERSION && FreshFor(c, turnId, message)
    ensures CommitDraft(c, Filled(turnId, c.view.Tip(), message, body))
            == Ok(Committed(c, Turn(turnId, c.view.Tip(), [message], [], body)))
  {
    assert c.view.Consistent();
    ValidateTurnIsTheGate(Filled(turnId, c.view.Tip(), message, body), c.view);
  }

  lemma FillingAdvances(c: Conversation, turnId: TurnId, message: MessageId, body: Content)
    requires c.Valid() && c.pending.None? && FreshFor(c, turnId, message)
    ensures var filled := Filled(turnId, c.view.Tip(), message, body);
            Next(Next(c, Begin(turnId, message, body, true)), Advance(filled)) == c.(pending := Some(filled))
  {}

  lemma OneTurnAppends(c: Conversation, turnId: TurnId, message: MessageId, body: Content)
    requires c.Valid() && c.pending.None? && c.version < MAX_VERSION && FreshFor(c, turnId, message)
    ensures Run(c, OneTurn(turnId, c.view.Tip(), message, body))
            == Committed(c, Turn(turnId, c.view.Tip(), [message], [], body))
  {
    var filled := Filled(turnId, c.view.Tip(), message, body);
    RunOfThree(c, Begin(turnId, message, body, true), Advance(filled), Commit);
    FillingAdvances(c, turnId, message, body);
    FilledCommits(c, turnId, message, body);
    FilledCommits(c.(pending := Some(filled)), turnId, message, body);
  }

  /** A turn begun and committed at a risky head always leaves a conversation that its snapshot cannot bring back. */
  lemma RiskyTurnCannotRestore(c: Conversation, turnId: TurnId, message: MessageId, body: Content)
    requires c.Valid() && AnchorRetained(c) && RiskyHead(c)
    requires c.pending.None? && c.version < MAX_VERSION && FreshFor(c, turnId, message)
    ensures var last := Run(c, OneTurn(turnId, c.view.Tip(), message, body));
            && last == Committed(c, Turn(turnId, c.view.Tip(), [message], [], body))
            && last.Valid() && last.pending.None? && !CanRestore(last) && !Accepted(SnapshotOf(last).value)
  {
    var actions := OneTurn(turnId, c.view.Tip(), message, body);
    OneTurnAppends(c, turnId, message, body);
    FilledCommits(c, turnId, message, body);
    CommitDecidesRestore(c, Filled(turnId, c.view.Tip(), message, body));
    RunKeepsValid(c, actions);
    RestoreUndoesSnapshotExactlyWhen(Run(c, actions));
  }

  /** Going back to the zero-turn cut from the end of its lineage. */
  lemma BackToZero(c: Conversation)
    requires c.Valid() && c.pending.None? && c.version < MAX_VERSION && c.view.activeLen > 0
    ensures var back := Next(c, Revert(B.IssueAt(c.Cuts(), 0)));
            back.Valid() && back == c.(view := HV.HeadMoved(c.view, 0), version := c.version + 1)
  {
    B.ResolvesExactlyTheIssued(c.Cuts(), B.IssueAt(c.Cuts(), 0), 0, false);
    NextKeepsValid(c, Revert(B.IssueAt(c.Cuts(), 0)));
  }

  /** A new conversation after its first turn. */
  lemma FirstTurn(id: ConversationId, turnId: TurnId, message: MessageId, body: Content)
    ensures var first := Run(NewConversation(id), OneTurn(turnId, None, message, body));
            && first.Valid() && first.pending.None? && first.id == id && first.origin.None?
            && first.version == 1 && first.view.activeLen == 1 && first.view.lineageLen == 1
            && first.view.raw == [Turn(turnId, None, [message], [], body)] == first.view.Addressable()
  {
    NewIsValid(id);
    OneTurnAppends(NewConversation(id), turnId, message, body);
    RunKeepsValid(NewConversation(id), OneTurn(turnId, None, message, body));
  }

  /** Commit a turn, go back to the zero-turn cut, commit another: restore refuses it. */
  lemma SecondRootCannotRestore(id: ConversationId, one: TurnId, two: TurnId, m: MessageId, n: MessageId, body: Content)
    requires one != two && m != n
    ensures var first := Run(NewConversation(id), OneTurn(one, None, m, body));
            var back := Next(first, Revert(B.IssueAt(first.Cuts(), 0)));
            var last := Run(back, OneTurn(two, None, n, body));
            && last.Valid() && last.pending.None?
            && last.view.Active() == [Turn(two, None, [n], [], body)] && |last.view.raw| == 2
            && !Accepted(SnapshotOf(last).value)
  {
    FirstTurn(id, one, m, body);
    var first := Run(NewConversation(id), OneTurn(one, None, m, body));
    BackToZero(first);
    var back := Next(first, Revert(B.IssueAt(first.Cuts(), 0)));
    MessageSetIsTheLog(back);
    RiskyTurnCannotRestore(back, two, n, body);
  }

  lemma LosesTheForkPoint(c: Conversation, turnId: TurnId, message: MessageId, body: Content)
    requires c.Valid() && c.origin.Some? && StillAnchored(c) && c.view.activeLen < c.origin.value.forkPoint.turnCount
    requires FreshFor(c, turnId, message)
    ensures !StillAnchored(Committed(c, Turn(turnId, c.view.Tip(), [message], [], body)))
  {
    var turn := Turn(turnId, c.view.Tip(), [message], [], body);
    MessageSetIsTheLog(c);
    CommitsThatLoseTheForkPoint(c, turn);
    assert Committed(c, turn).view == HV.Appended(c.view, turn);
  }

  /** Fork after one turn, go back below the fork point, commit: restore refuses the child. */
  lemma ForkBelowItsPointCannotRestore(id: ConversationId, childId: ConversationId, one: TurnId, two: TurnId,
                                       m: MessageId, n: MessageId, body: Content)
    requires id != childId && one != two && m != n
    ensures var parent := Run(NewConversation(id), OneTurn(one, None, m, body));
            var fork := ForkAt(parent, B.Head(parent.Cuts()), childId);
            && fork.Ok?
            && var back := Next(fork.value, Revert(B.IssueAt(fork.value.Cuts(), 0)));
               var last := Run(back, OneTurn(two, None, n, body));
               && last.Valid() && last.pending.None? && !StillAnchored(last)
               && !Accepted(SnapshotOf(last).value)
  {
    FirstTurn(id, one, m, body);
    var parent := Run(NewConversation(id), OneTurn(one, None, m, body));
    var token := B.Head(parent.Cuts());
    B.ResolvesExactlyTheIssued(parent.Cuts(), token, 1, false);
    ForkKeepsValid(parent, token, childId);
    ForksCanRestore(parent, token, childId);
    var child := ForkAt(parent, token, childId).value;
    BackToZero(child);
    var back := Next(child, Revert(B.IssueAt(child.Cuts(), 0)));
    assert child.view.raw == parent.view.Addressable()[..1] == parent.view.raw;
    MessageSetIsTheLog(back);
    RiskyTurnCannotRestore(back, two, n, body);
    LosesTheForkPoint(back, two, n, body);
  }
}
