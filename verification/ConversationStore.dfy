/**
 The mutating conversation object (src/conversation/mod.rs), proved against the
 value-level operations of module Conversations: on success it reaches exactly
 the state they give, on failure nothing has changed.
*/
module ConversationStore {
  import opened Wrappers
  import opened Turns
  import HV = HistoryViews
  import opened HistoryStore
  import B = Boundaries
  import Spec = Conversations
  import opened Projections
  import opened Compactions

  type Error = Spec.ConversationError

  /** A call that did what the specification says, or failed and changed nothing. */
  ghost predicate Refines<T>(
    result: Result<T, Error>, spec: Result<Spec.Conversation, Error>,
    before: Spec.Conversation, after: Spec.Conversation)
  {
    match spec
    case Ok(next) => result.Ok? && after == next
    case Err(e) => result == Err(e) && after == before
  }

  lemma RevertIssuesAfterTheMove(c: Spec.Conversation, token: B.Boundary, target: nat)
    requires c.view.InRange() && B.Resolve(c.Cuts(), token) == Ok(target) && target <= c.view.lineageLen
    requires target != c.view.activeLen && c.version + 1 <= Spec.MAX_VERSION
    ensures var moved := c.Cuts().(activeLen := target, version := c.version + 1);
            Spec.RevertTo(c, token)
            == Ok((c.(view := HV.HeadMoved(c.view, target), version := c.version + 1),
                   Spec.RevertOutcome(B.IssueAt(moved, c.view.activeLen), B.IssueAt(moved, target))))
  {}

  class LiveConversation {
    const id: ConversationId
    const origin: Option<Spec.ForkOrigin>
    const history: History
    var pending: Option<Spec.PendingTurn>
    var version: nat
    var projection: Projection

    ghost function State(): Spec.Conversation
      requires history.raw.Valid()
      reads this, history, history.messageIds
    {
      Spec.Conversation(id, history.Shown(), pending, version, origin, projection)
    }

    ghost predicate Valid()
      reads this, history, history.messageIds
    {
      history.Valid() && State().Valid()
    }

    /** If the identity set changed, it changed under the copy-on-write discipline. */
    twostate predicate LeftAlone(was: IdSet)
      reads this, history, was
    {
      history.LeftShared(was) || (history.messageIds == was && unchanged(was))
    }

    constructor (id: ConversationId)
      ensures Valid() && State() == Spec.NewConversation(id)
      ensures fresh(history) && fresh(history.messageIds)
    {
      this.id := id;
      this.origin := None;
      this.pending := None;
      this.version := 0;
      this.projection := NO_PROJECTION;
      this.history := new History();
    }

    constructor FromParts(
      id: ConversationId, history: History, version: nat, origin: Option<Spec.ForkOrigin>, projection: Projection)
      requires history.Valid() && version <= Spec.MAX_VERSION
      requires origin.Some? ==>
                 origin.value.parent != id && origin.value.forkPoint.conversationId == origin.value.parent
      requires Fits(projection, id, Ids(history.Shown().Addressable()))
      ensures Valid() && this.history == history
      ensures State() == Spec.Conversation(id, history.Shown(), None, version, origin, projection)
    {
      this.id := id;
      this.history := history;
      this.pending := None;
      this.version := version;
      this.origin := origin;
      this.projection := projection;
    }

    /** The facts tokens are issued from; nothing is walked or copied. */
    method Cuts() returns (cuts: B.Cuts)
      requires history.Valid()
      ensures cuts == State().Cuts() && cuts.InRange()
    {
      cuts := B.Cuts(
        id, version, if pending.Some? then Some(pending.value.id) else None,
        history.lineage.turns, history.lineageLen, history.activeLen);
    }

    method BoundaryAfter(turnId: TurnId) returns (result: Result<B.Boundary, B.BoundaryError>)
      requires history.Valid()
      ensures result == B.BoundaryAfter(State().Cuts(), State().view.raw, turnId)
    {
      var cuts := Cuts();
      match B.PositionOf(cuts.backing, turnId)
      case Some(index) =>
        if index + 1 > cuts.lineageLen {
          return Err(B.BeyondForkCeiling(index + 1, cuts.lineageLen));
        }
        return Ok(B.Boundary(id, index + 1, Some(turnId), version));
      case None =>
        var node := history.RawFind(turnId);
        return if node != null then Err(B.TurnNotOnLineage(turnId)) else Err(B.UnknownTurn(turnId));
    }

    method BeginTurn(turnId: TurnId, messageId: MessageId, content: Content, payloadOk: bool)
      returns (result: Result<(), Error>)
      requires Valid()
      modifies this`pending
      ensures history.Valid()
      ensures Refines(result, Spec.BeginTurn(old(State()), turnId, messageId, content, payloadOk), old(State()),
                      State())
    {
      if pending.Some? {
        return Err(Spec.AlreadyPending(pending.value.id));
      }
      var taken := history.RawFind(turnId);
      if taken != null {
        return Err(Spec.PendingDuplicateTurn(turnId));
      }
      if messageId in history.messageIds.ids {
        return Err(Spec.PendingDuplicateMessage(messageId));
      }
      if !payloadOk {
        return Err(Spec.InvalidPayload);
      }
      var tip := history.TipNode();
      var parent := if tip == null then None else Some(tip.turn.id);
      pending := Some(Spec.PendingTurn(turnId, parent, [messageId], [], content, false, false, false));
      return Ok(());
    }

    method InjectUserMessage(token: B.Boundary, messageId: MessageId, content: Content, payloadOk: bool)
      returns (result: Result<(), Error>)
      requires Valid()
      modifies this`pending
      ensures history.Valid()
      ensures Refines(
                result, Spec.InjectUserMessage(old(State()), token, messageId, content, payloadOk),
                old(State()), State())
    {
      var cuts := Cuts();
      var checked := B.ResolvePendingStep(cuts, token);
      if checked.Err? {
        return Err(Spec.BadBoundary(checked.error));
      }
      if pending.None? {
        return Err(Spec.NoPending);
      }
      if messageId in history.messageIds.ids || messageId in pending.value.messages {
        return Err(Spec.PendingDuplicateMessage(messageId));
      }
      if !payloadOk {
        return Err(Spec.InvalidPayload);
      }
      if !pending.value.atStep {
        return Err(Spec.InvalidTransition);
      }
      pending := Some(pending.value.(messages := pending.value.messages + [messageId], content := content));
      return Ok(());
    }

    /** Replaces the open turn by what a checked transition inside it made. */
    method AdvancePending(next: Spec.PendingTurn) returns (result: Result<(), Error>)
      requires Valid()
      modifies this`pending
      ensures history.Valid()
      ensures Refines(result, Spec.AdvancePending(old(State()), next), old(State()), State())
    {
      if pending.None? {
        return Err(Spec.NoPending);
      }
      if next.id != pending.value.id || next.parent != pending.value.parent {
        return Err(Spec.InvalidTransition);
      }
      var message := Spec.FirstClash(next.messages, history.messageIds.ids);
      if message.Some? {
        return Err(Spec.PendingDuplicateMessage(message.value));
      }
      var retained := history.RawTurns();
      var call := Spec.FirstClash(next.calls, Spec.CallsOf(retained));
      if call.Some? {
        return Err(Spec.PendingDuplicateToolCall(call.value));
      }
      pending := Some(next);
      return Ok(());
    }

    /** The ids of the turns below a cut, for ranges to be anchored in. */
    method IdsBelow(cut: nat) returns (ids: seq<TurnId>)
      requires history.Valid() && cut <= history.lineageLen
      ensures ids == Ids(history.Shown().backing[..cut])
    {
      ids := Ids(history.lineage.turns[..cut]);
    }

    /** The overlay after the turn just appended on top of the first `head`. */
    method ExtendedOverlay(head: nat) returns (extended: Projection)
      requires history.Valid() && history.activeLen == head + 1
      ensures extended == Extended(projection, id, Ids(history.Shown().Active()), head)
    {
      var ids := IdsBelow(history.activeLen);
      extended := ExtendAfterCommit(projection, id, ids, head);
    }

    method Advance(turn: Turn)
      requires history.Valid() && HV.Admissible(history.Shown(), turn)
      modifies this`version, this`projection, history, history.messageIds
      ensures history.Valid() && history.LeftShared(old(history.messageIds))
      ensures history.messageIds == old(history.messageIds) || fresh(history.messageIds)
      ensures State() == Spec.Committed(old(State()), turn)
    {
      var previousActiveLen := history.activeLen;
      history.Append(turn);
      projection := ExtendedOverlay(previousActiveLen);
      version := version + 1;
    }

    /**
     All that can refuse a commit is decided first, so a refusal leaves no trace
     and an accepted draft moves history and version together.
    */
    method CommitDraft(draft: Spec.PendingTurn) returns (result: Result<TurnId, Error>)
      requires Valid()
      modifies this`version, this`projection, history, history.messageIds
      ensures history.Valid()
      ensures history.messageIds == old(history.messageIds) || fresh(history.messageIds)
      ensures Refines(result, Spec.CommitDraft(old(State()), draft), old(State()), State())
      ensures result.Ok? ==> result.value == draft.id
      ensures LeftAlone(old(history.messageIds))
    {
      if version + 1 > Spec.MAX_VERSION {
        return Err(Spec.NonAtomicCommit(version));
      }
      var tip := history.TipNode();
      var expectedParent := if tip == null then None else Some(tip.turn.id);
      var retained := history.RawTurns();
      var validated := Spec.ValidateTurn(draft, retained, expectedParent);
      Spec.ValidateTurnIsTheGate(draft, history.Shown());
      if validated.Err? {
        return Err(Spec.CommitRefused(validated.error));
      }
      Advance(validated.value);
      return Ok(validated.value.id);
    }

    method CommitPending() returns (result: Result<TurnId, Error>)
      requires Valid()
      modifies this`version, this`pending, this`projection, history, history.messageIds
      ensures history.Valid()
      ensures history.messageIds == old(history.messageIds) || fresh(history.messageIds)
      ensures Refines(result, Spec.CommitPending(old(State())), old(State()), State())
      ensures LeftAlone(old(history.messageIds))
    {
      if pending.None? {
        return Err(Spec.NoPending);
      }
      if !pending.value.ready {
        return Err(Spec.InvalidTransition);
      }
      result := CommitDraft(pending.value);
      if result.Ok? {
        pending := None;
      }
    }

    /** Cancels into a commit of the closed turn, under the open turn's identity. */
    method CommitCancelled(closed: Spec.PendingTurn) returns (result: Result<TurnId, Error>)
      requires Valid()
      modifies this`version, this`pending, this`projection, history, history.messageIds
      ensures history.Valid()
      ensures history.messageIds == old(history.messageIds) || fresh(history.messageIds)
      ensures Refines(result, Spec.CommitCancelled(old(State()), closed), old(State()), State())
      ensures LeftAlone(old(history.messageIds))
    {
      if pending.None? {
        return Err(Spec.NoPending);
      }
      if pending.value.ready {
        return Err(Spec.InvalidTransition);
      }
      result := CommitDraft(closed.(id := pending.value.id, parent := pending.value.parent));
      if result.Ok? {
        pending := None;
      }
    }

    method DiscardPending() returns (result: Result<TurnId, Error>)
      requires Valid()
      modifies this`pending
      ensures history.Valid()
      ensures Refines(result, Spec.Discard(old(State())), old(State()), State())
    {
      if pending.None? {
        return Err(Spec.NoPending);
      }
      result := Ok(pending.value.id);
      pending := None;
    }

    method PlannedOverlay(plan: CompactionPlan) returns (next: Result<Projection, ProjectionError>)
      requires history.Valid()
      ensures next == Planned(projection, id, Ids(history.Shown().Addressable()), plan)
    {
      var ids := IdsBelow(history.lineageLen);
      next := CompactedProjection(projection, id, ids, plan);
    }

    /** The next overlay is built and checked beside the old one before anything moves. */
    method ApplyCompaction(plan: CompactionPlan) returns (result: Result<(), Error>)
      requires history.Valid()
      modifies this`version, this`projection
      ensures history.Valid()
      ensures Refines(result, Spec.ApplyCompaction(old(State()), plan), old(State()), State())
    {
      var cuts := Cuts();
      var header := Spec.ValidateCompaction(cuts, plan);
      if header.Err? {
        return Err(Spec.BadProjection(header.error));
      }
      if version + 1 > Spec.MAX_VERSION {
        return Err(Spec.NonAtomicProjectionUpdate(version));
      }
      var next := PlannedOverlay(plan);
      if next.Err? {
        return Err(Spec.BadProjection(next.error));
      }
      projection := next.value;
      version := version + 1;
      return Ok(());
    }

    /** Renders the committed turns; the artifact of a visible cover is always found. */
    method EffectiveView() returns (pieces: seq<Piece>)
      requires Valid()
      ensures RendersUpTo(pieces, State().view.activeLen)
      ensures ShowSpans(pieces, projection.spans, projection.artifacts, State().view.activeLen)
      ensures forall i :: 0 <= i < |pieces| && pieces[i].FromArtifact? ==> pieces[i].artifact.messages > 0
    {
      FitsExactlyWhen(projection, id, Ids(State().view.Addressable()));
      pieces := Projections.EffectiveView(projection, history.activeLen, id, Ids(State().view.Addressable()));
    }

    method MoveHead(target: nat)
      requires history.Valid() && target <= history.lineageLen
      modifies this`version, history
      ensures history.Valid() && history.messageIds == old(history.messageIds)
      ensures State() == old(State()).(view := HV.HeadMoved(old(State()).view, target), version := old(version) + 1)
    {
      history.MoveHeadTo(target);
      version := version + 1;
    }

    /** The real move to a resolved cut: the version rises with the head, or nothing moves. */
    method RevertToCut(token: B.Boundary, target: nat) returns (result: Result<Spec.RevertOutcome, Error>)
      requires Valid() && B.Resolve(State().Cuts(), token) == Ok(target) && target <= history.lineageLen
      requires target != history.activeLen
      modifies this`version, history
      ensures history.Valid() && history.messageIds == old(history.messageIds)
      ensures match Spec.RevertTo(old(State()), token)
              case Ok(moved) => result == Ok(moved.1) && State() == moved.0
              case Err(e) => result == Err(e) && State() == old(State())
    {
      if version + 1 > Spec.MAX_VERSION {
        return Err(Spec.NonAtomicHeadMove(version));
      }
      var oldPosition := history.activeLen;
      var cuts := Cuts();
      var moved := cuts.(activeLen := target, version := version + 1);
      RevertIssuesAfterTheMove(State(), token, target);
      MoveHead(target);
      return Ok(Spec.RevertOutcome(B.IssueAt(moved, oldPosition), B.IssueAt(moved, target)));
    }

    method RevertTo(token: B.Boundary) returns (result: Result<Spec.RevertOutcome, Error>)
      requires Valid()
      modifies this`version, history
      ensures history.Valid() && history.messageIds == old(history.messageIds)
      ensures match Spec.RevertTo(old(State()), token)
              case Ok(moved) => result == Ok(moved.1) && State() == moved.0
              case Err(e) => result == Err(e) && State() == old(State())
    {
      var cuts := Cuts();
      var target := B.Resolve(cuts, token);
      if target.Err? {
        return Err(Spec.BadBoundary(target.error));
      }
      B.ResolvesExactlyTheIssued(cuts, token, target.value, false);
      if target.value == history.activeLen {
        var head := B.Head(cuts);
        return Ok(Spec.RevertOutcome(head, head));
      }
      result := RevertToCut(token, target.value);
    }

    /** A fork holds the parent's lineage object itself, and only fresh mutable parts beside it. */
    method ForkAt(token: B.Boundary, childId: ConversationId) returns (result: Result<LiveConversation, Error>)
      requires Valid()
      ensures match Spec.ForkAt(State(), token, childId)
              case Err(e) => result == Err(e)
              case Ok(child) =>
                && result.Ok? && fresh(result.value) && fresh(result.value.history)
                && fresh(result.value.history.messageIds)
                && result.value.history.lineage == history.lineage
                && result.value.Valid() && result.value.State() == child
    {
      if childId == id {
        return Err(Spec.DuplicateConversation(childId));
      }
      var cuts := Cuts();
      var position := B.Resolve(cuts, token);
      if position.Err? {
        return Err(Spec.BadBoundary(position.error));
      }
      B.ResolvesExactlyTheIssued(cuts, token, position.value, false);
      var shared := history.SharedPrefix(position.value);
      var raw := RawFor(childId, Ids(shared.lineage.turns[..shared.activeLen]));
      RawForFits(childId, Ids(shared.Shown().Active()));
      var child := new LiveConversation.FromParts(childId, shared, 0, Some(Spec.ForkOrigin(id, token)), raw);
      return Ok(child);
    }
  }
}
