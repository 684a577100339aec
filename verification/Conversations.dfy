/**
 One conversation as a state machine over history, pending turn and version
 (src/conversation/mod.rs, boundary/head.rs, boundary/fork.rs, pending/cancel.rs),
 as a value. Module ConversationStore proves the mutating object equal to it.
*/
module Conversations {
  import opened Wrappers
  import opened Turns
  import opened HistoryViews
  import opened Boundaries
  import opened Projections
  import opened Compactions

  const MAX_VERSION: nat := 0xFFFF_FFFF_FFFF_FFFF

  /**
   The open transaction. `ready` says the final assistant message is frozen;
   `atStep` that a tool-result batch just closed; `grammatical` is the verdict
   of the role and tool-pairing grammar on the messages so far.
  */
  datatype PendingTurn = PendingTurn(
    id: TurnId,
    parent: Option<TurnId>,
    messages: seq<MessageId>,
    calls: seq<ToolCallId>,
    content: Content,
    ready: bool,
    atStep: bool,
    grammatical: bool
  )

  datatype ForkOrigin = ForkOrigin(parent: ConversationId, forkPoint: Boundary)

  datatype Conversation = Conversation(
    id: ConversationId,
    view: View,
    pending: Option<PendingTurn>,
    version: nat,
    origin: Option<ForkOrigin>,
    projection: Projection
  ) {
    function Cuts(): Cuts {
      Boundaries.Cuts(
        id, version, if pending.Some? then Some(pending.value.id) else None,
        view.backing, view.lineageLen, view.activeLen)
    }

    /** What every reachable conversation satisfies. */
    ghost predicate Valid() {
      && view.WellFormed()
      && version <= MAX_VERSION
      && (pending.Some? ==> PendingFits(view, pending.value))
      && (origin.Some? ==> origin.value.parent != id && origin.value.forkPoint.conversationId == origin.value.parent)
      && Fits(projection, id, Ids(view.Addressable()))
    }
  }

  /** The open turn extends the current tip and owns identities nobody else has. */
  ghost predicate PendingFits(v: View, p: PendingTurn)
    requires v.InRange()
  {
    Admissible(v, Turn(p.id, p.parent, p.messages, p.calls, p.content))
  }

  datatype CommitError =
    | DuplicateTurn(turn: TurnId)
    | ParentMismatch(expectedParent: Option<TurnId>, actualParent: Option<TurnId>)
    | DuplicateMessage(message: MessageId)
    | DuplicateToolCall(call: ToolCallId)
    | NotClosed

  datatype ConversationError =
    | AlreadyPending(open: TurnId)
    | NoPending
    | PendingDuplicateTurn(taken: TurnId)
    | PendingDuplicateMessage(takenMessage: MessageId)
    | PendingDuplicateToolCall(takenCall: ToolCallId)
    | InvalidPayload
    | InvalidTransition
    | BadBoundary(source: BoundaryError)
    | CommitRefused(reason: CommitError)
    | NonAtomicCommit(commitVersion: nat)
    | NonAtomicHeadMove(moveVersion: nat)
    | BadProjection(projection: ProjectionError)
    | NonAtomicProjectionUpdate(projectionVersion: nat)
    | DuplicateConversation(takenConversation: ConversationId)

  function NewConversation(id: ConversationId): Conversation {
    Conversation(id, Empty, None, 0, None, NO_PROJECTION)
  }

  // ----- validation: src/conversation/validation/identity.rs -----

  /** First item that repeats an earlier one or was seen before. */
  function FirstClash<T(==)>(items: seq<T>, seen: set<T>): (clash: Option<T>)
    ensures clash.None? <==> NoRepeats(items) && forall i :: 0 <= i < |items| ==> items[i] !in seen
    ensures clash.Some? ==> clash.value in items
  {
    if items == [] then None
    else if items[0] in seen then Some(items[0])
    else
      var rest := FirstClash(items[1..], seen + {items[0]});
      assert items == [items[0]] + items[1..];
      assert forall i :: 0 <= i < |items[1..]| ==> items[1..][i] == items[i + 1];
      assert NoRepeats(items) ==> NoRepeats(items[1..]);
      rest
  }

  function CallsOf(turns: seq<Turn>): set<ToolCallId> {
    set t, c | t in turns && c in t.calls :: c
  }

  function ValidateTurn(draft: PendingTurn, raw: seq<Turn>, expectedParent: Option<TurnId>): Result<Turn, CommitError> {
    if HasId(raw, draft.id) then Err(DuplicateTurn(draft.id))
    else if draft.parent != expectedParent then Err(ParentMismatch(expectedParent, draft.parent))
    else
      var message := FirstClash(draft.messages, MessagesOf(raw));
      if message.Some? then Err(DuplicateMessage(message.value))
      else
        var call := FirstClash(draft.calls, CallsOf(raw));
        if call.Some? then Err(DuplicateToolCall(call.value))
        else if !draft.grammatical then Err(NotClosed)
        else Ok(Turn(draft.id, draft.parent, draft.messages, draft.calls, draft.content))
  }

  lemma FreshAgainstRaw(raw: seq<Turn>, turn: Turn)
    ensures (forall m :: m in turn.messages ==> m !in MessagesOf(raw))
            && (forall c :: c in turn.calls ==> c !in CallsOf(raw))
            <==> forall t :: t in raw ==> Disjoint(t, turn)
  {}

  /** The commit gate accepts exactly the closed drafts that may extend the view. */
  lemma ValidateTurnIsTheGate(draft: PendingTurn, v: View)
    requires v.InRange()
    ensures ValidateTurn(draft, v.raw, v.Tip()).Ok? <==> PendingFits(v, draft) && draft.grammatical
  {
    FreshAgainstRaw(v.raw, Turn(draft.id, draft.parent, draft.messages, draft.calls, draft.content));
  }

  // ----- operations -----

  function BeginTurn(c: Conversation, turnId: TurnId, messageId: MessageId, content: Content, payloadOk: bool)
    : Result<Conversation, ConversationError>
    requires c.view.InRange()
  {
    if c.pending.Some? then Err(AlreadyPending(c.pending.value.id))
    else if HasId(c.view.raw, turnId) then Err(PendingDuplicateTurn(turnId))
    else if messageId in c.view.messageIds then Err(PendingDuplicateMessage(messageId))
    else if !payloadOk then Err(InvalidPayload)
    else
      Ok(c.(pending := Some(PendingTurn(turnId, c.view.Tip(), [messageId], [], content, false, false, false))))
  }

  /**
   Any checked transition inside the open turn: streaming, freezing, registering
   calls, appending results, resuming after cancel. It may rewrite everything but
   the identity and the captured parent, and every identity it ends with was
   checked against the retained history.
  */
  function AdvancePending(c: Conversation, next: PendingTurn): Result<Conversation, ConversationError>
    requires c.view.InRange()
  {
    if c.pending.None? then Err(NoPending)
    else if next.id != c.pending.value.id || next.parent != c.pending.value.parent then Err(InvalidTransition)
    else
      var message := FirstClash(next.messages, c.view.messageIds);
      if message.Some? then Err(PendingDuplicateMessage(message.value))
      else
        var call := FirstClash(next.calls, CallsOf(c.view.raw));
        if call.Some? then Err(PendingDuplicateToolCall(call.value))
        else Ok(c.(pending := Some(next)))
  }

  function InjectUserMessage(c: Conversation, b: Boundary, messageId: MessageId, content: Content, payloadOk: bool)
    : Result<Conversation, ConversationError>
    requires c.view.InRange()
  {
    match ResolvePendingStep(c.Cuts(), b)
    case Err(e) => Err(BadBoundary(e))
    case Ok(_) =>
      if c.pending.None? then Err(NoPending)
      else if messageId in c.view.messageIds then Err(PendingDuplicateMessage(messageId))
      else
        var p := c.pending.value;
        if messageId in p.messages then Err(PendingDuplicateMessage(messageId))
        else if !payloadOk then Err(InvalidPayload)
        else if !p.atStep then Err(InvalidTransition)
        else Ok(c.(pending := Some(p.(messages := p.messages + [messageId], content := content))))
  }

  /** One more turn on top of the head, with the overlay carried along. */
  function Committed(c: Conversation, turn: Turn): Conversation
    requires c.view.InRange()
  {
    var view := Appended(c.view, turn);
    c.(view := view, version := c.version + 1,
       projection := Extended(c.projection, c.id, Ids(view.Active()), c.view.activeLen))
  }

  function CommitDraft(c: Conversation, draft: PendingTurn): Result<Conversation, ConversationError>
    requires c.view.InRange()
  {
    if c.version + 1 > MAX_VERSION then Err(NonAtomicCommit(c.version))
    else
      match ValidateTurn(draft, c.view.raw, c.view.Tip())
      case Err(e) => Err(CommitRefused(e))
      case Ok(turn) => Ok(Committed(c, turn))
  }

  function CommitPending(c: Conversation): Result<Conversation, ConversationError>
    requires c.view.InRange()
  {
    if c.pending.None? then Err(NoPending)
    else if !c.pending.value.ready then Err(InvalidTransition)
    else
      var committed :- CommitDraft(c, c.pending.value);
      Ok(committed.(pending := None))
  }

  /** Cancels into a commit: closes the open calls and appends a final message. */
  function CommitCancelled(c: Conversation, closed: PendingTurn): Result<Conversation, ConversationError>
    requires c.view.InRange()
  {
    if c.pending.None? then Err(NoPending)
    else if c.pending.value.ready then Err(InvalidTransition)
    else
      var p := c.pending.value;
      var committed :- CommitDraft(c, closed.(id := p.id, parent := p.parent));
      Ok(committed.(pending := None))
  }

  function Discard(c: Conversation): Result<Conversation, ConversationError> {
    if c.pending.None? then Err(NoPending) else Ok(c.(pending := None))
  }

  function ValidateCompaction(cuts: Cuts, plan: CompactionPlan): Result<(), ProjectionError> {
    if plan.conversationId != cuts.id then Err(CompactionOwnerMismatch(cuts.id, plan.conversationId))
    else if plan.version != cuts.version then Err(StaleCompactionPlan(plan.version, cuts.version))
    else if cuts.pending.Some? then Err(CompactionWhilePending(cuts.pending.value))
    else if plan.head != cuts.activeLen then Err(CompactionHeadMismatch(plan.head, cuts.activeLen))
    else if cuts.activeLen != cuts.lineageLen then Err(CompactionOnRevertedHead(cuts.activeLen, cuts.lineageLen))
    else if plan.steps == [] then Err(EmptyCompactionPlan)
    else Ok(())
  }

  /** Replaces the overlay only: history and open turn stay, the version moves. */
  function WithOverlay(c: Conversation, plan: CompactionPlan, next: Result<Projection, ProjectionError>)
    : Result<Conversation, ConversationError>
  {
    match ValidateCompaction(c.Cuts(), plan)
    case Err(e) => Err(BadProjection(e))
    case Ok(_) =>
      if c.version + 1 > MAX_VERSION then Err(NonAtomicProjectionUpdate(c.version))
      else
        match next
        case Err(e) => Err(BadProjection(e))
        case Ok(projection) => Ok(c.(projection := projection, version := c.version + 1))
  }

  function ApplyCompaction(c: Conversation, plan: CompactionPlan): Result<Conversation, ConversationError>
    requires c.view.InRange()
  {
    WithOverlay(c, plan, Planned(c.projection, c.id, Ids(c.view.Addressable()), plan))
  }

  datatype RevertOutcome = RevertOutcome(oldHead: Boundary, newHead: Boundary)

  function RevertTo(c: Conversation, b: Boundary): Result<(Conversation, RevertOutcome), ConversationError>
    requires c.view.InRange()
  {
    match Resolve(c.Cuts(), b)
    case Err(e) => Err(BadBoundary(e))
    case Ok(target) =>
      if target == c.view.activeLen then
        Ok((c, RevertOutcome(Head(c.Cuts()), Head(c.Cuts()))))
      else if c.version + 1 > MAX_VERSION then Err(NonAtomicHeadMove(c.version))
      else
        ResolvesExactlyTheIssued(c.Cuts(), b, target, false);
        var moved := c.(view := HeadMoved(c.view, target), version := c.version + 1);
        Ok((moved, RevertOutcome(IssueAt(moved.Cuts(), c.view.activeLen), IssueAt(moved.Cuts(), target))))
  }

  function ForkAt(c: Conversation, b: Boundary, childId: ConversationId): Result<Conversation, ConversationError>
    requires c.view.InRange()
  {
    if childId == c.id then Err(DuplicateConversation(childId))
    else
      match Resolve(c.Cuts(), b)
      case Err(e) => Err(BadBoundary(e))
      case Ok(position) =>
        ResolvesExactlyTheIssued(c.Cuts(), b, position, false);
        var view := SharedPrefix(c.view, position).value;
        Ok(Conversation(childId, view, None, 0, Some(ForkOrigin(c.id, b)), RawFor(childId, Ids(view.Active()))))
  }
}
