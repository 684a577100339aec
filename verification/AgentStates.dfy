/** Agent state, its loop cursor and its reconfiguration queue (src/agent/state.rs, src/agent/state/cursor.rs). */
module AgentStates {
  import opened Wrappers
  import opened ToolSets
  import opened Reconfig
  import Store = ConversationStore

  type StepId = nat
  type CallId = nat
  type RequirementNo = nat

  /** Where the loop stands; requirement addresses are opaque. */
  datatype LoopCursor =
    | Idle
    | StreamingStep(step: StepId, awaited: Option<RequirementNo>)
    | AwaitingTool(toolStep: StepId, calls: seq<CallId>, bound: Option<map<CallId, RequirementNo>>)
    | AwaitingApproval(approvalStep: StepId, call: CallId, approval: Option<RequirementNo>)
    | CancelRecovery(cancelledStep: Option<StepId>, reason: nat)
    | AwaitingReconfig(committing: Option<StepId>, registry: Option<RequirementNo>)
    | Done(outcome: nat)
    | Error(message: string, kind: nat)

  datatype CursorError =
    | EmptyToolWait
    | DuplicateToolCall(repeated: CallId)
    | ToolRequirementMismatch
    | EmptyCursorError
    | InvalidCursorTransition(from: LoopCursor, to: LoopCursor)

  function ValidateCursor(c: LoopCursor): (r: Result<(), CursorError>)
    ensures !c.AwaitingTool? && !c.Error? ==> r.Ok?
    ensures c.Error? ==> (r.Ok? <==> c.message != [])
    ensures c.AwaitingTool? ==>
              (r.Ok? <==>
                && c.calls != [] && Unique(c.calls)
                && (c.bound.Some? ==> forall call :: call in c.bound.value <==> call in c.calls))
    ensures r.Err? && r.error.DuplicateToolCall? ==> c.AwaitingTool? && r.error.repeated in c.calls
  {
    match c
    case AwaitingTool(_, calls, bound) =>
      if calls == [] then Err(EmptyToolWait)
      else if FirstDuplicate(calls).Some? then Err(DuplicateToolCall(FirstDuplicate(calls).value))
      else
        assert bound.Some? && (set k | k in calls) == bound.value.Keys ==>
            forall k :: k in bound.value <==> k in (set k | k in calls);
        if bound.Some? && (set k | k in calls) != bound.value.Keys then Err(ToolRequirementMismatch)
        else Ok(())
    case Error(message, _) => if message == [] then Err(EmptyCursorError) else Ok(())
    case _ => Ok(())
  }

  predicate CanTransition(from: LoopCursor, to: LoopCursor) {
    match from
    case Idle => to.StreamingStep? || to.AwaitingReconfig? || to.Done? || to.Error?
    case StreamingStep(_, _) => !to.StreamingStep?
    case AwaitingTool(_, _, _) =>
      to.StreamingStep? || to.AwaitingApproval? || to.CancelRecovery? || to.Done? || to.Error?
    case AwaitingApproval(_, _, _) => to.AwaitingTool? || to.CancelRecovery? || to.Done? || to.Error?
    case AwaitingReconfig(_, _) => to.StreamingStep? || to.CancelRecovery? || to.Done? || to.Error?
    case CancelRecovery(_, _) => to.Idle? || to.Done? || to.Error?
    case Done(_) => to.Idle? || to.Error?
    case Error(_, _) => to.Idle? || to.Error?
  }

  /**
   The table read from its targets: an error is reached from everywhere, a finished
   segment leads only to a fresh start or an error, and streaming starts from rest,
   after tools, or when the awaited registry is there.
  */
  lemma CursorsAreEnteredFrom(from: LoopCursor, to: LoopCursor)
    ensures to.Error? ==> CanTransition(from, to)
    ensures from.Done? || from.Error? ==> (CanTransition(from, to) <==> to.Idle? || to.Error?)
    ensures to.Idle? ==>
              (CanTransition(from, to) <==> from.StreamingStep? || from.CancelRecovery? || from.Done? || from.Error?)
    ensures to.StreamingStep? ==>
              (CanTransition(from, to) <==> from.Idle? || from.AwaitingTool? || from.AwaitingReconfig?)
    ensures to.AwaitingTool? ==> (CanTransition(from, to) <==> from.StreamingStep? || from.AwaitingApproval?)
    ensures to.AwaitingApproval? ==> (CanTransition(from, to) <==> from.StreamingStep? || from.AwaitingTool?)
    ensures to.AwaitingReconfig? ==> (CanTransition(from, to) <==> from.Idle? || from.StreamingStep?)
    ensures to.CancelRecovery? ==>
              (CanTransition(from, to) <==>
                 from.StreamingStep? || from.AwaitingTool? || from.AwaitingApproval? || from.AwaitingReconfig?)
    ensures to.Done? ==> (CanTransition(from, to) <==> !from.Done? && !from.Error?)
  {}

  datatype AgentSpec = AgentSpec(id: nat, initialTools: ToolSet, model: nat, policy: nat)

  /** What reconfiguration and the cursor touch; the conversation is never swapped out. */
  datatype State = State(
    spec: AgentSpec,
    settings: Settings,
    queue: seq<ReconfigRequest>,
    cursor: LoopCursor
  )

  /** A planned queue: the requests it was planned from and what they leave. */
  datatype Application = Application(requests: seq<ReconfigRequest>, settings: Settings)

  function NewState(spec: AgentSpec): State {
    State(spec, Settings([], None, 0, spec.initialTools, spec.model, spec.policy), [], Idle)
  }

  function PlanWith(s: State, request: ReconfigRequest): Result<Application, ReconfigError> {
    var settings :- Planned(s.settings, s.queue + [request]);
    Ok(Application(s.queue + [request], settings))
  }

  function Admitted(s: State, request: ReconfigRequest): Result<State, ReconfigError> {
    if s.cursor.AwaitingReconfig? then Err(ReconfigWhileAwaitingRegistry)
    else
      var _ :- PlanWith(s, request);
      Ok(s.(queue := s.queue + [request]))
  }

  function QueuedApplication(s: State): Result<Option<Application>, ReconfigError> {
    if s.queue == [] then Ok(None)
    else
      var settings :- Planned(s.settings, s.queue);
      Ok(Some(Application(s.queue, settings)))
  }

  function WithApplication(s: State, a: Application): State {
    s.(settings := a.settings, queue := [])
  }

  function Moved(s: State, next: LoopCursor): Result<State, CursorError> {
    var _ :- ValidateCursor(next);
    if CanTransition(s.cursor, next) then Ok(s.(cursor := next)) else Err(InvalidCursorTransition(s.cursor, next))
  }

  /** The live state: one conversation, the effective settings, the queue and the cursor. */
  class AgentState {
    var spec: AgentSpec
    const conversation: Store.LiveConversation
    var activeSkills: seq<SkillId>
    var queuedReconfigs: seq<ReconfigRequest>
    var systemPromptOverlay: Option<nat>
    var systemPromptOverlayVersion: nat
    var currentToolSet: ToolSet
    var currentModel: nat
    var currentLoopPolicy: nat
    var loopCursor: LoopCursor

    function View(): State
      reads this
    {
      State(spec, CurrentSettings(), queuedReconfigs, loopCursor)
    }

    function CurrentSettings(): Settings
      reads this
    {
      Settings(activeSkills, systemPromptOverlay, systemPromptOverlayVersion, currentToolSet, currentModel,
               currentLoopPolicy)
    }

    constructor (spec: AgentSpec, conversation: Store.LiveConversation)
      ensures View() == NewState(spec) && this.conversation == conversation
    {
      this.spec, this.conversation := spec, conversation;
      activeSkills, queuedReconfigs := [], [];
      systemPromptOverlay, systemPromptOverlayVersion := None, 0;
      currentToolSet, currentModel, currentLoopPolicy := spec.initialTools, spec.model, spec.policy;
      loopCursor := Idle;
    }

    constructor FromParts(s: State, conversation: Store.LiveConversation)
      ensures View() == s && this.conversation == conversation
    {
      this.spec, this.conversation := s.spec, conversation;
      activeSkills, queuedReconfigs := s.settings.skills, s.queue;
      systemPromptOverlay, systemPromptOverlayVersion := s.settings.overlay, s.settings.overlayVersion;
      currentToolSet, currentModel, currentLoopPolicy := s.settings.toolSet, s.settings.model, s.settings.policy;
      loopCursor := s.cursor;
    }

    method EnsureReconfigAdmission() returns (result: Result<(), ReconfigError>)
      ensures result == if loopCursor.AwaitingReconfig? then Err(ReconfigWhileAwaitingRegistry) else Ok(())
    {
      if loopCursor.AwaitingReconfig? {
        return Err(ReconfigWhileAwaitingRegistry);
      }
      return Ok(());
    }

    method PlanReconfigWith(request: ReconfigRequest) returns (result: Result<Application, ReconfigError>)
      ensures result == PlanWith(View(), request)
      ensures match Planned(CurrentSettings(), queuedReconfigs + [request])
              case Ok(after) => result == Ok(Application(queuedReconfigs + [request], after))
              case Err(e) => result == Err(e)
    {
      var queue := queuedReconfigs + [request];
      var settings := PlanRequests(CurrentSettings(), queue);
      match settings
      case Ok(after) => return Ok(Application(queue, after));
      case Err(e) => return Err(e);
    }

    /** Admission, then a plan of the whole longer queue; a refusal changes nothing. */
    method QueueReconfig(request: ReconfigRequest) returns (result: Result<(), ReconfigError>)
      modifies this`queuedReconfigs
      ensures result.Ok? <==>
              && !old(loopCursor).AwaitingReconfig?
              && Planned(old(CurrentSettings()), old(queuedReconfigs) + [request]).Ok?
      ensures View() == if result.Ok? then old(View()).(queue := old(queuedReconfigs) + [request]) else old(View())
      ensures result.Ok? <==> Admitted(old(View()), request).Ok?
      ensures View() == if result.Ok? then Admitted(old(View()), request).value else old(View())
      ensures result.Err? ==> Admitted(old(View()), request) == Err(result.error)
    {
      var admission := EnsureReconfigAdmission();
      if admission.Err? {
        return admission;
      }
      var planned := PlanReconfigWith(request);
      if planned.Err? {
        return Err(planned.error);
      }
      QueuePrevalidated(request);
      return Ok(());
    }

    method QueuePrevalidated(request: ReconfigRequest)
      modifies this`queuedReconfigs
      ensures View() == old(View()).(queue := old(queuedReconfigs) + [request])
    {
      queuedReconfigs := queuedReconfigs + [request];
    }

    method QueuedReconfigApplication() returns (result: Result<Option<Application>, ReconfigError>)
      ensures result == QueuedApplication(View())
      ensures result == Ok(None) <==> queuedReconfigs == []
      ensures queuedReconfigs != [] ==>
                match Planned(CurrentSettings(), queuedReconfigs)
                case Ok(after) => result == Ok(Some(Application(queuedReconfigs, after)))
                case Err(e) => result == Err(e)
    {
      if queuedReconfigs == [] {
        return Ok(None);
      }
      var settings := PlanRequests(CurrentSettings(), queuedReconfigs);
      match settings
      case Ok(after) => return Ok(Some(Application(queuedReconfigs, after)));
      case Err(e) => return Err(e);
    }

    method ApplyReconfigApplication(a: Application)
      modifies this
      ensures View() == WithApplication(old(View()), a)
      ensures CurrentSettings() == a.settings && queuedReconfigs == []
      ensures spec == old(spec) && loopCursor == old(loopCursor)
    {
      activeSkills := a.settings.skills;
      systemPromptOverlay := a.settings.overlay;
      systemPromptOverlayVersion := a.settings.overlayVersion;
      currentToolSet := a.settings.toolSet;
      currentModel := a.settings.model;
      currentLoopPolicy := a.settings.policy;
      queuedReconfigs := [];
    }

    method TransitionCursor(next: LoopCursor) returns (result: Result<(), CursorError>)
      modifies this`loopCursor
      ensures result.Ok? <==> ValidateCursor(next).Ok? && CanTransition(old(loopCursor), next)
      ensures View() == if result.Ok? then old(View()).(cursor := next) else old(View())
      ensures result.Ok? ==> Moved(old(View()), next) == Ok(View())
    {
      var valid := ValidateCursor(next);
      if valid.Err? {
        return valid;
      }
      if !CanTransition(loopCursor, next) {
        return Err(InvalidCursorTransition(loopCursor, next));
      }
      loopCursor := next;
      return Ok(());
    }

    /** Checks the new list only; the queue is not planned again. */
    method ReplaceSkills(skills: seq<SkillId>) returns (result: Result<(), ReconfigError>)
      modifies this`activeSkills
      ensures result.Ok? <==> Unique(skills)
      ensures activeSkills == if result.Ok? then skills else old(activeSkills)
    {
      var unique := EnsureUniqueSkills(skills);
      if unique.Err? {
        return unique;
      }
      activeSkills := skills;
      return Ok(());
    }
  }
}
