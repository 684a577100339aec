/**
 The effect coproduct and its handler fan-out, as the manifest generates them
 (src/agent/effect_manifest.rs, src/agent/interaction.rs).
*/
module Effects {
  import opened Wrappers

  datatype Tag = LlmTag | ToolTag | InteractionTag | SubagentTag | ReconfigTag | ExternalSessionTag

  datatype InteractionKind =
    | Approval(callId: nat)
    | Question
    | Choice(options: nat)
    | Permission(actionId: nat)

  datatype Interaction = Interaction(stepId: nat, kind: InteractionKind)

  datatype InteractionResponse =
    | ApprovalResponse(stepId: nat, callId: nat, allowed: bool)
    | AnswerResponse(text: nat)
    | ChoiceResponse(index: nat)
    | PermissionResponse(actionId: nat, allowed: bool)

  /** The six effect families; what they carry stays an opaque handle. */
  datatype RequirementKind =
    | NeedLlm(request: nat)
    | NeedTool(callId: nat, call: nat)
    | NeedInteraction(ask: Interaction)
    | NeedSubagent(spec: nat, brief: Interaction)
    | NeedReconfigRegistry(toolSet: nat)
    | NeedExternalSession(session: nat)

  /** A model response with the tokens its provider reported. */
  datatype Response = Response(body: nat, tokens: nat)

  datatype RequirementResult =
    | Llm(llm: Result<Response, nat>)
    | Tool(tool: Result<nat, nat>)
    | InteractionResult(answer: InteractionResponse)
    | Subagent(subagent: Result<nat, nat>)
    | Reconfig(reconfig: Result<(), nat>)
    | ExternalSession(session: nat)

  datatype RequirementId = RequirementId(text: string)

  datatype Requirement = Requirement(id: RequirementId, origin: nat, kind: RequirementKind)

  datatype RequirementError =
    | ResultKindMismatch(expected: Tag, actual: Tag)
    | InteractionRejected

  function KindTag(kind: RequirementKind): Tag {
    match kind
    case NeedLlm(_) => LlmTag
    case NeedTool(_, _) => ToolTag
    case NeedInteraction(_) => InteractionTag
    case NeedSubagent(_, _) => SubagentTag
    case NeedReconfigRegistry(_) => ReconfigTag
    case NeedExternalSession(_) => ExternalSessionTag
  }

  function ResultTag(result: RequirementResult): Tag {
    match result
    case Llm(_) => LlmTag
    case Tool(_) => ToolTag
    case InteractionResult(_) => InteractionTag
    case Subagent(_) => SubagentTag
    case Reconfig(_) => ReconfigTag
    case ExternalSession(_) => ExternalSessionTag
  }

  predicate AcceptsResponse(ask: Interaction, answer: InteractionResponse) {
    match (ask.kind, answer)
    case (Approval(call), ApprovalResponse(step, answered, _)) => step == ask.stepId && answered == call
    case (Question, AnswerResponse(_)) => true
    case (Choice(options), ChoiceResponse(index)) => index < options
    case (Permission(action), PermissionResponse(answered, _)) => answered == action
    case _ => false
  }

  function Accepts(kind: RequirementKind, result: RequirementResult): Result<(), RequirementError> {
    if KindTag(kind) != ResultTag(result) then Err(ResultKindMismatch(KindTag(kind), ResultTag(result)))
    else
      match (kind, result)
      case (NeedInteraction(ask), InteractionResult(answer)) =>
        if AcceptsResponse(ask, answer) then Ok(()) else Err(InteractionRejected)
      case _ => Ok(())
  }

  datatype AgentError =
    | UnhandledRequirement(kind: Tag, origin: nat)
    | Misaligned(id: RequirementId, reason: RequirementError)
    | SubagentDepthExceeded
    | NotTerminal

  /** One handler: it may answer differently at each draw of the outside world. */
  type Handler = (RequirementKind, nat) -> RequirementResult

  /**
   A pop target: given a requirement, the depth its context may still open and a
   draw, it answers from the layers outside.
  */
  type Pop = (Requirement, nat, nat) -> Result<(RequirementResult, nat), AgentError>

  /** A subagent handler also gets its child's pop target and the depth it may still open. */
  type SubagentHandler = (RequirementKind, Pop, nat, nat) -> RequirementResult

  /** One drain layer's handlers; a missing one means the family pops outward. */
  datatype Scope = Scope(
    llm: Option<Handler>,
    tool: Option<Handler>,
    interaction: Option<Handler>,
    subagent: Option<SubagentHandler>,
    reconfig: Option<Handler>,
    external: Option<Handler>
  )

  predicate ScopeHandles(scope: Scope, tag: Tag) {
    match tag
    case LlmTag => scope.llm.Some?
    case ToolTag => scope.tool.Some?
    case InteractionTag => scope.interaction.Some?
    case SubagentTag => scope.subagent.Some?
    case ReconfigTag => scope.reconfig.Some?
    case ExternalSessionTag => scope.external.Some?
  }

  function Ask(handler: Option<Handler>, kind: RequirementKind, draw: nat): Option<RequirementResult> {
    match handler
    case None => None
    case Some(fulfill) => Some(fulfill(kind, draw))
  }

  /** Fulfils in place; the family that needs the outer layer never is. */
  function FulfillWithScope(kind: RequirementKind, scope: Scope, draw: nat): Option<RequirementResult> {
    match kind
    case NeedLlm(_) => Ask(scope.llm, kind, draw)
    case NeedTool(_, _) => Ask(scope.tool, kind, draw)
    case NeedInteraction(_) => Ask(scope.interaction, kind, draw)
    case NeedSubagent(_, _) => None
    case NeedReconfigRegistry(_) => Ask(scope.reconfig, kind, draw)
    case NeedExternalSession(_) => Ask(scope.external, kind, draw)
  }

  /**
   The two generated dispatches agree: a scope fulfils in place exactly the
   families it advertises, except subagents, which it never fulfils in place.
  */
  lemma AdvertisedMeansFulfilled(kind: RequirementKind, scope: Scope, draw: nat)
    ensures FulfillWithScope(kind, scope, draw).Some? <==>
            ScopeHandles(scope, KindTag(kind)) && KindTag(kind) != SubagentTag
  {}

  /** Only a result of the requirement's own family is ever accepted. */
  lemma AcceptedResultsAreAligned(kind: RequirementKind, result: RequirementResult)
    requires Accepts(kind, result).Ok?
    ensures ResultTag(result) == KindTag(kind)
    ensures kind.NeedInteraction? ==> result.InteractionResult? && AcceptsResponse(kind.ask, result.answer)
  {}

  /**
   A result is accepted exactly when it is of the requirement's own family, and an
   interaction's answer exactly when it answers the question asked: an approval of
   this call at this step, any answer to a question, one of the offered choices, a
   permission for this action.
  */
  lemma AcceptedExactlyWhen(kind: RequirementKind, result: RequirementResult)
    ensures kind.NeedLlm? ==> (Accepts(kind, result).Ok? <==> result.Llm?)
    ensures kind.NeedTool? ==> (Accepts(kind, result).Ok? <==> result.Tool?)
    ensures kind.NeedSubagent? ==> (Accepts(kind, result).Ok? <==> result.Subagent?)
    ensures kind.NeedReconfigRegistry? ==> (Accepts(kind, result).Ok? <==> result.Reconfig?)
    ensures kind.NeedExternalSession? ==> (Accepts(kind, result).Ok? <==> result.ExternalSession?)
    ensures kind.NeedInteraction? ==>
              (Accepts(kind, result).Ok? <==>
                 && result.InteractionResult?
                 && match kind.ask.kind
                    case Approval(call) =>
                      (exists allowed :: result.answer == ApprovalResponse(kind.ask.stepId, call, allowed))
                    case Question => result.answer.AnswerResponse?
                    case Choice(options) =>
                      (exists index: nat :: index < options && result.answer == ChoiceResponse(index))
                    case Permission(action) => (exists allowed :: result.answer == PermissionResponse(action, allowed)))
    ensures Accepts(kind, result) == Err(InteractionRejected) ==> kind.NeedInteraction? && result.InteractionResult?
  {
    if kind.NeedInteraction? && result.InteractionResult? {
      match (kind.ask.kind, result.answer)
      case (Approval(call), ApprovalResponse(step, answered, allowed)) =>
        assert result.answer == ApprovalResponse(step, answered, allowed);
      case (Permission(_), PermissionResponse(answered, allowed)) =>
        assert result.answer == PermissionResponse(answered, allowed);
      case (Choice(_), ChoiceResponse(index)) => assert result.answer == ChoiceResponse(index);
      case _ =>
    }
  }

  /** Requirements and results carry the same tag exactly when they are of one family. */
  lemma TagsNameTheFamilies(kind: RequirementKind, result: RequirementResult)
    ensures KindTag(kind) == ResultTag(result) <==>
            || (kind.NeedLlm? && result.Llm?) || (kind.NeedTool? && result.Tool?)
            || (kind.NeedInteraction? && result.InteractionResult?) || (kind.NeedSubagent? && result.Subagent?)
            || (kind.NeedReconfigRegistry? && result.Reconfig?)
            || (kind.NeedExternalSession? && result.ExternalSession?)
  {}
}
