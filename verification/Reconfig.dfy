/**
 Turn-boundary reconfiguration requests and the plan that folds them over the
 current settings (src/agent/state.rs, src/agent/state/queue.rs).
*/
module Reconfig {
  import opened Wrappers
  import opened ToolSets

  const U64_MAX: nat := 0xFFFF_FFFF_FFFF_FFFF

  type SkillId = nat

  datatype ReconfigRequest =
    | ActivateSkill(skill: SkillId)
    | DeactivateSkill(skill: SkillId)
    | ReplaceActiveSkills(skills: seq<SkillId>)
    | SetSystemPromptOverlay(overlay: Option<nat>, expectedVersion: nat)
    | ReplaceToolSet(toolSet: ToolSet)
    | PatchToolSet(patch: ToolSetPatch)
    | SetModel(model: nat)
    | SetLoopPolicy(policy: nat)

  /** What a plan works on; model settings and loop policy are opaque. */
  datatype Settings = Settings(
    skills: seq<SkillId>,
    overlay: Option<nat>,
    overlayVersion: nat,
    toolSet: ToolSet,
    model: nat,
    policy: nat
  ) {
    ghost predicate Valid() {
      Unique(skills) && Unique(Names(toolSet.tools)) && overlayVersion <= U64_MAX
    }
  }

  datatype ReconfigError =
    | DuplicateSkill(repeated: SkillId)
    | SkillAlreadyActive(active: SkillId)
    | SkillNotActive(inactive: SkillId)
    | ToolFault(fault: ToolError)
    | SystemOverlayVersionConflict(expected: nat, actual: nat)
    | SystemOverlayVersionOverflow
    | ReconfigWhileAwaitingRegistry
    | RegistryMismatch

  function EnsureUniqueSkills(skills: seq<SkillId>): Result<(), ReconfigError> {
    match FirstDuplicate(skills)
    case Some(skill) => Err(DuplicateSkill(skill))
    case None => Ok(())
  }

  function AsReconfig<T>(result: Result<T, ToolError>): Result<T, ReconfigError> {
    match result
    case Ok(value) => Ok(value)
    case Err(e) => Err(ToolFault(e))
  }

  function Validate(request: ReconfigRequest): Result<(), ReconfigError> {
    match request
    case ReplaceActiveSkills(skills) => EnsureUniqueSkills(skills)
    case ReplaceToolSet(toolSet) => AsReconfig(EnsureUniqueTools(toolSet.tools))
    case PatchToolSet(patch) => AsReconfig(ValidatePatch(patch))
    case _ => Ok(())
  }

  function IndexOf(skills: seq<SkillId>, skill: SkillId): (i: nat)
    ensures i <= |skills|
    ensures i < |skills| ==> skills[i] == skill
    ensures i == |skills| <==> skill !in skills
  {
    if skills == [] then 0 else if skills[0] == skill then 0 else 1 + IndexOf(skills[1..], skill)
  }

  function Applied(s: Settings, request: ReconfigRequest): Result<Settings, ReconfigError> {
    match request
    case ActivateSkill(skill) =>
      if skill in s.skills then Err(SkillAlreadyActive(skill)) else Ok(s.(skills := s.skills + [skill]))
    case DeactivateSkill(skill) =>
      var i := IndexOf(s.skills, skill);
      if i == |s.skills| then Err(SkillNotActive(skill)) else Ok(s.(skills := s.skills[..i] + s.skills[i + 1..]))
    case ReplaceActiveSkills(skills) =>
      var _ :- EnsureUniqueSkills(skills);
      Ok(s.(skills := skills))
    case SetSystemPromptOverlay(overlay, expected) =>
      if expected != s.overlayVersion then Err(SystemOverlayVersionConflict(expected, s.overlayVersion))
      else if s.overlayVersion >= U64_MAX then Err(SystemOverlayVersionOverflow)
      else Ok(s.(overlay := overlay, overlayVersion := s.overlayVersion + 1))
    case ReplaceToolSet(toolSet) =>
      var _ :- AsReconfig(EnsureUniqueTools(toolSet.tools));
      Ok(s.(toolSet := toolSet))
    case PatchToolSet(patch) =>
      var patched :- AsReconfig(Patched(s.toolSet, patch));
      Ok(s.(toolSet := patched))
    case SetModel(model) => Ok(s.(model := model))
    case SetLoopPolicy(policy) => Ok(s.(policy := policy))
  }

  /** One request: checked by itself, then applied to what the earlier ones left. */
  function Stepped(s: Settings, request: ReconfigRequest): Result<Settings, ReconfigError> {
    var _ :- Validate(request);
    Applied(s, request)
  }

  /** What the requests leave, in order, or the first failure. */
  function Folded(s: Settings, requests: seq<ReconfigRequest>): Result<Settings, ReconfigError> {
    if requests == [] then Ok(s)
    else
      var before :- Folded(s, requests[..|requests| - 1]);
      Stepped(before, requests[|requests| - 1])
  }

  /** The fold with the final uniqueness checks the planner runs on its outcome. */
  function Planned(s: Settings, requests: seq<ReconfigRequest>): Result<Settings, ReconfigError> {
    var after :- Folded(s, requests);
    var _ :- EnsureUniqueSkills(after.skills);
    var _ :- AsReconfig(EnsureUniqueTools(after.toolSet.tools));
    Ok(after)
  }

  lemma IndexIsFirst(skills: seq<SkillId>, skill: SkillId, i: nat)
    requires i <= |skills| && (i < |skills| ==> skills[i] == skill) && skill !in skills[..i]
    ensures IndexOf(skills, skill) == i
  {
    if i > 0 {
      assert skills[0] == skills[..i][0] && skills[1..][..i - 1] == skills[..i][1..];
      IndexIsFirst(skills[1..], skill, i - 1);
    }
  }

  method FindSkill(skills: seq<SkillId>, skill: SkillId) returns (i: nat)
    ensures i == IndexOf(skills, skill)
  {
    i := 0;
    while i < |skills| && skills[i] != skill
      invariant 0 <= i <= |skills| && skill !in skills[..i]
    {
      assert skills[..i + 1] == skills[..i] + [skills[i]];
      i := i + 1;
    }
    IndexIsFirst(skills, skill, i);
  }

  /** Edits the application being planned by one request. */
  method ApplyRequest(s: Settings, request: ReconfigRequest) returns (result: Result<Settings, ReconfigError>)
    ensures result == Applied(s, request)
  {
    var application := s;
    match request {
      case ActivateSkill(skill) =>
        if skill in application.skills {
          return Err(SkillAlreadyActive(skill));
        }
        application := application.(skills := application.skills + [skill]);
      case DeactivateSkill(skill) =>
        var i := FindSkill(application.skills, skill);
        if i == |application.skills| {
          return Err(SkillNotActive(skill));
        }
        application := application.(skills := application.skills[..i] + application.skills[i + 1..]);
      case ReplaceActiveSkills(skills) =>
        var unique := EnsureUniqueSkills(skills);
        if unique.Err? {
          return Err(unique.error);
        }
        application := application.(skills := skills);
      case SetSystemPromptOverlay(overlay, expected) =>
        if expected != application.overlayVersion {
          return Err(SystemOverlayVersionConflict(expected, application.overlayVersion));
        }
        application := application.(overlay := overlay);
        if application.overlayVersion >= U64_MAX {
          return Err(SystemOverlayVersionOverflow);
        }
        application := application.(overlayVersion := application.overlayVersion + 1);
      case ReplaceToolSet(toolSet) =>
        var unique := EnsureUniqueTools(toolSet.tools);
        if unique.Err? {
          return Err(ToolFault(unique.error));
        }
        application := application.(toolSet := toolSet);
      case PatchToolSet(patch) =>
        var patched := ApplyToolSetPatch(application.toolSet, patch);
        if patched.Err? {
          return Err(ToolFault(patched.error));
        }
        application := application.(toolSet := patched.value);
      case SetModel(model) => application := application.(model := model);
      case SetLoopPolicy(policy) => application := application.(policy := policy);
    }
    return Ok(application);
  }

  lemma {:induction false} FoldFails(s: Settings, requests: seq<ReconfigRequest>, n: nat)
    requires n <= |requests| && Folded(s, requests[..n]).Err?
    ensures Folded(s, requests) == Folded(s, requests[..n])
    decreases |requests|
  {
    if n < |requests| {
      assert requests[..|requests| - 1][..n] == requests[..n];
      FoldFails(s, requests[..|requests| - 1], n);
    } else {
      assert requests[..n] == requests;
    }
  }

  /** The planner's loop. */
  method PlanRequests(s: Settings, requests: seq<ReconfigRequest>) returns (result: Result<Settings, ReconfigError>)
    ensures result == Planned(s, requests)
  {
    var application := s;
    var i := 0;
    while i < |requests|
      invariant 0 <= i <= |requests|
      invariant Folded(s, requests[..i]) == Ok(application)
    {
      assert requests[..i + 1][..i] == requests[..i];
      var valid := Validate(requests[i]);
      if valid.Err? {
        FoldFails(s, requests, i + 1);
        return Err(valid.error);
      }
      var applied := ApplyRequest(application, requests[i]);
      if applied.Err? {
        FoldFails(s, requests, i + 1);
        return Err(applied.error);
      }
      application := applied.value;
      i := i + 1;
    }
    assert requests[..i] == requests;
    var skills := EnsureUniqueSkills(application.skills);
    if skills.Err? {
      return Err(skills.error);
    }
    var tools := EnsureUniqueTools(application.toolSet.tools);
    if tools.Err? {
      return Err(ToolFault(tools.error));
    }
    return Ok(application);
  }

  // ----- the plan is a lawful fold -----

  function Overlays(requests: seq<ReconfigRequest>): nat {
    if requests == [] then 0
    else Overlays(requests[..|requests| - 1]) + if requests[|requests| - 1].SetSystemPromptOverlay? then 1 else 0
  }

  lemma UniqueMore<T>(items: seq<T>, item: T)
    requires Unique(items) && item !in items
    ensures Unique(items + [item])
  {}

  lemma StepKeepsValid(s: Settings, request: ReconfigRequest)
    requires s.Valid() && Stepped(s, request).Ok?
    ensures Stepped(s, request).value.Valid()
    ensures Stepped(s, request).value.overlayVersion
            == s.overlayVersion + (if request.SetSystemPromptOverlay? then 1 else 0)
  {
    match request
    case ActivateSkill(skill) => UniqueMore(s.skills, skill);
    case DeactivateSkill(skill) => UniqueWithoutOne(s.skills, IndexOf(s.skills, skill));
    case PatchToolSet(patch) => PatchRefinesAMapUpdate(s.toolSet, patch);
    case _ =>
  }

  /**
   Skills and tool names stay unique through any accepted queue, and the overlay
   version grows by exactly the number of overlay requests; so the planner's final
   checks never fail and the plan is the bare fold.
  */
  lemma {:induction false} PlanKeepsValid(s: Settings, requests: seq<ReconfigRequest>)
    requires s.Valid()
    ensures Planned(s, requests) == Folded(s, requests)
    ensures Planned(s, requests).Ok? ==>
              && Planned(s, requests).value.Valid()
              && Planned(s, requests).value.overlayVersion == s.overlayVersion + Overlays(requests)
    decreases |requests|
  {
    if requests != [] {
      var first, last := requests[..|requests| - 1], requests[|requests| - 1];
      PlanKeepsValid(s, first);
      if Folded(s, requests).Ok? {
        StepKeepsValid(Folded(s, first).value, last);
      }
    }
  }

  /** Planning a longer queue is applying the new request to the plan of the old one. */
  lemma PlanSnoc(s: Settings, queue: seq<ReconfigRequest>, request: ReconfigRequest)
    requires s.Valid()
    ensures Planned(s, queue + [request]) ==
            (if Planned(s, queue).Ok? then Stepped(Planned(s, queue).value, request) else Planned(s, queue))
  {
    PlanKeepsValid(s, queue);
    PlanKeepsValid(s, queue + [request]);
    assert (queue + [request])[..|queue|] == queue;
  }

  lemma FoldUnfolds(s: Settings, requests: seq<ReconfigRequest>, last: ReconfigRequest)
    ensures Folded(s, requests + [last]) ==
            if Folded(s, requests).Ok? then Stepped(Folded(s, requests).value, last) else Folded(s, requests)
  {
    assert (requests + [last])[..|requests|] == requests;
  }

  lemma LastOfConcat<T>(a: seq<T>, b: seq<T>)
    requires b != []
    ensures b == b[..|b| - 1] + [b[|b| - 1]]
    ensures a + b == (a + b[..|b| - 1]) + [b[|b| - 1]]
  {}

  lemma {:induction false} FoldConcat(s: Settings, a: seq<ReconfigRequest>, b: seq<ReconfigRequest>)
    requires Folded(s, a).Ok?
    ensures Folded(s, a + b) == Folded(Folded(s, a).value, b)
    decreases |b|
  {
    if b == [] {
      assert a + b == a;
    } else {
      var first, last := b[..|b| - 1], b[|b| - 1];
      FoldConcat(s, a, first);
      LastOfConcat(a, b);
      FoldUnfolds(s, a + first, last);
      FoldUnfolds(Folded(s, a).value, first, last);
    }
  }

  /** Planning two queues one after the other is planning their concatenation. */
  lemma PlanConcat(s: Settings, a: seq<ReconfigRequest>, b: seq<ReconfigRequest>)
    requires s.Valid() && Planned(s, a).Ok?
    ensures Planned(s, a + b) == Planned(Planned(s, a).value, b)
  {
    PlanKeepsValid(s, a);
    PlanKeepsValid(s, a + b);
    PlanKeepsValid(Planned(s, a).value, b);
    FoldConcat(s, a, b);
  }

  /** Every part of a plannable queue is plannable where it stands. */
  lemma {:induction false} PlannablePrefix(s: Settings, requests: seq<ReconfigRequest>, n: nat)
    requires s.Valid() && n <= |requests| && Planned(s, requests).Ok?
    ensures Planned(s, requests[..n]).Ok?
  {
    PlanKeepsValid(s, requests);
    PlanKeepsValid(s, requests[..n]);
    if Folded(s, requests[..n]).Err? {
      FoldFails(s, requests, n);
    }
  }

  lemma OverlayNamesTheVersion(s: Settings, request: ReconfigRequest)
    requires request.SetSystemPromptOverlay? && Stepped(s, request).Ok?
    ensures request.expectedVersion == s.overlayVersion < U64_MAX
  {}

  /**
   The overlay versions of a plannable queue form one chain: each overlay request
   names the version that the overlay requests before it leave.
  */
  lemma OverlayVersionsChain(s: Settings, requests: seq<ReconfigRequest>, i: nat)
    requires s.Valid() && Planned(s, requests).Ok?
    requires i < |requests| && requests[i].SetSystemPromptOverlay?
    ensures requests[i].expectedVersion == s.overlayVersion + Overlays(requests[..i])
    ensures requests[i].expectedVersion < U64_MAX
  {
    PlannablePrefix(s, requests, i);
    PlannablePrefix(s, requests, i + 1);
    PlanKeepsValid(s, requests[..i]);
    assert requests[..i + 1] == requests[..i] + [requests[i]];
    PlanSnoc(s, requests[..i], requests[i]);
    OverlayNamesTheVersion(Planned(s, requests[..i]).value, requests[i]);
  }

  /** Activating an inactive skill and deactivating it again changes nothing, order included. */
  lemma DeactivateUndoesActivate(s: Settings, skill: SkillId)
    requires skill !in s.skills
    ensures Stepped(s, ActivateSkill(skill)).Ok?
    ensures Stepped(Stepped(s, ActivateSkill(skill)).value, DeactivateSkill(skill)) == Ok(s)
  {
    var more := s.skills + [skill];
    LastIndex(s.skills, skill);
    assert more[..|s.skills|] + more[|s.skills| + 1..] == s.skills;
  }

  lemma {:induction false} LastIndex(skills: seq<SkillId>, skill: SkillId)
    requires skill !in skills
    ensures IndexOf(skills + [skill], skill) == |skills|
    decreases |skills|
  {
    if skills != [] {
      assert (skills + [skill])[1..] == skills[1..] + [skill];
      LastIndex(skills[1..], skill);
    }
  }
}
