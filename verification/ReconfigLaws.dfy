/**
 What a queue of reconfiguration requests may hold and what it leaves, said setting
 by setting (src/agent/state.rs, src/agent/state/queue.rs).
*/
module ReconfigLaws {
  import opened Wrappers
  import opened ToolSets
  import opened Reconfig

  // ----- one request -----

  /** The request can be applied to these settings. */
  predicate Acceptable(s: Settings, request: ReconfigRequest) {
    match request
    case ActivateSkill(skill) => skill !in s.skills
    case DeactivateSkill(skill) => skill in s.skills
    case ReplaceActiveSkills(skills) => Unique(skills)
    case SetSystemPromptOverlay(_, expected) => expected == s.overlayVersion < 0xFFFF_FFFF_FFFF_FFFF
    case ReplaceToolSet(toolSet) => Unique(Names(toolSet.tools))
    case PatchToolSet(patch) =>
      && patch.expectedId == s.toolSet.id && Unique(patch.remove) && Unique(Names(patch.addOrReplace))
      && forall i :: 0 <= i < |patch.remove| ==> patch.remove[i] in Names(s.toolSet.tools)
    case SetModel(_) => true
    case SetLoopPolicy(_) => true
  }

  lemma PatchesApplyExactlyWhen(current: ToolSet, patch: ToolSetPatch)
    requires Unique(Names(current.tools))
    ensures Patched(current, patch).Ok? <==>
            && patch.expectedId == current.id && Unique(patch.remove)
            && forall i :: 0 <= i < |patch.remove| ==> patch.remove[i] in Names(current.tools)
  {
    PatchRefinesAMapUpdate(current, patch);
    assert forall i :: 0 <= i < |patch.remove| ==> patch.remove[i] in SetOf(patch.remove);
    assert forall name :: name in SetOf(patch.remove) ==> name in patch.remove;
  }

  lemma RequestsApplyExactlyWhen(s: Settings, request: ReconfigRequest)
    requires s.Valid()
    ensures Stepped(s, request).Ok? <==> Acceptable(s, request)
  {
    if request.PatchToolSet? {
      PatchesApplyExactlyWhen(s.toolSet, request.patch);
    }
  }

  /** Each request of a plan edits the setting it names and leaves every other one as it was. */
  lemma RequestsEditOneSetting(s: Settings, requests: seq<ReconfigRequest>, request: ReconfigRequest)
    requires s.Valid() && Planned(s, requests + [request]).Ok?
    ensures Planned(s, requests).Ok?
    ensures var before, after := Planned(s, requests).value, Planned(s, requests + [request]).value;
            match request
            case ActivateSkill(skill) => after == before.(skills := before.skills + [skill])
            case DeactivateSkill(skill) =>
              exists i :: 0 <= i < |before.skills| && before.skills[i] == skill
                          && after == before.(skills := before.skills[..i] + before.skills[i + 1..])
            case ReplaceActiveSkills(skills) => after == before.(skills := skills)
            case SetSystemPromptOverlay(overlay, _) =>
              after == before.(overlay := overlay, overlayVersion := before.overlayVersion + 1)
            case ReplaceToolSet(toolSet) => after == before.(toolSet := toolSet)
            case PatchToolSet(patch) =>
              && after == before.(toolSet := after.toolSet) && after.toolSet.id == patch.resultingId
              && AsMap(after.toolSet.tools)
                 == (AsMap(before.toolSet.tools) - SetOf(patch.remove)) + AsMap(patch.addOrReplace)
            case SetModel(model) => after == before.(model := model)
            case SetLoopPolicy(policy) => after == before.(policy := policy)
  {
    PlanSnoc(s, requests, request);
    PlanKeepsValid(s, requests);
    if request.PatchToolSet? {
      PatchRefinesAMapUpdate(Planned(s, requests).value.toolSet, request.patch);
    }
  }

  /** A request about a skill or the overlay that cannot be applied is refused for that reason. */
  lemma RefusalsNameTheReason(s: Settings, requests: seq<ReconfigRequest>, request: ReconfigRequest)
    requires s.Valid() && Planned(s, requests).Ok?
    ensures var before, planned := Planned(s, requests).value, Planned(s, requests + [request]);
            match request
            case ActivateSkill(skill) => skill in before.skills ==> planned == Err(SkillAlreadyActive(skill))
            case DeactivateSkill(skill) => skill !in before.skills ==> planned == Err(SkillNotActive(skill))
            case SetSystemPromptOverlay(_, expected) =>
              && (expected != before.overlayVersion ==>
                    planned == Err(SystemOverlayVersionConflict(expected, before.overlayVersion)))
              && (expected == before.overlayVersion == 0xFFFF_FFFF_FFFF_FFFF ==>
                    planned == Err(SystemOverlayVersionOverflow))
            case _ => true
  {
    PlanSnoc(s, requests, request);
    PlanKeepsValid(s, requests);
  }

  // ----- queues -----

  ghost predicate AcceptableAt(s: Settings, requests: seq<ReconfigRequest>, i: nat)
    requires i < |requests|
  {
    Planned(s, requests[..i]).Ok? && Acceptable(Planned(s, requests[..i]).value, requests[i])
  }

  /** A queue can be planned exactly when each request can be applied to what the ones before it leave. */
  lemma {:induction false} QueuesPlanExactlyWhen(s: Settings, requests: seq<ReconfigRequest>)
    requires s.Valid()
    ensures Planned(s, requests).Ok? <==> forall i :: 0 <= i < |requests| ==> AcceptableAt(s, requests, i)
    decreases |requests|
  {
    if requests == [] {
      PlanKeepsValid(s, requests);
    } else {
      var n := |requests| - 1;
      var first, last := requests[..n], requests[n];
      assert requests == first + [last];
      QueuesPlanExactlyWhen(s, first);
      PlanSnoc(s, first, last);
      PlanKeepsValid(s, first);
      if Planned(s, first).Ok? {
        RequestsApplyExactlyWhen(Planned(s, first).value, last);
      }
      forall i | 0 <= i < n
        ensures AcceptableAt(s, requests, i) <==> AcceptableAt(s, first, i)
      {
        assert first[..i] == requests[..i] && first[i] == requests[i];
      }
      assert AcceptableAt(s, requests, n) <==> Planned(s, first).Ok? && Acceptable(Planned(s, first).value, last);
    }
  }

  datatype Setting = TheModel | ThePolicy | TheOverlay | TheTools | TheSkill(skill: SkillId)

  /** The request says outright what the setting is to be. */
  predicate Decides(request: ReconfigRequest, setting: Setting) {
    match setting
    case TheModel => request.SetModel?
    case ThePolicy => request.SetLoopPolicy?
    case TheOverlay => request.SetSystemPromptOverlay?
    case TheTools => request.ReplaceToolSet?
    case TheSkill(skill) =>
      || request.ReplaceActiveSkills? || request == ActivateSkill(skill) || request == DeactivateSkill(skill)
  }

  /** Where the last request stands that decides the setting. */
  function LastDeciding(requests: seq<ReconfigRequest>, setting: Setting): (last: Option<nat>)
    ensures last.None? ==> forall k :: 0 <= k < |requests| ==> !Decides(requests[k], setting)
    ensures last.Some? ==>
              && last.value < |requests| && Decides(requests[last.value], setting)
              && forall k :: last.value < k < |requests| ==> !Decides(requests[k], setting)
  {
    if requests == [] then None
    else if Decides(requests[|requests| - 1], setting) then Some(|requests| - 1)
    else
      var init := requests[..|requests| - 1];
      assert forall k :: 0 <= k < |init| ==> init[k] == requests[k];
      LastDeciding(init, setting)
  }

  /** The patches of a queue, in order. */
  function Patches(requests: seq<ReconfigRequest>): seq<ToolSetPatch> {
    if requests == [] then []
    else
      var last := requests[|requests| - 1];
      Patches(requests[..|requests| - 1]) + if last.PatchToolSet? then [last.patch] else []
  }

  /** One patch after another. */
  function AllPatched(tools: ToolSet, patches: seq<ToolSetPatch>): Result<ToolSet, ToolError> {
    if patches == [] then Ok(tools)
    else
      var before :- AllPatched(tools, patches[..|patches| - 1]);
      Patched(before, patches[|patches| - 1])
  }

  /** The tools after the queue: the last whole replacement, or what was there, with the later patches. */
  function ToolsAfter(tools: ToolSet, requests: seq<ReconfigRequest>): Result<ToolSet, ToolError> {
    match LastDeciding(requests, TheTools)
    case None => AllPatched(tools, Patches(requests))
    case Some(i) => AllPatched(requests[i].toolSet, Patches(requests[i + 1..]))
  }

  lemma PatchesSnoc(requests: seq<ReconfigRequest>, last: ReconfigRequest, tools: ToolSet)
    ensures Patches(requests + [last]) == Patches(requests) + if last.PatchToolSet? then [last.patch] else []
    ensures last.PatchToolSet? && AllPatched(tools, Patches(requests)).Ok? ==>
              AllPatched(tools, Patches(requests + [last]))
              == Patched(AllPatched(tools, Patches(requests)).value, last.patch)
    ensures !last.PatchToolSet? ==>
              AllPatched(tools, Patches(requests + [last])) == AllPatched(tools, Patches(requests))
  {
    assert (requests + [last])[..|requests|] == requests;
    if last.PatchToolSet? {
      var more := Patches(requests) + [last.patch];
      assert more[..|more| - 1] == Patches(requests);
    } else {
      assert Patches(requests) + [] == Patches(requests);
    }
  }

  lemma LastDecidingSnoc(requests: seq<ReconfigRequest>, last: ReconfigRequest, setting: Setting)
    ensures LastDeciding(requests + [last], setting)
            == if Decides(last, setting) then Some(|requests|) else LastDeciding(requests, setting)
  {
    assert (requests + [last])[..|requests|] == requests;
  }

  lemma ToolsReplaced(tools: ToolSet, requests: seq<ReconfigRequest>, toolSet: ToolSet)
    ensures ToolsAfter(tools, requests + [ReplaceToolSet(toolSet)]) == Ok(toolSet)
  {
    var more := requests + [ReplaceToolSet(toolSet)];
    LastDecidingSnoc(requests, ReplaceToolSet(toolSet), TheTools);
    assert more[|requests|] == ReplaceToolSet(toolSet) && more[|requests| + 1..] == [];
  }

  /** What the queue leaves to be patched, and the patches. */
  lemma ToolsExtended(tools: ToolSet, requests: seq<ReconfigRequest>, last: ReconfigRequest)
    returns (base: ToolSet, later: seq<ReconfigRequest>)
    requires !last.ReplaceToolSet?
    ensures ToolsAfter(tools, requests) == AllPatched(base, Patches(later))
    ensures ToolsAfter(tools, requests + [last]) == AllPatched(base, Patches(later + [last]))
  {
    var more := requests + [last];
    LastDecidingSnoc(requests, last, TheTools);
    match LastDeciding(requests, TheTools)
    case None => base, later := tools, requests;
    case Some(i) =>
      base, later := requests[i].toolSet, requests[i + 1..];
      assert more[i + 1..] == later + [last] && more[i] == requests[i];
  }

  lemma ToolsAfterSnoc(tools: ToolSet, requests: seq<ReconfigRequest>, last: ReconfigRequest)
    requires ToolsAfter(tools, requests).Ok?
    ensures last.ReplaceToolSet? ==> ToolsAfter(tools, requests + [last]) == Ok(last.toolSet)
    ensures last.PatchToolSet? ==>
              ToolsAfter(tools, requests + [last]) == Patched(ToolsAfter(tools, requests).value, last.patch)
    ensures !last.ReplaceToolSet? && !last.PatchToolSet? ==>
              ToolsAfter(tools, requests + [last]) == ToolsAfter(tools, requests)
  {
    if last.ReplaceToolSet? {
      ToolsReplaced(tools, requests, last.toolSet);
    } else {
      var base, later := ToolsExtended(tools, requests, last);
      PatchesSnoc(later, last, base);
    }
  }

  predicate SkillAfter(skills: seq<SkillId>, requests: seq<ReconfigRequest>, skill: SkillId) {
    match LastDeciding(requests, TheSkill(skill))
    case None => skill in skills
    case Some(i) => requests[i] == ActivateSkill(skill)
                    || (requests[i].ReplaceActiveSkills? && skill in requests[i].skills)
  }

  /** The settings are what the queue said last about each of them. */
  ghost predicate SaidLast(s: Settings, requests: seq<ReconfigRequest>, after: Settings) {
    && after.model
       == (match LastDeciding(requests, TheModel) case None => s.model case Some(i) => requests[i].model)
    && after.policy
       == (match LastDeciding(requests, ThePolicy) case None => s.policy case Some(i) => requests[i].policy)
    && after.overlay
       == (match LastDeciding(requests, TheOverlay) case None => s.overlay case Some(i) => requests[i].overlay)
    && Ok(after.toolSet) == ToolsAfter(s.toolSet, requests)
    && forall skill :: skill in after.skills <==> SkillAfter(s.skills, requests, skill)
  }

  lemma SkillsEdited(s: Settings, request: ReconfigRequest, skill: SkillId)
    requires s.Valid() && Stepped(s, request).Ok?
    ensures skill in Stepped(s, request).value.skills <==>
            if Decides(request, TheSkill(skill)) then
              request == ActivateSkill(skill) || (request.ReplaceActiveSkills? && skill in request.skills)
            else skill in s.skills
  {
    if request.DeactivateSkill? {
      var i := IndexOf(s.skills, request.skill);
      UniqueWithoutOne(s.skills, i);
      assert s.skills == s.skills[..i] + [request.skill] + s.skills[i + 1..];
    }
  }

  lemma SaidOnceMore(s: Settings, requests: seq<ReconfigRequest>, before: Settings, last: ReconfigRequest)
    requires SaidLast(s, requests, before) && before.Valid() && Stepped(before, last).Ok?
    ensures SaidLast(s, requests + [last], Stepped(before, last).value)
  {
    var more := requests + [last];
    LastDecidingSnoc(requests, last, TheModel);
    LastDecidingSnoc(requests, last, ThePolicy);
    LastDecidingSnoc(requests, last, TheOverlay);
    ToolsAfterSnoc(s.toolSet, requests, last);
    forall skill: SkillId
      ensures skill in Stepped(before, last).value.skills <==> SkillAfter(s.skills, more, skill)
    {
      LastDecidingSnoc(requests, last, TheSkill(skill));
      SkillsEdited(before, last, skill);
      assert skill in before.skills <==> SkillAfter(s.skills, requests, skill);
    }
  }

  /**
   After a plan the model, the loop policy and the overlay are those of the last
   request that sets them, or the old ones; the tool set is the last one that was
   put in place, or the old one, with the patches after it; and a skill is active
   when the last request about it activated it or put it in the list, or when it
   was active and none was.
  */
  lemma {:induction false} PlansLeaveWhatWasSaidLast(s: Settings, requests: seq<ReconfigRequest>)
    requires s.Valid() && Planned(s, requests).Ok?
    ensures SaidLast(s, requests, Planned(s, requests).value)
    decreases |requests|
  {
    PlanKeepsValid(s, requests);
    if requests != [] {
      var first, last := requests[..|requests| - 1], requests[|requests| - 1];
      assert requests == first + [last];
      PlanSnoc(s, first, last);
      PlanKeepsValid(s, first);
      PlansLeaveWhatWasSaidLast(s, first);
      SaidOnceMore(s, first, Planned(s, first).value, last);
    }
  }
}
