/**
 Reconfiguration over whole runs of the default machine
 (src/agent/machine/default/mod.rs): submit, park, resume, apply, abandon, fail,
 stop and restart in any order.
*/
module ReconfigRuns {
  import opened Wrappers
  import opened ToolSets
  import opened Reconfig
  import opened AgentStates

  /** The deferred boundary; `committing` tells a text commit from the start of a turn. */
  datatype Parked = Parked(committing: Option<StepId>, application: Application)

  datatype Machine = Machine(state: State, scratch: Option<Parked>)

  /**
   What can happen between and inside steps. `closes` says whether opening or
   committing the turn succeeds, `agrees` whether a registry for the planned tool
   set is found. `Work` stands for every other checked cursor move of the machine.
   Skills are replaced directly only on a state taken out of its machine, which
   drops a parked plan.
  */
  datatype Action =
    | Submit(request: ReconfigRequest, agrees: bool)
    | BeginTurn(step: StepId, closes: bool)
    | FinishText(finished: StepId, commits: bool)
    | ResumeRegistry(resolved: bool, step: StepId, closes: bool)
    | AbandonRegistry(commits: bool)
    | StopOnBudget
    | Work(next: LoopCursor)
    | Fail
    | Restart
    | ReplaceSkills(skills: seq<SkillId>)

  /** What changed the settings: a request that left the queue, or a direct replacement of the skills. */
  datatype Change =
    | Requested(request: ReconfigRequest)
    | Replaced(skills: seq<SkillId>)

  /** The machine with the requests it accepted and everything that took effect, in order. */
  datatype Run = Run(machine: Machine, accepted: seq<ReconfigRequest>, changes: seq<Change>)

  function Start(state: State): Run {
    Run(Machine(state, None), state.queue, [])
  }

  function AllRequested(requests: seq<ReconfigRequest>): (changes: seq<Change>)
    ensures |changes| == |requests|
  {
    seq(|requests|, i requires 0 <= i < |requests| => Requested(requests[i]))
  }

  /** The changes as one queue of requests. */
  function AsRequests(changes: seq<Change>): (requests: seq<ReconfigRequest>)
    ensures |requests| == |changes|
  {
    seq(|changes|, i requires 0 <= i < |changes| =>
      match changes[i]
      case Requested(request) => request
      case Replaced(skills) => ReplaceActiveSkills(skills))
  }

  /** The applied requests alone. */
  function RequestsIn(changes: seq<Change>): seq<ReconfigRequest> {
    if changes == [] then []
    else
      match changes[|changes| - 1]
      case Requested(request) => RequestsIn(changes[..|changes| - 1]) + [request]
      case Replaced(_) => RequestsIn(changes[..|changes| - 1])
  }

  function AppliedRequests(r: Run): seq<ReconfigRequest> {
    RequestsIn(r.changes)
  }

  function AtCursor(r: Run, cursor: LoopCursor): Run {
    r.(machine := Machine(r.machine.state.(cursor := cursor), None))
  }

  const FAILED := Error("failed", 0)

  function Failed(r: Run): Run {
    AtCursor(r, FAILED)
  }

  function ApplyAll(r: Run, a: Application): Run {
    r.(machine := Machine(WithApplication(r.machine.state, a), None), changes := r.changes + AllRequested(a.requests))
  }

  function Opened(r: Run, step: StepId, closes: bool): Run {
    if closes then AtCursor(r, StreamingStep(step, None)) else Failed(r)
  }

  function Park(r: Run, committing: Option<StepId>, a: Application): Run {
    var cursor := AwaitingReconfig(committing, None);
    match Moved(r.machine.state, cursor)
    case Ok(state) => r.(machine := Machine(state, Some(Parked(committing, a))))
    case Err(_) => Failed(r)
  }

  predicate AtRest(c: LoopCursor) {
    c.Idle? || c.Done? || c.Error? || c.CancelRecovery?
  }

  function Submitted(r: Run, request: ReconfigRequest, agrees: bool): Run {
    var s := r.machine.state;
    match Admitted(s, request)
    case Err(_) => r
    case Ok(more) =>
      if Planned(s.settings, more.queue).value.toolSet != s.settings.toolSet && !agrees then r
      else r.(machine := r.machine.(state := more), accepted := r.accepted + [request])
  }

  function TurnBegun(r: Run, step: StepId, closes: bool): Run {
    if !AtRest(r.machine.state.cursor) then r
    else
      var rested := AtCursor(r, Idle);
      match QueuedApplication(rested.machine.state)
      case Err(_) => Failed(rested)
      case Ok(None) => Opened(rested, step, closes)
      case Ok(Some(a)) =>
        if a.settings.toolSet == rested.machine.state.settings.toolSet then Opened(ApplyAll(rested, a), step, closes)
        else Park(rested, None, a)
  }

  function TextFinished(r: Run, step: StepId, commits: bool): Run {
    if !r.machine.state.cursor.StreamingStep? then r
    else
      match QueuedApplication(r.machine.state)
      case Err(_) => Failed(r)
      case Ok(None) => if commits then AtCursor(r, Done(0)) else Failed(r)
      case Ok(Some(a)) =>
        if a.settings.toolSet != r.machine.state.settings.toolSet then Park(r, Some(step), a)
        else if commits then AtCursor(ApplyAll(r, a), Done(0))
        else Failed(r)
  }

  function RegistryResumed(r: Run, resolved: bool, step: StepId, closes: bool): Run {
    if !r.machine.state.cursor.AwaitingReconfig? then r
    else if !resolved || r.machine.scratch.None? then Failed(r)
    else
      var parked := r.machine.scratch.value;
      if parked.committing.None? then Opened(ApplyAll(r, parked.application), step, closes)
      else if closes then AtCursor(ApplyAll(r, parked.application), Done(0))
      else Failed(r)
  }

  function Next(r: Run, action: Action): Run {
    var s := r.machine.state;
    match action
    case Submit(request, agrees) => Submitted(r, request, agrees)
    case BeginTurn(step, closes) => TurnBegun(r, step, closes)
    case FinishText(step, commits) => TextFinished(r, step, commits)
    case ResumeRegistry(resolved, step, closes) => RegistryResumed(r, resolved, step, closes)
    case AbandonRegistry(commits) =>
      if !s.cursor.AwaitingReconfig? then r else if commits then AtCursor(r, Idle) else Failed(r)
    case StopOnBudget => if s.cursor.Done? || s.cursor.Error? then r else AtCursor(r, Done(1))
    case Work(next) =>
      if s.cursor.AwaitingReconfig? || next.AwaitingReconfig? || Moved(s, next).Err? then r else AtCursor(r, next)
    case Fail => Failed(r)
    case Restart => r.(machine := r.machine.(scratch := None))
    case ReplaceSkills(skills) =>
      if Unique(skills) then
        r.(machine := Machine(s.(settings := s.settings.(skills := skills)), None),
           changes := r.changes + [Replaced(skills)])
      else r.(machine := r.machine.(scratch := None))
  }

  function RunAll(r: Run, actions: seq<Action>): Run {
    if actions == [] then r else Next(RunAll(r, actions[..|actions| - 1]), actions[|actions| - 1])
  }

  // ----- no request is lost -----

  /** Accepted is applied then queued, and a parked plan was made from the whole queue. */
  predicate Conserved(r: Run) {
    && r.accepted == AppliedRequests(r) + r.machine.state.queue
    && (r.machine.scratch.Some? ==>
          && r.machine.state.cursor.AwaitingReconfig?
          && r.machine.scratch.value.application.requests == r.machine.state.queue)
  }

  lemma {:induction false} RequestedAreIn(changes: seq<Change>, requests: seq<ReconfigRequest>)
    ensures RequestsIn(changes + AllRequested(requests)) == RequestsIn(changes) + requests
    decreases |requests|
  {
    var all := changes + AllRequested(requests);
    if requests == [] {
      assert all == changes;
    } else {
      var first := requests[..|requests| - 1];
      assert all[..|all| - 1] == changes + AllRequested(first);
      RequestedAreIn(changes, first);
      assert requests == first + [requests[|requests| - 1]];
    }
  }

  lemma ApplyingConserves(r: Run, a: Application)
    requires Conserved(r) && a.requests == r.machine.state.queue
    ensures Conserved(ApplyAll(r, a))
  {
    RequestedAreIn(r.changes, a.requests);
    assert AppliedRequests(r) + a.requests + [] == r.accepted;
  }

  lemma CursorConserves(r: Run, cursor: LoopCursor)
    requires Conserved(r)
    ensures Conserved(AtCursor(r, cursor))
  {}

  lemma BeginConserves(r: Run, step: StepId, closes: bool)
    requires Conserved(r)
    ensures Conserved(TurnBegun(r, step, closes))
  {
    var rested := AtCursor(r, Idle);
    CursorConserves(r, Idle);
    CursorConserves(rested, FAILED);
    CursorConserves(rested, StreamingStep(step, None));
    var planned := QueuedApplication(rested.machine.state);
    if planned.Ok? && planned.value.Some? {
      var applied := ApplyAll(rested, planned.value.value);
      ApplyingConserves(rested, planned.value.value);
      CursorConserves(applied, FAILED);
      CursorConserves(applied, StreamingStep(step, None));
    }
  }

  lemma FinishConserves(r: Run, step: StepId, commits: bool)
    requires Conserved(r)
    ensures Conserved(TextFinished(r, step, commits))
  {
    CursorConserves(r, FAILED);
    CursorConserves(r, Done(0));
    var planned := QueuedApplication(r.machine.state);
    if planned.Ok? && planned.value.Some? {
      ApplyingConserves(r, planned.value.value);
      CursorConserves(ApplyAll(r, planned.value.value), Done(0));
    }
  }

  lemma ResumeConserves(r: Run, resolved: bool, step: StepId, closes: bool)
    requires Conserved(r)
    ensures Conserved(RegistryResumed(r, resolved, step, closes))
  {
    if r.machine.scratch.Some? {
      ApplyingConserves(r, r.machine.scratch.value.application);
    }
  }

  lemma StepConserves(r: Run, action: Action)
    requires Conserved(r)
    ensures Conserved(Next(r, action))
  {
    match action
    case Submit(request, _) =>
      assert AppliedRequests(r) + (r.machine.state.queue + [request]) == r.accepted + [request];
    case BeginTurn(step, closes) => BeginConserves(r, step, closes);
    case FinishText(step, commits) => FinishConserves(r, step, commits);
    case ResumeRegistry(resolved, step, closes) => ResumeConserves(r, resolved, step, closes);
    case ReplaceSkills(skills) =>
      assert (r.changes + [Replaced(skills)])[..|r.changes|] == r.changes;
    case _ =>
  }

  /**
   Over every run, whatever fails, is abandoned, stopped or restarted: the accepted
   requests are the applied ones followed by the queued ones, in order.
  */
  lemma {:induction false} NoRequestIsLost(state: State, actions: seq<Action>)
    ensures Conserved(RunAll(Start(state), actions))
    decreases |actions|
  {
    if actions != [] {
      NoRequestIsLost(state, actions[..|actions| - 1]);
      StepConserves(RunAll(Start(state), actions[..|actions| - 1]), actions[|actions| - 1]);
    }
  }

  // ----- what is in force is what took effect -----

  /**
   The settings in force are everything that took effect, folded over the first
   settings, and a parked plan is the plan of the queue.
  */
  ghost predicate InForce(first: Settings, r: Run) {
    var s := r.machine.state;
    && first.Valid() && s.settings.Valid()
    && Planned(first, AsRequests(r.changes)) == Ok(s.settings)
    && (r.machine.scratch.Some? ==>
          && Ok(r.machine.scratch.value.application.settings) == Planned(s.settings, s.queue)
          && r.machine.scratch.value.application.settings.toolSet != s.settings.toolSet)
  }

  /** The queue can be planned on the settings in force. */
  ghost predicate Plannable(r: Run) {
    Planned(r.machine.state.settings, r.machine.state.queue).Ok?
  }

  /** The settings of the second run are accounted for, and its queue can be planned if the first one's could. */
  ghost predicate Accounted(first: Settings, r: Run, after: Run) {
    InForce(first, after) && (Plannable(r) ==> Plannable(after))
  }

  lemma ApplyingIsAccounted(first: Settings, r: Run, a: Application)
    requires Conserved(r) && InForce(first, r)
    requires a.requests == r.machine.state.queue && Planned(r.machine.state.settings, a.requests) == Ok(a.settings)
    ensures InForce(first, ApplyAll(r, a)) && Plannable(ApplyAll(r, a))
  {
    PlanConcat(first, AsRequests(r.changes), a.requests);
    assert AsRequests(r.changes + AllRequested(a.requests)) == AsRequests(r.changes) + a.requests;
    PlanKeepsValid(r.machine.state.settings, a.requests);
    PlanKeepsValid(a.settings, []);
  }

  lemma CursorIsAccounted(first: Settings, r: Run, cursor: LoopCursor)
    requires InForce(first, r)
    ensures Accounted(first, r, AtCursor(r, cursor))
  {}

  lemma OpenIsAccounted(first: Settings, r: Run, step: StepId, closes: bool)
    requires InForce(first, r)
    ensures Accounted(first, r, Opened(r, step, closes))
  {
    CursorIsAccounted(first, r, StreamingStep(step, None));
    CursorIsAccounted(first, r, FAILED);
  }

  lemma ParkIsAccounted(first: Settings, r: Run, committing: Option<StepId>, a: Application)
    requires InForce(first, r)
    requires Planned(r.machine.state.settings, r.machine.state.queue) == Ok(a.settings)
    requires a.settings.toolSet != r.machine.state.settings.toolSet
    ensures Accounted(first, r, Park(r, committing, a))
  {}

  lemma BeginIsAccounted(first: Settings, r: Run, step: StepId, closes: bool)
    requires Conserved(r) && InForce(first, r)
    ensures Accounted(first, r, TurnBegun(r, step, closes))
  {
    var rested := AtCursor(r, Idle);
    CursorIsAccounted(first, r, Idle);
    OpenIsAccounted(first, rested, step, closes);
    CursorIsAccounted(first, rested, FAILED);
    var planned := QueuedApplication(rested.machine.state);
    if planned.Ok? && planned.value.Some? {
      var a := planned.value.value;
      if a.settings.toolSet != r.machine.state.settings.toolSet {
        ParkIsAccounted(first, rested, None, a);
      } else {
        ApplyingIsAccounted(first, rested, a);
        OpenIsAccounted(first, ApplyAll(rested, a), step, closes);
      }
    }
  }

  lemma FinishIsAccounted(first: Settings, r: Run, step: StepId, commits: bool)
    requires Conserved(r) && InForce(first, r)
    ensures Accounted(first, r, TextFinished(r, step, commits))
  {
    CursorIsAccounted(first, r, FAILED);
    CursorIsAccounted(first, r, Done(0));
    var planned := QueuedApplication(r.machine.state);
    if planned.Ok? && planned.value.Some? {
      var a := planned.value.value;
      if a.settings.toolSet != r.machine.state.settings.toolSet {
        ParkIsAccounted(first, r, Some(step), a);
      } else {
        ApplyingIsAccounted(first, r, a);
        CursorIsAccounted(first, ApplyAll(r, a), Done(0));
      }
    }
  }

  lemma ResumeIsAccounted(first: Settings, r: Run, resolved: bool, step: StepId, closes: bool)
    requires Conserved(r) && InForce(first, r)
    ensures Accounted(first, r, RegistryResumed(r, resolved, step, closes))
  {
    CursorIsAccounted(first, r, FAILED);
    if r.machine.scratch.Some? {
      var a := r.machine.scratch.value.application;
      ApplyingIsAccounted(first, r, a);
      OpenIsAccounted(first, ApplyAll(r, a), step, closes);
      CursorIsAccounted(first, ApplyAll(r, a), Done(0));
    }
  }

  lemma ReplacingIsInForce(first: Settings, r: Run, skills: seq<SkillId>)
    requires InForce(first, r)
    ensures InForce(first, Next(r, ReplaceSkills(skills)))
  {
    if Unique(skills) {
      PlanSnoc(first, AsRequests(r.changes), ReplaceActiveSkills(skills));
      assert AsRequests(r.changes + [Replaced(skills)]) == AsRequests(r.changes) + [ReplaceActiveSkills(skills)];
    }
  }

  lemma SubmitIsAccounted(first: Settings, r: Run, request: ReconfigRequest, agrees: bool)
    requires Conserved(r) && InForce(first, r)
    ensures Accounted(first, r, Submitted(r, request, agrees))
  {}

  lemma StepIsInForce(first: Settings, r: Run, action: Action)
    requires Conserved(r) && InForce(first, r)
    ensures InForce(first, Next(r, action))
    ensures !action.ReplaceSkills? && Plannable(r) ==> Plannable(Next(r, action))
  {
    match action
    case Submit(request, agrees) => SubmitIsAccounted(first, r, request, agrees);
    case BeginTurn(step, closes) => BeginIsAccounted(first, r, step, closes);
    case FinishText(step, commits) => FinishIsAccounted(first, r, step, commits);
    case ResumeRegistry(resolved, step, closes) => ResumeIsAccounted(first, r, resolved, step, closes);
    case ReplaceSkills(skills) => ReplacingIsInForce(first, r, skills);
    case _ =>
  }

  /**
   In every run, direct replacements included, the settings in force are what took
   effect, replayed in order over the first settings as one queue; and a parked
   plan is still the plan of the queue when it is applied.
  */
  lemma {:induction false} SettingsAreWhatTookEffect(state: State, actions: seq<Action>)
    requires state.settings.Valid()
    ensures InForce(state.settings, RunAll(Start(state), actions))
    decreases |actions|
  {
    if actions == [] {
      PlanKeepsValid(state.settings, []);
    } else {
      var before := actions[..|actions| - 1];
      SettingsAreWhatTookEffect(state, before);
      NoRequestIsLost(state, before);
      StepIsInForce(state.settings, RunAll(Start(state), before), actions[|actions| - 1]);
    }
  }

  lemma {:induction false} OverlaysAreRequested(changes: seq<Change>)
    ensures Overlays(AsRequests(changes)) == Overlays(RequestsIn(changes))
    decreases |changes|
  {
    if changes != [] {
      var first, last := changes[..|changes| - 1], changes[|changes| - 1];
      OverlaysAreRequested(first);
      assert AsRequests(changes)[..|changes| - 1] == AsRequests(first);
      if last.Requested? {
        assert (RequestsIn(first) + [last.request])[..|RequestsIn(first)|] == RequestsIn(first);
      }
    }
  }

  /**
   So in every run the whole history can be replayed: what took effect and then the
   queue plan over the first settings as the queue plans over those in force; skills
   and tool names stay unique, and the overlay version counts the applied overlays.
  */
  lemma HistoryReplays(state: State, actions: seq<Action>)
    requires state.settings.Valid()
    ensures var r := RunAll(Start(state), actions);
            && Planned(state.settings, AsRequests(r.changes) + r.machine.state.queue)
               == Planned(r.machine.state.settings, r.machine.state.queue)
            && r.machine.state.settings.overlayVersion == state.settings.overlayVersion + Overlays(AppliedRequests(r))
            && Unique(r.machine.state.settings.skills)
            && Unique(Names(r.machine.state.settings.toolSet.tools))
  {
    var r := RunAll(Start(state), actions);
    SettingsAreWhatTookEffect(state, actions);
    PlanConcat(state.settings, AsRequests(r.changes), r.machine.state.queue);
    PlanKeepsValid(state.settings, AsRequests(r.changes));
    OverlaysAreRequested(r.changes);
  }

  /**
   A boundary settles the whole queue: at rest, beginning a turn applies it at once
   when the plan keeps the tool set; otherwise it parks, and a confirming resume applies it.
  */
  lemma BoundaryAppliesTheWholeQueue(first: Settings, r: Run, step: StepId)
    requires Conserved(r) && InForce(first, r) && Plannable(r)
    requires r.machine.state.cursor.Idle? || r.machine.state.cursor.Done? || r.machine.state.cursor.Error?
             || r.machine.state.cursor.CancelRecovery?
    ensures var plan := Planned(r.machine.state.settings, r.machine.state.queue).value;
            var begun := Next(r, BeginTurn(step, true));
            var after := if begun.machine.scratch.Some? then Next(begun, ResumeRegistry(true, step, true)) else begun;
            && (begun.machine.scratch.Some? <==> plan.toolSet != r.machine.state.settings.toolSet)
            && after.machine.state.queue == [] && AppliedRequests(after) == r.accepted
            && after.machine.state.settings == plan
            && after.machine.state.cursor == StreamingStep(step, None)
  {
    PlanKeepsValid(r.machine.state.settings, []);
    RequestedAreIn(r.changes, r.machine.state.queue);
    assert AppliedRequests(r) + r.machine.state.queue == r.accepted;
  }

  /**
   The same at the end of a text step: what commits applies the whole queue, at once
   or when the awaited registry confirms it.
  */
  lemma TextBoundaryAppliesTheWholeQueue(first: Settings, r: Run, step: StepId, later: StepId)
    requires Conserved(r) && InForce(first, r) && Plannable(r) && r.machine.state.cursor.StreamingStep?
    ensures var plan := Planned(r.machine.state.settings, r.machine.state.queue).value;
            var finished := Next(r, FinishText(step, true));
            var after :=
              if finished.machine.scratch.Some? then Next(finished, ResumeRegistry(true, later, true)) else finished;
            && (finished.machine.scratch.Some? <==> plan.toolSet != r.machine.state.settings.toolSet)
            && after.machine.state.queue == [] && AppliedRequests(after) == r.accepted
            && after.machine.state.settings == plan && after.machine.state.cursor == Done(0)
  {
    PlanKeepsValid(r.machine.state.settings, []);
    RequestedAreIn(r.changes, r.machine.state.queue);
    assert AppliedRequests(r) + r.machine.state.queue == r.accepted;
  }

  /**
   Where beginning a turn at rest leaves the loop: failed when the queue cannot be
   planned, waiting for a registry when its plan changes the tools, and otherwise,
   with the plan applied, streaming or, if the turn does not open, failed.
  */
  lemma BeginningATurnLeads(first: Settings, r: Run, step: StepId, closes: bool)
    requires Conserved(r) && InForce(first, r)
    requires r.machine.state.cursor.Idle? || r.machine.state.cursor.Done? || r.machine.state.cursor.Error?
             || r.machine.state.cursor.CancelRecovery?
    ensures var s, next := r.machine.state, Next(r, BeginTurn(step, closes));
            match Planned(s.settings, s.queue)
            case Err(_) => next == r.(machine := Machine(s.(cursor := FAILED), None))
            case Ok(plan) =>
              if plan.toolSet == s.settings.toolSet then
                next.machine == Machine(s.(settings := plan, queue := [],
                                           cursor := if closes then StreamingStep(step, None) else FAILED), None)
              else
                next == r.(machine := Machine(s.(cursor := AwaitingReconfig(None, None)),
                                              Some(Parked(None, Application(s.queue, plan)))))
  {
    PlanKeepsValid(r.machine.state.settings, []);
  }

  /** Where a finished text leads, in the same way; but here a commit that fails applies nothing. */
  lemma FinishingTextLeads(first: Settings, r: Run, step: StepId, commits: bool)
    requires Conserved(r) && InForce(first, r) && r.machine.state.cursor.StreamingStep?
    ensures var s, next := r.machine.state, Next(r, FinishText(step, commits));
            match Planned(s.settings, s.queue)
            case Err(_) => next == r.(machine := Machine(s.(cursor := FAILED), None))
            case Ok(plan) =>
              if plan.toolSet != s.settings.toolSet then
                next == r.(machine := Machine(s.(cursor := AwaitingReconfig(Some(step), None)),
                                              Some(Parked(Some(step), Application(s.queue, plan)))))
              else if commits then
                next.machine == Machine(s.(settings := plan, queue := [], cursor := Done(0)), None)
              else
                next == r.(machine := Machine(s.(cursor := FAILED), None))
  {
    PlanKeepsValid(r.machine.state.settings, []);
  }

  /** Where a confirmed plan leads: it takes effect, unless the commit it was parked for fails. */
  lemma ConfirmingAPlanLeads(r: Run, step: StepId, closes: bool)
    requires r.machine.state.cursor.AwaitingReconfig? && r.machine.scratch.Some?
    ensures var s, parked := r.machine.state, r.machine.scratch.value;
            Next(r, ResumeRegistry(true, step, closes)).machine
            == Machine(
                 if parked.committing.Some? && !closes then s.(cursor := FAILED)
                 else s.(settings := parked.application.settings, queue := [],
                         cursor := if parked.committing.Some? then Done(0)
                                   else if closes then StreamingStep(step, None) else FAILED),
                 None)
  {}

  /** Settings and queue stay as they are. */
  predicate LeavesSettings(r: Run, next: Run) {
    next.machine.state.settings == r.machine.state.settings && next.machine.state.queue == r.machine.state.queue
  }

  /** The whole queue took effect. */
  ghost predicate AppliesTheQueue(r: Run, next: Run) {
    && Ok(next.machine.state.settings) == Planned(r.machine.state.settings, r.machine.state.queue)
    && next.machine.state.queue == []
  }

  /**
   A request joins the queue exactly when no reconfiguration is parked, the longer
   queue can be planned, and a registry is found if that changes the tools.
  */
  lemma SubmissionsAreAdmittedExactlyWhen(r: Run, request: ReconfigRequest, agrees: bool)
    ensures var s := r.machine.state;
            var planned := Planned(s.settings, s.queue + [request]);
            var admitted := !s.cursor.AwaitingReconfig? && planned.Ok?
                            && (planned.value.toolSet == s.settings.toolSet || agrees);
            Next(r, Submit(request, agrees))
            == if admitted then
                 r.(machine := r.machine.(state := s.(queue := s.queue + [request])),
                    accepted := r.accepted + [request])
               else r
  {}

  /**
   What the other steps do to settings and queue: only a boundary applies, and then
   the whole queue; a direct replacement changes the skills alone, and everything
   else leaves both.
  */
  lemma StepsDoOneThing(first: Settings, r: Run, action: Action)
    requires Conserved(r) && InForce(first, r) && !action.Submit?
    ensures var s, next := r.machine.state, Next(r, action);
            && next.machine.state.spec == s.spec
            && match action
               case BeginTurn(_, _) => LeavesSettings(r, next) || (AtRest(s.cursor) && AppliesTheQueue(r, next))
               case FinishText(_, commits) =>
                 LeavesSettings(r, next) || (s.cursor.StreamingStep? && commits && AppliesTheQueue(r, next))
               case ResumeRegistry(resolved, _, _) =>
                 || LeavesSettings(r, next)
                 || (s.cursor.AwaitingReconfig? && resolved && r.machine.scratch.Some? && AppliesTheQueue(r, next))
               case ReplaceSkills(skills) =>
                 && next.machine.state == s.(settings := next.machine.state.settings)
                 && next.machine.scratch.None?
                 && next.machine.state.settings
                    == if Unique(skills) then s.settings.(skills := skills) else s.settings
               case _ => LeavesSettings(r, next)
  {
    PlanKeepsValid(r.machine.state.settings, r.machine.state.queue);
  }

  /** A step that does not fit the cursor changes nothing; abandoning, stopping and failing drop a parked plan. */
  lemma StepsFitTheCursor(r: Run, action: Action)
    ensures var cursor, next := r.machine.state.cursor, Next(r, action);
            match action
            case BeginTurn(_, _) =>
              !cursor.Idle? && !cursor.Done? && !cursor.Error? && !cursor.CancelRecovery? ==> next == r
            case FinishText(_, _) => !cursor.StreamingStep? ==> next == r
            case ResumeRegistry(resolved, _, _) =>
              && (!cursor.AwaitingReconfig? ==> next == r)
              && (cursor.AwaitingReconfig? && (!resolved || r.machine.scratch.None?) ==>
                    next.machine == Machine(r.machine.state.(cursor := FAILED), None))
            case AbandonRegistry(commits) =>
              next == if cursor.AwaitingReconfig? then
                        r.(machine := Machine(r.machine.state.(cursor := if commits then Idle else FAILED), None))
                      else r
            case StopOnBudget =>
              next == if cursor.Done? || cursor.Error? then r
                      else r.(machine := Machine(r.machine.state.(cursor := Done(1)), None))
            case Fail => next == r.(machine := Machine(r.machine.state.(cursor := FAILED), None))
            case Restart => next == r.(machine := Machine(r.machine.state, None))
            case Work(to) =>
              next.machine.state.cursor
              == if !cursor.AwaitingReconfig? && !to.AwaitingReconfig?
                    && ValidateCursor(to).Ok? && CanTransition(cursor, to)
                 then to else cursor
            case _ => next.machine.state.cursor == cursor
  {}

  // ----- replacing skills directly does not plan the queue again -----

  /** What one request does to the skills alone, unless it is refused. */
  function SkillsStep(before: seq<SkillId>, request: ReconfigRequest): Option<seq<SkillId>> {
    match request
    case ActivateSkill(skill) => if skill in before then None else Some(before + [skill])
    case DeactivateSkill(skill) =>
      var i := IndexOf(before, skill);
      if i == |before| then None else Some(before[..i] + before[i + 1..])
    case ReplaceActiveSkills(replaced) => Some(replaced)
    case _ => Some(before)
  }

  /** The skills after the requests of a queue, unless one of them is refused. */
  function SkillsAfter(skills: seq<SkillId>, queue: seq<ReconfigRequest>): Option<seq<SkillId>> {
    if queue == [] then Some(skills)
    else
      match SkillsAfter(skills, queue[..|queue| - 1])
      case None => None
      case Some(before) => SkillsStep(before, queue[|queue| - 1])
  }

  /** Only the skills decide whether a request still applies when the skills are others. */
  lemma StepsApart(s: Settings, request: ReconfigRequest, skills: seq<SkillId>)
    requires Stepped(s, request).Ok?
    ensures Stepped(s.(skills := skills), request)
            == match SkillsStep(skills, request)
               case None => Stepped(s.(skills := skills), request)
               case Some(after) => Ok(Stepped(s, request).value.(skills := after))
    ensures Stepped(s.(skills := skills), request).Ok? <==> SkillsStep(skills, request).Some?
  {}

  lemma {:induction false} SkillsPlanApart(s: Settings, queue: seq<ReconfigRequest>, skills: seq<SkillId>)
    requires Folded(s, queue).Ok?
    ensures Folded(s.(skills := skills), queue).Ok? <==> SkillsAfter(skills, queue).Some?
    ensures SkillsAfter(skills, queue).Some? ==>
              Folded(s.(skills := skills), queue).value
              == Folded(s, queue).value.(skills := SkillsAfter(skills, queue).value)
    decreases |queue|
  {
    if queue != [] {
      var first, last := queue[..|queue| - 1], queue[|queue| - 1];
      SkillsPlanApart(s, first, skills);
      if SkillsAfter(skills, first).Some? {
        StepsApart(Folded(s, first).value, last, SkillsAfter(skills, first).value);
      }
    }
  }

  /** Length of the queue before its first whole replacement of the skill list. */
  function UpToReplace(queue: seq<ReconfigRequest>): (n: nat)
    ensures n <= |queue| && (n < |queue| ==> queue[n].ReplaceActiveSkills?)
    ensures forall i :: 0 <= i < n ==> !queue[i].ReplaceActiveSkills?
  {
    if queue == [] || queue[0].ReplaceActiveSkills? then 0 else 1 + UpToReplace(queue[1..])
  }

  predicate Mentions(request: ReconfigRequest, skill: SkillId) {
    (request.ActivateSkill? || request.DeactivateSkill?) && request.skill == skill
  }

  /** One of the first `n` requests switches the skill on or off. */
  predicate Mentioned(queue: seq<ReconfigRequest>, n: nat, skill: SkillId)
    requires n <= |queue|
  {
    exists i :: 0 <= i < n && Mentions(queue[i], skill)
  }

  /** The two lists agree on every skill the first `n` requests mention. */
  ghost predicate Agree(queue: seq<ReconfigRequest>, n: nat, a: seq<SkillId>, b: seq<SkillId>)
    requires n <= |queue|
  {
    forall skill :: Mentioned(queue, n, skill) ==> (skill in a <==> skill in b)
  }

  lemma AgreesOnOneMore(queue: seq<ReconfigRequest>, n: nat, a: seq<SkillId>, b: seq<SkillId>)
    requires n < |queue|
    ensures forall skill :: Mentioned(queue, n + 1, skill) <==> Mentioned(queue, n, skill) || Mentions(queue[n], skill)
    ensures Agree(queue, n + 1, a, b) <==>
            Agree(queue, n, a, b) && forall skill :: Mentions(queue[n], skill) ==> (skill in a <==> skill in b)
  {
    forall skill: SkillId
      ensures Mentioned(queue, n + 1, skill) <==> Mentioned(queue, n, skill) || Mentions(queue[n], skill)
    {}
  }

  /** What one request does to membership in a list without repeats. */
  lemma SkillsStepIs(before: seq<SkillId>, request: ReconfigRequest)
    requires Unique(before) && !request.ReplaceActiveSkills? && SkillsStep(before, request).Some?
    ensures var after := SkillsStep(before, request).value;
            && Unique(after)
            && forall skill :: skill in after <==>
                 if Mentions(request, skill) then request.ActivateSkill? else skill in before
  {
    match request
    case ActivateSkill(skill) => UniqueMore(before, skill);
    case DeactivateSkill(skill) =>
      var i := IndexOf(before, skill);
      UniqueWithoutOne(before, i);
      assert before == before[..i] + [skill] + before[i + 1..];
    case _ =>
  }

  /** A request one list admits is admitted by another exactly when they agree on the skill it switches. */
  lemma AdmittedAlike(x: seq<SkillId>, y: seq<SkillId>, request: ReconfigRequest)
    requires !request.ReplaceActiveSkills? && SkillsStep(x, request).Some?
    ensures SkillsStep(y, request).Some? <==>
            forall skill :: Mentions(request, skill) ==> (skill in x <==> skill in y)
  {
    if request.ActivateSkill? || request.DeactivateSkill? {
      assert Mentions(request, request.skill);
    }
  }

  /** What is known of two skill lists after the first `n` requests went through on the first. */
  ghost predicate SameUse(queue: seq<ReconfigRequest>, n: nat, a: seq<SkillId>, b: seq<SkillId>)
    requires n <= |queue| && SkillsAfter(a, queue[..n]).Some?
  {
    && Follows(queue, n, a, SkillsAfter(a, queue[..n]).value)
    && (SkillsAfter(b, queue[..n]).Some? <==> Agree(queue, n, a, b))
    && (SkillsAfter(b, queue[..n]).Some? ==>
          && Follows(queue, n, b, SkillsAfter(b, queue[..n]).value)
          && SameOnMentioned(queue, n, SkillsAfter(a, queue[..n]).value, SkillsAfter(b, queue[..n]).value))
  }

  /** The later list has no repeats and is the earlier one on every skill not mentioned. */
  ghost predicate Follows(queue: seq<ReconfigRequest>, n: nat, a: seq<SkillId>, x: seq<SkillId>)
    requires n <= |queue|
  {
    Unique(x) && forall skill :: !Mentioned(queue, n, skill) ==> (skill in x <==> skill in a)
  }

  ghost predicate SameOnMentioned(queue: seq<ReconfigRequest>, n: nat, x: seq<SkillId>, y: seq<SkillId>)
    requires n <= |queue|
  {
    forall skill :: Mentioned(queue, n, skill) ==> (skill in x <==> skill in y)
  }

  lemma SkillsSnoc(skills: seq<SkillId>, queue: seq<ReconfigRequest>, n: nat)
    requires n < |queue|
    ensures SkillsAfter(skills, queue[..n + 1])
            == if SkillsAfter(skills, queue[..n]).None? then None
               else SkillsStep(SkillsAfter(skills, queue[..n]).value, queue[n])
  {
    assert queue[..n + 1][..n] == queue[..n];
  }

  lemma FollowsStep(queue: seq<ReconfigRequest>, m: nat, a: seq<SkillId>, x: seq<SkillId>)
    requires m < |queue| && Follows(queue, m, a, x) && !queue[m].ReplaceActiveSkills? && SkillsStep(x, queue[m]).Some?
    ensures Follows(queue, m + 1, a, SkillsStep(x, queue[m]).value)
  {
    SkillsStepIs(x, queue[m]);
    AgreesOnOneMore(queue, m, a, a);
  }

  lemma SameOnMentionedStep(queue: seq<ReconfigRequest>, m: nat, x: seq<SkillId>, y: seq<SkillId>)
    requires m < |queue| && SameOnMentioned(queue, m, x, y) && !queue[m].ReplaceActiveSkills? && Unique(x) && Unique(y)
    requires SkillsStep(x, queue[m]).Some? && SkillsStep(y, queue[m]).Some?
    ensures SameOnMentioned(queue, m + 1, SkillsStep(x, queue[m]).value, SkillsStep(y, queue[m]).value)
  {
    SkillsStepIs(x, queue[m]);
    SkillsStepIs(y, queue[m]);
    AgreesOnOneMore(queue, m, x, y);
  }

  /** The second list admits the next request exactly when the two first lists agree on it as well. */
  lemma NextIsAdmitted(queue: seq<ReconfigRequest>, m: nat, a: seq<SkillId>, b: seq<SkillId>, x: seq<SkillId>,
                       y: seq<SkillId>)
    requires m < |queue| && !queue[m].ReplaceActiveSkills? && SkillsStep(x, queue[m]).Some? && Agree(queue, m, a, b)
    requires Follows(queue, m, a, x) && Follows(queue, m, b, y) && SameOnMentioned(queue, m, x, y)
    ensures SkillsStep(y, queue[m]).Some? <==> Agree(queue, m + 1, a, b)
  {
    AdmittedAlike(x, y, queue[m]);
    AgreesOnOneMore(queue, m, a, b);
    forall skill | Mentions(queue[m], skill)
      ensures (skill in x <==> skill in y) <==> (skill in a <==> skill in b)
    {
      if Mentioned(queue, m, skill) {
        assert skill in a <==> skill in b;
      }
    }
  }

  lemma AgreementStep(queue: seq<ReconfigRequest>, m: nat, a: seq<SkillId>, b: seq<SkillId>)
    requires m < UpToReplace(queue) && SkillsAfter(a, queue[..m]).Some? && SameUse(queue, m, a, b)
    requires SkillsAfter(a, queue[..m + 1]).Some?
    ensures SameUse(queue, m + 1, a, b)
  {
    SkillsSnoc(a, queue, m);
    SkillsSnoc(b, queue, m);
    var x := SkillsAfter(a, queue[..m]).value;
    FollowsStep(queue, m, a, x);
    if SkillsAfter(b, queue[..m]).None? {
      AgreesOnOneMore(queue, m, a, b);
    } else {
      var y := SkillsAfter(b, queue[..m]).value;
      NextIsAdmitted(queue, m, a, b, x, y);
      if SkillsStep(y, queue[m]).Some? {
        FollowsStep(queue, m, b, y);
        SameOnMentionedStep(queue, m, x, y);
      }
    }
  }

  lemma {:induction false} AgreementDecides(queue: seq<ReconfigRequest>, n: nat, a: seq<SkillId>, b: seq<SkillId>)
    requires n <= UpToReplace(queue) && Unique(a) && Unique(b) && SkillsAfter(a, queue[..n]).Some?
    ensures SameUse(queue, n, a, b)
  {
    if n > 0 {
      SkillsSnoc(a, queue, n - 1);
      AgreementDecides(queue, n - 1, a, b);
      AgreementStep(queue, n - 1, a, b);
    }
  }

  /** From the first whole replacement on, the two lists are one. */
  lemma {:induction false} ReplacementForgets(queue: seq<ReconfigRequest>, n: nat, a: seq<SkillId>, b: seq<SkillId>)
    requires UpToReplace(queue) < n <= |queue|
    requires SkillsAfter(a, queue[..UpToReplace(queue)]).Some? && SkillsAfter(b, queue[..UpToReplace(queue)]).Some?
    ensures SkillsAfter(a, queue[..n]) == SkillsAfter(b, queue[..n])
  {
    assert queue[..n][..n - 1] == queue[..n - 1];
    if UpToReplace(queue) < n - 1 {
      ReplacementForgets(queue, n - 1, a, b);
    }
  }

  lemma {:induction false} SkillsFail(skills: seq<SkillId>, queue: seq<ReconfigRequest>, n: nat)
    requires n <= |queue| && SkillsAfter(skills, queue[..n]).None?
    ensures SkillsAfter(skills, queue).None?
    decreases |queue|
  {
    if n < |queue| {
      assert queue[..|queue| - 1][..n] == queue[..n];
      SkillsFail(skills, queue[..|queue| - 1], n);
    } else {
      assert queue[..n] == queue;
    }
  }

  /**
   Replacing the active skills keeps the queue plannable exactly when the new list
   agrees with the old one on every skill the queue switches before it first
   replaces the whole list.
  */
  lemma ReplacingSkillsKeepsTheQueueExactlyWhen(s: Settings, queue: seq<ReconfigRequest>, skills: seq<SkillId>)
    requires s.Valid() && Planned(s, queue).Ok? && Unique(skills)
    ensures Planned(s.(skills := skills), queue).Ok? <==> Agree(queue, UpToReplace(queue), s.skills, skills)
  {
    var n := UpToReplace(queue);
    PlanKeepsValid(s, queue);
    PlanKeepsValid(s.(skills := skills), queue);
    SkillsPlanApart(s, queue, skills);
    SkillsPlanApart(s, queue, s.skills);
    assert s.(skills := s.skills) == s && queue[..|queue|] == queue;
    if SkillsAfter(s.skills, queue[..n]).None? {
      SkillsFail(s.skills, queue, n);
    }
    AgreementDecides(queue, n, s.skills, skills);
    if SkillsAfter(skills, queue[..n]).None? {
      SkillsFail(skills, queue, n);
    } else if n < |queue| {
      ReplacementForgets(queue, |queue|, s.skills, skills);
    }
  }

  /** A direct replacement agrees with the skills in force on what the queue still switches. */
  ghost predicate Safe(r: Run, action: Action) {
    var s := r.machine.state;
    action.ReplaceSkills? && Unique(action.skills) ==>
      Agree(s.queue, UpToReplace(s.queue), s.settings.skills, action.skills)
  }

  ghost predicate SafeAt(state: State, actions: seq<Action>, i: nat)
    requires i < |actions|
  {
    Safe(RunAll(Start(state), actions[..i]), actions[i])
  }

  ghost predicate PlannableAfter(state: State, actions: seq<Action>, n: nat)
    requires n <= |actions|
  {
    Plannable(RunAll(Start(state), actions[..n]))
  }

  ghost predicate ReplacesSafely(state: State, actions: seq<Action>) {
    forall i: nat :: i < |actions| ==> SafeAt(state, actions, i)
  }

  ghost predicate PlannableThroughout(state: State, actions: seq<Action>) {
    forall k: nat :: k <= |actions| ==> PlannableAfter(state, actions, k)
  }

  lemma ReplacingStaysPlannableExactlyWhen(r: Run, skills: seq<SkillId>)
    requires r.machine.state.settings.Valid() && Plannable(r) && Unique(skills)
    ensures var s := r.machine.state;
            Plannable(Next(r, ReplaceSkills(skills)))
            <==> Agree(s.queue, UpToReplace(s.queue), s.settings.skills, skills)
  {
    var s := r.machine.state;
    ReplacingSkillsKeepsTheQueueExactlyWhen(s.settings, s.queue, skills);
    assert Next(r, ReplaceSkills(skills)).machine.state == s.(settings := s.settings.(skills := skills));
  }

  lemma RunsByOneMore(r: Run, actions: seq<Action>, i: nat)
    requires i < |actions|
    ensures RunAll(r, actions[..i + 1]) == Next(RunAll(r, actions[..i]), actions[i])
  {
    assert actions[..i + 1][..i] == actions[..i];
  }

  lemma StaysPlannableExactlyWhen(first: Settings, r: Run, action: Action)
    requires Conserved(r) && InForce(first, r) && Plannable(r)
    ensures Plannable(Next(r, action)) <==> Safe(r, action)
  {
    if action.ReplaceSkills? {
      if Unique(action.skills) {
        ReplacingStaysPlannableExactlyWhen(r, action.skills);
      }
    } else {
      StepIsInForce(first, r, action);
    }
  }

  lemma NextMoment(state: State, actions: seq<Action>, i: nat)
    requires state.settings.Valid() && i < |actions| && PlannableAfter(state, actions, i)
    ensures PlannableAfter(state, actions, i + 1) <==> SafeAt(state, actions, i)
  {
    RunsByOneMore(Start(state), actions, i);
    SettingsAreWhatTookEffect(state, actions[..i]);
    NoRequestIsLost(state, actions[..i]);
    StaysPlannableExactlyWhen(state.settings, RunAll(Start(state), actions[..i]), actions[i]);
  }

  lemma {:induction false} ThroughoutExactlyWhen(n: nat, holds: nat -> bool, safe: nat -> bool)
    requires holds(0) && forall i: nat :: i < n && holds(i) ==> (holds(i + 1) <==> safe(i))
    ensures (forall k: nat :: k <= n ==> holds(k)) <==> (forall i: nat :: i < n ==> safe(i))
  {
    if n > 0 {
      ThroughoutExactlyWhen(n - 1, holds, safe);
      assert holds(n - 1) ==> (holds(n - 1 + 1) <==> safe(n - 1));
    }
  }

  /**
   An accepted queue can be planned at every moment of a run exactly when every
   direct replacement of the skills in it agrees, on each skill the queue then
   switches before it replaces the whole list, with the list it replaces.
  */
  lemma QueueStaysPlannableExactlyWhen(state: State, actions: seq<Action>)
    requires state.settings.Valid() && Planned(state.settings, state.queue).Ok?
    ensures PlannableThroughout(state, actions) <==> ReplacesSafely(state, actions)
  {
    var holds := (k: nat) => k <= |actions| && PlannableAfter(state, actions, k);
    var safe := (i: nat) => i < |actions| && SafeAt(state, actions, i);
    assert actions[..0] == [];
    forall i: nat | i < |actions| && holds(i)
      ensures holds(i + 1) <==> safe(i)
    {
      NextMoment(state, actions, i);
    }
    ThroughoutExactlyWhen(|actions|, holds, safe);
    assert forall k: nat :: k <= |actions| ==> (holds(k) <==> PlannableAfter(state, actions, k));
    assert forall i: nat :: i < |actions| ==> (safe(i) <==> SafeAt(state, actions, i));
  }

  predicate NoSkillReplaced(actions: seq<Action>) {
    forall i :: 0 <= i < |actions| ==> !actions[i].ReplaceSkills?
  }

  ghost predicate Broken(r: Run) {
    r.machine.state.settings.Valid() && r.machine.scratch.None? && !Plannable(r)
  }

  predicate SameRequests(a: Run, b: Run) {
    && a.machine.state.settings == b.machine.state.settings && a.machine.state.queue == b.machine.state.queue
    && a.accepted == b.accepted && a.changes == b.changes
  }

  lemma BrokenStep(r: Run, action: Action)
    requires Broken(r) && !action.ReplaceSkills?
    ensures Broken(Next(r, action)) && SameRequests(r, Next(r, action))
  {
    PlanKeepsValid(r.machine.state.settings, []);
    if action.Submit? {
      PlanSnoc(r.machine.state.settings, r.machine.state.queue, action.request);
    }
  }

  /**
   A broken queue stays broken: from then on nothing is accepted and nothing is
   applied, whatever else happens, until the skills are replaced again.
  */
  lemma {:induction false} BrokenQueueBlocksEverything(r: Run, actions: seq<Action>)
    requires Broken(r) && NoSkillReplaced(actions)
    ensures Broken(RunAll(r, actions)) && SameRequests(r, RunAll(r, actions))
    decreases |actions|
  {
    if actions != [] {
      BrokenQueueBlocksEverything(r, actions[..|actions| - 1]);
      BrokenStep(RunAll(r, actions[..|actions| - 1]), actions[|actions| - 1]);
    }
  }

  lemma ActivatingAnActiveSkillFails(s: Settings, skill: SkillId)
    requires s.Valid() && skill !in s.skills
    ensures Planned(s, [ActivateSkill(skill)]).Ok?
    ensures Planned(s, [ActivateSkill(skill)]).value.toolSet == s.toolSet
    ensures Planned(s.(skills := [skill]), [ActivateSkill(skill)]).Err?
  {
    var other := s.(skills := [skill]);
    assert [] + [ActivateSkill(skill)] == [ActivateSkill(skill)];
    PlanKeepsValid(s, []);
    PlanKeepsValid(other, []);
    PlanSnoc(s, [], ActivateSkill(skill));
    PlanSnoc(other, [], ActivateSkill(skill));
  }

  lemma RunOfTwo(r: Run, one: Action, two: Action)
    ensures RunAll(r, [one, two]) == Next(Next(r, one), two)
  {
    assert [one, two][..1] == [one] && [one][..0] == [];
    assert RunAll(r, [one]) == Next(RunAll(r, []), one);
    assert RunAll(r, [one, two]) == Next(RunAll(r, [one]), two);
  }

  /** One accepted activation and one direct replacement reach a broken queue. */
  lemma ReplacingSkillsCanBreakTheQueue(state: State, skill: SkillId)
    requires state.settings.Valid() && state.queue == [] && !state.cursor.AwaitingReconfig?
    requires skill !in state.settings.skills
    ensures var r := RunAll(Start(state), [Submit(ActivateSkill(skill), true), ReplaceSkills([skill])]);
            r.accepted == [ActivateSkill(skill)] && Broken(r)
  {
    var request := ActivateSkill(skill);
    RunOfTwo(Start(state), Submit(request, true), ReplaceSkills([skill]));
    ActivatingAnActiveSkillFails(state.settings, skill);
    assert state.queue + [request] == [request];
    var submitted := Submitted(Start(state), request, true);
    assert submitted.machine.state == state.(queue := [request]) && submitted.accepted == [request];
  }
}
