/** The persisted record of agent state, which leaves defaults out (src/agent/state.rs). */
module AgentRecords {
  import opened Wrappers
  import opened ToolSets
  import opened Reconfig
  import opened AgentStates
  import Snap = Snapshots
  import Conv = Conversations
  import Store = ConversationStore
  import HV = HistoryViews
  import Graph = ParentGraph
  import T = Turns
  import Runs = ReconfigRuns

  /** `None` is a field left out of the encoding. */
  datatype Record = Record(
    spec: AgentSpec,
    conversation: Snap.Snapshot,
    activeSkills: Option<seq<SkillId>>,
    queuedReconfigs: Option<seq<ReconfigRequest>>,
    overlay: Option<nat>,
    overlayVersion: Option<nat>,
    currentToolSet: Option<ToolSet>,
    currentModel: Option<nat>,
    currentLoopPolicy: Option<nat>,
    loopCursor: Option<LoopCursor>
  )

  datatype RecordError =
    | OpenTurn(open: T.TurnId)
    | BadSettings(settings: ReconfigError)
    | BadCursor(cursor: CursorError)
    | BadConversation(conversation: Snap.RestoreError)

  function Unless<V(==)>(value: V, default: V): Option<V> {
    if value == default then None else Some(value)
  }

  function OrElse<V>(field: Option<V>, default: V): V {
    if field.Some? then field.value else default
  }

  /** The record of a state and the snapshot of its conversation. */
  function Encoded(s: State, conversation: Snap.Snapshot): Record {
    Record(
      s.spec, conversation,
      Unless(s.settings.skills, []), Unless(s.queue, []),
      s.settings.overlay, Unless(s.settings.overlayVersion, 0),
      Unless(s.settings.toolSet, s.spec.initialTools),
      Unless(s.settings.model, s.spec.model),
      Unless(s.settings.policy, s.spec.policy),
      Some(s.cursor))
  }

  /** The state a record describes, before any check. */
  function Decoded(r: Record): State {
    State(
      r.spec,
      Settings(
        OrElse(r.activeSkills, []), r.overlay, OrElse(r.overlayVersion, 0),
        OrElse(r.currentToolSet, r.spec.initialTools),
        OrElse(r.currentModel, r.spec.model),
        OrElse(r.currentLoopPolicy, r.spec.policy)),
      OrElse(r.queuedReconfigs, []),
      OrElse(r.loopCursor, Idle))
  }

  /** What a decoded state must satisfy: the invariant every accepted run keeps. */
  ghost predicate Sound(s: State) {
    && Unique(s.settings.skills) && Unique(Names(s.settings.toolSet.tools))
    && ValidateCursor(s.cursor).Ok?
    && (s.queue != [] ==> Planned(s.settings, s.queue).Ok?)
  }

  /** A record is read exactly when its state is sound and its conversation is accepted. */
  ghost predicate Readable(r: Record) {
    Sound(Decoded(r)) && Snap.Accepted(r.conversation)
  }

  /**
   Field by field: no skill and no tool name twice, a valid cursor, a queue that can be
   planned over what the fields say, and a conversation that can be restored.
  */
  lemma ReadableExactlyWhen(r: Record)
    ensures var skills, queue := OrElse(r.activeSkills, []), OrElse(r.queuedReconfigs, []);
            var tools := if r.currentToolSet.Some? then r.currentToolSet.value else r.spec.initialTools;
            var model := if r.currentModel.Some? then r.currentModel.value else r.spec.model;
            var policy := if r.currentLoopPolicy.Some? then r.currentLoopPolicy.value else r.spec.policy;
            var version := if r.overlayVersion.Some? then r.overlayVersion.value else 0;
            Readable(r) <==>
            && Unique(skills) && Unique(Names(tools.tools))
            && (r.loopCursor.Some? ==> ValidateCursor(r.loopCursor.value).Ok?)
            && (queue != [] ==> Planned(Settings(skills, r.overlay, version, tools, model, policy), queue).Ok?)
            && Snap.Accepted(r.conversation)
  {}

  lemma {:induction false} PlannableRequestsAreValid(s: Settings, requests: seq<ReconfigRequest>, i: nat)
    requires Folded(s, requests).Ok? && i < |requests|
    ensures Validate(requests[i]).Ok?
    decreases |requests|
  {
    if i < |requests| - 1 {
      PlannableRequestsAreValid(s, requests[..|requests| - 1], i);
    }
  }

  method ToRecord(a: AgentState) returns (result: Result<Record, RecordError>)
    requires a.conversation.Valid()
    ensures result.Ok? <==> a.conversation.pending.None?
    ensures result.Ok? ==> result.value == Encoded(a.View(), Snap.SnapshotOf(a.conversation.State()).value)
  {
    var snapshot := Snap.TakeSnapshot(a.conversation);
    if snapshot.Err? {
      return Err(OpenTurn(snapshot.error));
    }
    return Ok(Encoded(a.View(), snapshot.value));
  }

  /** Checks in the order the source does, then rebuilds the conversation and replans the queue. */
  method FromRecord(r: Record) returns (result: Result<AgentState, RecordError>)
    requires r.conversation.version <= Conv.MAX_VERSION
    ensures result.Ok? <==> Readable(r)
    ensures result.Ok? ==>
              && result.value.View() == Decoded(r)
              && HV.KnownIds(Snap.TurnsIn(r.conversation.rawTurns), r.conversation.lineage)
              && result.value.conversation.Valid()
              && result.value.conversation.State() == Snap.Described(r.conversation)
  {
    var s := Decoded(r);
    var skills := EnsureUniqueSkills(s.settings.skills);
    if skills.Err? {
      return Err(BadSettings(skills.error));
    }
    var tools := EnsureUniqueTools(s.settings.toolSet.tools);
    if tools.Err? {
      return Err(BadSettings(ToolFault(tools.error)));
    }
    var i := 0;
    while i < |s.queue|
      invariant 0 <= i <= |s.queue|
    {
      var valid := Validate(s.queue[i]);
      if valid.Err? {
        if Planned(s.settings, s.queue).Ok? {
          PlannableRequestsAreValid(s.settings, s.queue, i);
        }
        return Err(BadSettings(valid.error));
      }
      i := i + 1;
    }
    var cursor := ValidateCursor(s.cursor);
    if cursor.Err? {
      return Err(BadCursor(cursor.error));
    }
    var restored := Snap.Restore(r.conversation);
    if restored.Err? {
      return Err(BadConversation(restored.error));
    }
    var state := new AgentState.FromParts(s, restored.value);
    var planned := state.QueuedReconfigApplication();
    if planned.Err? {
      return Err(BadSettings(planned.error));
    }
    return Ok(state);
  }

  /**
   A field is left out exactly when it holds what the agent's specification, or an
   agent without skills, queue and overlay, has there; otherwise it is written as it is.
  */
  lemma DefaultsAreLeftOut(s: State, conversation: Snap.Snapshot)
    ensures var r := Encoded(s, conversation);
            && r.spec == s.spec && r.conversation == conversation && r.loopCursor == Some(s.cursor)
            && r.overlay == s.settings.overlay
            && (r.activeSkills == if s.settings.skills == [] then None else Some(s.settings.skills))
            && (r.queuedReconfigs == if s.queue == [] then None else Some(s.queue))
            && (r.overlayVersion == if s.settings.overlayVersion == 0 then None else Some(s.settings.overlayVersion))
            && (r.currentToolSet
                == if s.settings.toolSet == s.spec.initialTools then None else Some(s.settings.toolSet))
            && (r.currentModel == if s.settings.model == s.spec.model then None else Some(s.settings.model))
            && (r.currentLoopPolicy == if s.settings.policy == s.spec.policy then None else Some(s.settings.policy))
  {}

  /** A record that leaves everything out is that of a new agent, at rest with what its specification gives it. */
  lemma BareRecordsAreNewAgents(spec: AgentSpec, conversation: Snap.Snapshot, cursor: Option<LoopCursor>)
    requires cursor.None? || cursor == Some(Idle)
    ensures Decoded(Record(spec, conversation, None, None, None, None, None, None, None, cursor)) == NewState(spec)
    ensures NewState(spec).settings.toolSet == spec.initialTools && NewState(spec).settings.model == spec.model
    ensures NewState(spec).settings.policy == spec.policy && NewState(spec).settings.overlay == None
    ensures NewState(spec).settings.skills == [] && NewState(spec).queue == [] && NewState(spec).cursor == Idle
  {}

  /** Leaving defaults out loses nothing. */
  lemma DecodingUndoesEncoding(s: State, conversation: Snap.Snapshot)
    ensures Decoded(Encoded(s, conversation)) == s
    ensures Encoded(s, conversation).conversation == conversation
  {}

  /**
   The round trip. A state with no open turn is written, and read back to the same
   state, exactly when it is sound, its raw log has one root and its fork point is
   still on its lineage; the conversation comes back up to turns above the fork ceiling.
  */
  lemma RoundTripHoldsExactlyWhen(s: State, c: Conv.Conversation)
    requires c.Valid() && c.pending.None?
    ensures var r := Encoded(s, Snap.SnapshotOf(c).value);
            && (Readable(r) <==> Sound(s) && Graph.SingleRoot(c.view.raw) && Snap.StillAnchored(c))
            && Decoded(r) == s
            && HV.KnownIds(Snap.TurnsIn(r.conversation.rawTurns), r.conversation.lineage)
            && Snap.Described(r.conversation) == c.(view := c.view.(backing := c.view.Addressable()))
            && HV.Similar(c.view, Snap.Described(r.conversation).view)
  {
    DecodingUndoesEncoding(s, Snap.SnapshotOf(c).value);
    Snap.RestoreUndoesSnapshotExactlyWhen(c);
  }

  /** Writing and reading the live objects: the second state answers as the first. */
  method WriteAndRead(a: AgentState) returns (result: Result<AgentState, RecordError>)
    requires a.conversation.Valid()
    ensures result.Ok? <==>
              && a.conversation.pending.None? && Sound(a.View())
              && Graph.SingleRoot(a.conversation.State().view.raw) && Snap.StillAnchored(a.conversation.State())
    ensures result.Ok? ==>
              && result.value.View() == a.View()
              && result.value.conversation.Valid()
              && HV.Similar(a.conversation.State().view, result.value.conversation.State().view)
              && result.value.conversation.State().version == a.conversation.State().version
  {
    var record := ToRecord(a);
    if record.Err? {
      return Err(record.error);
    }
    RoundTripHoldsExactlyWhen(a.View(), a.conversation.State());
    result := FromRecord(record.value);
  }

  lemma PlainCursorsAreValid(c: LoopCursor)
    requires !c.AwaitingTool? && !(c.Error? && c != Runs.FAILED)
    ensures ValidateCursor(c).Ok?
  {}

  /** A step leaves the cursor, moves it to one without a tool wait, or makes a checked move. */
  lemma StepsLeadToPlainCursors(r: Runs.Run, action: Runs.Action)
    ensures var was, now := r.machine.state.cursor, Runs.Next(r, action).machine.state.cursor;
            || now == was || (action.Work? && now == action.next && ValidateCursor(now).Ok?)
            || (!now.AwaitingTool? && !(now.Error? && now != Runs.FAILED))
  {}

  lemma StepKeepsCursorValid(r: Runs.Run, action: Runs.Action)
    requires ValidateCursor(r.machine.state.cursor).Ok?
    ensures ValidateCursor(Runs.Next(r, action).machine.state.cursor).Ok?
  {
    var now := Runs.Next(r, action).machine.state.cursor;
    StepsLeadToPlainCursors(r, action);
    if !now.AwaitingTool? && !(now.Error? && now != Runs.FAILED) {
      PlainCursorsAreValid(now);
    }
  }

  lemma {:induction false} RunsKeepCursorsValid(state: State, actions: seq<Runs.Action>)
    requires ValidateCursor(state.cursor).Ok?
    ensures ValidateCursor(Runs.RunAll(Runs.Start(state), actions).machine.state.cursor).Ok?
    decreases |actions|
  {
    if actions != [] {
      RunsKeepCursorsValid(state, actions[..|actions| - 1]);
      StepKeepsCursorValid(Runs.RunAll(Runs.Start(state), actions[..|actions| - 1]), actions[|actions| - 1]);
    }
  }

  lemma SoundMeansPlannable(state: State, actions: seq<Runs.Action>)
    requires state.settings.Valid() && ValidateCursor(state.cursor).Ok?
    ensures Sound(Runs.RunAll(Runs.Start(state), actions).machine.state)
            <==> Runs.Plannable(Runs.RunAll(Runs.Start(state), actions))
  {
    RunsKeepCursorsValid(state, actions);
    Runs.SettingsAreWhatTookEffect(state, actions);
    PlanKeepsValid(Runs.RunAll(Runs.Start(state), actions).machine.state.settings, []);
  }

  ghost predicate SoundAfter(state: State, actions: seq<Runs.Action>, k: nat)
    requires k <= |actions|
  {
    Sound(Runs.RunAll(Runs.Start(state), actions[..k]).machine.state)
  }

  ghost predicate SoundThroughout(state: State, actions: seq<Runs.Action>) {
    forall k: nat :: k <= |actions| ==> SoundAfter(state, actions, k)
  }

  /**
   At every moment of a new agent's run its state is one that a record may hold,
   exactly when every direct replacement of its skills is safe for its queue. Such
   a record is read back when the conversation can be restored.
  */
  lemma RunsStaySoundExactlyWhen(spec: AgentSpec, actions: seq<Runs.Action>)
    requires Unique(Names(spec.initialTools.tools))
    ensures SoundThroughout(NewState(spec), actions) <==> Runs.ReplacesSafely(NewState(spec), actions)
  {
    var state := NewState(spec);
    PlanKeepsValid(state.settings, []);
    forall k: nat | k <= |actions|
      ensures SoundAfter(state, actions, k) <==> Runs.PlannableAfter(state, actions, k)
    {
      SoundMeansPlannable(state, actions[..k]);
    }
    Runs.QueueStaysPlannableExactlyWhen(state, actions);
  }
}
