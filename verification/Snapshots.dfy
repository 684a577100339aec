/**
 Data-only snapshots and their restore (src/conversation/persistence/snapshot.rs).

 The source promises that restore undoes snapshot. It does so for every
 conversation the checks accept; they refuse two families of conversations that
 ordinary use produces, and the laws at the end say exactly which.
*/
module Snapshots {
  import opened Wrappers
  import opened Turns
  import opened ParentGraph
  import HV = HistoryViews
  import B = Boundaries
  import Spec = Conversations
  import HistoryRestore
  import opened Projections
  import Store = ConversationStore

  const SCHEMA_VERSION: nat := 1

  /** Persisted turn facts; `closed` is the verdict of the turn grammar on them. */
  datatype TurnRecord = TurnRecord(turn: Turn, closed: bool)

  datatype Snapshot = Snapshot(
    schema: nat,
    id: ConversationId,
    rawTurns: seq<TurnRecord>,
    lineage: seq<TurnId>,
    head: nat,
    ceiling: nat,
    version: nat,
    origin: Option<Spec.ForkOrigin>,
    projection: Projection
  )

  datatype RestoreError =
    | UnsupportedSchema(found: nat)
    | DuplicateRawTurn(repeated: TurnId)
    | InvalidTurn(position: nat, reason: Spec.CommitError)
    | BadGraph(graph: GraphError)
    | CeilingMismatch(ceiling: nat, lineageLen: nat)
    | HeadOutOfRange(head: nat, top: nat)
    | EmptyLineageWithRawTurns
    | DuplicateLineageTurn(twice: TurnId)
    | UnknownLineageTurn(unknown: TurnId)
    | LineageParentMismatch(unlinked: TurnId)
    | OriginSelfParent
    | ForkPointOwnerMismatch
    | ForkPointOutOfRange(turnCount: nat, available: nat)
    | InvalidProjection(fault: ProjectionError)
    | ForkPointAnchorMismatch(expected: Option<TurnId>, actual: Option<TurnId>)

  function TurnsIn(records: seq<TurnRecord>): (turns: seq<Turn>)
    ensures |turns| == |records|
    ensures forall i :: 0 <= i < |records| ==> turns[i] == records[i].turn
  {
    seq(|records|, i requires 0 <= i < |records| => records[i].turn)
  }

  function RecordsOf(turns: seq<Turn>): (records: seq<TurnRecord>)
    ensures |records| == |turns|
    ensures forall i :: 0 <= i < |turns| ==> records[i] == TurnRecord(turns[i], true)
  {
    seq(|turns|, i requires 0 <= i < |turns| => TurnRecord(turns[i], true))
  }

  /** Committed facts only: a pending turn is an error, never written. */
  function SnapshotOf(c: Spec.Conversation): Result<Snapshot, TurnId>
    requires c.view.InRange()
  {
    if c.pending.Some? then Err(c.pending.value.id)
    else
      Ok(Snapshot(
           SCHEMA_VERSION, c.id, RecordsOf(c.view.raw), Ids(c.view.Addressable()),
           c.view.activeLen, c.view.lineageLen, c.version, c.origin, c.projection))
  }

  // ----- what restore accepts -----

  ghost predicate RawAccepted(records: seq<TurnRecord>) {
    && UniqueIds(TurnsIn(records))
    && FreshEverywhere(TurnsIn(records))
    && (forall i :: 0 <= i < |records| ==> records[i].closed)
  }

  predicate LinkAccepted(raw: seq<Turn>, lineage: seq<TurnId>, i: nat)
    requires i < |lineage|
  {
    && HasId(raw, lineage[i])
    && Find(raw, lineage[i]).value.parent == if i == 0 then None else Some(lineage[i - 1])
  }

  ghost predicate LineageAccepted(s: Snapshot) {
    && s.ceiling == |s.lineage|
    && s.head <= s.ceiling
    && (s.rawTurns == [] || s.lineage != [])
    && NoRepeats(s.lineage)
    && (forall i {:trigger LinkAccepted(TurnsIn(s.rawTurns), s.lineage, i)} :: 0 <= i < |s.lineage| ==>
          LinkAccepted(TurnsIn(s.rawTurns), s.lineage, i))
  }

  /** The fork point still names a cut of the lineage. */
  predicate AnchoredIn(point: B.Boundary, lineage: seq<TurnId>) {
    && point.turnCount <= |lineage|
    && point.afterTurn == if point.turnCount == 0 then None else Some(lineage[point.turnCount - 1])
  }

  predicate OriginAccepted(id: ConversationId, origin: Option<Spec.ForkOrigin>, lineage: seq<TurnId>) {
    origin.Some? ==>
      && origin.value.parent != id
      && origin.value.forkPoint.conversationId == origin.value.parent
      && AnchoredIn(origin.value.forkPoint, lineage)
  }

  ghost predicate Accepted(s: Snapshot) {
    && s.schema == SCHEMA_VERSION
    && RawAccepted(s.rawTurns)
    && Grounded(TurnsIn(s.rawTurns)) && SingleRoot(TurnsIn(s.rawTurns))
    && LineageAccepted(s)
    && OriginAccepted(s.id, s.origin, s.lineage)
    && Fits(s.projection, s.id, s.lineage)
  }

  // ----- the checks -----

  lemma FreshExtends(turns: seq<Turn>, turn: Turn)
    ensures FreshEverywhere(turns + [turn]) <==>
            && FreshEverywhere(turns)
            && NoRepeats(turn.messages) && NoRepeats(turn.calls)
            && forall t :: t in turns ==> Disjoint(t, turn)
  {
    var more := turns + [turn];
    assert more[|turns|] == turn;
    if FreshEverywhere(more) {
      forall i, j | 0 <= i < j < |turns|
        ensures Disjoint(turns[i], turns[j])
      {
        assert Disjoint(more[i], more[j]);
      }
      forall t | t in turns
        ensures NoRepeats(t.messages) && NoRepeats(t.calls) && Disjoint(t, turn)
      {
        var i :| 0 <= i < |turns| && turns[i] == t;
        assert more[i] == t;
        assert Disjoint(more[i], more[|turns|]);
      }
    }
  }

  /** Every turn passes the commit gate again, against the turns before it. */
  method ValidateRawTurns(records: seq<TurnRecord>) returns (result: Result<seq<Turn>, RestoreError>)
    ensures result.Ok? <==> RawAccepted(records)
    ensures result.Ok? ==> result.value == TurnsIn(records)
    ensures result.Err? ==> result.error.DuplicateRawTurn? || result.error.InvalidTurn?
  {
    ghost var all := TurnsIn(records);
    var retained: seq<Turn> := [];
    var i := 0;
    while i < |records|
      invariant 0 <= i <= |records|
      invariant retained == all[..i]
      invariant UniqueIds(retained) && FreshEverywhere(retained)
      invariant forall k :: 0 <= k < i ==> records[k].closed
    {
      var data := records[i].turn;
      assert all[..i + 1] == retained + [data];
      FreshExtends(retained, data);
      Spec.FreshAgainstRaw(retained, data);
      if HasId(retained, data.id) {
        assert all[i] == data;
        return Err(DuplicateRawTurn(data.id));
      }
      var draft := Spec.PendingTurn(
        data.id, data.parent, data.messages, data.calls, data.content, true, false, records[i].closed);
      var turn := Spec.ValidateTurn(draft, retained, data.parent);
      if turn.Err? {
        RefusedPrefix(all, i, records);
        return Err(InvalidTurn(i, turn.error));
      }
      retained := retained + [turn.value];
      i := i + 1;
    }
    assert all[..i] == all;
    return Ok(retained);
  }

  lemma RefusedPrefix(all: seq<Turn>, i: nat, records: seq<TurnRecord>)
    requires i < |all| == |records| && all == TurnsIn(records)
    requires !FreshEverywhere(all[..i + 1]) || !records[i].closed
    ensures !RawAccepted(records)
  {
    if FreshEverywhere(all) {
      FreshPrefix(all, i + 1);
    }
  }

  lemma FreshPrefix(turns: seq<Turn>, n: nat)
    requires FreshEverywhere(turns) && n <= |turns|
    ensures FreshEverywhere(turns[..n])
  {
    forall i, j | 0 <= i < j < n
      ensures Disjoint(turns[..n][i], turns[..n][j])
    {
      assert Disjoint(turns[i], turns[j]);
    }
  }

  method ValidateLineage(s: Snapshot, turns: seq<Turn>) returns (result: Result<(), RestoreError>)
    requires turns == TurnsIn(s.rawTurns)
    ensures result.Ok? <==> LineageAccepted(s)
    ensures result.Err? ==>
              !result.error.BadGraph? && !result.error.ForkPointAnchorMismatch? && !result.error.ForkPointOutOfRange?
  {
    if s.ceiling != |s.lineage| {
      return Err(CeilingMismatch(s.ceiling, |s.lineage|));
    }
    if s.head > s.ceiling {
      return Err(HeadOutOfRange(s.head, s.ceiling));
    }
    if s.rawTurns != [] && s.lineage == [] {
      return Err(EmptyLineageWithRawTurns);
    }
    var seen: set<TurnId> := {};
    var i := 0;
    while i < |s.lineage|
      invariant 0 <= i <= |s.lineage|
      invariant seen == set k | 0 <= k < i :: s.lineage[k]
      invariant forall j, k :: 0 <= j < k < i ==> s.lineage[j] != s.lineage[k]
      invariant forall k :: 0 <= k < i ==> LinkAccepted(turns, s.lineage, k)
    {
      var id := s.lineage[i];
      if id in seen {
        return Err(DuplicateLineageTurn(id));
      }
      if !HasId(turns, id) {
        assert !LinkAccepted(turns, s.lineage, i);
        return Err(UnknownLineageTurn(id));
      }
      var expected := if i == 0 then None else Some(s.lineage[i - 1]);
      if Find(turns, id).value.parent != expected {
        assert !LinkAccepted(turns, s.lineage, i);
        return Err(LineageParentMismatch(id));
      }
      seen := seen + {id};
      i := i + 1;
    }
    return Ok(());
  }

  function ValidateOrigin(id: ConversationId, origin: Option<Spec.ForkOrigin>, lineage: seq<TurnId>)
    : (result: Result<(), RestoreError>)
    ensures result.Ok? <==> OriginAccepted(id, origin, lineage)
    ensures result.Err? ==> !result.error.BadGraph?
  {
    match origin
    case None => Ok(())
    case Some(o) =>
      if o.parent == id then Err(OriginSelfParent)
      else if o.forkPoint.conversationId != o.parent then Err(ForkPointOwnerMismatch)
      else if o.forkPoint.turnCount > |lineage| then Err(ForkPointOutOfRange(o.forkPoint.turnCount, |lineage|))
      else
        var expected := if o.forkPoint.turnCount == 0 then None else Some(lineage[o.forkPoint.turnCount - 1]);
        if o.forkPoint.afterTurn != expected then Err(ForkPointAnchorMismatch(expected, o.forkPoint.afterTurn))
        else Ok(())
  }

  ghost predicate LinksAccepted(raw: seq<Turn>, lineage: seq<TurnId>) {
    forall i :: 0 <= i < |lineage| ==> LinkAccepted(raw, lineage, i)
  }

  lemma LinkedIdsAreKnown(raw: seq<Turn>, lineage: seq<TurnId>)
    requires LinksAccepted(raw, lineage)
    ensures HV.KnownIds(raw, lineage)
  {
    forall i | 0 <= i < |lineage|
      ensures HasId(raw, lineage[i])
    {
      assert LinkAccepted(raw, lineage, i);
    }
  }

  lemma LinksMakeAChain(raw: seq<Turn>, lineage: seq<TurnId>, head: nat)
    requires LinksAccepted(raw, lineage) && HV.KnownIds(raw, lineage)
    ensures Chain(HV.Restored(raw, lineage, head).backing)
  {
    var backing := HV.Restored(raw, lineage, head).backing;
    forall i | 0 <= i < |backing|
      ensures backing[i].parent == Anchor(backing, i)
    {
      assert LinkAccepted(raw, lineage, i) && HasId(raw, lineage[i]);
      if i > 0 {
        assert HasId(raw, lineage[i - 1]);
        assert backing[i - 1] == Find(raw, lineage[i - 1]).value && backing[i - 1].id == lineage[i - 1];
      }
    }
  }

  lemma AcceptedIsRestorable(s: Snapshot)
    requires RawAccepted(s.rawTurns) && Grounded(TurnsIn(s.rawTurns)) && LineageAccepted(s)
    ensures HistoryRestore.Restorable(TurnsIn(s.rawTurns), s.lineage, s.head)
  {
    var raw := TurnsIn(s.rawTurns);
    assert LinksAccepted(raw, s.lineage);
    LinkedIdsAreKnown(raw, s.lineage);
    LinksMakeAChain(raw, s.lineage, s.head);
  }

  lemma RestoredIdsAreTheLineage(raw: seq<Turn>, lineage: seq<TurnId>, head: nat)
    requires HV.KnownIds(raw, lineage) && head <= |lineage|
    ensures Ids(HV.Restored(raw, lineage, head).Addressable()) == lineage
  {
    var ids := Ids(HV.Restored(raw, lineage, head).Addressable());
    forall i | 0 <= i < |lineage|
      ensures ids[i] == lineage[i]
    {
      assert HasId(raw, lineage[i]);
    }
  }

  /** The conversation a snapshot describes. */
  ghost function Described(s: Snapshot): Spec.Conversation
    requires HV.KnownIds(TurnsIn(s.rawTurns), s.lineage)
  {
    Spec.Conversation(
      s.id, HV.Restored(TurnsIn(s.rawTurns), s.lineage, s.head), None, s.version, s.origin, s.projection)
  }

  /**
   Restore accepts exactly the `Accepted` snapshots, however they were made, and
   rebuilds exactly the conversation they describe. A wire version is a `u64`.
  */
  method Restore(s: Snapshot) returns (result: Result<Store.LiveConversation, RestoreError>)
    requires s.version <= Spec.MAX_VERSION
    ensures result.Ok? <==> Accepted(s)
    ensures result.Ok? ==>
              && HV.KnownIds(TurnsIn(s.rawTurns), s.lineage)
              && result.value.Valid()
              && result.value.State() == Described(s)
    ensures result.Err? && result.error.BadGraph? && result.error.graph.Disconnected? <==>
            && s.schema == SCHEMA_VERSION && RawAccepted(s.rawTurns)
            && Grounded(TurnsIn(s.rawTurns)) && !SingleRoot(TurnsIn(s.rawTurns))
  {
    if s.schema != SCHEMA_VERSION {
      return Err(UnsupportedSchema(s.schema));
    }
    var validated := ValidateRawTurns(s.rawTurns);
    if validated.Err? {
      return Err(validated.error);
    }
    var graph := ValidateParentGraph(validated.value);
    if graph.Err? {
      return Err(BadGraph(graph.error));
    }
    var lineage := ValidateLineage(s, validated.value);
    if lineage.Err? {
      return Err(lineage.error);
    }
    var origin := ValidateOrigin(s.id, s.origin, s.lineage);
    if origin.Err? {
      return Err(origin.error);
    }
    AcceptedIsRestorable(s);
    RestoredIdsAreTheLineage(TurnsIn(s.rawTurns), s.lineage, s.head);
    var history := HistoryRestore.FromRestored(validated.value, s.lineage, s.head);
    var projection := ValidateProjection(s.projection, s.id, s.lineage);
    if projection.Err? {
      return Err(InvalidProjection(projection.error));
    }
    var restored := new Store.LiveConversation.FromParts(s.id, history, s.version, s.origin, s.projection);
    return Ok(restored);
  }

  /** Writes the live conversation down; an open turn is not persisted. */
  method TakeSnapshot(c: Store.LiveConversation) returns (result: Result<Snapshot, TurnId>)
    requires c.Valid()
    ensures result == SnapshotOf(c.State())
  {
    if c.pending.Some? {
      return Err(c.pending.value.id);
    }
    var raw := c.history.RawTurns();
    var addressable := c.history.lineage.turns[..c.history.lineageLen];
    return Ok(Snapshot(
                SCHEMA_VERSION, c.id, RecordsOf(raw), Ids(addressable),
                c.history.activeLen, c.history.lineageLen, c.version, c.origin, c.projection));
  }

  // ----- does restore undo snapshot? -----

  lemma OwnFactsAreAccepted(c: Spec.Conversation)
    requires c.Valid() && c.pending.None?
    ensures var s := SnapshotOf(c).value;
            && TurnsIn(s.rawTurns) == c.view.raw
            && RawAccepted(s.rawTurns) && Grounded(c.view.raw) && LineageAccepted(s)
  {
    assert c.view.Consistent();
    var s := SnapshotOf(c).value;
    var raw := c.view.raw;
    assert TurnsIn(s.rawTurns) == raw;
    var lineage := c.view.Addressable();
    forall i | 0 <= i < |lineage|
      ensures LinkAccepted(raw, s.lineage, i)
    {
      FindIsTheTurn(raw, lineage[i]);
      assert c.view.backing[i].parent == Anchor(c.view.backing, i);
    }
  }

  /** The fork point of the conversation is still a cut of its own lineage. */
  predicate StillAnchored(c: Spec.Conversation)
    requires c.view.InRange()
  {
    c.origin.Some? ==> AnchoredIn(c.origin.value.forkPoint, Ids(c.view.Addressable()))
  }

  /**
   Restore undoes snapshot exactly for the conversations whose raw log has one
   root and whose fork point, if any, is still on their lineage. Both conditions
   can be read off the conversation before it is written.
  */
  lemma RestoreUndoesSnapshotExactlyWhen(c: Spec.Conversation)
    requires c.Valid() && c.pending.None?
    ensures var s := SnapshotOf(c).value;
            && s.schema == 1 && (Accepted(s) <==> SingleRoot(c.view.raw) && StillAnchored(c))
            && HV.KnownIds(TurnsIn(s.rawTurns), s.lineage)
            && Described(s) == c.(view := c.view.(backing := c.view.Addressable()))
            && HV.Similar(c.view, Described(s).view)
            && Described(s).Valid()
  {
    OwnFactsAreAccepted(c);
    HV.AddressableIdsAreKnown(c.view);
    HV.RestoreUndoesWriting(c.view);
  }

  /**
   And the other way round: what is restored from an accepted snapshot is a valid
   conversation whose own snapshot is that very snapshot. So exactly the snapshots of
   conversations are accepted, of those whose log has one root and whose fork point
   is on their lineage.
  */
  lemma SnapshotUndoesRestore(s: Snapshot)
    requires Accepted(s) && s.version <= Spec.MAX_VERSION
    ensures HV.KnownIds(TurnsIn(s.rawTurns), s.lineage)
    ensures var c := Described(s);
            && c.Valid() && c.pending.None? && SnapshotOf(c) == Ok(s)
            && SingleRoot(c.view.raw) && StillAnchored(c)
  {
    AcceptedIsRestorable(s);
    var c := Described(s);
    RestoredIdsAreTheLineage(TurnsIn(s.rawTurns), s.lineage, s.head);
    HistoryRestore.RestoredViewIsWellFormed(TurnsIn(s.rawTurns), s.lineage, s.head);
    assert RecordsOf(TurnsIn(s.rawTurns)) == s.rawTurns;
  }

  /** Committing from the zero-turn cut over a non-empty log is what makes a second root. */
  lemma CommitsThatLoseTheRoot(v: HV.View, turn: Turn)
    requires v.WellFormed() && HV.Admissible(v, turn)
    ensures SingleRoot(HV.Appended(v, turn).raw) <==>
            SingleRoot(v.raw) && (v.activeLen > 0 || v.raw == [])
  {
    assert v.Consistent();
    var raw := v.raw + [turn];
    if v.activeLen == 0 && v.raw != [] && SingleRoot(v.raw) {
      GroundedHasARoot(v.raw);
      var i :| 0 <= i < |v.raw| && v.raw[i].parent.None?;
      assert raw[i].parent.None? && raw[|v.raw|].parent.None?;
    }
    if SingleRoot(raw) {
      forall i, j | 0 <= i < j < |v.raw|
        ensures v.raw[i].parent.Some? || v.raw[j].parent.Some?
      {
        assert raw[i] == v.raw[i] && raw[j] == v.raw[j];
      }
    }
  }

  lemma GroundedHasARoot(turns: seq<Turn>)
    requires Grounded(turns) && turns != []
    ensures exists i :: 0 <= i < |turns| && turns[i].parent.None?
  {
    var rank :| Ranked(turns, rank);
    assert turns[0] in turns && HasId(turns, turns[0].id);
    RootBelow(turns, rank, 0);
  }

  lemma RootBelow(turns: seq<Turn>, rank: map<TurnId, nat>, i: nat)
    requires Ranked(turns, rank) && i < |turns| && turns[i].id in rank
    ensures exists j :: 0 <= j < |turns| && turns[j].parent.None?
    decreases rank[turns[i].id]
  {
    assert turns[i] in turns;
    if turns[i].parent.Some? {
      var p := turns[i].parent.value;
      assert p in rank && HasId(turns, p);
      var j :| 0 <= j < |turns| && turns[j].id == p;
      RootBelow(turns, rank, j);
    }
  }

  /** A commit keeps an anchored fork point on the lineage exactly when the head is not below it. */
  lemma CommitsThatLoseTheForkPoint(c: Spec.Conversation, turn: Turn)
    requires c.Valid() && c.origin.Some? && StillAnchored(c) && HV.Admissible(c.view, turn)
    ensures StillAnchored(c.(view := HV.Appended(c.view, turn))) <==>
            c.view.activeLen >= c.origin.value.forkPoint.turnCount
  {
    assert c.view.Consistent();
    var point := c.origin.value.forkPoint;
    var before, after := c.view.Addressable(), HV.Appended(c.view, turn).Addressable();
    assert after == c.view.backing[..c.view.activeLen] + [turn];
    if point.turnCount > 0 && point.turnCount == c.view.activeLen + 1 {
      assert before[point.turnCount - 1] == c.view.backing[..c.view.lineageLen][point.turnCount - 1];
      assert before[point.turnCount - 1] in c.view.raw;
      assert before[point.turnCount - 1].id != turn.id by {
        var k :| 0 <= k < |c.view.raw| && c.view.raw[k] == before[point.turnCount - 1];
        assert c.view.raw[k].id == before[point.turnCount - 1].id;
      }
    }
  }
}
