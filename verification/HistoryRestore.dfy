/**
 Rebuilding runtime history from persisted facts
 (src/conversation/history.rs, `from_restored` and `build_restored_node`).
*/
module HistoryRestore {
  import opened Wrappers
  import opened Turns
  import opened HistoryViews
  import opened HistoryStore

  /** Turn facts by identity: parents are present and ranked below their children. */
  ghost predicate Facts(turnsById: map<TurnId, Turn>, rank: map<TurnId, nat>) {
    && rank.Keys == turnsById.Keys
    && (forall id :: id in turnsById ==> turnsById[id].id == id)
    && (forall id {:trigger ParentBelow(turnsById, rank, id)} :: id in turnsById ==>
          ParentBelow(turnsById, rank, id))
  }

  ghost predicate ParentBelow(turnsById: map<TurnId, Turn>, rank: map<TurnId, nat>, id: TurnId)
    requires id in turnsById && id in rank
  {
    match turnsById[id].parent
    case None => true
    case Some(parent) => parent in turnsById && parent in rank && rank[parent] < rank[id]
  }

  /** A turn together with every turn above it. */
  ghost function AncestorIds(turnsById: map<TurnId, Turn>, rank: map<TurnId, nat>, id: TurnId): set<TurnId>
    requires Facts(turnsById, rank) && id in turnsById
    decreases rank[id]
  {
    assert ParentBelow(turnsById, rank, id);
    match turnsById[id].parent
    case None => {id}
    case Some(parent) => {id} + AncestorIds(turnsById, rank, parent)
  }

  ghost predicate NodeMatches(turnsById: map<TurnId, Turn>, nodesById: map<TurnId, HistoryNode>, id: TurnId)
    requires id in nodesById
  {
    && id in turnsById
    && nodesById[id].Valid()
    && nodesById[id].turn == turnsById[id]
    && match turnsById[id].parent
       case None => nodesById[id].parent == null
       case Some(parent) => parent in nodesById && nodesById[id].parent == nodesById[parent]
  }

  /** Each built identity has one node, linked to the one node of its parent. */
  ghost predicate Built(turnsById: map<TurnId, Turn>, nodesById: map<TurnId, HistoryNode>) {
    forall id {:trigger NodeMatches(turnsById, nodesById, id)} :: id in nodesById ==>
      NodeMatches(turnsById, nodesById, id)
  }

  lemma BuiltAncestors(
    turnsById: map<TurnId, Turn>, rank: map<TurnId, nat>, nodesById: map<TurnId, HistoryNode>, id: TurnId)
    requires Facts(turnsById, rank) && Built(turnsById, nodesById) && id in nodesById && id in turnsById
    ensures AncestorIds(turnsById, rank, id) <= nodesById.Keys
    decreases rank[id]
  {
    assert NodeMatches(turnsById, nodesById, id);
    assert ParentBelow(turnsById, rank, id);
    if turnsById[id].parent.Some? {
      BuiltAncestors(turnsById, rank, nodesById, turnsById[id].parent.value);
    }
  }

  /** The chain climbed so far: each element's parent is the next one, then `top`. */
  ghost predicate Climbed(turnsById: map<TurnId, Turn>, pending: seq<TurnId>, top: Option<TurnId>) {
    && (forall k :: 0 <= k < |pending| ==> pending[k] in turnsById)
    && (forall k {:trigger Above(pending, k, top)} :: 0 <= k < |pending| ==>
          turnsById[pending[k]].parent == Above(pending, k, top))
  }

  ghost function Above(pending: seq<TurnId>, k: nat, top: Option<TurnId>): Option<TurnId>
    requires k < |pending|
  {
    if k + 1 < |pending| then Some(pending[k + 1]) else top
  }

  lemma ClimbOne(turnsById: map<TurnId, Turn>, pending: seq<TurnId>, cursor: TurnId)
    requires Climbed(turnsById, pending, Some(cursor)) && cursor in turnsById
    ensures Climbed(turnsById, pending + [cursor], turnsById[cursor].parent)
  {
    var top := turnsById[cursor].parent;
    var more := pending + [cursor];
    forall k | 0 <= k < |more|
      ensures turnsById[more[k]].parent == Above(more, k, top)
    {
      if k < |pending| {
        assert turnsById[pending[k]].parent == Above(pending, k, Some(cursor));
      }
    }
  }

  /** First loop: walks up from the turn until it meets a node, stacking the ids it passes. */
  method Climb(
    turnId: TurnId, turnsById: map<TurnId, Turn>, nodesById: map<TurnId, HistoryNode>, ghost rank: map<TurnId, nat>)
    returns (pending: seq<TurnId>, ghost top: Option<TurnId>)
    requires Facts(turnsById, rank) && Built(turnsById, nodesById) && turnId in turnsById
    ensures Climbed(turnsById, pending, top)
    ensures top.Some? ==> top.value in nodesById
    ensures forall k :: 0 <= k < |pending| ==> pending[k] !in nodesById
    ensures forall j, k :: 0 <= j < k < |pending| ==> pending[j] != pending[k]
    ensures nodesById.Keys + (set id | id in pending) == nodesById.Keys + AncestorIds(turnsById, rank, turnId)
  {
    pending := [];
    var cursor := turnId;
    while cursor !in nodesById
      invariant cursor in turnsById
      invariant Climbed(turnsById, pending, Some(cursor))
      invariant forall k :: 0 <= k < |pending| ==> pending[k] !in nodesById && rank[cursor] < rank[pending[k]]
      invariant forall j, k :: 0 <= j < k < |pending| ==> pending[j] != pending[k]
      invariant AncestorIds(turnsById, rank, turnId)
                == (set id | id in pending) + AncestorIds(turnsById, rank, cursor)
      decreases rank[cursor]
    {
      ghost var below := pending;
      pending := pending + [cursor];
      assert forall id :: id in pending <==> id in below || id == cursor;
      assert ParentBelow(turnsById, rank, cursor);
      ClimbOne(turnsById, below, cursor);
      match turnsById[cursor].parent
      case None =>
        return pending, None;
      case Some(parent) =>
        cursor := parent;
    }
    BuiltAncestors(turnsById, rank, nodesById, cursor);
    top := Some(cursor);
  }

  lemma InsertKeepsBuilt(
    turnsById: map<TurnId, Turn>, nodes: map<TurnId, HistoryNode>, id: TurnId, node: HistoryNode)
    requires Built(turnsById, nodes) && id !in nodes && id in turnsById
    requires node.Valid() && node.turn == turnsById[id]
    requires node.turn.parent.Some? ==> node.turn.parent.value in nodes
    requires node.parent == (if node.turn.parent.Some? then nodes[node.turn.parent.value] else null)
    ensures Built(turnsById, nodes[id := node])
  {
    var more := nodes[id := node];
    forall other | other in more
      ensures NodeMatches(turnsById, more, other)
    {
      if other != id {
        assert NodeMatches(turnsById, nodes, other);
      }
    }
  }

  /** Builds the node of one turn whose parent, if any, has its node already. */
  method BuildOne(id: TurnId, turnsById: map<TurnId, Turn>, nodesById: map<TurnId, HistoryNode>)
    returns (node: HistoryNode)
    requires Built(turnsById, nodesById) && id !in nodesById && id in turnsById
    requires turnsById[id].parent.Some? ==>
               turnsById[id].parent.value in nodesById
               && turnsById[id].parent.value in turnsById
               && turnsById[turnsById[id].parent.value].id == turnsById[id].parent.value
    ensures fresh(node) && Built(turnsById, nodesById[id := node])
  {
    var turn := turnsById[id];
    var parent: HistoryNode? := null;
    if turn.parent.Some? {
      assert NodeMatches(turnsById, nodesById, turn.parent.value);
      parent := nodesById[turn.parent.value];
    }
    node := new HistoryNode(turn, parent);
    InsertKeepsBuilt(turnsById, nodesById, id, node);
  }

  /** Second loop: empties the stack from the top, so a node always finds its parent's node. */
  method BuildDown(
    pending: seq<TurnId>, ghost top: Option<TurnId>, turnsById: map<TurnId, Turn>, nodesById: map<TurnId, HistoryNode>)
    returns (nodes: map<TurnId, HistoryNode>)
    requires Built(turnsById, nodesById) && Climbed(turnsById, pending, top)
    requires forall id :: id in turnsById ==> turnsById[id].id == id
    requires top.Some? ==> top.value in nodesById
    requires forall k :: 0 <= k < |pending| ==> pending[k] !in nodesById
    requires forall j, k :: 0 <= j < k < |pending| ==> pending[j] != pending[k]
    ensures Built(turnsById, nodes)
    ensures forall id :: id in nodes <==> id in nodesById || id in pending
    ensures forall id :: id in nodesById ==> nodes[id] == nodesById[id]
    ensures forall id :: id in nodes && id !in nodesById ==> fresh(nodes[id])
  {
    nodes := nodesById;
    var i := |pending|;
    while i > 0
      invariant 0 <= i <= |pending|
      invariant Built(turnsById, nodes)
      invariant forall id :: id in nodes <==> id in nodesById || id in pending[i..]
      invariant forall id :: id in nodesById ==> nodes[id] == nodesById[id]
      invariant forall id :: id in nodes && id !in nodesById ==> fresh(nodes[id])
    {
      i := i - 1;
      var id := pending[i];
      assert turnsById[id].parent == Above(pending, i, top);
      assert pending[i..] == [id] + pending[i + 1..];
      if turnsById[id].parent.Some? {
        assert turnsById[id].parent.value in nodes;
        assert NodeMatches(turnsById, nodes, turnsById[id].parent.value);
      }
      var node := BuildOne(id, turnsById, nodes);
      nodes := nodes[id := node];
    }
    assert pending[0..] == pending;
  }

  /**
   Recreates the node of `turnId` and of every ancestor not built yet, and
   nothing else; nodes that exist already are reused, never rebuilt.
  */
  method BuildRestoredNode(
    turnId: TurnId, turnsById: map<TurnId, Turn>, nodesById: map<TurnId, HistoryNode>, ghost rank: map<TurnId, nat>)
    returns (nodes: map<TurnId, HistoryNode>)
    requires Facts(turnsById, rank) && Built(turnsById, nodesById) && turnId in turnsById
    ensures Built(turnsById, nodes)
    ensures nodes.Keys == nodesById.Keys + AncestorIds(turnsById, rank, turnId)
    ensures forall id :: id in nodesById ==> nodes[id] == nodesById[id]
    ensures forall id :: id in nodes && id !in nodesById ==> fresh(nodes[id])
  {
    var pending;
    ghost var top;
    pending, top := Climb(turnId, turnsById, nodesById, rank);
    nodes := BuildDown(pending, top, turnsById, nodesById);
    assert nodes.Keys == nodesById.Keys + (set id | id in pending);
  }

  /** What restore validation checks before it hands the facts over. */
  ghost predicate Restorable(rawTurns: seq<Turn>, lineageIds: seq<TurnId>, activeLen: nat) {
    && UniqueIds(rawTurns) && FreshEverywhere(rawTurns) && Grounded(rawTurns)
    && KnownIds(rawTurns, lineageIds) && NoRepeats(lineageIds)
    && Chain(Restored(rawTurns, lineageIds, activeLen).backing)
    && activeLen <= |lineageIds|
    && (rawTurns == [] || lineageIds != [])
  }

  ghost predicate Indexed(rawTurns: seq<Turn>, turnsById: map<TurnId, Turn>) {
    && (forall i :: 0 <= i < |rawTurns| ==> rawTurns[i].id in turnsById && turnsById[rawTurns[i].id] == rawTurns[i])
    && (forall id :: id in turnsById ==> turnsById[id] in rawTurns && turnsById[id].id == id)
  }

  method IndexTurns(rawTurns: seq<Turn>) returns (turnsById: map<TurnId, Turn>)
    requires UniqueIds(rawTurns)
    ensures Indexed(rawTurns, turnsById)
  {
    turnsById := map[];
    var i := 0;
    while i < |rawTurns|
      invariant 0 <= i <= |rawTurns|
      invariant Indexed(rawTurns[..i], turnsById)
    {
      assert rawTurns[..i + 1] == rawTurns[..i] + [rawTurns[i]];
      assert forall k :: 0 <= k < i ==> rawTurns[..i][k].id != rawTurns[i].id;
      turnsById := turnsById[rawTurns[i].id := rawTurns[i]];
      i := i + 1;
    }
    assert rawTurns[..i] == rawTurns;
  }

  lemma IndexedFacts(rawTurns: seq<Turn>, turnsById: map<TurnId, Turn>, rank: map<TurnId, nat>)
    requires Indexed(rawTurns, turnsById) && Ranked(rawTurns, rank)
    ensures Facts(turnsById, rank)
  {
    forall id
      ensures id in rank <==> id in turnsById
    {
      if HasId(rawTurns, id) {
        var i :| 0 <= i < |rawTurns| && rawTurns[i].id == id;
      }
      if id in turnsById {
        var i :| 0 <= i < |rawTurns| && rawTurns[i] == turnsById[id];
        assert rawTurns[i].id == id;
      }
    }
    forall id | id in turnsById
      ensures ParentBelow(turnsById, rank, id)
    {
      assert turnsById[id] in rawTurns;
    }
  }

  /** Every raw turn has its node, and each node links to the node of its parent. */
  ghost predicate NodesFor(rawTurns: seq<Turn>, nodesById: map<TurnId, HistoryNode>) {
    && (forall id :: id in nodesById ==> nodesById[id].Valid() && nodesById[id].turn.id == id)
    && (forall i :: 0 <= i < |rawTurns| ==>
          rawTurns[i].id in nodesById && nodesById[rawTurns[i].id].turn == rawTurns[i])
    && (forall id {:trigger nodesById[id].parent} :: id in nodesById && nodesById[id].turn.parent.Some? ==>
          nodesById[id].turn.parent.value in nodesById
          && nodesById[id].parent == nodesById[nodesById[id].turn.parent.value])
    && (forall id :: id in nodesById ==> nodesById[id].turn in rawTurns)
  }

  lemma BuiltIsNodesFor(rawTurns: seq<Turn>, turnsById: map<TurnId, Turn>, nodesById: map<TurnId, HistoryNode>)
    requires Indexed(rawTurns, turnsById) && Built(turnsById, nodesById)
    requires forall k :: 0 <= k < |rawTurns| ==> rawTurns[k].id in nodesById
    ensures NodesFor(rawTurns, nodesById)
  {
    forall id | id in nodesById
      ensures NodeMatches(turnsById, nodesById, id)
    {}
    forall i | 0 <= i < |rawTurns|
      ensures nodesById[rawTurns[i].id].turn == rawTurns[i]
    {
      assert NodeMatches(turnsById, nodesById, rawTurns[i].id);
    }
  }

  method BuildNodes(rawTurns: seq<Turn>) returns (nodesById: map<TurnId, HistoryNode>)
    requires UniqueIds(rawTurns) && Grounded(rawTurns)
    ensures NodesFor(rawTurns, nodesById)
  {
    ghost var rank :| Ranked(rawTurns, rank);
    var turnsById := IndexTurns(rawTurns);
    IndexedFacts(rawTurns, turnsById, rank);
    nodesById := map[];
    var i := 0;
    while i < |rawTurns|
      invariant 0 <= i <= |rawTurns|
      invariant Built(turnsById, nodesById)
      invariant forall k :: 0 <= k < i ==> rawTurns[k].id in nodesById
    {
      nodesById := BuildRestoredNode(rawTurns[i].id, turnsById, nodesById, rank);
      assert rawTurns[i].id in AncestorIds(turnsById, rank, rawTurns[i].id);
      i := i + 1;
    }
    BuiltIsNodesFor(rawTurns, turnsById, nodesById);
  }

  /** The nodes of the first `n` raw turns, in insertion order. */
  ghost function NodesOf(rawTurns: seq<Turn>, nodesById: map<TurnId, HistoryNode>, n: nat): (nodes: seq<HistoryNode>)
    requires n <= |rawTurns| && forall i :: 0 <= i < |rawTurns| ==> rawTurns[i].id in nodesById
    ensures |nodes| == n && forall i :: 0 <= i < n ==> nodes[i] == nodesById[rawTurns[i].id]
  {
    seq(n, i requires 0 <= i < n => nodesById[rawTurns[i].id])
  }

  lemma OneMoreNode(rawTurns: seq<Turn>, nodesById: map<TurnId, HistoryNode>, n: nat)
    requires n < |rawTurns| && forall i :: 0 <= i < |rawTurns| ==> rawTurns[i].id in nodesById
    ensures NodesOf(rawTurns, nodesById, n + 1) == NodesOf(rawTurns, nodesById, n) + [nodesById[rawTurns[n].id]]
  {}

  method RebuildRaw(rawTurns: seq<Turn>, nodesById: map<TurnId, HistoryNode>) returns (raw: RawHistory)
    requires forall i :: 0 <= i < |rawTurns| ==> rawTurns[i].id in nodesById
    ensures raw.Valid() && fresh(raw.base) && raw.baseLen == 0
    ensures raw.Nodes() == NodesOf(rawTurns, nodesById, |rawTurns|)
  {
    var empty := new Lineage([], []);
    raw := RawHistory(empty, 0, null, 0);
    var i := 0;
    while i < |rawTurns|
      invariant 0 <= i <= |rawTurns|
      invariant raw.Valid() && raw.base == empty && raw.baseLen == 0
      invariant raw.Nodes() == NodesOf(rawTurns, nodesById, i)
    {
      var entry := new RawEntry(nodesById[rawTurns[i].id], raw.localTip);
      AppendedNodes(raw, entry);
      OneMoreNode(rawTurns, nodesById, i);
      raw := raw.(localTip := entry, localLen := raw.localLen + 1);
      i := i + 1;
    }
  }

  lemma RestoredViewIsWellFormed(rawTurns: seq<Turn>, lineageIds: seq<TurnId>, activeLen: nat)
    requires Restorable(rawTurns, lineageIds, activeLen)
    ensures Restored(rawTurns, lineageIds, activeLen).WellFormed()
  {
    var v := Restored(rawTurns, lineageIds, activeLen);
    forall i | 0 <= i < |lineageIds|
      ensures v.backing[i] in rawTurns && v.backing[i].id == lineageIds[i]
    {
      assert HasId(rawTurns, lineageIds[i]);
    }
    assert v.backing[..v.lineageLen] == v.backing;
  }

  lemma RebuiltLineage(
    rawTurns: seq<Turn>, nodesById: map<TurnId, HistoryNode>, ids: seq<TurnId>, nodes: seq<HistoryNode>)
    requires NodesFor(rawTurns, nodesById) && |nodes| == |ids|
    requires forall i :: 0 <= i < |ids| ==> ids[i] in nodesById && nodes[i] == nodesById[ids[i]]
    requires Chain(TurnsOf(nodes))
    ensures LinkedChain(nodes)
  {
    var turns := TurnsOf(nodes);
    forall i | 0 <= i < |nodes|
      ensures nodes[i].Valid() && nodes[i].parent == NodeBefore(nodes, i)
    {
      assert turns[i].parent == Anchor(turns, i);
      assert nodesById[ids[i]].parent == nodes[i].parent;
    }
  }

  lemma RebuiltRaw(rawTurns: seq<Turn>, nodesById: map<TurnId, HistoryNode>, nodes: seq<HistoryNode>)
    requires NodesFor(rawTurns, nodesById) && |nodes| == |rawTurns|
    requires forall i :: 0 <= i < |rawTurns| ==> nodes[i] == nodesById[rawTurns[i].id]
    ensures TurnsOf(nodes) == rawTurns
    ensures forall id :: id in nodesById ==> nodesById[id] in nodes
    ensures forall node :: node in nodes && node.parent != null ==> node.parent in nodes
  {
    forall id | id in nodesById
      ensures nodesById[id] in nodes
    {
      var i :| 0 <= i < |rawTurns| && rawTurns[i] == nodesById[id].turn;
      assert nodes[i] == nodesById[id];
    }
    forall node | node in nodes && node.parent != null
      ensures node.parent in nodes
    {
      var i :| 0 <= i < |nodes| && nodes[i] == node;
      assert nodesById[rawTurns[i].id].parent == node.parent;
    }
  }

  lemma RestoredPartsAgree(
    rawTurns: seq<Turn>, lineageIds: seq<TurnId>, activeLen: nat, nodesById: map<TurnId, HistoryNode>,
    raw: RawHistory, lineage: Lineage)
    requires Restorable(rawTurns, lineageIds, activeLen) && NodesFor(rawTurns, nodesById)
    requires raw.Valid() && |raw.Nodes()| == |rawTurns|
    requires forall i :: 0 <= i < |rawTurns| ==> raw.Nodes()[i] == nodesById[rawTurns[i].id]
    requires |lineage.nodes| == |lineageIds| && lineage.turns == TurnsOf(lineage.nodes)
    requires forall i :: 0 <= i < |lineageIds| ==>
               lineageIds[i] in nodesById && lineage.nodes[i] == nodesById[lineageIds[i]]
               && lineage.nodes[i].turn == Find(rawTurns, lineageIds[i]).value
    ensures Agree(raw, lineage, MessagesOf(rawTurns), |lineageIds|, activeLen)
    ensures Showing(raw, lineage, MessagesOf(rawTurns), |lineageIds|, activeLen)
            == Restored(rawTurns, lineageIds, activeLen)
    ensures forall node :: node in raw.Nodes() && node.parent != null ==> node.parent in raw.Nodes()
  {
    RestoredViewIsWellFormed(rawTurns, lineageIds, activeLen);
    RebuiltRaw(rawTurns, nodesById, raw.Nodes());
    assert lineage.turns == Restored(rawTurns, lineageIds, activeLen).backing;
    RebuiltLineage(rawTurns, nodesById, lineageIds, lineage.nodes);
  }

  method FromRestored(rawTurns: seq<Turn>, lineageIds: seq<TurnId>, activeLen: nat) returns (h: History)
    requires Restorable(rawTurns, lineageIds, activeLen)
    ensures fresh(h) && h.Valid() && fresh(h.messageIds)
    ensures h.Shown() == Restored(rawTurns, lineageIds, activeLen)
    ensures forall node :: node in h.raw.Nodes() && node.parent != null ==> node.parent in h.raw.Nodes()
  {
    var nodesById := BuildNodes(rawTurns);
    var raw := RebuildRaw(rawTurns, nodesById);
    KnownNodes(rawTurns, nodesById, lineageIds);
    var nodes := seq(|lineageIds|, i requires 0 <= i < |lineageIds| => nodesById[lineageIds[i]]);
    var turns := TurnsOf(nodes);
    var lineage := new Lineage(nodes, turns);
    RestoredPartsAgree(rawTurns, lineageIds, activeLen, nodesById, raw, lineage);
    h := new History.FromParts(raw, lineage, MessagesOf(rawTurns), |lineageIds|, activeLen);
  }

  lemma KnownNodes(rawTurns: seq<Turn>, nodesById: map<TurnId, HistoryNode>, ids: seq<TurnId>)
    requires NodesFor(rawTurns, nodesById) && KnownIds(rawTurns, ids) && UniqueIds(rawTurns)
    ensures forall i :: 0 <= i < |ids| ==>
              ids[i] in nodesById && nodesById[ids[i]].turn == Find(rawTurns, ids[i]).value
  {
    forall i | 0 <= i < |ids|
      ensures ids[i] in nodesById && nodesById[ids[i]].turn == Find(rawTurns, ids[i]).value
    {
      assert HasId(rawTurns, ids[i]);
      var k :| 0 <= k < |rawTurns| && rawTurns[k].id == ids[i];
      FindIsTheTurn(rawTurns, rawTurns[k]);
    }
  }
}
