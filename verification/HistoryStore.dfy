/**
 Structurally shared storage for committed history (src/conversation/history.rs).

 Nodes, lineages and raw entries are immutable heap objects that clones, forks
 and later versions share by reference. The only object a history ever changes in
 place is its message-identity set, and that one is copied on write.
*/
module HistoryStore {
  import opened Wrappers
  import opened Turns
  import opened HistoryViews

  /** A turn with a reference to the node of its parent; never changed once made. */
  class HistoryNode {
    const turn: Turn
    const parent: HistoryNode?
    ghost const ancestors: seq<HistoryNode>

    constructor (turn: Turn, parent: HistoryNode?)
      requires parent != null ==> parent.Valid()
      requires turn.parent == if parent == null then None else Some(parent.turn.id)
      ensures Valid()
      ensures this.turn == turn && this.parent == parent
    {
      this.turn := turn;
      this.parent := parent;
      this.ancestors := if parent == null then [] else parent.ancestors + [parent];
    }

    ghost predicate Valid()
      decreases |ancestors|
    {
      && turn.parent == (if parent == null then None else Some(parent.turn.id))
      && (parent == null ==> ancestors == [])
      && (parent != null ==> ancestors == parent.ancestors + [parent] && parent.Valid())
    }
  }

  function TurnsOf(nodes: seq<HistoryNode>): (turns: seq<Turn>)
    ensures |turns| == |nodes|
    ensures forall i :: 0 <= i < |nodes| ==> turns[i] == nodes[i].turn
  {
    seq(|nodes|, i requires 0 <= i < |nodes| => nodes[i].turn)
  }

  lemma TurnsOfConcat(a: seq<HistoryNode>, b: seq<HistoryNode>)
    ensures TurnsOf(a + b) == TurnsOf(a) + TurnsOf(b)
  {}

  function NodeBefore(nodes: seq<HistoryNode>, i: nat): HistoryNode?
    requires i <= |nodes|
  {
    if i == 0 then null else nodes[i - 1]
  }

  /** The nodes of a lineage are one parent chain, linked by reference. */
  ghost predicate LinkedChain(nodes: seq<HistoryNode>) {
    forall i {:trigger NodeBefore(nodes, i)} :: 0 <= i < |nodes| ==>
      nodes[i].Valid() && nodes[i].parent == NodeBefore(nodes, i)
  }

  lemma LinkedPrefix(nodes: seq<HistoryNode>, n: nat)
    requires LinkedChain(nodes) && n <= |nodes|
    ensures LinkedChain(nodes[..n])
  {
    forall i | 0 <= i < n
      ensures nodes[..n][i].Valid() && nodes[..n][i].parent == NodeBefore(nodes[..n], i)
    {
      assert nodes[i].parent == NodeBefore(nodes, i);
    }
  }

  lemma LinkedExtension(nodes: seq<HistoryNode>, n: nat, node: HistoryNode)
    requires LinkedChain(nodes) && n <= |nodes|
    requires node.Valid() && node.parent == NodeBefore(nodes, n)
    ensures LinkedChain(nodes[..n] + [node])
    ensures TurnsOf(nodes[..n] + [node]) == TurnsOf(nodes)[..n] + [node.turn]
  {
    var more := nodes[..n] + [node];
    forall i | 0 <= i < |more|
      ensures more[i].Valid() && more[i].parent == NodeBefore(more, i)
    {
      if i < n {
        assert nodes[i].parent == NodeBefore(nodes, i);
      }
    }
  }

  /** A lineage laid out as parallel lists; any number of histories may hold it. */
  class Lineage {
    const nodes: seq<HistoryNode>
    const turns: seq<Turn>

    constructor (nodes: seq<HistoryNode>, turns: seq<Turn>)
      ensures this.nodes == nodes && this.turns == turns
    {
      this.nodes := nodes;
      this.turns := turns;
    }

    ghost predicate Valid() {
      LinkedChain(nodes) && turns == TurnsOf(nodes)
    }
  }

  /** A cell of the list a history keeps of its own commits, newest first. */
  class RawEntry {
    const node: HistoryNode
    const previous: RawEntry?
    ghost const older: seq<HistoryNode>

    constructor (node: HistoryNode, previous: RawEntry?)
      requires previous != null ==> previous.Valid()
      ensures Valid()
      ensures this.node == node && this.previous == previous
      ensures Logged(this) == Logged(previous) + [node]
    {
      this.node := node;
      this.previous := previous;
      this.older := Logged(previous);
    }

    ghost predicate Valid()
      decreases |older|
    {
      && (previous == null ==> older == [])
      && (previous != null ==> older == previous.older + [previous.node] && previous.Valid())
    }
  }

  /** The local log that ends at `tip`, oldest node first. */
  ghost function Logged(tip: RawEntry?): seq<HistoryNode> {
    if tip == null then [] else tip.older + [tip.node]
  }

  /** What a history retains: a prefix of an inherited lineage, then its own commits. */
  datatype RawHistory = RawHistory(base: Lineage, baseLen: nat, localTip: RawEntry?, localLen: nat) {
    ghost predicate Valid() {
      && base.Valid()
      && baseLen <= |base.nodes|
      && (localTip != null ==> localTip.Valid())
      && localLen == |Logged(localTip)|
    }

    ghost function Nodes(): seq<HistoryNode>
      requires Valid()
    {
      base.nodes[..baseLen] + Logged(localTip)
    }
  }

  /**
   A reference-counted identity set. `holders` is what the strong count of the
   shared pointer counts, so one holder means the set may be changed in place.
  */
  class IdSet {
    var ids: set<MessageId>
    var holders: set<History>

    constructor (ids: set<MessageId>)
      ensures this.ids == ids && this.holders == {}
    {
      this.ids := ids;
      this.holders := {};
    }
  }

  /** What the given parts show together. */
  ghost function Showing(raw: RawHistory, lineage: Lineage, ids: set<MessageId>, lineageLen: nat, activeLen: nat): View
    requires raw.Valid()
  {
    View(TurnsOf(raw.Nodes()), lineage.turns, lineageLen, activeLen, ids)
  }

  /** The parts are well linked and tell one story. */
  ghost predicate Agree(raw: RawHistory, lineage: Lineage, ids: set<MessageId>, lineageLen: nat, activeLen: nat) {
    && raw.Valid()
    && lineage.Valid()
    && Showing(raw, lineage, ids, lineageLen, activeLen).WellFormed()
    && (forall i :: 0 <= i < lineageLen ==> lineage.nodes[i] in raw.Nodes())
  }

  lemma AppendedNodes(raw: RawHistory, entry: RawEntry)
    requires raw.Valid() && entry.Valid() && entry.previous == raw.localTip
    ensures var raw' := raw.(localTip := entry, localLen := raw.localLen + 1);
            && raw'.Valid() && raw'.Nodes() == raw.Nodes() + [entry.node]
            && TurnsOf(raw'.Nodes()) == TurnsOf(raw.Nodes()) + [entry.node.turn]
  {}

  lemma AppendedPartsAgree(
    raw: RawHistory, lineage: Lineage, ids: set<MessageId>, lineageLen: nat, activeLen: nat,
    entry: RawEntry, lineage': Lineage)
    requires Agree(raw, lineage, ids, lineageLen, activeLen)
    requires Admissible(Showing(raw, lineage, ids, lineageLen, activeLen), entry.node.turn)
    requires entry.Valid() && entry.previous == raw.localTip
    requires entry.node.Valid() && entry.node.parent == NodeBefore(lineage.nodes, activeLen)
    requires lineage'.nodes == lineage.nodes[..activeLen] + [entry.node]
    requires lineage'.turns == lineage.turns[..activeLen] + [entry.node.turn]
    ensures var turn := entry.node.turn;
            var raw' := raw.(localTip := entry, localLen := raw.localLen + 1);
            var ids' := ids + (set m | m in turn.messages);
            && Agree(raw', lineage', ids', activeLen + 1, activeLen + 1)
            && Showing(raw', lineage', ids', activeLen + 1, activeLen + 1)
               == Appended(Showing(raw, lineage, ids, lineageLen, activeLen), turn)
  {
    var turn := entry.node.turn;
    var raw' := raw.(localTip := entry, localLen := raw.localLen + 1);
    var ids' := ids + (set m | m in turn.messages);
    var shown := Showing(raw, lineage, ids, lineageLen, activeLen);
    assert Showing(raw', lineage', ids', activeLen + 1, activeLen + 1) == Appended(shown, turn) by {
      AppendedNodes(raw, entry);
    }
    AppendKeepsWellFormed(shown, turn);
    assert lineage'.Valid() by {
      LinkedExtension(lineage.nodes, activeLen, entry.node);
    }
    assert forall i :: 0 <= i < activeLen + 1 ==> lineage'.nodes[i] in raw'.Nodes() by {
      AppendedNodes(raw, entry);
      forall i | 0 <= i < activeLen + 1
        ensures lineage'.nodes[i] in raw'.Nodes()
      {
        if i < activeLen {
          assert lineage'.nodes[i] == lineage.nodes[i];
        }
      }
    }
  }

  class History {
    var raw: RawHistory
    var lineage: Lineage
    var messageIds: IdSet
    var lineageLen: nat
    var activeLen: nat

    ghost predicate Valid()
      reads this, messageIds
    {
      this in messageIds.holders && Agree(raw, lineage, messageIds.ids, lineageLen, activeLen)
    }

    /** What this history shows, as a value. */
    ghost function Shown(): View
      requires raw.Valid()
      reads this, messageIds
    {
      Showing(raw, lineage, messageIds.ids, lineageLen, activeLen)
    }

    /**
     Copy-on-write discipline towards the set this history held before: changed
     in place only by its sole holder, otherwise left as it was for the others.
    */
    twostate predicate LeftShared(was: IdSet)
      reads this, was
    {
      if messageIds == was then old(was.holders) == {this}
      else was.ids == old(was.ids) && was.holders == old(was.holders) - {this}
    }

    /** This history is dropped: it no longer counts as a holder, and nothing else changed. */
    twostate predicate LetGo()
      reads this, messageIds
    {
      && messageIds == old(messageIds) && messageIds.ids == old(messageIds.ids)
      && messageIds.holders == old(messageIds.holders) - {this}
    }

    /** No other history, whatever it shares, can tell that this one was dropped. */
    twostate lemma OthersOutliveIt(other: History)
      requires other != this && old(other.Valid()) && unchanged(other) && LetGo()
      requires old(other.messageIds) != old(messageIds) ==> unchanged(old(other.messageIds))
      ensures other.Valid() && other.Shown() == old(other.Shown())
      ensures other.messageIds == messageIds && old(messageIds.holders) == {this, other} ==>
                other.messageIds.holders == {other}
    {
      assert old(other in other.messageIds.holders);
    }

    /** No other history, whatever it shares, can tell that this one changed. */
    twostate lemma OthersUndisturbed(other: History)
      requires other != this && old(other.Valid()) && unchanged(other)
      requires LeftShared(old(messageIds))
      requires old(other.messageIds) != old(messageIds) ==> unchanged(old(other.messageIds))
      ensures other.Valid() && other.Shown() == old(other.Shown())
    {
      assert old(other in other.messageIds.holders);
    }

    constructor ()
      ensures Valid() && Shown() == Empty
      ensures fresh(messageIds)
    {
      var empty := new Lineage([], []);
      var ids := new IdSet({});
      raw := RawHistory(empty, 0, null, 0);
      lineage := empty;
      messageIds := ids;
      lineageLen, activeLen := 0, 0;
      new;
      messageIds.holders := {this};
      assert Shown() == Empty;
      EmptyIsWellFormed();
    }

    /** Assembles a history from parts that were already checked to agree. */
    constructor FromParts(raw: RawHistory, lineage: Lineage, ids: set<MessageId>, lineageLen: nat, activeLen: nat)
      requires Agree(raw, lineage, ids, lineageLen, activeLen)
      ensures Valid() && fresh(messageIds)
      ensures this.raw == raw && this.lineage == lineage
      ensures Shown() == Showing(raw, lineage, ids, lineageLen, activeLen)
    {
      var own := new IdSet(ids);
      this.raw := raw;
      this.lineage := lineage;
      this.messageIds := own;
      this.lineageLen := lineageLen;
      this.activeLen := activeLen;
      new;
      messageIds.holders := {this};
    }

    /** A second handle on the same history: every component is shared. */
    method Clone() returns (copy: History)
      requires Valid()
      modifies messageIds
      ensures fresh(copy) && copy.Valid() && Valid()
      ensures copy.Shown() == Shown() == old(Shown())
      ensures copy.lineage == lineage && copy.messageIds == messageIds && copy.raw == raw
      ensures messageIds.holders == old(messageIds.holders) + {copy}
    {
      copy := new History.FromParts(raw, lineage, messageIds.ids, lineageLen, activeLen);
      copy.messageIds := messageIds;
      messageIds.holders := messageIds.holders + {copy};
    }

    method Turns() returns (turns: seq<Turn>)
      requires Valid()
      ensures turns == Shown().Active()
    {
      turns := lineage.turns[..activeLen];
    }

    method TipNode() returns (tip: HistoryNode?)
      requires Valid()
      ensures tip == NodeBefore(lineage.nodes, activeLen)
      ensures Shown().Tip() == if tip == null then None else Some(tip.turn.id)
    {
      tip := if activeLen == 0 then null else lineage.nodes[activeLen - 1];
    }

    /** The end of this history's life: its handle on the identity set goes, and it shows nothing any more. */
    method Release()
      requires Valid()
      modifies messageIds
      ensures LetGo() && !Valid()
    {
      messageIds.holders := messageIds.holders - {this};
    }

    /** Copy-on-write access to the identity set: `Arc::make_mut`. */
    method MakeMut() returns (own: IdSet)
      requires Valid()
      modifies this, messageIds
      ensures Valid() && Shown() == old(Shown())
      ensures own == messageIds && own.holders == {this}
      ensures raw == old(raw) && lineage == old(lineage) && activeLen == old(activeLen)
      ensures if old(messageIds.holders) == {this} then own == old(messageIds) else fresh(own)
      ensures LeftShared(old(messageIds))
    {
      if messageIds.holders != {this} {
        own := new IdSet(messageIds.ids);
        own.holders := {this};
        messageIds.holders := messageIds.holders - {this};
        messageIds := own;
      } else {
        own := messageIds;
      }
    }

    /** Builds the node and raw entry for a turn; touches no history. */
    method Link(turn: Turn) returns (entry: RawEntry)
      requires Valid() && turn.parent == Shown().Tip()
      ensures entry.Valid() && entry.previous == raw.localTip
      ensures entry.node.Valid() && entry.node.turn == turn
      ensures entry.node.parent == NodeBefore(lineage.nodes, activeLen)
    {
      var tip := TipNode();
      LinkedPrefix(lineage.nodes, activeLen);
      if activeLen > 0 {
        assert lineage.nodes[activeLen - 1].parent == NodeBefore(lineage.nodes, activeLen - 1);
      }
      var node := new HistoryNode(turn, tip);
      entry := new RawEntry(node, raw.localTip);
    }

    /** Replaces the shared handles and extends this history's own identity set. */
    method Install(raw': RawHistory, lineage': Lineage, added: set<MessageId>, len: nat)
      requires Valid() && Agree(raw', lineage', messageIds.ids + added, len, len)
      modifies this, messageIds
      ensures Valid() && Shown() == Showing(raw', lineage', old(messageIds.ids) + added, len, len)
      ensures raw == raw' && lineage == lineage'
      ensures if old(messageIds.holders) == {this} then messageIds == old(messageIds) else fresh(messageIds)
      ensures LeftShared(old(messageIds))
    {
      var own := MakeMut();
      own.ids := own.ids + added;
      raw := raw';
      lineage := lineage';
      activeLen := len;
      lineageLen := len;
    }

    method Append(turn: Turn)
      requires Valid() && Admissible(Shown(), turn)
      modifies this, messageIds
      ensures Valid() && Shown() == Appended(old(Shown()), turn)
      ensures if old(messageIds.holders) == {this} then messageIds == old(messageIds) else fresh(messageIds)
      ensures lineage.nodes[..old(activeLen)] == old(lineage.nodes[..activeLen])
      ensures raw.base == old(raw.base) && raw.localTip != null && raw.localTip.previous == old(raw.localTip)
      ensures LeftShared(old(messageIds))
    {
      var entry := Link(turn);
      var nodes := lineage.nodes[..activeLen] + [entry.node];
      var turns := lineage.turns[..activeLen] + [turn];
      var lineage' := new Lineage(nodes, turns);
      AppendedPartsAgree(raw, lineage, messageIds.ids, lineageLen, activeLen, entry, lineage');
      Install(
        raw.(localTip := entry, localLen := raw.localLen + 1), lineage',
        (set m | m in turn.messages), activeLen + 1);
    }

    method MoveHeadTo(active: nat)
      requires Valid() && active <= lineageLen
      modifies this
      ensures Valid() && Shown() == HeadMoved(old(Shown()), active)
      ensures messageIds == old(messageIds) && lineage == old(lineage) && raw == old(raw)
    {
      StepKeepsWellFormed(Shown(), MoveHead(active));
      activeLen := active;
    }

    /** A child history over the first `len` lineage turns, holding this lineage object. */
    method SharedPrefix(len: nat) returns (child: History?)
      requires Valid()
      ensures child == null <==> HistoryViews.SharedPrefix(Shown(), len).None?
      ensures child != null ==>
                && fresh(child) && fresh(child.messageIds) && child.Valid()
                && child.lineage == lineage && child.raw.base == lineage
                && Some(child.Shown()) == HistoryViews.SharedPrefix(Shown(), len)
    {
      if len > lineageLen {
        return null;
      }
      var scope := RawHistory(lineage, len, null, 0);
      ForkKeepsWellFormed(Shown(), len);
      assert scope.Nodes() == lineage.nodes[..len];
      assert TurnsOf(scope.Nodes()) == lineage.turns[..len];
      child := new History.FromParts(scope, lineage, MessagesOf(lineage.turns[..len]), len, len);
    }

    method ContainsMessageId(id: MessageId) returns (known: bool)
      requires Valid()
      ensures known <==> exists t :: t in Shown().raw && id in t.messages
    {
      assert Shown().Consistent();
      known := id in messageIds.ids;
    }

    /** Looks through this history's own commits, then through what it inherited. */
    method RawFind(id: TurnId) returns (found: HistoryNode?)
      requires Valid()
      ensures found != null ==> found in raw.Nodes() && Find(Shown().raw, id) == Some(found.turn)
      ensures found == null <==> !HasId(Shown().raw, id)
    {
      found := FindLocal(raw.localTip, id);
      if found == null {
        found := FindIn(raw.base.nodes[..raw.baseLen], id);
      }
      if found != null {
        assert UniqueIds(Shown().raw) by {
          assert Shown().Consistent();
        }
        Found(raw.Nodes(), found);
      }
    }

    /** The whole log, oldest first: the own commits have to be turned round. */
    method RawTurns() returns (turns: seq<Turn>)
      requires Valid()
      ensures turns == Shown().raw
    {
      turns := TurnsOf(raw.base.nodes[..raw.baseLen]);
      var local: seq<Turn> := [];
      var cursor := raw.localTip;
      while cursor != null
        invariant cursor != null ==> cursor.Valid()
        invariant TurnsOf(Logged(cursor)) + Reversed(local) == TurnsOf(Logged(raw.localTip))
        decreases |Logged(cursor)|
      {
        ghost var rest := Logged(cursor.previous);
        assert Logged(cursor) == rest + [cursor.node];
        TurnsOfConcat(rest, [cursor.node]);
        assert TurnsOf([cursor.node]) == [cursor.node.turn];
        ReversedSnoc(local, cursor.node.turn);
        local := local + [cursor.node.turn];
        cursor := cursor.previous;
      }
      TurnsOfConcat(raw.base.nodes[..raw.baseLen], Logged(raw.localTip));
      turns := turns + Reversed(local);
    }
  }

  /** Follows the cells back from the last commit. */
  method FindLocal(tip: RawEntry?, id: TurnId) returns (found: HistoryNode?)
    requires tip != null ==> tip.Valid()
    ensures found != null ==> found in Logged(tip) && found.turn.id == id
    ensures found == null ==> forall i :: 0 <= i < |Logged(tip)| ==> Logged(tip)[i].turn.id != id
  {
    var cursor := tip;
    while cursor != null
      invariant cursor != null ==> cursor.Valid()
      invariant Logged(cursor) <= Logged(tip)
      invariant forall i :: |Logged(cursor)| <= i < |Logged(tip)| ==> Logged(tip)[i].turn.id != id
      decreases |Logged(cursor)|
    {
      assert Logged(tip)[|Logged(cursor)| - 1] == cursor.node;
      if cursor.node.turn.id == id {
        return cursor.node;
      }
      cursor := cursor.previous;
    }
    return null;
  }

  method FindIn(nodes: seq<HistoryNode>, id: TurnId) returns (found: HistoryNode?)
    ensures found != null ==> found in nodes && found.turn.id == id
    ensures found == null ==> forall i :: 0 <= i < |nodes| ==> nodes[i].turn.id != id
  {
    var i := 0;
    while i < |nodes|
      invariant 0 <= i <= |nodes|
      invariant forall j :: 0 <= j < i ==> nodes[j].turn.id != id
    {
      if nodes[i].turn.id == id {
        return nodes[i];
      }
      i := i + 1;
    }
    return null;
  }

  lemma Found(nodes: seq<HistoryNode>, node: HistoryNode)
    requires node in nodes && UniqueIds(TurnsOf(nodes))
    ensures HasId(TurnsOf(nodes), node.turn.id) && Find(TurnsOf(nodes), node.turn.id) == Some(node.turn)
  {
    var i :| 0 <= i < |nodes| && nodes[i] == node;
    assert TurnsOf(nodes)[i] == node.turn;
    FindIsTheTurn(TurnsOf(nodes), node.turn);
  }

  function Reversed<T>(items: seq<T>): (r: seq<T>)
    ensures |r| == |items|
    ensures forall i :: 0 <= i < |items| ==> r[i] == items[|items| - 1 - i]
  {
    seq(|items|, i requires 0 <= i < |items| => items[|items| - 1 - i])
  }

  lemma ReversedSnoc<T>(items: seq<T>, x: T)
    ensures Reversed(items + [x]) == [x] + Reversed(items)
  {}
}
