/** Identities and closed turns (src/conversation/id.rs, turn.rs). */
module Turns {
  import opened Wrappers

  datatype TurnId = TurnId(uuid: nat)
  datatype MessageId = MessageId(uuid: nat)
  datatype ToolCallId = ToolCallId(uuid: nat)
  datatype ConversationId = ConversationId(uuid: nat)

  /** Everything in a turn that is neither an identity nor a parent pointer. */
  datatype Content = Content(handle: nat)

  /** A committed turn: its identities, its parent pointer and its opaque content. */
  datatype Turn = Turn(
    id: TurnId,
    parent: Option<TurnId>,
    messages: seq<MessageId>,
    calls: seq<ToolCallId>,
    content: Content
  )

  predicate NoRepeats<T(==)>(items: seq<T>) {
    forall i, j :: 0 <= i < j < |items| ==> items[i] != items[j]
  }

  predicate UniqueIds(turns: seq<Turn>) {
    forall i, j :: 0 <= i < j < |turns| ==> turns[i].id != turns[j].id
  }

  /** The turn just before the cut at `position`, if any. */
  function Anchor(turns: seq<Turn>, position: nat): Option<TurnId>
    requires position <= |turns|
  {
    if position == 0 then None else Some(turns[position - 1].id)
  }

  /** Every turn names the one before it as parent; the first is a root. */
  predicate Chain(turns: seq<Turn>) {
    forall i {:trigger Anchor(turns, i)} :: 0 <= i < |turns| ==> turns[i].parent == Anchor(turns, i)
  }

  lemma ChainPrefix(turns: seq<Turn>, n: nat)
    requires Chain(turns) && n <= |turns|
    ensures Chain(turns[..n])
  {
    forall i | 0 <= i < n
      ensures turns[..n][i].parent == Anchor(turns[..n], i)
    {
      assert turns[i].parent == Anchor(turns, i);
    }
  }

  predicate HasId(turns: seq<Turn>, id: TurnId) {
    exists i :: 0 <= i < |turns| && turns[i].id == id
  }

  predicate ParentBefore(turns: seq<Turn>, i: nat)
    requires i < |turns|
  {
    turns[i].parent.Some? ==> HasId(turns[..i], turns[i].parent.value)
  }

  /** Every parent was appended before its child. */
  predicate ParentsFirst(turns: seq<Turn>) {
    forall i {:trigger ParentBefore(turns, i)} :: 0 <= i < |turns| ==> ParentBefore(turns, i)
  }

  predicate Covers(raw: seq<Turn>, turns: seq<Turn>) {
    forall i :: 0 <= i < |turns| ==> turns[i] in raw
  }

  /** Ranks every identity strictly above its parent's; both are in the log. */
  ghost predicate Ranked(turns: seq<Turn>, rank: map<TurnId, nat>) {
    && (forall id :: id in rank <==> HasId(turns, id))
    && (forall t :: t in turns && t.parent.Some? ==>
          t.parent.value in rank && t.id in rank && rank[t.parent.value] < rank[t.id])
  }

  /** Every parent is retained and no parent path is a cycle. */
  ghost predicate Grounded(turns: seq<Turn>) {
    exists rank :: Ranked(turns, rank)
  }

  /** No message or framework call identity belongs to both turns. */
  predicate Disjoint(a: Turn, b: Turn) {
    && (forall m :: m in a.messages ==> m !in b.messages)
    && (forall c :: c in a.calls ==> c !in b.calls)
  }

  /** Message and call identities are unique within and across turns. */
  predicate FreshEverywhere(turns: seq<Turn>) {
    && (forall t :: t in turns ==> NoRepeats(t.messages) && NoRepeats(t.calls))
    && (forall i, j {:trigger Disjoint(turns[i], turns[j])} :: 0 <= i < j < |turns| ==>
          Disjoint(turns[i], turns[j]))
  }

  function MessagesOf(turns: seq<Turn>): set<MessageId> {
    set t, m | t in turns && m in t.messages :: m
  }

  function Ids(turns: seq<Turn>): (ids: seq<TurnId>)
    ensures |ids| == |turns|
    ensures forall i :: 0 <= i < |turns| ==> ids[i] == turns[i].id
  {
    seq(|turns|, i requires 0 <= i < |turns| => turns[i].id)
  }

  /** First turn with the identity, in log order. */
  function Find(turns: seq<Turn>, id: TurnId): (found: Option<Turn>)
    ensures found.Some? <==> HasId(turns, id)
    ensures found.Some? ==> found.value in turns && found.value.id == id
  {
    if turns == [] then None
    else if turns[0].id == id then Some(turns[0])
    else
      var rest := Find(turns[1..], id);
      assert HasId(turns, id) ==> HasId(turns[1..], id) by {
        if HasId(turns, id) {
          var i :| 0 <= i < |turns| && turns[i].id == id;
          assert turns[1..][i - 1].id == id;
        }
      }
      assert HasId(turns[1..], id) ==> HasId(turns, id) by {
        if HasId(turns[1..], id) {
          var i :| 0 <= i < |turns[1..]| && turns[1..][i].id == id;
          assert turns[i + 1].id == id;
        }
      }
      rest
  }

  /** Under unique identities a lookup names exactly the one turn that has it. */
  lemma FindIsTheTurn(turns: seq<Turn>, t: Turn)
    requires UniqueIds(turns) && t in turns
    ensures Find(turns, t.id) == Some(t)
  {
    var i :| 0 <= i < |turns| && turns[i] == t;
    assert HasId(turns, t.id);
    var found := Find(turns, t.id).value;
    var j :| 0 <= j < |turns| && turns[j] == found;
    assert i == j;
  }
}
