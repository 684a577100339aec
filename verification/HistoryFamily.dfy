/**
 Histories that share storage never disturb one another: whatever is interleaved
 on two of them, each ends exactly where its own operations take it.
*/
module HistoryFamily {
  import opened Wrappers
  import opened Turns
  import opened HistoryViews
  import opened HistoryStore

  /** One operation of an interleaving, on the first or on the second history. */
  datatype Move = Move(onFirst: bool, op: Op)

  ghost function OpsOn(moves: seq<Move>, first: bool): (ops: seq<Op>)
    ensures |ops| <= |moves|
  {
    if moves == [] then []
    else if moves[0].onFirst == first then [moves[0].op] + OpsOn(moves[1..], first)
    else OpsOn(moves[1..], first)
  }

  predicate InPlace(op: Op) {
    !op.Fork?
  }

  method Perform(h: History, op: Op)
    requires h.Valid() && InPlace(op) && Legal(h.Shown(), op)
    modifies h, h.messageIds
    ensures h.Valid() && h.Shown() == Apply(old(h.Shown()), op)
    ensures h.messageIds == old(h.messageIds) || fresh(h.messageIds)
    ensures op.Append? ==> h.LeftShared(old(h.messageIds))
    ensures op.MoveHead? ==> h.messageIds == old(h.messageIds) && unchanged(old(h.messageIds))
  {
    match op
    case Append(turn) => h.Append(turn);
    case MoveHead(to) => h.MoveHeadTo(to);
  }

  /** One move leaves every other valid history, shared set or not, as it was. */
  method PerformBeside(h: History, other: History, op: Op)
    requires h != other && h.Valid() && other.Valid() && InPlace(op) && Legal(h.Shown(), op)
    modifies h, h.messageIds
    ensures h.Valid() && h.Shown() == Apply(old(h.Shown()), op)
    ensures h.messageIds == old(h.messageIds) || fresh(h.messageIds)
    ensures other.Valid() && other.Shown() == old(other.Shown()) && unchanged(other)
  {
    Perform(h, op);
    if op.Append? {
      h.OthersUndisturbed(other);
    }
  }

  /**
   Fork and clone isolation over every interleaving. The two histories may share
   a lineage, a raw prefix and an identity set.
  */
  method Interleave(first: History, second: History, moves: seq<Move>)
    requires first != second && first.Valid() && second.Valid()
    requires forall i :: 0 <= i < |moves| ==> InPlace(moves[i].op)
    requires Run(first.Shown(), OpsOn(moves, true)).Some?
    requires Run(second.Shown(), OpsOn(moves, false)).Some?
    modifies first, second, first.messageIds, second.messageIds
    ensures first.Valid() && second.Valid()
    ensures Some(first.Shown()) == Run(old(first.Shown()), OpsOn(moves, true))
    ensures Some(second.Shown()) == Run(old(second.Shown()), OpsOn(moves, false))
    decreases |moves|
  {
    if moves != [] {
      var op := moves[0].op;
      assert InPlace(op);
      ghost var rest := OpsOn(moves[1..], moves[0].onFirst);
      assert ([op] + rest)[1..] == rest;
      if moves[0].onFirst {
        PerformBeside(first, second, op);
      } else {
        PerformBeside(second, first, op);
      }
      Interleave(first, second, moves[1..]);
    }
  }

  /**
   A history that outlives its copies is their sole owner again: the identity set
   that a second handle forces it to copy is written in place once that handle is gone.
  */
  method AppendAfterACopyIsGone(h: History, turn: Turn)
    requires h.Valid() && Admissible(h.Shown(), turn) && h.messageIds.holders == {h}
    modifies h, h.messageIds
    ensures h.Valid() && h.Shown() == Appended(old(h.Shown()), turn)
    ensures h.messageIds == old(h.messageIds)
  {
    var copy := h.Clone();
    label Copied:
    assert h.messageIds.holders == {copy, h};
    copy.Release();
    copy.OthersOutliveIt@Copied(h);
    h.Append(turn);
  }
}
