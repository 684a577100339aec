/**
 Versioned cut tokens and their revalidation (src/conversation/boundary.rs).

 A token is an untrusted claim. The laws below say which claims are accepted:
 exactly the tokens the conversation would issue now, and no others.
*/
module Boundaries {
  import opened Wrappers
  import opened Turns

  datatype Boundary = Boundary(
    conversationId: ConversationId,
    turnCount: nat,
    afterTurn: Option<TurnId>,
    version: nat
  )

  datatype BoundaryError =
    | OwnerMismatch(expectedOwner: ConversationId, actualOwner: ConversationId)
    | StaleBoundary(boundaryVersion: nat, currentVersion: nat)
    | PendingTurnOpen(pendingTurn: TurnId)
    | PositionOutOfRange(position: nat, backingTurns: nat)
    | BeyondForkCeiling(beyond: nat, forkCeiling: nat)
    | AnchorMismatch(at: nat, expected: Option<TurnId>, actual: Option<TurnId>)
    | NotCurrentHead(boundaryTurnCount: nat, headTurnCount: nat)
    | UnknownTurn(unknown: TurnId)
    | TurnNotOnLineage(detached: TurnId)

  /** The facts of one conversation that tokens are issued from and checked against. */
  datatype Cuts = Cuts(
    id: ConversationId,
    version: nat,
    pending: Option<TurnId>,
    backing: seq<Turn>,
    lineageLen: nat,
    activeLen: nat
  ) {
    predicate InRange() {
      activeLen <= lineageLen <= |backing|
    }
  }

  function IssueAt(c: Cuts, position: nat): Boundary
    requires c.InRange() && position <= c.lineageLen
  {
    Boundary(c.id, position, Anchor(c.backing[..c.lineageLen], position), c.version)
  }

  function Head(c: Cuts): Boundary
    requires c.InRange()
  {
    IssueAt(c, c.activeLen)
  }

  function ValidBoundaries(c: Cuts): seq<Boundary>
    requires c.InRange()
  {
    seq(c.lineageLen + 1, i requires 0 <= i < c.lineageLen + 1 => IssueAt(c, i))
  }

  /** Index of the first turn with the identity. */
  function PositionOf(turns: seq<Turn>, id: TurnId): (index: Option<nat>)
    ensures index.Some? <==> HasId(turns, id)
    ensures index.Some? ==> index.value < |turns| && turns[index.value].id == id
    ensures index.Some? ==> forall j :: 0 <= j < index.value ==> turns[j].id != id
  {
    if turns == [] then None
    else if turns[0].id == id then
      assert HasId(turns, id);
      Some(0)
    else
      var rest := PositionOf(turns[1..], id);
      assert HasId(turns, id) ==> HasId(turns[1..], id) by {
        if HasId(turns, id) {
          var i :| 0 <= i < |turns| && turns[i].id == id;
          assert turns[1..][i - 1].id == id;
        }
      }
      match rest
      case None => None
      case Some(i) =>
        assert turns[i + 1].id == id;
        Some(i + 1)
  }

  function BoundaryAfter(c: Cuts, raw: seq<Turn>, turnId: TurnId): Result<Boundary, BoundaryError>
    requires c.InRange()
  {
    match PositionOf(c.backing, turnId)
    case Some(index) =>
      if index + 1 > c.lineageLen then Err(BeyondForkCeiling(index + 1, c.lineageLen))
      else Ok(Boundary(c.id, index + 1, Some(turnId), c.version))
    case None =>
      if HasId(raw, turnId) then Err(TurnNotOnLineage(turnId)) else Err(UnknownTurn(turnId))
  }

  function ResolveClaims(c: Cuts, b: Boundary, allowPending: bool): Result<nat, BoundaryError>
    requires c.InRange()
  {
    if b.conversationId != c.id then Err(OwnerMismatch(c.id, b.conversationId))
    else if b.version != c.version then Err(StaleBoundary(b.version, c.version))
    else if !allowPending && c.pending.Some? then Err(PendingTurnOpen(c.pending.value))
    else if b.turnCount > |c.backing| then Err(PositionOutOfRange(b.turnCount, |c.backing|))
    else if b.turnCount > c.lineageLen then Err(BeyondForkCeiling(b.turnCount, c.lineageLen))
    else
      var expected := Anchor(c.backing, b.turnCount);
      if b.afterTurn != expected then Err(AnchorMismatch(b.turnCount, expected, b.afterTurn))
      else Ok(b.turnCount)
  }

  function Resolve(c: Cuts, b: Boundary): Result<nat, BoundaryError>
    requires c.InRange()
  {
    ResolveClaims(c, b, false)
  }

  function ResolvePendingStep(c: Cuts, b: Boundary): Result<nat, BoundaryError>
    requires c.InRange()
  {
    var position :- ResolveClaims(c, b, true);
    if position != c.activeLen then Err(NotCurrentHead(b.turnCount, c.activeLen)) else Ok(position)
  }

  // ----- exactness -----

  lemma IssuedAnchor(c: Cuts, position: nat)
    requires c.InRange() && position <= c.lineageLen
    ensures Anchor(c.backing[..c.lineageLen], position) == Anchor(c.backing, position)
  {}

  /** A claim is accepted at a position exactly when it is the token issued there. */
  lemma ResolvesExactlyTheIssued(c: Cuts, b: Boundary, position: nat, allowPending: bool)
    requires c.InRange()
    ensures ResolveClaims(c, b, allowPending) == Ok(position) <==>
            && (allowPending || c.pending.None?)
            && position <= c.lineageLen
            && b == IssueAt(c, position)
  {
    if position <= c.lineageLen {
      IssuedAnchor(c, position);
    }
    if b.turnCount <= c.lineageLen {
      IssuedAnchor(c, b.turnCount);
    }
  }

  /** The listing is complete, sound, in lineage order and free of repetition. */
  lemma ValidBoundariesAreExact(c: Cuts, b: Boundary)
    requires c.InRange() && c.pending.None?
    ensures NoRepeats(ValidBoundaries(c))
    ensures Resolve(c, b).Ok? <==> b in ValidBoundaries(c)
    ensures Resolve(c, b).Ok? ==>
              Resolve(c, b).value < |ValidBoundaries(c)| && ValidBoundaries(c)[Resolve(c, b).value] == b
    ensures Head(c) in ValidBoundaries(c) && Resolve(c, Head(c)) == Ok(c.activeLen)
  {
    var all := ValidBoundaries(c);
    assert all[c.activeLen] == Head(c);
    ResolvesExactlyTheIssued(c, Head(c), c.activeLen, false);
    if b in all {
      var i :| 0 <= i < |all| && all[i] == b;
      ResolvesExactlyTheIssued(c, b, i, false);
    }
    if Resolve(c, b).Ok? {
      ResolvesExactlyTheIssued(c, b, Resolve(c, b).value, false);
      assert all[Resolve(c, b).value] == b;
    }
  }

  /** Inside a pending turn only the token of the current head is accepted. */
  lemma PendingStepAcceptsOnlyTheHead(c: Cuts, b: Boundary)
    requires c.InRange()
    ensures ResolvePendingStep(c, b).Ok? <==> b == Head(c)
    ensures ResolvePendingStep(c, b).Ok? ==> ResolvePendingStep(c, b).value == c.activeLen
  {
    ResolvesExactlyTheIssued(c, b, c.activeLen, true);
    if ResolveClaims(c, b, true).Ok? {
      ResolvesExactlyTheIssued(c, b, ResolveClaims(c, b, true).value, true);
    }
  }

  /**
   The token after the i-th addressable turn is element i + 1 of the listing,
   redo suffixes included; every other identity gets the one error that names
   where it is.
  */
  lemma BoundaryAfterIsExact(c: Cuts, raw: seq<Turn>, turnId: TurnId)
    requires c.InRange() && UniqueIds(c.backing)
    ensures forall i :: 0 <= i < c.lineageLen && c.backing[i].id == turnId ==>
              BoundaryAfter(c, raw, turnId) == Ok(ValidBoundaries(c)[i + 1])
    ensures BoundaryAfter(c, raw, turnId).Ok? <==> HasId(c.backing[..c.lineageLen], turnId)
    ensures (exists i :: c.lineageLen <= i < |c.backing| && c.backing[i].id == turnId)
            <==> (BoundaryAfter(c, raw, turnId).Err? && BoundaryAfter(c, raw, turnId).error.BeyondForkCeiling?)
    ensures BoundaryAfter(c, raw, turnId) == Err(TurnNotOnLineage(turnId))
            <==> !HasId(c.backing, turnId) && HasId(raw, turnId)
    ensures BoundaryAfter(c, raw, turnId) == Err(UnknownTurn(turnId))
            <==> !HasId(c.backing, turnId) && !HasId(raw, turnId)
  {
    var found := PositionOf(c.backing, turnId);
    if HasId(c.backing[..c.lineageLen], turnId) {
      var i :| 0 <= i < c.lineageLen && c.backing[..c.lineageLen][i].id == turnId;
      assert c.backing[i].id == turnId;
      assert HasId(c.backing, turnId);
      assert found == Some(i);
    }
    if found.Some? && found.value < c.lineageLen {
      assert c.backing[..c.lineageLen][found.value].id == turnId;
    }
    forall i | 0 <= i < |c.backing| && c.backing[i].id == turnId
      ensures found == Some(i)
    {
      assert HasId(c.backing, turnId);
    }
  }
}
