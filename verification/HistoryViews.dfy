/**
 What one history lets its owner see, as a value, and the laws every run of
 appends, head moves and forks obeys (src/conversation/history.rs).

 The heap representation (shared lineage, persistent raw log, copy-on-write
 identity set) lives in module HistoryStore, whose methods are proved equal to
 the functions below.
*/
module HistoryViews {
  import opened Wrappers
  import opened Turns

  /**
   `raw` is every retained turn in insertion order; `backing` the shared lineage
   allocation, of which this history may address `lineageLen` turns and
   currently shows `activeLen`.
  */
  datatype View = View(
    raw: seq<Turn>,
    backing: seq<Turn>,
    lineageLen: nat,
    activeLen: nat,
    messageIds: set<MessageId>
  ) {
    predicate InRange() {
      activeLen <= lineageLen <= |backing|
    }

    function Active(): seq<Turn>
      requires InRange()
    {
      backing[..activeLen]
    }

    function Addressable(): seq<Turn>
      requires InRange()
    {
      backing[..lineageLen]
    }

    function Tip(): Option<TurnId>
      requires InRange()
    {
      Anchor(backing, activeLen)
    }

    /** The redundant parts tell one story. */
    ghost predicate Consistent() {
      && InRange()
      && Chain(backing) && UniqueIds(backing)
      && Covers(raw, backing[..lineageLen])
      && (raw == [] || lineageLen > 0)
      && UniqueIds(raw) && Grounded(raw) && FreshEverywhere(raw)
      && messageIds == MessagesOf(raw)
    }

    /** `Consistent`, unfolded only by proofs that mention it. */
    ghost predicate WellFormed() {
      InRange() && forall v: View {:trigger v.Consistent()} :: v == this ==> v.Consistent()
    }
  }

  const Empty := View([], [], 0, 0, {})

  /** The commit gate's identity checks: src/conversation/validation/identity.rs. */
  predicate Admissible(v: View, turn: Turn)
    requires v.InRange()
  {
    && turn.parent == v.Tip()
    && !HasId(v.raw, turn.id)
    && NoRepeats(turn.messages) && NoRepeats(turn.calls)
    && (forall t :: t in v.raw ==> Disjoint(t, turn))
  }

  function Appended(v: View, turn: Turn): View
    requires v.InRange()
  {
    View(
      v.raw + [turn],
      v.backing[..v.activeLen] + [turn],
      v.activeLen + 1,
      v.activeLen + 1,
      v.messageIds + (set m | m in turn.messages))
  }

  function HeadMoved(v: View, activeLen: nat): View {
    v.(activeLen := activeLen)
  }

  function SharedPrefix(v: View, lineageLen: nat): Option<View>
    requires v.InRange()
  {
    if lineageLen > v.lineageLen then None
    else Some(View(
                v.backing[..lineageLen],
                v.backing,
                lineageLen,
                lineageLen,
                MessagesOf(v.backing[..lineageLen])))
  }

  predicate KnownIds(raw: seq<Turn>, ids: seq<TurnId>) {
    forall i :: 0 <= i < |ids| ==> HasId(raw, ids[i])
  }

  /** The view rebuilt from persisted raw turns, lineage identities and head. */
  function Restored(raw: seq<Turn>, lineageIds: seq<TurnId>, activeLen: nat): View
    requires KnownIds(raw, lineageIds)
  {
    View(
      raw,
      seq(|lineageIds|, i requires 0 <= i < |lineageIds| => Find(raw, lineageIds[i]).value),
      |lineageIds|,
      activeLen,
      MessagesOf(raw))
  }

  // ----- runs -----

  datatype Op = Append(turn: Turn) | MoveHead(to: nat) | Fork(at: nat)

  predicate Legal(v: View, op: Op)
    requires v.InRange()
  {
    match op
    case Append(turn) => Admissible(v, turn)
    case MoveHead(to) => to <= v.lineageLen
    case Fork(at) => at <= v.lineageLen
  }

  function Apply(v: View, op: Op): (r: View)
    requires v.InRange() && Legal(v, op)
    ensures r.InRange()
  {
    match op
    case Append(turn) => Appended(v, turn)
    case MoveHead(to) => HeadMoved(v, to)
    case Fork(at) => SharedPrefix(v, at).value
  }

  /** The view after a run, or `None` when some step of it is refused. */
  function Run(v: View, ops: seq<Op>): (r: Option<View>)
    requires v.InRange()
    ensures r.Some? ==> r.value.InRange()
    decreases |ops|
  {
    if ops == [] then Some(v)
    else if !Legal(v, ops[0]) then None
    else Run(Apply(v, ops[0]), ops[1..])
  }

  // ----- well-formedness is kept by every run -----

  lemma AppendedLineage(v: View, turn: Turn)
    requires v.Consistent() && Admissible(v, turn)
    ensures Chain(Appended(v, turn).backing) && UniqueIds(Appended(v, turn).backing)
    ensures Covers(Appended(v, turn).raw, Appended(v, turn).backing)
  {
    var w := Appended(v, turn);
    var kept := v.backing[..v.activeLen];
    ChainPrefix(v.backing, v.activeLen);
    forall i | 0 <= i < |w.backing|
      ensures w.backing[i].parent == Anchor(w.backing, i)
    {
      if i < |kept| {
        assert kept[i].parent == Anchor(kept, i);
      }
    }
    forall i | 0 <= i < |kept|
      ensures kept[i] in v.raw && kept[i].id != turn.id
    {
      assert v.backing[..v.lineageLen][i] == kept[i];
    }
    assert w.raw[|v.raw|] == turn;
  }

  lemma TipIsRetained(v: View)
    requires v.Consistent()
    ensures v.Tip().Some? ==> HasId(v.raw, v.Tip().value)
  {
    if v.activeLen > 0 {
      var last := v.backing[v.activeLen - 1];
      assert last == v.backing[..v.lineageLen][v.activeLen - 1];
      var j :| 0 <= j < |v.raw| && v.raw[j] == last;
    }
  }

  lemma HasIdInExtended(turns: seq<Turn>, turn: Turn, id: TurnId)
    ensures HasId(turns + [turn], id) <==> HasId(turns, id) || turn.id == id
  {
    var more := turns + [turn];
    if HasId(turns, id) {
      var i :| 0 <= i < |turns| && turns[i].id == id;
      assert more[i].id == id;
    }
    assert more[|turns|] == turn;
  }

  /** One more turn whose parent is retained keeps the log grounded. */
  lemma GroundedExtends(turns: seq<Turn>, turn: Turn)
    requires Grounded(turns) && !HasId(turns, turn.id)
    requires turn.parent.Some? ==> HasId(turns, turn.parent.value)
    ensures Grounded(turns + [turn])
  {
    var rank :| Ranked(turns, rank);
    var rank' := rank[turn.id := if turn.parent.Some? then rank[turn.parent.value] + 1 else 0];
    forall id
      ensures id in rank' <==> HasId(turns + [turn], id)
    {
      HasIdInExtended(turns, turn, id);
    }
    forall t | t in turns + [turn] && t.parent.Some?
      ensures t.parent.value in rank' && t.id in rank' && rank'[t.parent.value] < rank'[t.id]
    {
      if t in turns {
        assert turn.id !in rank && t.id in rank && t.parent.value in rank;
      }
    }
    assert Ranked(turns + [turn], rank');
  }

  lemma MessagesOfExtended(turns: seq<Turn>, turn: Turn)
    ensures MessagesOf(turns + [turn]) == MessagesOf(turns) + (set m | m in turn.messages)
  {
    assert (turns + [turn])[|turns|] == turn;
    forall t | t in turns ensures t in turns + [turn] {}
  }

  lemma AppendedRaw(v: View, turn: Turn)
    requires v.Consistent() && Admissible(v, turn)
    ensures var raw := v.raw + [turn];
            UniqueIds(raw) && Grounded(raw) && FreshEverywhere(raw)
  {
    TipIsRetained(v);
    GroundedExtends(v.raw, turn);
  }

  lemma AppendedParentsFirst(v: View, turn: Turn)
    requires v.Consistent() && ParentsFirst(v.raw) && Admissible(v, turn)
    ensures ParentsFirst(v.raw + [turn])
  {
    var raw := v.raw + [turn];
    TipIsRetained(v);
    forall i | 0 <= i < |raw|
      ensures ParentBefore(raw, i)
    {
      assert raw[..i] == v.raw[..i];
      if i < |v.raw| {
        assert ParentBefore(v.raw, i);
      } else {
        assert v.raw[..i] == v.raw;
      }
    }
  }

  lemma ChainParentsFirst(turns: seq<Turn>)
    requires Chain(turns)
    ensures ParentsFirst(turns)
  {
    forall i | 0 <= i < |turns|
      ensures ParentBefore(turns, i)
    {
      assert turns[i].parent == Anchor(turns, i);
      if i > 0 {
        assert turns[..i][i - 1] == turns[i - 1];
      }
    }
  }

  lemma ChainEndExtends(turns: seq<Turn>, n: nat)
    requires Chain(turns) && UniqueIds(turns) && n + 1 == |turns| && Grounded(turns[..n])
    ensures Grounded(turns)
  {
    var init := turns[..n];
    assert turns[n].parent == Anchor(turns, n);
    if n > 0 {
      assert init[n - 1].id == turns[n].parent.value;
    }
    assert !HasId(init, turns[n].id);
    GroundedExtends(init, turns[n]);
    assert init + [turns[n]] == turns;
  }

  lemma {:induction false} ChainIsGrounded(turns: seq<Turn>)
    requires Chain(turns) && UniqueIds(turns)
    ensures Grounded(turns)
    decreases |turns|
  {
    if turns == [] {
      assert Ranked(turns, map[]);
    } else {
      var n := |turns| - 1;
      ChainPrefix(turns, n);
      ChainIsGrounded(turns[..n]);
      ChainEndExtends(turns, n);
    }
  }

  lemma AppendKeepsWellFormed(v: View, turn: Turn)
    requires v.WellFormed() && Admissible(v, turn)
    ensures Appended(v, turn).WellFormed()
  {
    assert v.Consistent();
    var w := Appended(v, turn);
    AppendedLineage(v, turn);
    AppendedRaw(v, turn);
    MessagesOfExtended(v.raw, turn);
    assert w.backing[..w.lineageLen] == w.backing;
    assert w.Consistent();
  }

  lemma RetainedTurnsAreDisjoint(v: View, raw: seq<Turn>)
    requires v.WellFormed() && UniqueIds(raw)
    requires forall i :: 0 <= i < |raw| ==> raw[i] in v.raw
    ensures forall i, j :: 0 <= i < j < |raw| ==> Disjoint(raw[i], raw[j])
  {
    assert v.Consistent();
    forall i, j | 0 <= i < j < |raw|
      ensures Disjoint(raw[i], raw[j])
    {
      var x :| 0 <= x < |v.raw| && v.raw[x] == raw[i];
      var y :| 0 <= y < |v.raw| && v.raw[y] == raw[j];
      if x < y {
        assert Disjoint(v.raw[x], v.raw[y]);
      } else {
        assert Disjoint(v.raw[y], v.raw[x]);
      }
    }
  }

  lemma ForkKeepsWellFormed(v: View, at: nat)
    requires v.WellFormed() && at <= v.lineageLen
    ensures SharedPrefix(v, at).value.WellFormed()
  {
    assert v.Consistent();
    var raw := v.backing[..at];
    forall i | 0 <= i < |raw|
      ensures raw[i] in v.raw
    {
      assert v.backing[..v.lineageLen][i] == raw[i];
    }
    assert Covers(raw, raw);
    ChainPrefix(v.backing, at);
    ChainIsGrounded(raw);
    RetainedTurnsAreDisjoint(v, raw);
    assert SharedPrefix(v, at).value.Consistent();
  }

  lemma StepKeepsWellFormed(v: View, op: Op)
    requires v.WellFormed() && Legal(v, op)
    ensures Apply(v, op).WellFormed()
  {
    match op
    case Append(turn) => AppendKeepsWellFormed(v, turn);
    case MoveHead(to) =>
      assert v.Consistent();
      assert HeadMoved(v, to).Consistent();
    case Fork(at) => ForkKeepsWellFormed(v, at);
  }

  lemma EmptyIsWellFormed()
    ensures Empty.WellFormed()
  {
    assert Ranked([], map[]);
    assert Empty.Consistent();
  }

  /** Every reachable history is well formed, whatever was interleaved. */
  lemma {:induction false} RunKeepsWellFormed(v: View, ops: seq<Op>)
    requires v.WellFormed() && Run(v, ops).Some?
    ensures Run(v, ops).value.WellFormed()
    decreases |ops|
  {
    if ops != [] {
      StepKeepsWellFormed(v, ops[0]);
      RunKeepsWellFormed(Apply(v, ops[0]), ops[1..]);
    }
  }

  /** The raw log of a history that grew by commits lists every parent before its children. */
  lemma {:induction false} RunKeepsParentsFirst(v: View, ops: seq<Op>)
    requires v.WellFormed() && ParentsFirst(v.raw) && Run(v, ops).Some?
    ensures ParentsFirst(Run(v, ops).value.raw)
    decreases |ops|
  {
    if ops != [] {
      assert v.Consistent();
      StepKeepsWellFormed(v, ops[0]);
      match ops[0] {
        case Append(turn) => AppendedParentsFirst(v, turn);
        case MoveHead(to) =>
        case Fork(at) =>
          ChainPrefix(v.backing, at);
          ChainParentsFirst(v.backing[..at]);
      }
      RunKeepsParentsFirst(Apply(v, ops[0]), ops[1..]);
    }
  }

  /** Without forking away, no turn ever leaves the raw log or changes place. */
  lemma {:induction false} RunOnlyExtendsRaw(v: View, ops: seq<Op>)
    requires v.InRange() && Run(v, ops).Some?
    requires forall i :: 0 <= i < |ops| ==> !ops[i].Fork?
    ensures v.raw <= Run(v, ops).value.raw
    decreases |ops|
  {
    if ops != [] {
      assert !ops[0].Fork?;
      RunOnlyExtendsRaw(Apply(v, ops[0]), ops[1..]);
    }
  }

  // ----- restore is a bisimulation -----

  /** Everything observable agrees; only the suffix above the ceiling may not. */
  ghost predicate Similar(a: View, b: View) {
    && a.InRange() && b.InRange()
    && a.raw == b.raw
    && a.lineageLen == b.lineageLen
    && a.activeLen == b.activeLen
    && a.Addressable() == b.Addressable()
    && a.messageIds == b.messageIds
  }

  /** A history written out as raw turns, lineage identities and head, and read back. */
  function WrittenAndRestored(v: View): View
    requires v.InRange()
    requires KnownIds(v.raw, Ids(v.Addressable()))
  {
    Restored(v.raw, Ids(v.Addressable()), v.activeLen)
  }

  lemma AddressableIdsAreKnown(v: View)
    requires v.WellFormed()
    ensures KnownIds(v.raw, Ids(v.Addressable()))
  {
    assert v.Consistent();
    var lineage := v.Addressable();
    forall i | 0 <= i < |lineage|
      ensures HasId(v.raw, Ids(lineage)[i])
    {
      var j :| 0 <= j < |v.raw| && v.raw[j] == lineage[i];
    }
  }

  /** Restoring gives back the history, clipped at its fork ceiling. */
  lemma RestoreUndoesWriting(v: View)
    requires v.WellFormed()
    requires KnownIds(v.raw, Ids(v.Addressable()))
    ensures WrittenAndRestored(v) == v.(backing := v.Addressable())
    ensures WrittenAndRestored(v).WellFormed()
    ensures Similar(v, WrittenAndRestored(v))
  {
    assert v.Consistent();
    var lineage := v.Addressable();
    var r := WrittenAndRestored(v);
    forall i | 0 <= i < |lineage|
      ensures r.backing[i] == lineage[i]
    {
      FindIsTheTurn(v.raw, lineage[i]);
    }
    ChainPrefix(v.backing, v.lineageLen);
    assert r.backing == lineage;
    assert r.backing[..r.lineageLen] == lineage;
    assert r.Consistent();
  }

  lemma SimilarStep(a: View, b: View, op: Op)
    requires Similar(a, b)
    ensures a.Tip() == b.Tip() && a.Active() == b.Active()
    ensures Legal(a, op) <==> Legal(b, op)
    ensures Legal(a, op) ==> Similar(Apply(a, op), Apply(b, op))
  {
    assert a.Active() == a.Addressable()[..a.activeLen];
    assert b.Active() == b.Addressable()[..b.activeLen];
    if a.activeLen > 0 {
      assert a.Addressable()[a.activeLen - 1] == b.Addressable()[a.activeLen - 1];
    }
    if Legal(a, op) && op.Fork? {
      assert a.backing[..op.at] == a.Addressable()[..op.at];
      assert b.backing[..op.at] == b.Addressable()[..op.at];
    }
  }

  /** Similar histories accept the same runs and stay similar along them. */
  lemma {:induction false} SimilarRuns(a: View, b: View, ops: seq<Op>)
    requires Similar(a, b)
    ensures Run(a, ops).Some? <==> Run(b, ops).Some?
    ensures Run(a, ops).Some? ==> Similar(Run(a, ops).value, Run(b, ops).value)
    decreases |ops|
  {
    if ops != [] {
      SimilarStep(a, b, ops[0]);
      if Legal(a, ops[0]) {
        SimilarRuns(Apply(a, ops[0]), Apply(b, ops[0]), ops[1..]);
      }
    }
  }

  /**
   Restore is a bisimulation: from any reachable history, the restored one shows
   the same turns, lineage, raw order, tip and membership answers now and after
   every later run, and refuses exactly the runs the original refuses.
  */
  lemma RestoreIsABisimulation(past: seq<Op>, future: seq<Op>)
    requires Run(Empty, past).Some?
    ensures var v := Run(Empty, past).value;
            && KnownIds(v.raw, Ids(v.Addressable()))
            && var r := WrittenAndRestored(v);
               && Similar(v, r)
               && (Run(v, future).Some? <==> Run(r, future).Some?)
               && (Run(v, future).Some? ==>
                     && Similar(Run(v, future).value, Run(r, future).value)
                     && Run(v, future).value.Active() == Run(r, future).value.Active()
                     && Run(v, future).value.Tip() == Run(r, future).value.Tip())
  {
    EmptyIsWellFormed();
    RunKeepsWellFormed(Empty, past);
    var v := Run(Empty, past).value;
    AddressableIdsAreKnown(v);
    RestoreUndoesWriting(v);
    var r := WrittenAndRestored(v);
    SimilarRuns(v, r, future);
    if Run(v, future).Some? {
      SimilarStep(Run(v, future).value, Run(r, future).value, MoveHead(0));
    }
  }
}
