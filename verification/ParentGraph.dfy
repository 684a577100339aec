/**
 The parent-graph checks of restore (src/conversation/persistence/snapshot.rs,
 `validate_parent_graph`, `check_parent_chain`, `root_of`): iterative cycle
 detection and memoised root lookup over untrusted turns in any order.
*/
module ParentGraph {
  import opened Wrappers
  import opened Turns

  datatype VisitMark = Unvisited | Visiting | Done

  datatype GraphError =
    | MissingParent(orphan: TurnId, missing: TurnId)
    | ParentCycle(onCycle: TurnId)
    | Disconnected(stray: TurnId, root: Option<TurnId>)

  /** `index` finds every turn and nothing else. */
  ghost predicate Indexes(index: map<TurnId, nat>, turns: seq<Turn>) {
    && (forall i :: 0 <= i < |turns| ==> turns[i].id in index && index[turns[i].id] == i)
    && (forall id :: id in index ==> index[id] < |turns| && turns[index[id]].id == id)
  }

  method IndexOf(turns: seq<Turn>) returns (index: map<TurnId, nat>)
    requires UniqueIds(turns)
    ensures Indexes(index, turns)
  {
    index := map[];
    var i := 0;
    while i < |turns|
      invariant 0 <= i <= |turns|
      invariant forall k :: 0 <= k < i ==> turns[k].id in index && index[turns[k].id] == k
      invariant forall id :: id in index ==> index[id] < i && turns[index[id]].id == id
    {
      index := index[turns[i].id := i];
      i := i + 1;
    }
  }

  ghost predicate ParentsPresent(turns: seq<Turn>) {
    forall t :: t in turns && t.parent.Some? ==> HasId(turns, t.parent.value)
  }

  method CheckParentsPresent(turns: seq<Turn>, index: map<TurnId, nat>) returns (result: Result<(), GraphError>)
    requires Indexes(index, turns)
    ensures result.Ok? <==> ParentsPresent(turns)
    ensures result.Err? ==> result.error.MissingParent? && !HasId(turns, result.error.missing)
  {
    var i := 0;
    while i < |turns|
      invariant 0 <= i <= |turns|
      invariant forall k :: 0 <= k < i && turns[k].parent.Some? ==> HasId(turns, turns[k].parent.value)
    {
      if turns[i].parent.Some? {
        var parent := turns[i].parent.value;
        if parent !in index {
          assert turns[i] in turns;
          return Err(MissingParent(turns[i].id, parent));
        }
        assert turns[index[parent]].id == parent;
      }
      i := i + 1;
    }
    return Ok(());
  }

  /** Position of the parent of turn `i`. */
  function Up(turns: seq<Turn>, index: map<TurnId, nat>, i: nat): (up: Option<nat>)
    requires i < |turns|
  {
    if turns[i].parent.Some? && turns[i].parent.value in index then Some(index[turns[i].parent.value]) else None
  }

  // ----- cycle detection -----

  ghost predicate UpDone(turns: seq<Turn>, index: map<TurnId, nat>, marks: seq<VisitMark>, rank: seq<nat>, i: nat)
    requires i < |turns| == |marks| == |rank|
  {
    match Up(turns, index, i)
    case None => true
    case Some(p) => p < |turns| && marks[p].Done? && rank[p] < rank[i]
  }

  /** Finished turns have finished parents of smaller rank. */
  ghost predicate Settled(turns: seq<Turn>, index: map<TurnId, nat>, marks: seq<VisitMark>, rank: seq<nat>) {
    && |turns| == |marks| == |rank|
    && (forall i {:trigger UpDone(turns, index, marks, rank, i)} :: 0 <= i < |marks| && marks[i].Done? ==>
          UpDone(turns, index, marks, rank, i))
  }

  /** The walk so far: each position's parent is the next one. */
  ghost predicate Walk(turns: seq<Turn>, index: map<TurnId, nat>, path: seq<nat>) {
    && (forall k :: 0 <= k < |path| ==> path[k] < |turns|)
    && (forall k {:trigger NextUp(path, k)} :: 0 <= k < |path| - 1 ==>
          Up(turns, index, path[k]) == Some(NextUp(path, k)))
  }

  ghost function NextUp(path: seq<nat>, k: nat): nat
    requires k + 1 < |path|
  {
    path[k + 1]
  }

  lemma RanksFallAlong(turns: seq<Turn>, index: map<TurnId, nat>, path: seq<nat>, rank: map<TurnId, nat>, p: nat,
                       q: nat)
    requires Indexes(index, turns) && Ranked(turns, rank) && Walk(turns, index, path) && p <= q < |path|
    ensures turns[path[p]].id in rank && turns[path[q]].id in rank
    ensures rank[turns[path[q]].id] <= rank[turns[path[p]].id]
    decreases q - p
  {
    assert turns[path[p]] in turns && turns[path[q]] in turns;
    assert HasId(turns, turns[path[p]].id) && HasId(turns, turns[path[q]].id);
    if p < q {
      assert Up(turns, index, path[p]) == Some(NextUp(path, p));
      RanksFallAlong(turns, index, path, rank, p + 1, q);
    }
  }

  /** A walk that comes back to itself leaves no room for any ranking. */
  lemma ReturningWalkIsACycle(turns: seq<Turn>, index: map<TurnId, nat>, path: seq<nat>)
    requires Indexes(index, turns) && Walk(turns, index, path) && path != []
    requires Up(turns, index, path[|path| - 1]).Some? && Up(turns, index, path[|path| - 1]).value in path
    ensures !Grounded(turns)
  {
    forall rank | Ranked(turns, rank)
      ensures false
    {
      var last := path[|path| - 1];
      var p :| 0 <= p < |path| && path[p] == Up(turns, index, last).value;
      assert turns[last] in turns;
      RanksFallAlong(turns, index, path, rank, p, |path| - 1);
    }
  }

  /** Ranks for a finished walk: above what was settled, falling along the path. */
  ghost function RanksWith(rank: seq<nat>, path: seq<nat>, base: nat): (r: seq<nat>)
    requires forall k :: 0 <= k < |path| ==> path[k] < |rank|
    ensures |r| == |rank|
    ensures forall i :: 0 <= i < |rank| && i !in path ==> r[i] == rank[i]
    ensures (forall j, k :: 0 <= j < k < |path| ==> path[j] != path[k]) ==>
              forall k :: 0 <= k < |path| ==> r[path[k]] == base + |path| - k
  {
    if path == [] then rank
    else
      var r := RanksWith(rank, path[1..], base);
      assert forall k :: 0 < k < |path| ==> path[k] == path[1..][k - 1];
      r[path[0] := base + |path|]
  }

  lemma WalkPrefix(turns: seq<Turn>, index: map<TurnId, nat>, path: seq<nat>, current: nat)
    requires Walk(turns, index, path + [current])
    ensures Walk(turns, index, path)
    ensures path != [] ==> Up(turns, index, path[|path| - 1]) == Some(current)
  {
    var more := path + [current];
    forall k | 0 <= k < |path|
      ensures path[k] < |turns| && Up(turns, index, path[k]) == Some(NextUp(more, k))
    {
      assert more[k] == path[k];
    }
    forall k | 0 <= k < |path| - 1
      ensures Up(turns, index, path[k]) == Some(NextUp(path, k))
    {
      assert NextUp(more, k) == NextUp(path, k);
    }
    if path != [] {
      assert NextUp(more, |path| - 1) == current;
    }
  }

  lemma WalkStep(turns: seq<Turn>, index: map<TurnId, nat>, path: seq<nat>, up: nat)
    requires Walk(turns, index, path) && path != [] && up < |turns|
    requires Up(turns, index, path[|path| - 1]) == Some(up)
    ensures Walk(turns, index, path + [up])
  {
    var more := path + [up];
    forall k | 0 <= k < |more| - 1
      ensures Up(turns, index, more[k]) == Some(NextUp(more, k))
    {
      if k < |path| - 1 {
        assert NextUp(more, k) == NextUp(path, k);
      }
    }
  }

  lemma WalkedRank(rank: seq<nat>, path: seq<nat>, base: nat, k: nat)
    requires k < |path| && forall i :: 0 <= i < |path| ==> path[i] < |rank|
    requires forall i, j :: 0 <= i < j < |path| ==> path[i] != path[j]
    ensures RanksWith(rank, path, base)[path[k]] == base + |path| - k
  {}

  lemma InnerMemberSettles(
    turns: seq<Turn>, index: map<TurnId, nat>, after: seq<VisitMark>, rank: seq<nat>, path: seq<nat>, base: nat, k: nat)
    requires |turns| == |after| == |rank| && Walk(turns, index, path) && k + 1 < |path|
    requires forall i, j :: 0 <= i < j < |path| ==> path[i] != path[j]
    requires after[path[k + 1]].Done?
    ensures UpDone(turns, index, after, RanksWith(rank, path, base), path[k])
  {
    assert Up(turns, index, path[k]) == Some(NextUp(path, k));
    WalkedRank(rank, path, base, k);
    WalkedRank(rank, path, base, k + 1);
  }

  lemma LastMemberSettles(
    turns: seq<Turn>, index: map<TurnId, nat>, after: seq<VisitMark>, rank: seq<nat>, path: seq<nat>, base: nat,
    top: Option<nat>)
    requires |turns| == |after| == |rank| && Walk(turns, index, path) && path != []
    requires forall i, j :: 0 <= i < j < |path| ==> path[i] != path[j]
    requires Up(turns, index, path[|path| - 1]) == top
    requires top.Some? ==>
               top.value < |turns| && top.value !in path && after[top.value].Done? && base == rank[top.value]
    ensures UpDone(turns, index, after, RanksWith(rank, path, base), path[|path| - 1])
  {
    WalkedRank(rank, path, base, |path| - 1);
  }

  lemma OffTheWalkSettles(
    turns: seq<Turn>, index: map<TurnId, nat>, walked: seq<VisitMark>, after: seq<VisitMark>, rank: seq<nat>,
    path: seq<nat>, base: nat, i: nat)
    requires |turns| == |walked| == |after| == |rank| && i < |turns| && i !in path
    requires forall k :: 0 <= k < |path| ==> path[k] < |rank|
    requires UpDone(turns, index, walked, rank, i)
    requires forall j :: 0 <= j < |walked| ==> (walked[j].Visiting? <==> j in path)
    requires forall j :: 0 <= j < |walked| ==> after[j] == if j in path then Done else walked[j]
    ensures UpDone(turns, index, after, RanksWith(rank, path, base), i)
  {}

  /** Marking a whole walk finished keeps every finished turn above its parent. */
  lemma PathSettles(
    turns: seq<Turn>, index: map<TurnId, nat>, walked: seq<VisitMark>, after: seq<VisitMark>, rank: seq<nat>,
    path: seq<nat>, base: nat, top: Option<nat>)
    requires Settled(turns, index, walked, rank) && |after| == |walked|
    requires Walk(turns, index, path) && path != []
    requires Up(turns, index, path[|path| - 1]) == top
    requires top.Some? ==> top.value < |turns| && walked[top.value].Done? && base == rank[top.value]
    requires forall j, k :: 0 <= j < k < |path| ==> path[j] != path[k]
    requires forall i :: 0 <= i < |walked| ==> (walked[i].Visiting? <==> i in path)
    requires forall i :: 0 <= i < |walked| ==> after[i] == if i in path then Done else walked[i]
    ensures Settled(turns, index, after, RanksWith(rank, path, base))
  {
    forall i | 0 <= i < |after| && after[i].Done?
      ensures UpDone(turns, index, after, RanksWith(rank, path, base), i)
    {
      if i in path {
        var k :| 0 <= k < |path| && path[k] == i;
        if k < |path| - 1 {
          assert path[k + 1] in path;
          InnerMemberSettles(turns, index, after, rank, path, base, k);
        } else {
          LastMemberSettles(turns, index, after, rank, path, base, top);
        }
      } else {
        assert UpDone(turns, index, walked, rank, i);
        OffTheWalkSettles(turns, index, walked, after, rank, path, base, i);
      }
    }
  }

  method MarkDone(path: seq<nat>, marks: array<VisitMark>)
    requires forall k :: 0 <= k < |path| ==> path[k] < marks.Length
    modifies marks
    ensures forall i :: 0 <= i < marks.Length ==> marks[i] == if i in path then Done else old(marks[i])
  {
    var k := 0;
    while k < |path|
      invariant 0 <= k <= |path|
      invariant forall i :: 0 <= i < marks.Length ==> marks[i] == if i in path[..k] then Done else old(marks[i])
    {
      marks[path[k]] := Done;
      assert path[..k + 1] == path[..k] + [path[k]];
      k := k + 1;
    }
    assert path[..k] == path;
  }

  /** Climbs from `start`, marking the way, to a finished turn, a root or the way itself. */
  method WalkUp(start: nat, turns: seq<Turn>, index: map<TurnId, nat>, marks: array<VisitMark>)
    returns (path: seq<nat>, cycle: Option<TurnId>, ghost top: Option<nat>)
    requires start < |turns| == marks.Length && Indexes(index, turns)
    requires forall i :: 0 <= i < marks.Length ==> !marks[i].Visiting?
    modifies marks
    ensures cycle.Some? ==> !Grounded(turns)
    ensures cycle.None? ==> Walk(turns, index, path) && (path == [] ==> marks[start].Done?)
    ensures cycle.None? && path != [] ==> path[0] == start && Up(turns, index, path[|path| - 1]) == top
    ensures cycle.None? && top.Some? ==> top.value < |turns| && marks[top.value].Done?
    ensures forall i :: 0 <= i < marks.Length ==> (marks[i].Visiting? <==> i in path)
    ensures forall i :: 0 <= i < marks.Length ==> (marks[i].Done? <==> old(marks[i]).Done?)
    ensures forall j, k :: 0 <= j < k < |path| ==> path[j] != path[k]
  {
    path := [];
    cycle, top := None, None;
    var current: nat := start;
    while true
      invariant current < |turns|
      invariant Walk(turns, index, path + [current])
      invariant path == [] ==> current == start
      invariant path != [] ==> path[0] == start
      invariant forall i :: 0 <= i < marks.Length ==> (marks[i].Visiting? <==> i in path)
      invariant forall i :: 0 <= i < marks.Length ==> (marks[i].Done? <==> old(marks[i]).Done?)
      invariant forall j, k :: 0 <= j < k < |path| ==> path[j] != path[k]
      decreases set i | 0 <= i < marks.Length && marks[i].Unvisited?
    {
      WalkPrefix(turns, index, path, current);
      match marks[current] {
        case Done =>
          top := Some(current);
          return;
        case Visiting =>
          ReturningWalkIsACycle(turns, index, path);
          cycle := Some(turns[current].id);
          return;
        case Unvisited =>
      }
      ghost var unvisited := set i | 0 <= i < marks.Length && marks[i].Unvisited?;
      assert current in unvisited;
      marks[current] := Visiting;
      path := path + [current];
      var up := Up(turns, index, current);
      if up.None? {
        return;
      }
      WalkStep(turns, index, path, up.value);
      current := up.value;
    }
  }

  /** One parent chain: finished, or caught coming back to itself. */
  method CheckParentChain(
    start: nat, turns: seq<Turn>, index: map<TurnId, nat>, marks: array<VisitMark>, ghost rank: seq<nat>)
    returns (result: Result<(), GraphError>, ghost ranks: seq<nat>)
    requires start < |turns| == marks.Length && Indexes(index, turns)
    requires Settled(turns, index, marks[..], rank)
    requires forall i :: 0 <= i < marks.Length ==> !marks[i].Visiting?
    modifies marks
    ensures result.Err? ==> !Grounded(turns) && result.error.ParentCycle?
    ensures result.Ok? ==>
              && Settled(turns, index, marks[..], ranks)
              && marks[start].Done?
              && (forall i :: 0 <= i < marks.Length ==> !marks[i].Visiting?)
              && (forall i :: 0 <= i < marks.Length && old(marks[i]).Done? ==> marks[i].Done?)
  {
    var path, cycle;
    ghost var top;
    path, cycle, top := WalkUp(start, turns, index, marks);
    ranks := rank;
    if cycle.Some? {
      return Err(ParentCycle(cycle.value)), ranks;
    }
    ghost var walked := marks[..];
    forall i | 0 <= i < |walked| && walked[i].Done?
      ensures UpDone(turns, index, walked, rank, i)
    {
      assert UpDone(turns, index, old(marks[..]), rank, i);
    }
    MarkDone(path, marks);
    if path != [] {
      ghost var base := if top.Some? then rank[top.value] else 0;
      ranks := RanksWith(rank, path, base);
      PathSettles(turns, index, walked, marks[..], rank, path, base, top);
    }
    result := Ok(());
  }

  // ----- connectivity -----

  ghost predicate UpBelow(turns: seq<Turn>, index: map<TurnId, nat>, ranks: seq<nat>, i: nat)
    requires i < |turns| == |ranks|
  {
    match Up(turns, index, i)
    case None => true
    case Some(p) => p < |turns| && ranks[p] < ranks[i]
  }

  ghost predicate Leveled(turns: seq<Turn>, index: map<TurnId, nat>, ranks: seq<nat>) {
    && |turns| == |ranks|
    && (forall i {:trigger UpBelow(turns, index, ranks, i)} :: 0 <= i < |turns| ==> UpBelow(turns, index, ranks, i))
  }

  lemma LeveledIsGrounded(turns: seq<Turn>, index: map<TurnId, nat>, ranks: seq<nat>)
    requires Indexes(index, turns) && ParentsPresent(turns) && Leveled(turns, index, ranks)
    ensures Grounded(turns)
  {
    var rank := map id | id in index :: ranks[index[id]];
    forall id
      ensures id in rank <==> HasId(turns, id)
    {
      if id in index {
        assert turns[index[id]].id == id;
      }
    }
    forall t | t in turns && t.parent.Some?
      ensures t.parent.value in rank && t.id in rank && rank[t.parent.value] < rank[t.id]
    {
      var i :| 0 <= i < |turns| && turns[i] == t;
      assert HasId(turns, t.parent.value);
      assert UpBelow(turns, index, ranks, i);
    }
    assert Ranked(turns, rank);
  }

  /** Position of the parentless turn above position `i`. */
  ghost function Root(turns: seq<Turn>, index: map<TurnId, nat>, ranks: seq<nat>, i: nat): (root: nat)
    requires Leveled(turns, index, ranks) && i < |turns|
    ensures root < |turns| && Up(turns, index, root).None?
    decreases ranks[i]
  {
    assert UpBelow(turns, index, ranks, i);
    match Up(turns, index, i)
    case None => i
    case Some(p) => Root(turns, index, ranks, p)
  }

  ghost predicate Memoised(
    turns: seq<Turn>, index: map<TurnId, nat>, ranks: seq<nat>, roots: seq<Option<Option<TurnId>>>)
    requires Leveled(turns, index, ranks)
  {
    && |roots| == |turns|
    && forall i :: 0 <= i < |roots| && roots[i].Some? ==>
         roots[i].value == Some(turns[Root(turns, index, ranks, i)].id)
  }

  /** Follows parents to the root, remembering it for the turns above. */
  method RootOf(
    start: nat, turns: seq<Turn>, index: map<TurnId, nat>, roots: array<Option<Option<TurnId>>>, ghost ranks: seq<nat>)
    returns (root: Option<TurnId>)
    requires start < |turns| && Indexes(index, turns) && ParentsPresent(turns) && Leveled(turns, index, ranks)
    requires Memoised(turns, index, ranks, roots[..])
    modifies roots
    ensures Memoised(turns, index, ranks, roots[..])
    ensures root == Some(turns[Root(turns, index, ranks, start)].id)
  {
    var path: seq<nat> := [];
    var current: nat := start;
    while true
      invariant current < |turns|
      invariant Root(turns, index, ranks, current) == Root(turns, index, ranks, start)
      invariant forall k :: 0 <= k < |path| ==>
                  path[k] < |turns| && Root(turns, index, ranks, path[k]) == Root(turns, index, ranks, start)
      invariant roots[..] == old(roots[..])
      decreases ranks[current]
    {
      if roots[current].Some? {
        assert roots[..][current] == roots[current];
        root := roots[current].value;
        break;
      }
      assert UpBelow(turns, index, ranks, current);
      match turns[current].parent
      case Some(parent) =>
        assert turns[current] in turns && HasId(turns, parent);
        current := index[parent];
        path := path + [current];
      case None =>
        root := Some(turns[current].id);
        break;
    }
    var k := 0;
    while k < |path|
      invariant 0 <= k <= |path|
      invariant Memoised(turns, index, ranks, roots[..])
    {
      roots[path[k]] := Some(root);
      k := k + 1;
    }
  }

  /** At most one turn has no parent. */
  predicate SingleRoot(turns: seq<Turn>) {
    forall i, j :: 0 <= i < j < |turns| ==> turns[i].parent.Some? || turns[j].parent.Some?
  }

  lemma RootHasNoParent(turns: seq<Turn>, index: map<TurnId, nat>, ranks: seq<nat>, i: nat)
    requires Indexes(index, turns) && ParentsPresent(turns) && Leveled(turns, index, ranks) && i < |turns|
    ensures turns[Root(turns, index, ranks, i)].parent.None?
    ensures turns[i].parent.None? ==> Root(turns, index, ranks, i) == i
  {
    var r := Root(turns, index, ranks, i);
    assert turns[r] in turns;
    assert turns[r].parent.Some? ==> HasId(turns, turns[r].parent.value);
  }

  method FirstRoot(turns: seq<Turn>) returns (root: Option<TurnId>)
    ensures root.None? ==> forall i :: 0 <= i < |turns| ==> turns[i].parent.Some?
    ensures root.Some? ==> exists i :: 0 <= i < |turns| && turns[i].parent.None? && turns[i].id == root.value
  {
    var i := 0;
    while i < |turns|
      invariant 0 <= i <= |turns|
      invariant forall k :: 0 <= k < i ==> turns[k].parent.Some?
    {
      if turns[i].parent.None? {
        return Some(turns[i].id);
      }
      i := i + 1;
    }
    return None;
  }

  lemma TwoRoots(turns: seq<Turn>, r: nat, root: Option<TurnId>)
    requires UniqueIds(turns) && r < |turns| && turns[r].parent.None? && Some(turns[r].id) != root
    requires root.Some? ==> exists j :: 0 <= j < |turns| && turns[j].parent.None? && turns[j].id == root.value
    requires root.None? ==> forall j :: 0 <= j < |turns| ==> turns[j].parent.Some?
    ensures !SingleRoot(turns)
  {
    var j :| 0 <= j < |turns| && turns[j].parent.None? && turns[j].id == root.value;
  }

  lemma OneRoot(turns: seq<Turn>, index: map<TurnId, nat>, ranks: seq<nat>, root: Option<TurnId>)
    requires UniqueIds(turns) && Indexes(index, turns) && ParentsPresent(turns) && Leveled(turns, index, ranks)
    requires forall k :: 0 <= k < |turns| ==> Some(turns[Root(turns, index, ranks, k)].id) == root
    ensures SingleRoot(turns)
  {
    forall i, j | 0 <= i < j < |turns|
      ensures turns[i].parent.Some? || turns[j].parent.Some?
    {
      RootHasNoParent(turns, index, ranks, i);
      RootHasNoParent(turns, index, ranks, j);
    }
  }

  method CheckConnected(turns: seq<Turn>, index: map<TurnId, nat>, ghost ranks: seq<nat>)
    returns (result: Result<(), GraphError>)
    requires UniqueIds(turns) && Indexes(index, turns) && ParentsPresent(turns) && Leveled(turns, index, ranks)
    ensures result.Ok? <==> SingleRoot(turns)
    ensures result.Err? ==> result.error.Disconnected?
  {
    var root := FirstRoot(turns);
    var roots := new Option<Option<TurnId>>[|turns|](_ => None);
    var i := 0;
    while i < |turns|
      invariant 0 <= i <= |turns|
      invariant Memoised(turns, index, ranks, roots[..])
      invariant forall k :: 0 <= k < i ==> Some(turns[Root(turns, index, ranks, k)].id) == root
    {
      var own := RootOf(i, turns, index, roots, ranks);
      if own != root {
        RootHasNoParent(turns, index, ranks, i);
        TwoRoots(turns, Root(turns, index, ranks, i), root);
        return Err(Disconnected(turns[i].id, root));
      }
      i := i + 1;
    }
    OneRoot(turns, index, ranks, root);
    return Ok(());
  }

  /**
   All parent-graph checks together accept exactly the turn lists, in any order,
   whose parents are present, acyclic and lead to one root.
  */
  method ValidateParentGraph(turns: seq<Turn>) returns (result: Result<(), GraphError>)
    requires UniqueIds(turns)
    ensures result.Ok? <==> Grounded(turns) && SingleRoot(turns)
    ensures result.Err? && result.error.Disconnected? <==> Grounded(turns) && !SingleRoot(turns)
    ensures result.Err? && result.error.MissingParent? <==> !ParentsPresent(turns)
    ensures result.Err? && result.error.ParentCycle? <==> ParentsPresent(turns) && !Grounded(turns)
  {
    var index := IndexOf(turns);
    result := CheckParentsPresent(turns, index);
    if result.Err? {
      GroundedParentsArePresent(turns);
      return;
    }
    var marks := new VisitMark[|turns|](_ => Unvisited);
    ghost var ranks := seq(|turns|, _ => 0);
    var i := 0;
    while i < |turns|
      invariant 0 <= i <= |turns|
      invariant Settled(turns, index, marks[..], ranks)
      invariant forall k :: 0 <= k < marks.Length ==> !marks[k].Visiting?
      invariant forall k :: 0 <= k < i ==> marks[k].Done?
    {
      result, ranks := CheckParentChain(i, turns, index, marks, ranks);
      if result.Err? {
        return;
      }
      i := i + 1;
    }
    forall k | 0 <= k < |turns|
      ensures UpBelow(turns, index, ranks, k)
    {
      assert UpDone(turns, index, marks[..], ranks, k);
    }
    LeveledIsGrounded(turns, index, ranks);
    result := CheckConnected(turns, index, ranks);
  }

  lemma GroundedParentsArePresent(turns: seq<Turn>)
    ensures Grounded(turns) ==> ParentsPresent(turns)
  {}
}
