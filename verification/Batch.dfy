/**
 Concurrent fulfilment of one requirement batch (src/agent/drive.rs,
 `fulfill_batch`). Local requirements complete in any order; the rest, and every
 subagent, are taken singly.
*/
module Batch {
  import opened Wrappers
  import opened Effects
  import opened Routing

  /** A fulfilled requirement with the distance of the scope that settled it. */
  datatype Resolved = Resolved(id: RequirementId, result: RequirementResult, hops: nat)

  /** What resolving one requirement by itself gives. */
  function Alone(req: Requirement, chain: seq<Scope>, depth: nat, draw: nat): Result<Resolved, AgentError>
    requires chain != []
  {
    var settled :- Resolve(req, chain, depth, draw);
    Ok(Resolved(req.id, settled.0, settled.1))
  }

  /** Fulfilled by this layer itself, concurrently with the others of its batch. */
  predicate RunsLocally(req: Requirement, scope: Scope) {
    KindTag(req.kind) != SubagentTag && ScopeHandles(scope, KindTag(req.kind))
  }

  /** Everything this scope has a handler for runs locally, except what opens a subagent. */
  lemma LocalExactlyWhen(req: Requirement, scope: Scope)
    ensures RunsLocally(req, scope) <==> HasHandler(scope, req.kind) && !req.kind.NeedSubagent?
  {}

  function Pick<T>(items: seq<T>, order: seq<nat>): (picked: seq<T>)
    requires forall k :: 0 <= k < |order| ==> order[k] < |items|
    ensures |picked| == |order|
    ensures forall k :: 0 <= k < |order| ==> picked[k] == items[order[k]]
  {
    seq(|order|, k requires 0 <= k < |order| => items[order[k]])
  }

  predicate Distinct(order: seq<nat>) {
    forall j, k :: 0 <= j < k < |order| ==> order[j] != order[k]
  }

  /** `order` lists each of the positions below `n` exactly once. */
  predicate Permutation(order: seq<nat>, n: nat) {
    && Distinct(order)
    && (forall k :: 0 <= k < |order| ==> order[k] < n)
    && (forall i :: 0 <= i < n ==> i in order)
  }

  /** `order` lists each local position of the batch exactly once. */
  predicate CompletionOrder(order: seq<nat>, reqs: seq<Requirement>, scope: Scope) {
    && Distinct(order)
    && (forall k :: 0 <= k < |order| ==> order[k] < |reqs| && RunsLocally(reqs[order[k]], scope))
    && (forall i :: 0 <= i < |reqs| && RunsLocally(reqs[i], scope) ==> i in order)
  }

  lemma WithoutTheLast(order: seq<nat>, n: nat, k: nat)
    requires Permutation(order, n + 1) && k < |order| && order[k] == n
    ensures Permutation(order[..k] + order[k + 1..], n)
  {
    var fewer := order[..k] + order[k + 1..];
    forall i | 0 <= i < n
      ensures i in fewer
    {
      assert i in order;
      var j :| 0 <= j < |order| && order[j] == i;
      assert fewer[if j < k then j else j - 1] == i;
    }
    forall j | 0 <= j < |fewer|
      ensures fewer[j] < n
    {
      assert fewer[j] == order[if j < k then j else j + 1];
    }
  }

  lemma LastPlace(order: seq<nat>, n: nat) returns (k: nat)
    requires Permutation(order, n + 1)
    ensures k < |order| && order[k] == n && Permutation(order[..k] + order[k + 1..], n)
    ensures forall j :: 0 <= j < |order| && j != k ==> order[j] < n
  {
    assert n in order;
    k :| 0 <= k < |order| && order[k] == n;
    WithoutTheLast(order, n, k);
  }

  lemma PickedAround<T>(items: seq<T>, order: seq<nat>, k: nat)
    requires items != [] && k < |order| && order[k] == |items| - 1
    requires forall j :: 0 <= j < |order| ==> order[j] < |items|
    requires forall j :: 0 <= j < |order| && j != k ==> order[j] < |items| - 1
    ensures multiset(Pick(items, order))
            == multiset(Pick(items[..|items| - 1], order[..k] + order[k + 1..])) + multiset{items[|items| - 1]}
  {
    var n := |items| - 1;
    var rest := Pick(items[..n], order[..k] + order[k + 1..]);
    assert Pick(items, order) == rest[..k] + [items[n]] + rest[k..];
    assert rest == rest[..k] + rest[k..];
  }

  /** Listing every position once only reorders the items. */
  lemma {:induction false} PickingAllPermutes<T>(items: seq<T>, order: seq<nat>)
    requires Permutation(order, |items|)
    ensures multiset(Pick(items, order)) == multiset(items)
    decreases |items|
  {
    if order == [] {
      assert 0 !in order;
    } else {
      assert order[0] < |items|;
      var n := |items| - 1;
      var k := LastPlace(order, n);
      PickingAllPermutes(items[..n], order[..k] + order[k + 1..]);
      PickedAround(items, order, k);
      assert items == items[..n] + [items[n]];
    }
  }

  /** The positions fulfilled here, in request order: one of the possible completion orders. */
  ghost function LocalPositions(reqs: seq<Requirement>, scope: Scope, n: nat): (order: seq<nat>)
    requires n <= |reqs|
    ensures Distinct(order)
    ensures forall k :: 0 <= k < |order| ==> order[k] < n && RunsLocally(reqs[order[k]], scope)
    ensures forall i :: 0 <= i < n && RunsLocally(reqs[i], scope) ==> i in order
  {
    if n == 0 then []
    else if RunsLocally(reqs[n - 1], scope) then LocalPositions(reqs, scope, n - 1) + [n - 1]
    else LocalPositions(reqs, scope, n - 1)
  }

  lemma SomeCompletionOrder(reqs: seq<Requirement>, scope: Scope)
    ensures exists order: seq<nat> :: CompletionOrder(order, reqs, scope)
  {
    assert CompletionOrder(LocalPositions(reqs, scope, |reqs|), reqs, scope);
  }

  /** Splits the batch: the positions left for one-at-a-time resolution, in order. */
  method SerialPositions(reqs: seq<Requirement>, scope: Scope) returns (serial: seq<nat>)
    ensures Distinct(serial)
    ensures forall k :: 0 <= k < |serial| ==> serial[k] < |reqs| && !RunsLocally(reqs[serial[k]], scope)
    ensures forall i :: 0 <= i < |reqs| && !RunsLocally(reqs[i], scope) ==> i in serial
  {
    serial := [];
    var i := 0;
    while i < |reqs|
      invariant 0 <= i <= |reqs|
      invariant Distinct(serial)
      invariant forall k :: 0 <= k < |serial| ==> serial[k] < i && !RunsLocally(reqs[serial[k]], scope)
      invariant forall j :: 0 <= j < i && !RunsLocally(reqs[j], scope) ==> j in serial
    {
      if !RunsLocally(reqs[i], scope) {
        serial := serial + [i];
      }
      i := i + 1;
    }
  }

  /** One local future: the advertised handler is there, so the other branch is dead. */
  method FulfillLocally(req: Requirement, chain: seq<Scope>, depth: nat, draw: nat)
    returns (result: Result<Resolved, AgentError>)
    requires chain != [] && RunsLocally(req, chain[0])
    ensures result == Alone(req, chain, depth, draw)
  {
    AdvertisedMeansFulfilled(req.kind, chain[0], draw);
    match FulfillWithScope(req.kind, chain[0], draw)
    case Some(answer) =>
      match Accepts(req.kind, answer)
      case Ok(_) => return Ok(Resolved(req.id, answer, 0));
      case Err(e) => return Err(Misaligned(req.id, e));
  }

  /**
   Whatever order the local futures complete in, the batch succeeds exactly when
   every requirement succeeds alone, and then returns a permutation of what each
   gives alone, each under its own id, hop distance and accepted result. Each
   requirement meets the outside world at its own draw.
  */
  method FulfillBatch(reqs: seq<Requirement>, chain: seq<Scope>, depth: nat, draws: seq<nat>, order: seq<nat>)
    returns (result: Result<seq<Resolved>, AgentError>, ghost taken: seq<nat>)
    requires chain != [] && CompletionOrder(order, reqs, chain[0]) && |draws| == |reqs|
    ensures result.Ok? <==> forall i :: 0 <= i < |reqs| ==> Alone(reqs[i], chain, depth, draws[i]).Ok?
    ensures result.Err? ==> exists i :: 0 <= i < |reqs| && Alone(reqs[i], chain, depth, draws[i]) == Err(result.error)
    ensures result.Ok? ==>
              && Permutation(taken, |reqs|) && |result.value| == |taken|
              && order <= taken
              && forall k :: 0 <= k < |taken| ==>
                   Alone(reqs[taken[k]], chain, depth, draws[taken[k]]) == Ok(result.value[k])
  {
    var serial := SerialPositions(reqs, chain[0]);
    var resolutions: seq<Resolved> := [];
    taken := order + serial;
    var k := 0;
    while k < |order|
      invariant 0 <= k <= |order| && |resolutions| == k
      invariant forall j :: 0 <= j < k ==> Alone(reqs[taken[j]], chain, depth, draws[taken[j]]) == Ok(resolutions[j])
    {
      assert taken[k] == order[k];
      var resolved := FulfillLocally(reqs[order[k]], chain, depth, draws[order[k]]);
      if resolved.Err? {
        return Err(resolved.error), taken;
      }
      resolutions := resolutions + [resolved.value];
      k := k + 1;
    }
    var s := 0;
    while s < |serial|
      invariant 0 <= s <= |serial| && |resolutions| == |order| + s
      invariant forall j :: 0 <= j < |order| + s ==>
                  Alone(reqs[taken[j]], chain, depth, draws[taken[j]]) == Ok(resolutions[j])
    {
      assert taken[|order| + s] == serial[s];
      var settled := Resolve(reqs[serial[s]], chain, depth, draws[serial[s]]);
      if settled.Err? {
        return Err(settled.error), taken;
      }
      resolutions := resolutions + [Resolved(reqs[serial[s]].id, settled.value.0, settled.value.1)];
      s := s + 1;
    }
    TakenIsAPermutation(reqs, chain[0], order, serial);
    forall i | 0 <= i < |reqs|
      ensures Alone(reqs[i], chain, depth, draws[i]).Ok?
    {
      assert i in taken;
      var j :| 0 <= j < |taken| && taken[j] == i;
    }
    result := Ok(resolutions);
  }

  lemma TakenIsAPermutation(reqs: seq<Requirement>, scope: Scope, order: seq<nat>, serial: seq<nat>)
    requires CompletionOrder(order, reqs, scope) && Distinct(serial)
    requires forall k :: 0 <= k < |serial| ==> serial[k] < |reqs| && !RunsLocally(reqs[serial[k]], scope)
    requires forall i :: 0 <= i < |reqs| && !RunsLocally(reqs[i], scope) ==> i in serial
    ensures Permutation(order + serial, |reqs|)
  {
    var taken := order + serial;
    forall i | 0 <= i < |reqs|
      ensures i in taken
    {
      assert i in order || i in serial;
    }
    forall j, k | 0 <= j < k < |taken|
      ensures taken[j] != taken[k]
    {
      if j < |order| <= k {
        assert RunsLocally(reqs[taken[j]], scope) && !RunsLocally(reqs[taken[k]], scope);
      }
    }
  }
}
