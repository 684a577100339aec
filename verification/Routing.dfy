/** Pop routing through a chain of scopes (src/agent/drive.rs, `resolve_requirement`, `ScopePop`). */
module Routing {
  import opened Wrappers
  import opened Effects

  function Validated(req: Requirement, result: RequirementResult, hops: nat)
    : Result<(RequirementResult, nat), AgentError>
  {
    match Accepts(req.kind, result)
    case Ok(_) => Ok((result, hops))
    case Err(e) => Err(Misaligned(req.id, e))
  }

  /** An answer from outside counts one hop more here. */
  function OneHopFurther(popped: Result<(RequirementResult, nat), AgentError>)
    : Result<(RequirementResult, nat), AgentError>
  {
    var settled :- popped;
    Ok((settled.0, settled.1 + 1))
  }

  /**
   Resolves against `chain[0]`, else pops to the rest. `depth` is how many
   further subagent layers the requesting context may still open.
  */
  function Resolve(req: Requirement, chain: seq<Scope>, depth: nat, draw: nat)
    : Result<(RequirementResult, nat), AgentError>
    requires chain != []
    decreases depth, |chain|
  {
    var scope := chain[0];
    if req.kind.NeedSubagent? && scope.subagent.Some? then
      Validated(req, scope.subagent.value(req.kind, PopTo(chain, depth), depth, draw), 0)
    else
      match FulfillWithScope(req.kind, scope, draw)
      case Some(result) => Validated(req, result, 0)
      case None =>
        if |chain| == 1 then Err(UnhandledRequirement(KindTag(req.kind), req.origin))
        else OneHopFurther(Resolve(req, chain[1..], depth, draw))
  }

  /**
   The layer `chain[0]` with its own parents, as the pop target of a child it
   opens. The child's own context, at a smaller depth, comes with each requirement.
  */
  function PopTo(chain: seq<Scope>, bound: nat): Pop
    requires chain != []
    decreases bound, |chain|, 0
  {
    (r: Requirement, depth: nat, draw: nat) =>
      if depth < bound then Resolve(r, chain, depth, draw) else Err(SubagentDepthExceeded)
  }

  /** The innermost scope that handles the family. */
  function LeastScope(chain: seq<Scope>, tag: Tag): (least: Option<nat>)
    ensures least.None? <==> forall i :: 0 <= i < |chain| ==> !ScopeHandles(chain[i], tag)
    ensures least.Some? ==>
              && least.value < |chain| && ScopeHandles(chain[least.value], tag)
              && forall i :: 0 <= i < least.value ==> !ScopeHandles(chain[i], tag)
  {
    if chain == [] then None
    else if ScopeHandles(chain[0], tag) then Some(0)
    else
      match LeastScope(chain[1..], tag)
      case None =>
        assert forall i :: 0 < i < |chain| ==> chain[i] == chain[1..][i - 1];
        None
      case Some(i) =>
        assert forall k :: 0 < k < |chain| ==> chain[k] == chain[1..][k - 1];
        Some(i + 1)
  }

  /** What the handler in `chain[0]` answers. */
  function Answer(req: Requirement, chain: seq<Scope>, depth: nat, draw: nat): RequirementResult
    requires chain != [] && ScopeHandles(chain[0], KindTag(req.kind))
  {
    if req.kind.NeedSubagent? then chain[0].subagent.value(req.kind, PopTo(chain, depth), depth, draw)
    else FulfillWithScope(req.kind, chain[0], draw).value
  }

  /**
   Over a chain of any length the innermost scope that handles the family
   answers, its distance is the hop count, and the requirement is unhandled
   exactly when no scope handles it. A subagent handler gets, as its child's pop
   target, the handling scope followed by that scope's parents.
  */
  lemma {:induction false} RoutesToTheLeastScope(req: Requirement, chain: seq<Scope>, depth: nat, draw: nat)
    requires chain != []
    ensures match LeastScope(chain, KindTag(req.kind))
            case None => Resolve(req, chain, depth, draw) == Err(UnhandledRequirement(KindTag(req.kind), req.origin))
            case Some(i) =>
              Resolve(req, chain, depth, draw) == Validated(req, Answer(req, chain[i..], depth, draw), i)
    decreases |chain|
  {
    var tag := KindTag(req.kind);
    AdvertisedMeansFulfilled(req.kind, chain[0], draw);
    if ScopeHandles(chain[0], tag) {
      assert chain[0..] == chain;
    } else if |chain| > 1 {
      RoutesToTheLeastScope(req, chain[1..], depth, draw);
      assert LeastScope(chain[1..], tag).Some? ==>
          chain[1..][LeastScope(chain[1..], tag).value..] == chain[LeastScope(chain, tag).value..];
    }
  }

  /** The scope has a handler of its own for the requirement. */
  predicate HasHandler(scope: Scope, kind: RequirementKind) {
    match kind
    case NeedLlm(_) => scope.llm.Some?
    case NeedTool(_, _) => scope.tool.Some?
    case NeedInteraction(_) => scope.interaction.Some?
    case NeedSubagent(_, _) => scope.subagent.Some?
    case NeedReconfigRegistry(_) => scope.reconfig.Some?
    case NeedExternalSession(_) => scope.external.Some?
  }

  /**
   What the handler in scope `i` says to the requirement's own question. A subagent
   handler is also given, for what its child pops, the layers from its own outward.
  */
  function Said(req: Requirement, chain: seq<Scope>, i: nat, depth: nat, draw: nat): RequirementResult
    requires i < |chain| && HasHandler(chain[i], req.kind)
  {
    match req.kind
    case NeedLlm(_) => chain[i].llm.value(req.kind, draw)
    case NeedTool(_, _) => chain[i].tool.value(req.kind, draw)
    case NeedInteraction(_) => chain[i].interaction.value(req.kind, draw)
    case NeedSubagent(_, _) => chain[i].subagent.value(req.kind, PopTo(chain[i..], depth), depth, draw)
    case NeedReconfigRegistry(_) => chain[i].reconfig.value(req.kind, draw)
    case NeedExternalSession(_) => chain[i].external.value(req.kind, draw)
  }

  lemma HandlersAreAdvertised(scope: Scope, kind: RequirementKind)
    ensures HasHandler(scope, kind) <==> ScopeHandles(scope, KindTag(kind))
  {}

  /**
   The innermost scope with a handler for the requirement is asked that requirement,
   and no other scope is. What it says is the result, at that scope's distance, when
   it is accepted; otherwise the requirement is reported as misaligned. Without a
   handler anywhere the requirement is reported as unhandled.
  */
  lemma AsksTheInnermostHandler(req: Requirement, chain: seq<Scope>, depth: nat, draw: nat)
    requires chain != []
    ensures (forall k :: 0 <= k < |chain| ==> !HasHandler(chain[k], req.kind)) ==>
              Resolve(req, chain, depth, draw) == Err(UnhandledRequirement(KindTag(req.kind), req.origin))
    ensures forall i :: 0 <= i < |chain| && HasHandler(chain[i], req.kind)
                        && (forall k :: 0 <= k < i ==> !HasHandler(chain[k], req.kind)) ==>
              Resolve(req, chain, depth, draw)
              == match Accepts(req.kind, Said(req, chain, i, depth, draw))
                 case Ok(_) => Ok((Said(req, chain, i, depth, draw), i))
                 case Err(reason) => Err(Misaligned(req.id, reason))
  {
    RoutesToTheLeastScope(req, chain, depth, draw);
    forall k | 0 <= k < |chain|
      ensures HasHandler(chain[k], req.kind) <==> ScopeHandles(chain[k], KindTag(req.kind))
    {
      HandlersAreAdvertised(chain[k], req.kind);
    }
    forall i | 0 <= i < |chain| && HasHandler(chain[i], req.kind)
               && (forall k :: 0 <= k < i ==> !HasHandler(chain[k], req.kind))
      ensures Resolve(req, chain, depth, draw)
              == match Accepts(req.kind, Said(req, chain, i, depth, draw))
                 case Ok(_) => Ok((Said(req, chain, i, depth, draw), i))
                 case Err(reason) => Err(Misaligned(req.id, reason))
    {
      LeastScopeIs(chain, KindTag(req.kind), i);
    }
  }

  /** The same, scope field by scope field. */
  lemma EveryFamilyAsksItsOwnHandler(req: Requirement, chain: seq<Scope>, i: nat, depth: nat, draw: nat)
    requires i < |chain|
    ensures req.kind.NeedLlm? && chain[i].llm.Some? && (forall k :: 0 <= k < i ==> chain[k].llm.None?) ==>
              Resolve(req, chain, depth, draw) == Validated(req, chain[i].llm.value(req.kind, draw), i)
    ensures req.kind.NeedTool? && chain[i].tool.Some? && (forall k :: 0 <= k < i ==> chain[k].tool.None?) ==>
              Resolve(req, chain, depth, draw) == Validated(req, chain[i].tool.value(req.kind, draw), i)
    ensures req.kind.NeedInteraction? && chain[i].interaction.Some?
            && (forall k :: 0 <= k < i ==> chain[k].interaction.None?) ==>
              Resolve(req, chain, depth, draw) == Validated(req, chain[i].interaction.value(req.kind, draw), i)
    ensures req.kind.NeedReconfigRegistry? && chain[i].reconfig.Some?
            && (forall k :: 0 <= k < i ==> chain[k].reconfig.None?) ==>
              Resolve(req, chain, depth, draw) == Validated(req, chain[i].reconfig.value(req.kind, draw), i)
    ensures req.kind.NeedExternalSession? && chain[i].external.Some?
            && (forall k :: 0 <= k < i ==> chain[k].external.None?) ==>
              Resolve(req, chain, depth, draw) == Validated(req, chain[i].external.value(req.kind, draw), i)
    ensures req.kind.NeedSubagent? && chain[i].subagent.Some?
            && (forall k :: 0 <= k < i ==> chain[k].subagent.None?) ==>
              Resolve(req, chain, depth, draw)
              == Validated(req, chain[i].subagent.value(req.kind, PopTo(chain[i..], depth), depth, draw), i)
  {
    AsksTheInnermostHandler(req, chain, depth, draw);
  }

  /** With handlers that answer in their own family, only a missing handler fails. */
  lemma AlignedChainsFailOnlyUnhandled(req: Requirement, chain: seq<Scope>, depth: nat, draw: nat)
    requires chain != []
    requires Aligned(req, chain, depth, draw)
    ensures Resolve(req, chain, depth, draw).Err? <==>
            forall i :: 0 <= i < |chain| ==> !ScopeHandles(chain[i], KindTag(req.kind))
    ensures Resolve(req, chain, depth, draw).Ok? ==>
              Some(Resolve(req, chain, depth, draw).value.1) == LeastScope(chain, KindTag(req.kind))
  {
    RoutesToTheLeastScope(req, chain, depth, draw);
  }

  // ----- where a subagent's own requirements go -----

  /** A child layer: its own scope, else the pop target its handler was given. */
  function ResolveThrough(req: Requirement, child: Scope, outer: Pop, depth: nat, draw: nat)
    : Result<(RequirementResult, nat), AgentError>
    decreases depth
  {
    if req.kind.NeedSubagent? && child.subagent.Some? then
      Validated(req, child.subagent.value(req.kind, Through(child, outer, depth), depth, draw), 0)
    else
      match FulfillWithScope(req.kind, child, draw)
      case Some(result) => Validated(req, result, 0)
      case None => OneHopFurther(outer(req, depth, draw))
  }

  /** That child layer as the pop target of a grandchild it opens. */
  function Through(child: Scope, outer: Pop, bound: nat): Pop
    decreases bound, 0
  {
    (r: Requirement, depth: nat, draw: nat) =>
      if depth < bound then ResolveThrough(r, child, outer, depth, draw) else Err(SubagentDepthExceeded)
  }

  ghost predicate SamePops(a: Pop, b: Pop) {
    forall r: Requirement, depth: nat, draw: nat :: a(r, depth, draw) == b(r, depth, draw)
  }

  /** A handler learns about its pop target only by popping to it. */
  ghost predicate OnlyPops(handler: SubagentHandler) {
    forall kind: RequirementKind, a: Pop, b: Pop, depth: nat, draw: nat ::
      SamePops(a, b) ==> handler(kind, a, depth, draw) == handler(kind, b, depth, draw)
  }

  /**
   A child's lookup, grandchildren it opens included, is the ordinary one over
   its own scope followed by the handling scope and that scope's parents.
  */
  lemma {:induction false} ChildLookupRunsOverTheHandlingChain(
    req: Requirement, child: Scope, chain: seq<Scope>, bound: nat, depth: nat, draw: nat)
    requires chain != [] && depth < bound
    requires child.subagent.Some? ==> OnlyPops(child.subagent.value)
    ensures ResolveThrough(req, child, PopTo(chain, bound), depth, draw) == Resolve(req, [child] + chain, depth, draw)
    decreases depth
  {
    assert ([child] + chain)[1..] == chain;
    if req.kind.NeedSubagent? && child.subagent.Some? {
      var a, b := Through(child, PopTo(chain, bound), depth), PopTo([child] + chain, depth);
      forall r: Requirement, d: nat, w: nat
        ensures a(r, d, w) == b(r, d, w)
      {
        if d < depth {
          ChildLookupRunsOverTheHandlingChain(r, child, chain, bound, d, w);
        }
      }
      assert SamePops(a, b);
    }
  }

  /** The same answer seen from `hops` layers further in. */
  function FurtherBy(settled: Result<(RequirementResult, nat), AgentError>, hops: nat)
    : Result<(RequirementResult, nat), AgentError>
  {
    var s :- settled;
    Ok((s.0, s.1 + hops))
  }

  lemma LeastScopeIs(chain: seq<Scope>, tag: Tag, i: nat)
    requires i < |chain| && ScopeHandles(chain[i], tag)
    requires forall j :: 0 <= j < i ==> !ScopeHandles(chain[j], tag)
    ensures LeastScope(chain, tag) == Some(i)
  {}

  /** Whoever answers the requirement answers it in its own family. */
  predicate Aligned(req: Requirement, chain: seq<Scope>, depth: nat, draw: nat)
    requires chain != []
  {
    forall i :: 0 <= i < |chain| && ScopeHandles(chain[i], KindTag(req.kind)) ==>
      Accepts(req.kind, Answer(req, chain[i..], depth, draw)).Ok?
  }

  /**
   By the module documentation a child sees outward from the scope that emitted it;
   by the code it sees outward from the scope that handles subagents. What
   the child gets for a requirement is what the documented layer gives, seen from
   the handling scope, exactly when no scope passed on the way handles it.
  */
  lemma DocumentedOuterLayerHoldsExactlyWhen(
    req: Requirement, chain: seq<Scope>, bound: nat, depth: nat, draw: nat)
    requires LeastScope(chain, SubagentTag).Some? && depth < bound && Aligned(req, chain, depth, draw)
    ensures var handling := LeastScope(chain, SubagentTag).value;
            PopTo(chain, bound)(req, depth, draw)
            == FurtherBy(PopTo(chain[handling..], bound)(req, depth, draw), handling)
            <==> forall i :: 0 <= i < handling ==> !ScopeHandles(chain[i], KindTag(req.kind))
  {
    var handling, tag := LeastScope(chain, SubagentTag).value, KindTag(req.kind);
    if i :| 0 <= i < handling && ScopeHandles(chain[i], tag) {
      AnsweredBefore(req, chain, depth, draw, i);
    } else {
      AnsweredFrom(req, chain, depth, draw, handling);
    }
  }

  lemma AnsweredBefore(req: Requirement, chain: seq<Scope>, depth: nat, draw: nat, i: nat)
    requires i < |chain| && ScopeHandles(chain[i], KindTag(req.kind)) && Aligned(req, chain, depth, draw)
    ensures Resolve(req, chain, depth, draw).Ok? && Resolve(req, chain, depth, draw).value.1 <= i
  {
    RoutesToTheLeastScope(req, chain, depth, draw);
  }

  lemma {:induction false} AnsweredFrom(req: Requirement, chain: seq<Scope>, depth: nat, draw: nat, from: nat)
    requires from < |chain| && forall i :: 0 <= i < from ==> !ScopeHandles(chain[i], KindTag(req.kind))
    ensures Resolve(req, chain, depth, draw) == FurtherBy(Resolve(req, chain[from..], depth, draw), from)
    decreases from
  {
    if from == 0 {
      assert chain[0..] == chain;
    } else {
      AdvertisedMeansFulfilled(req.kind, chain[0], draw);
      assert !ScopeHandles(chain[0], KindTag(req.kind));
      AnsweredFrom(req, chain[1..], depth, draw, from - 1);
      assert chain[1..][from - 1..] == chain[from..];
    }
  }

  /**
   Two layers where they differ: the emitter answers tools, its parent opens
   subagents. A child's tool call is answered over the documented layers and
   unhandled over the ones it gets.
  */
  lemma DocumentedOuterLayerCanBeSkipped(
    req: Requirement, tool: Handler, open: SubagentHandler, bound: nat, depth: nat, draw: nat)
    requires req.kind.NeedTool? && depth < bound && tool(req.kind, draw).Tool?
    ensures var chain := [Scope(None, Some(tool), None, None, None, None),
                          Scope(None, None, None, Some(open), None, None)];
            && LeastScope(chain, SubagentTag) == Some(1)
            && PopTo(chain, bound)(req, depth, draw) == Ok((tool(req.kind, draw), 0))
            && PopTo(chain[1..], bound)(req, depth, draw) == Err(UnhandledRequirement(ToolTag, req.origin))
  {
    var chain := [Scope(None, Some(tool), None, None, None, None),
                  Scope(None, None, None, Some(open), None, None)];
    LeastScopeIs(chain, SubagentTag, 1);
    assert chain[1..] == [chain[1]];
  }
}
