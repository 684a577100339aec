/** Compaction plans and the projection they make (src/conversation/projection/compaction.rs). */
module Compactions {
  import opened Wrappers
  import opened Turns
  import opened Projections

  /** What a step replaces: raw turns, or whole spans. */
  datatype Target =
    | RawTurns(turns: Range)
    | WholeSpans(covers: Range)

  datatype CompactionStep = CompactionStep(target: Target, artifact: ArtifactId, producedBy: Strategy)

  datatype CompactionPlan = CompactionPlan(
    conversationId: ConversationId,
    version: nat,
    head: nat,
    steps: seq<CompactionStep>,
    artifacts: seq<Artifact>
  )

  function TargetRange(target: Target): Range {
    match target
    case RawTurns(turns) => turns
    case WholeSpans(covers) => covers
  }

  function SpanOf(step: CompactionStep): Span {
    Compacted(TargetRange(step.target), step.artifact, step.producedBy)
  }

  // ----- targets -----

  predicate Overlaps(span: Span, start: nat, end: nat) {
    RangeOf(span).start < end && RangeOf(span).end > start
  }

  /** The source spans that share a turn with the range, in order. */
  function Overlapping(sources: seq<Span>, start: nat, end: nat): (spans: seq<Span>)
    ensures forall span :: span in spans <==> span in sources && Overlaps(span, start, end)
  {
    if sources == [] then []
    else
      var first, last := sources[..|sources| - 1], sources[|sources| - 1];
      assert sources == first + [last];
      if Overlaps(last, start, end) then Overlapping(first, start, end) + [last] else Overlapping(first, start, end)
  }

  /** A raw target meets raw spans only; a span target begins and ends with whole spans. */
  predicate TargetFits(target: Target, sources: seq<Span>) {
    var r := TargetRange(target);
    var overlaps := Overlapping(sources, r.start, r.end);
    match target
    case RawTurns(_) => forall i :: 0 <= i < |overlaps| ==> overlaps[i].Raw?
    case WholeSpans(_) =>
      && overlaps != [] && RangeOf(overlaps[0]).start == r.start
      && RangeOf(overlaps[|overlaps| - 1]).end == r.end
  }

  function ValidateTarget(target: Target, sources: seq<Span>): Result<(), ProjectionError> {
    var r := TargetRange(target);
    if TargetFits(target, sources) then Ok(())
    else if target.RawTurns? then Err(TargetNotRaw(r.start, r.end))
    else Err(TargetNotSpanAligned(r.start, r.end))
  }

  // ----- resolving the steps -----

  function CheckStep(step: CompactionStep, previousEnd: nat, artifacts: seq<Artifact>, sources: seq<Span>,
                     owner: ConversationId, ids: seq<TurnId>): Result<(), ProjectionError>
  {
    var r := TargetRange(step.target);
    var _ :- ResolveRange(r, owner, ids);
    if r.start < previousEnd then Err(SpanOverlap(previousEnd, r.start))
    else
      var _ :- CheckReference(step.artifact, r, step.producedBy, artifacts);
      ValidateTarget(step.target, sources)
  }

  predicate StepFits(step: CompactionStep, artifacts: seq<Artifact>, sources: seq<Span>, owner: ConversationId,
                     ids: seq<TurnId>)
  {
    && Matches(TargetRange(step.target), owner, ids) && TargetFits(step.target, sources)
    && Backed(SpanOf(step), artifacts)
  }

  function StepsEndBefore(steps: seq<CompactionStep>, i: nat): nat
    requires i <= |steps|
  {
    if i == 0 then 0 else TargetRange(steps[i - 1].target).end
  }

  predicate StepFitsAt(steps: seq<CompactionStep>, i: nat, artifacts: seq<Artifact>, sources: seq<Span>,
                       owner: ConversationId, ids: seq<TurnId>)
    requires i < |steps|
  {
    && StepFits(steps[i], artifacts, sources, owner, ids)
    && StepsEndBefore(steps, i) <= TargetRange(steps[i].target).start
  }

  /** The steps go from left to right, each over its own artifact and a target the source allows. */
  predicate StepsFit(steps: seq<CompactionStep>, artifacts: seq<Artifact>, sources: seq<Span>, owner: ConversationId,
                     ids: seq<TurnId>)
  {
    forall i :: 0 <= i < |steps| ==> StepFitsAt(steps, i, artifacts, sources, owner, ids)
  }

  lemma CheckedStepsFit(steps: seq<CompactionStep>, i: nat, artifacts: seq<Artifact>, sources: seq<Span>,
                        owner: ConversationId, ids: seq<TurnId>)
    requires i < |steps| && DistinctArtifacts(artifacts)
    ensures CheckStep(steps[i], StepsEndBefore(steps, i), artifacts, sources, owner, ids).Ok?
            <==> StepFitsAt(steps, i, artifacts, sources, owner, ids)
  {
    ReferencesAreBacked(SpanOf(steps[i]), artifacts);
  }

  function StepChecks(steps: seq<CompactionStep>, artifacts: seq<Artifact>, sources: seq<Span>, owner: ConversationId,
                      ids: seq<TurnId>): nat -> Result<(), ProjectionError>
  {
    (i: nat) =>
      if i < |steps| then CheckStep(steps[i], StepsEndBefore(steps, i), artifacts, sources, owner, ids) else Ok(())
  }

  function ResolveSteps(steps: seq<CompactionStep>, artifacts: seq<Artifact>, sources: seq<Span>, owner: ConversationId,
                        ids: seq<TurnId>): Result<(), ProjectionError>
  {
    FirstErr(|steps|, StepChecks(steps, artifacts, sources, owner, ids))
  }

  lemma ResolvedStepsFit(steps: seq<CompactionStep>, artifacts: seq<Artifact>, sources: seq<Span>,
                         owner: ConversationId, ids: seq<TurnId>)
    requires DistinctArtifacts(artifacts)
    ensures ResolveSteps(steps, artifacts, sources, owner, ids).Ok? <==> StepsFit(steps, artifacts, sources, owner, ids)
  {
    var check := StepChecks(steps, artifacts, sources, owner, ids);
    forall i: nat | i < |steps|
      ensures check(i).Ok? <==> StepFitsAt(steps, i, artifacts, sources, owner, ids)
    {
      CheckedStepsFit(steps, i, artifacts, sources, owner, ids);
    }
  }

  predicate Referenced(a: Artifact, steps: seq<CompactionStep>) {
    exists i :: 0 <= i < |steps| && steps[i].artifact == a.id
  }

  predicate AllReferenced(artifacts: seq<Artifact>, steps: seq<CompactionStep>) {
    forall i :: 0 <= i < |artifacts| ==> Referenced(artifacts[i], steps)
  }

  function ReferenceChecks(artifacts: seq<Artifact>, steps: seq<CompactionStep>): nat -> Result<(), ProjectionError> {
    (i: nat) =>
      if i < |artifacts| && !Referenced(artifacts[i], steps) then Err(UnreferencedArtifact(artifacts[i].id)) else Ok(())
  }

  // ----- building the new spans -----

  function Max(a: nat, b: nat): nat {
    if a < b then b else a
  }

  /** The part of one source span that lies between the cuts. */
  function Segment(out: seq<Span>, span: Span, start: nat, end: nat, owner: ConversationId, ids: seq<TurnId>)
    : Result<seq<Span>, ProjectionError>
  {
    var from, to := Max(RangeOf(span).start, start), Min(RangeOf(span).end, end);
    if !Overlaps(span, start, end) || from == to then Ok(out)
    else if span.Raw? then Ok(PushRaw(out, owner, ids, from, to))
    else if from == RangeOf(span).start && to == RangeOf(span).end then Ok(out + [span])
    else Err(TargetNotSpanAligned(from, to))
  }

  /** Copies what lies between the cuts from the first `n` source spans. */
  function Copied(out: seq<Span>, sources: seq<Span>, n: nat, start: nat, end: nat, owner: ConversationId,
                  ids: seq<TurnId>)
    : Result<seq<Span>, ProjectionError>
    requires n <= |sources|
  {
    if n == 0 then Ok(out)
    else
      var before :- Copied(out, sources, n - 1, start, end, owner, ids);
      Segment(before, sources[n - 1], start, end, owner, ids)
  }

  function CopySegment(out: seq<Span>, sources: seq<Span>, start: nat, end: nat, owner: ConversationId,
                       ids: seq<TurnId>)
    : Result<seq<Span>, ProjectionError>
  {
    if start == end then Ok(out) else Copied(out, sources, |sources|, start, end, owner, ids)
  }

  /** The first `n` steps with the source between them. */
  function Replaced(sources: seq<Span>, steps: seq<CompactionStep>, n: nat, owner: ConversationId, ids: seq<TurnId>)
    : Result<seq<Span>, ProjectionError>
    requires n <= |steps|
  {
    if n == 0 then Ok([])
    else
      var before :- Replaced(sources, steps, n - 1, owner, ids);
      var copied :- CopySegment(before, sources, StepsEndBefore(steps, n - 1), TargetRange(steps[n - 1].target).start,
                                owner, ids);
      Ok(copied + [SpanOf(steps[n - 1])])
  }

  function ReplacementSpans(sources: seq<Span>, steps: seq<CompactionStep>, owner: ConversationId, ids: seq<TurnId>)
    : Result<seq<Span>, ProjectionError>
  {
    var replaced :- Replaced(sources, steps, |steps|, owner, ids);
    CopySegment(replaced, sources, StepsEndBefore(steps, |steps|), |ids|, owner, ids)
  }

  method AppendSourceSegment(out: seq<Span>, sources: seq<Span>, start: nat, end: nat, owner: ConversationId,
                             ids: seq<TurnId>)
    returns (result: Result<seq<Span>, ProjectionError>)
    ensures result == CopySegment(out, sources, start, end, owner, ids)
  {
    if start == end {
      return Ok(out);
    }
    var output, i := out, 0;
    while i < |sources|
      invariant 0 <= i <= |sources| && Copied(out, sources, i, start, end, owner, ids) == Ok(output)
    {
      var next := Segment(output, sources[i], start, end, owner, ids);
      if next.Err? {
        CopyFails(out, sources, i + 1, start, end, owner, ids);
        return next;
      }
      output := next.value;
      i := i + 1;
    }
    return Ok(output);
  }

  lemma {:induction false} CopyFails(out: seq<Span>, sources: seq<Span>, n: nat, start: nat, end: nat,
                                     owner: ConversationId, ids: seq<TurnId>)
    requires n <= |sources| && Copied(out, sources, n, start, end, owner, ids).Err?
    ensures Copied(out, sources, |sources|, start, end, owner, ids) == Copied(out, sources, n, start, end, owner, ids)
    decreases |sources| - n
  {
    if n < |sources| {
      CopyFails(out, sources, n + 1, start, end, owner, ids);
    }
  }

  lemma {:induction false} ReplacingFails(sources: seq<Span>, steps: seq<CompactionStep>, n: nat, owner: ConversationId,
                                          ids: seq<TurnId>)
    requires n <= |steps| && Replaced(sources, steps, n, owner, ids).Err?
    ensures Replaced(sources, steps, |steps|, owner, ids) == Replaced(sources, steps, n, owner, ids)
    decreases |steps| - n
  {
    if n < |steps| {
      ReplacingFails(sources, steps, n + 1, owner, ids);
    }
  }

  method BuildReplacementSpans(sources: seq<Span>, steps: seq<CompactionStep>, owner: ConversationId, ids: seq<TurnId>)
    returns (result: Result<seq<Span>, ProjectionError>)
    ensures result == ReplacementSpans(sources, steps, owner, ids)
  {
    var spans: seq<Span> := [];
    var cursor, i := 0, 0;
    while i < |steps|
      invariant 0 <= i <= |steps| && cursor == StepsEndBefore(steps, i)
      invariant Replaced(sources, steps, i, owner, ids) == Ok(spans)
    {
      var copied := AppendSourceSegment(spans, sources, cursor, TargetRange(steps[i].target).start, owner, ids);
      if copied.Err? {
        ReplacingFails(sources, steps, i + 1, owner, ids);
        return copied;
      }
      spans := copied.value + [SpanOf(steps[i])];
      cursor := TargetRange(steps[i].target).end;
      i := i + 1;
    }
    result := AppendSourceSegment(spans, sources, cursor, |ids|, owner, ids);
  }

  // ----- the plan as a whole -----

  /** The checks of a plan against the overlay it was made for. */
  function CheckPlan(plan: CompactionPlan, sources: seq<Span>, owner: ConversationId, ids: seq<TurnId>)
    : Result<(), ProjectionError>
  {
    var _ :- CheckArtifacts(plan.artifacts, owner, ids);
    var _ :- ResolveSteps(plan.steps, plan.artifacts, sources, owner, ids);
    FirstErr(|plan.artifacts|, ReferenceChecks(plan.artifacts, plan.steps))
  }

  /** The overlay a plan makes at the tip of its lineage. */
  function Planned(p: Projection, owner: ConversationId, ids: seq<TurnId>, plan: CompactionPlan)
    : Result<Projection, ProjectionError>
  {
    var sources := ActiveSpans(p.spans, owner, ids, |ids|);
    var _ :- CheckPlan(plan, sources, owner, ids);
    var spans :- ReplacementSpans(sources, plan.steps, owner, ids);
    var next := Projection(spans, Kept(p.artifacts, owner, ids) + plan.artifacts);
    var _ :- CheckProjection(next, owner, ids);
    Ok(next)
  }

  method CompactedProjection(p: Projection, owner: ConversationId, ids: seq<TurnId>, plan: CompactionPlan)
    returns (result: Result<Projection, ProjectionError>)
    ensures result == Planned(p, owner, ids, plan)
  {
    var sources := ActiveProjectionSpans(p.spans, owner, ids, |ids|);
    var checked := CheckInOrder(|plan.artifacts|, ArtifactChecks(plan.artifacts, owner, ids));
    if checked.Err? {
      return Err(checked.error);
    }
    checked := CheckInOrder(|plan.steps|, StepChecks(plan.steps, plan.artifacts, sources, owner, ids));
    if checked.Err? {
      return Err(checked.error);
    }
    checked := CheckInOrder(|plan.artifacts|, ReferenceChecks(plan.artifacts, plan.steps));
    if checked.Err? {
      return Err(checked.error);
    }
    var spans := BuildReplacementSpans(sources, plan.steps, owner, ids);
    if spans.Err? {
      return Err(spans.error);
    }
    var kept := RetainArtifacts(p.artifacts, owner, ids);
    if |ids| == 0 {
      assert ids[..0] == ids;
    }
    var next := Projection(spans.value, kept + plan.artifacts);
    checked := ValidateProjection(next, owner, ids);
    if checked.Err? {
      return Err(checked.error);
    }
    return Ok(next);
  }

  // ----- which plans pass -----

  predicate PlanFits(plan: CompactionPlan, sources: seq<Span>, owner: ConversationId, ids: seq<TurnId>) {
    && ArtifactsFit(plan.artifacts, owner, ids)
    && StepsFit(plan.steps, plan.artifacts, sources, owner, ids)
    && AllReferenced(plan.artifacts, plan.steps)
  }

  lemma CheckedPlansFit(plan: CompactionPlan, sources: seq<Span>, owner: ConversationId, ids: seq<TurnId>)
    ensures CheckPlan(plan, sources, owner, ids).Ok? <==> PlanFits(plan, sources, owner, ids)
  {
    CheckedArtifactsFit(plan.artifacts, owner, ids);
    if CheckArtifacts(plan.artifacts, owner, ids).Ok? {
      ResolvedStepsFit(plan.steps, plan.artifacts, sources, owner, ids);
      var check := ReferenceChecks(plan.artifacts, plan.steps);
      assert forall i: nat :: i < |plan.artifacts| ==> (check(i).Ok? <==> Referenced(plan.artifacts[i], plan.steps));
    }
  }

  /** No compacted source span has the cut inside it. */
  predicate Clean(sources: seq<Span>, cut: nat) {
    forall i :: 0 <= i < |sources| && sources[i].Compacted? ==>
      !(RangeOf(sources[i]).start < cut < RangeOf(sources[i]).end)
  }

  lemma {:induction false} OverlapsAreInOrder(sources: seq<Span>, start: nat, end: nat)
    requires InOrder(sources)
    ensures InOrder(Overlapping(sources, start, end))
    decreases |sources|
  {
    if sources != [] {
      var first, last := sources[..|sources| - 1], sources[|sources| - 1];
      OverlapsAreInOrder(first, start, end);
      forall span | span in Overlapping(first, start, end)
        ensures RangeOf(span).end <= RangeOf(last).start
      {
        var i :| 0 <= i < |first| && first[i] == span;
        assert sources[i] == span;
      }
    }
  }

  lemma OverlapsAreBounded(overlaps: seq<Span>, span: Span)
    requires InOrder(overlaps) && span in overlaps
    requires forall s :: s in overlaps ==> RangeOf(s).start < RangeOf(s).end
    ensures RangeOf(overlaps[0]).start <= RangeOf(span).start
    ensures RangeOf(span).end <= RangeOf(overlaps[|overlaps| - 1]).end
  {
    var i :| 0 <= i < |overlaps| && overlaps[i] == span;
    assert overlaps[0] in overlaps && overlaps[|overlaps| - 1] in overlaps;
  }

  lemma SourcesAreProper(sources: seq<Span>, owner: ConversationId, ids: seq<TurnId>, span: Span)
    requires Tiles(sources, owner, ids, |ids|) && span in sources
    ensures RangeOf(span).start < RangeOf(span).end
  {
    var i :| 0 <= i < |sources| && sources[i] == span;
    assert LinkAt(sources, owner, ids, i);
  }

  /** A target the source allows begins and ends where no cover is cut through. */
  lemma TargetsAreClean(target: Target, sources: seq<Span>, owner: ConversationId, ids: seq<TurnId>)
    requires Tiles(sources, owner, ids, |ids|) && TargetFits(target, sources)
             && Matches(TargetRange(target), owner, ids)
    ensures Clean(sources, TargetRange(target).start) && Clean(sources, TargetRange(target).end)
  {
    var r := TargetRange(target);
    var overlaps := Overlapping(sources, r.start, r.end);
    TilesAreInOrder(sources, owner, ids, |ids|);
    OverlapsAreInOrder(sources, r.start, r.end);
    forall s | s in overlaps
      ensures RangeOf(s).start < RangeOf(s).end
    {
      SourcesAreProper(sources, owner, ids, s);
    }
    if target.WholeSpans? {
      forall i | 0 <= i < |sources| && Overlaps(sources[i], r.start, r.end)
        ensures r.start <= RangeOf(sources[i]).start && RangeOf(sources[i]).end <= r.end
      {
        OverlapsAreBounded(overlaps, sources[i]);
      }
    } else {
      assert forall s :: s in overlaps ==> s.Raw?;
    }
  }

  /** Some source span holds the turn at this position and is compacted. */
  predicate Hidden(sources: seq<Span>, position: nat) {
    exists i :: 0 <= i < |sources| && sources[i].Compacted?
                && RangeOf(sources[i]).start <= position < RangeOf(sources[i]).end
  }

  lemma RawTargetsFitExactlyWhen(target: Target, sources: seq<Span>, owner: ConversationId, ids: seq<TurnId>)
    requires Tiles(sources, owner, ids, |ids|) && target.RawTurns? && target.turns.start < target.turns.end
    ensures TargetFits(target, sources) <==>
            forall position :: target.turns.start <= position < target.turns.end ==> !Hidden(sources, position)
  {
    var r := target.turns;
    var overlaps := Overlapping(sources, r.start, r.end);
    if TargetFits(target, sources) {
      forall i | 0 <= i < |sources| && Overlaps(sources[i], r.start, r.end)
        ensures sources[i].Raw?
      {
        assert sources[i] in overlaps;
      }
    } else {
      var k :| 0 <= k < |overlaps| && overlaps[k].Compacted?;
      assert overlaps[k] in sources && Overlaps(overlaps[k], r.start, r.end);
      SourcesAreProper(sources, owner, ids, overlaps[k]);
      assert Hidden(sources, Max(RangeOf(overlaps[k]).start, r.start));
    }
  }

  predicate Begins(sources: seq<Span>, cut: nat) {
    exists i :: 0 <= i < |sources| && RangeOf(sources[i]).start == cut
  }

  predicate Finishes(sources: seq<Span>, cut: nat) {
    exists i :: 0 <= i < |sources| && RangeOf(sources[i]).end == cut
  }

  lemma FirstOverlapBegins(sources: seq<Span>, start: nat, end: nat, owner: ConversationId, ids: seq<TurnId>)
    requires Tiles(sources, owner, ids, |ids|) && start < end && (Begins(sources, start) || Finishes(sources, end))
    ensures var overlaps := Overlapping(sources, start, end);
            && overlaps != []
            && (Begins(sources, start) ==> RangeOf(overlaps[0]).start == start)
            && (Finishes(sources, end) ==> RangeOf(overlaps[|overlaps| - 1]).end == end)
  {
    var overlaps := Overlapping(sources, start, end);
    TilesAreInOrder(sources, owner, ids, |ids|);
    OverlapsAreInOrder(sources, start, end);
    forall s | s in overlaps
      ensures RangeOf(s).start < RangeOf(s).end
    {
      SourcesAreProper(sources, owner, ids, s);
    }
    if i :| 0 <= i < |sources| && RangeOf(sources[i]).start == start {
      SourcesAreProper(sources, owner, ids, sources[i]);
      assert sources[i] in overlaps;
      OverlapsAreBounded(overlaps, sources[i]);
      assert overlaps[0] in overlaps;
    }
    if i :| 0 <= i < |sources| && RangeOf(sources[i]).end == end {
      SourcesAreProper(sources, owner, ids, sources[i]);
      assert sources[i] in overlaps;
      OverlapsAreBounded(overlaps, sources[i]);
      assert overlaps[|overlaps| - 1] in overlaps;
    }
  }

  /**
   Raw turns can be compacted exactly when none of them is in a compacted span; whole
   spans exactly when one begins where the target begins and one ends where it ends.
  */
  lemma TargetsFitExactlyWhen(target: Target, sources: seq<Span>, owner: ConversationId, ids: seq<TurnId>)
    requires Tiles(sources, owner, ids, |ids|) && Matches(TargetRange(target), owner, ids)
    ensures match target
            case RawTurns(turns) =>
              (TargetFits(target, sources) <==>
                 forall position :: turns.start <= position < turns.end ==> !Hidden(sources, position))
            case WholeSpans(covers) =>
              (TargetFits(target, sources) <==> Begins(sources, covers.start) && Finishes(sources, covers.end))
  {
    if target.RawTurns? {
      RawTargetsFitExactlyWhen(target, sources, owner, ids);
    } else {
      var r := target.covers;
      var overlaps := Overlapping(sources, r.start, r.end);
      if Begins(sources, r.start) && Finishes(sources, r.end) {
        FirstOverlapBegins(sources, r.start, r.end, owner, ids);
      }
      if TargetFits(target, sources) {
        assert overlaps[0] in sources && overlaps[|overlaps| - 1] in sources;
      }
    }
  }

  function Clamp(x: nat, start: nat, end: nat): nat
    requires start <= end
  {
    Min(Max(x, start), end)
  }

  /** Every compacted span comes from the source or from a step. */
  predicate ComesFrom(spans: seq<Span>, sources: seq<Span>, steps: seq<CompactionStep>) {
    forall span :: span in spans && span.Compacted? ==> span in sources || IsStep(span, steps)
  }

  predicate IsStep(span: Span, steps: seq<CompactionStep>) {
    exists k :: 0 <= k < |steps| && span == SpanOf(steps[k])
  }

  predicate Within(span: Span, start: nat, end: nat) {
    start <= RangeOf(span).start && RangeOf(span).end <= end
  }

  /** The covers among the first `n` source spans that lie between the cuts are there. */
  predicate CoversCopied(spans: seq<Span>, sources: seq<Span>, n: nat, start: nat, end: nat)
    requires n <= |sources|
  {
    forall j :: 0 <= j < n && sources[j].Compacted? && Within(sources[j], start, end) ==> sources[j] in spans
  }

  lemma SegmentCopies(out: seq<Span>, sources: seq<Span>, i: nat, start: nat, end: nat, steps: seq<CompactionStep>,
                      owner: ConversationId, ids: seq<TurnId>)
    requires Tiles(sources, owner, ids, |ids|) && i < |sources| && start <= end <= |ids|
    requires Clean(sources, start) && Clean(sources, end) && ComesFrom(out, sources, steps)
    requires Tiles(out, owner, ids, Clamp(EndBefore(sources, i), start, end))
    ensures var copied := Segment(out, sources[i], start, end, owner, ids);
            && copied.Ok? && ComesFrom(copied.value, sources, steps) && KeepsCovers(out, copied.value)
            && (sources[i].Compacted? && Within(sources[i], start, end) ==> sources[i] in copied.value)
            && Tiles(copied.value, owner, ids, Clamp(EndBefore(sources, i + 1), start, end))
  {
    assert LinkAt(sources, owner, ids, i);
    var span := sources[i];
    var from, to := Max(RangeOf(span).start, start), Min(RangeOf(span).end, end);
    if Overlaps(span, start, end) {
      if span.Raw? {
        PushedRawTiles(out, owner, ids, from, to);
        PushedRawKeepsCovers(out, owner, ids, from, to);
      } else {
        AppendedTiles(out, owner, ids, span);
      }
    }
  }

  lemma CoversOnceMore(out: seq<Span>, before: seq<Span>, after: seq<Span>, sources: seq<Span>, n: nat,
                       start: nat, end: nat)
    requires n < |sources| && KeepsCovers(out, before) && KeepsCovers(before, after)
    requires CoversCopied(before, sources, n, start, end)
    requires sources[n].Compacted? && Within(sources[n], start, end) ==> sources[n] in after
    ensures KeepsCovers(out, after) && CoversCopied(after, sources, n + 1, start, end)
  {}

  /** What is known after the first `n` source spans were copied between the cuts. */
  predicate CopiedSoFar(out: seq<Span>, copied: seq<Span>, sources: seq<Span>, n: nat, start: nat, end: nat,
                        steps: seq<CompactionStep>, owner: ConversationId, ids: seq<TurnId>)
    requires n <= |sources| && start <= end
  {
    && ComesFrom(copied, sources, steps) && KeepsCovers(out, copied)
    && CoversCopied(copied, sources, n, start, end)
    && Tiles(copied, owner, ids, Clamp(EndBefore(sources, n), start, end))
  }

  lemma CopiedOnceMore(out: seq<Span>, before: seq<Span>, sources: seq<Span>, n: nat, start: nat, end: nat,
                       steps: seq<CompactionStep>, owner: ConversationId, ids: seq<TurnId>)
    requires Tiles(sources, owner, ids, |ids|) && n < |sources| && start <= end <= |ids|
    requires Clean(sources, start) && Clean(sources, end)
    requires CopiedSoFar(out, before, sources, n, start, end, steps, owner, ids)
    ensures var after := Segment(before, sources[n], start, end, owner, ids);
            after.Ok? && CopiedSoFar(out, after.value, sources, n + 1, start, end, steps, owner, ids)
  {
    SegmentCopies(before, sources, n, start, end, steps, owner, ids);
    CoversOnceMore(out, before, Segment(before, sources[n], start, end, owner, ids).value, sources, n, start, end);
  }

  lemma NothingCopiedYet(out: seq<Span>, sources: seq<Span>, start: nat, end: nat, steps: seq<CompactionStep>,
                         owner: ConversationId, ids: seq<TurnId>)
    requires start <= end && ComesFrom(out, sources, steps) && Tiles(out, owner, ids, start)
    ensures CopiedSoFar(out, out, sources, 0, start, end, steps, owner, ids)
  {}

  lemma CopiedNext(out: seq<Span>, sources: seq<Span>, n: nat, start: nat, end: nat, steps: seq<CompactionStep>,
                   owner: ConversationId, ids: seq<TurnId>)
    requires Tiles(sources, owner, ids, |ids|) && n < |sources| && start <= end <= |ids|
    requires Clean(sources, start) && Clean(sources, end) && Copied(out, sources, n, start, end, owner, ids).Ok?
    requires CopiedSoFar(out, Copied(out, sources, n, start, end, owner, ids).value, sources, n, start, end, steps,
                         owner, ids)
    ensures var copied := Copied(out, sources, n + 1, start, end, owner, ids);
            copied.Ok? && CopiedSoFar(out, copied.value, sources, n + 1, start, end, steps, owner, ids)
  {
    var before := Copied(out, sources, n, start, end, owner, ids).value;
    CopiedOnceMore(out, before, sources, n, start, end, steps, owner, ids);
    assert Copied(out, sources, n + 1, start, end, owner, ids) == Segment(before, sources[n], start, end, owner, ids);
  }

  lemma {:induction false} CopiedTiles(out: seq<Span>, sources: seq<Span>, n: nat, start: nat, end: nat,
                                       steps: seq<CompactionStep>, owner: ConversationId, ids: seq<TurnId>)
    requires Tiles(sources, owner, ids, |ids|) && n <= |sources| && start <= end <= |ids|
    requires Clean(sources, start) && Clean(sources, end) && ComesFrom(out, sources, steps)
    requires Tiles(out, owner, ids, start)
    ensures var copied := Copied(out, sources, n, start, end, owner, ids);
            copied.Ok? && CopiedSoFar(out, copied.value, sources, n, start, end, steps, owner, ids)
  {
    if n == 0 {
      NothingCopiedYet(out, sources, start, end, steps, owner, ids);
    } else {
      CopiedTiles(out, sources, n - 1, start, end, steps, owner, ids);
      CopiedNext(out, sources, n - 1, start, end, steps, owner, ids);
    }
  }

  lemma SegmentIsCopied(out: seq<Span>, sources: seq<Span>, start: nat, end: nat, steps: seq<CompactionStep>,
                        owner: ConversationId, ids: seq<TurnId>)
    requires Tiles(sources, owner, ids, |ids|) && start <= end <= |ids|
    requires Clean(sources, start) && Clean(sources, end) && ComesFrom(out, sources, steps)
    requires Tiles(out, owner, ids, start)
    ensures var copied := CopySegment(out, sources, start, end, owner, ids);
            && copied.Ok? && ComesFrom(copied.value, sources, steps) && KeepsCovers(out, copied.value)
            && CoversCopied(copied.value, sources, |sources|, start, end) && Tiles(copied.value, owner, ids, end)
  {
    CopiedTiles(out, sources, |sources|, start, end, steps, owner, ids);
    forall j | 0 <= j < |sources|
      ensures RangeOf(sources[j]).start < RangeOf(sources[j]).end
    {
      assert LinkAt(sources, owner, ids, j);
    }
  }

  /** No step among the first `n` replaces a turn of the span. */
  predicate Untouched(span: Span, steps: seq<CompactionStep>, n: nat)
    requires n <= |steps|
  {
    forall k :: 0 <= k < n ==> !Overlaps(span, TargetRange(steps[k].target).start, TargetRange(steps[k].target).end)
  }

  predicate StaysBelow(span: Span, steps: seq<CompactionStep>, n: nat, top: nat)
    requires n <= |steps|
  {
    span.Compacted? && RangeOf(span).end <= top && Untouched(span, steps, n)
  }

  /** The first `n` steps are done: what they name is there, and so is every cover below that they do not touch. */
  predicate Done(out: seq<Span>, sources: seq<Span>, steps: seq<CompactionStep>, n: nat, top: nat)
    requires n <= |steps|
  {
    && ComesFrom(out, sources, steps)
    && (forall k :: 0 <= k < n ==> SpanOf(steps[k]) in out)
    && forall j :: 0 <= j < |sources| && StaysBelow(sources[j], steps, n, top) ==> sources[j] in out
  }

  lemma DoneUpTo(before: seq<Span>, copied: seq<Span>, sources: seq<Span>, steps: seq<CompactionStep>, n: nat,
                 from: nat, to: nat)
    requires n <= |steps| && from <= to && Done(before, sources, steps, n, from) && KeepsCovers(before, copied)
    requires ComesFrom(copied, sources, steps) && CoversCopied(copied, sources, |sources|, from, to)
    requires Clean(sources, from)
    ensures Done(copied, sources, steps, n, to)
  {
    forall j | 0 <= j < |sources| && StaysBelow(sources[j], steps, n, to)
      ensures sources[j] in copied
    {
      if RangeOf(sources[j]).end > from {
        assert Within(sources[j], from, to);
      }
    }
  }

  lemma DoneOneMore(out: seq<Span>, sources: seq<Span>, steps: seq<CompactionStep>, n: nat, owner: ConversationId,
                    ids: seq<TurnId>)
    requires n < |steps| && Tiles(sources, owner, ids, |ids|)
    requires Done(out, sources, steps, n, TargetRange(steps[n].target).start)
    requires TargetRange(steps[n].target).start < TargetRange(steps[n].target).end
    ensures Done(out + [SpanOf(steps[n])], sources, steps, n + 1, TargetRange(steps[n].target).end)
  {
    var r := TargetRange(steps[n].target);
    assert IsStep(SpanOf(steps[n]), steps);
    forall j | 0 <= j < |sources| && StaysBelow(sources[j], steps, n + 1, r.end)
      ensures sources[j] in out
    {
      assert LinkAt(sources, owner, ids, j);
      assert !Overlaps(sources[j], r.start, r.end) && Untouched(sources[j], steps, n);
    }
  }

  /** The spans so far cover the lineage up to the end of the last step done. */
  predicate ReplacedSoFar(spans: Result<seq<Span>, ProjectionError>, sources: seq<Span>, steps: seq<CompactionStep>,
                          n: nat, owner: ConversationId, ids: seq<TurnId>)
    requires n <= |steps|
  {
    && spans.Ok? && Tiles(spans.value, owner, ids, StepsEndBefore(steps, n))
    && Done(spans.value, sources, steps, n, StepsEndBefore(steps, n))
    && Clean(sources, StepsEndBefore(steps, n)) && StepsEndBefore(steps, n) <= |ids|
  }

  lemma OneMoreStep(before: seq<Span>, sources: seq<Span>, steps: seq<CompactionStep>, n: nat, artifacts: seq<Artifact>,
                    owner: ConversationId, ids: seq<TurnId>)
    requires Tiles(sources, owner, ids, |ids|) && n < |steps| && StepFitsAt(steps, n, artifacts, sources, owner, ids)
    requires ReplacedSoFar(Ok(before), sources, steps, n, owner, ids)
    ensures var r := TargetRange(steps[n].target);
            var copied := CopySegment(before, sources, StepsEndBefore(steps, n), r.start, owner, ids);
            && copied.Ok?
            && ReplacedSoFar(Ok(copied.value + [SpanOf(steps[n])]), sources, steps, n + 1, owner, ids)
  {
    var r, cursor := TargetRange(steps[n].target), StepsEndBefore(steps, n);
    TargetsAreClean(steps[n].target, sources, owner, ids);
    SegmentIsCopied(before, sources, cursor, r.start, steps, owner, ids);
    var copied := CopySegment(before, sources, cursor, r.start, owner, ids).value;
    DoneUpTo(before, copied, sources, steps, n, cursor, r.start);
    DoneOneMore(copied, sources, steps, n, owner, ids);
    AppendedTiles(copied, owner, ids, SpanOf(steps[n]));
  }

  lemma NothingReplacedYet(sources: seq<Span>, steps: seq<CompactionStep>, owner: ConversationId, ids: seq<TurnId>)
    requires Tiles(sources, owner, ids, |ids|)
    ensures ReplacedSoFar(Replaced(sources, steps, 0, owner, ids), sources, steps, 0, owner, ids)
  {
    forall j | 0 <= j < |sources|
      ensures !StaysBelow(sources[j], steps, 0, 0)
    {
      assert LinkAt(sources, owner, ids, j);
    }
  }

  lemma ReplacedOnceMore(sources: seq<Span>, steps: seq<CompactionStep>, n: nat, artifacts: seq<Artifact>,
                         owner: ConversationId, ids: seq<TurnId>)
    requires Tiles(sources, owner, ids, |ids|) && n < |steps| && StepFitsAt(steps, n, artifacts, sources, owner, ids)
    requires ReplacedSoFar(Replaced(sources, steps, n, owner, ids), sources, steps, n, owner, ids)
    ensures ReplacedSoFar(Replaced(sources, steps, n + 1, owner, ids), sources, steps, n + 1, owner, ids)
  {
    var before := Replaced(sources, steps, n, owner, ids).value;
    OneMoreStep(before, sources, steps, n, artifacts, owner, ids);
    var copied := CopySegment(before, sources, StepsEndBefore(steps, n), TargetRange(steps[n].target).start, owner,
                              ids);
    assert Replaced(sources, steps, n + 1, owner, ids) == Ok(copied.value + [SpanOf(steps[n])]);
  }

  lemma {:induction false} ReplacedTiles(sources: seq<Span>, steps: seq<CompactionStep>, n: nat,
                                         artifacts: seq<Artifact>, owner: ConversationId, ids: seq<TurnId>)
    requires Tiles(sources, owner, ids, |ids|) && StepsFit(steps, artifacts, sources, owner, ids) && n <= |steps|
    ensures ReplacedSoFar(Replaced(sources, steps, n, owner, ids), sources, steps, n, owner, ids)
  {
    if n == 0 {
      NothingReplacedYet(sources, steps, owner, ids);
    } else {
      ReplacedTiles(sources, steps, n - 1, artifacts, owner, ids);
      ReplacedOnceMore(sources, steps, n - 1, artifacts, owner, ids);
    }
  }

  /**
   Once the steps resolve, the rebuilt spans always cover the lineage exactly: the
   alignment failure inside the copy cannot happen, every step's cover is there,
   every old cover no step touches is still there, and there is no other.
  */
  lemma ResolvedStepsRebuild(sources: seq<Span>, steps: seq<CompactionStep>, artifacts: seq<Artifact>,
                             owner: ConversationId, ids: seq<TurnId>)
    requires Tiles(sources, owner, ids, |ids|) && StepsFit(steps, artifacts, sources, owner, ids)
    ensures var spans := ReplacementSpans(sources, steps, owner, ids);
            spans.Ok? && Tiles(spans.value, owner, ids, |ids|) && Done(spans.value, sources, steps, |steps|, |ids|)
  {
    var n, cursor := |steps|, StepsEndBefore(steps, |steps|);
    ReplacedTiles(sources, steps, n, artifacts, owner, ids);
    var replaced := Replaced(sources, steps, n, owner, ids).value;
    TilesAreInOrder(sources, owner, ids, |ids|);
    assert Clean(sources, |ids|);
    SegmentIsCopied(replaced, sources, cursor, |ids|, steps, owner, ids);
    DoneUpTo(replaced, CopySegment(replaced, sources, cursor, |ids|, owner, ids).value, sources, steps, n, cursor,
             |ids|);
  }

  /**
   What step `i` must be: over turns to the right of the step before it, with its own
   artifact at hand, and over raw turns or whole spans as its target says.
  */
  predicate SoundStep(steps: seq<CompactionStep>, i: nat, artifacts: seq<Artifact>, sources: seq<Span>,
                      owner: ConversationId, ids: seq<TurnId>)
    requires i < |steps|
  {
    var r := TargetRange(steps[i].target);
    && Named(r, owner, ids) && (i > 0 ==> TargetRange(steps[i - 1].target).end <= r.start)
    && AtHand(artifacts, steps[i].artifact, r, steps[i].producedBy)
    && match steps[i].target
       case RawTurns(_) => (forall position :: r.start <= position < r.end ==> !Hidden(sources, position))
       case WholeSpans(_) => Begins(sources, r.start) && Finishes(sources, r.end)
  }

  lemma StepsFitExactlyWhen(steps: seq<CompactionStep>, i: nat, artifacts: seq<Artifact>, sources: seq<Span>,
                            owner: ConversationId, ids: seq<TurnId>)
    requires i < |steps| && Tiles(sources, owner, ids, |ids|)
    ensures StepFitsAt(steps, i, artifacts, sources, owner, ids)
            <==> SoundStep(steps, i, artifacts, sources, owner, ids)
  {
    var r := TargetRange(steps[i].target);
    RangesResolveExactlyWhen(r, owner, ids);
    BackedIsAtHand(SpanOf(steps[i]), artifacts);
    if Matches(r, owner, ids) {
      TargetsFitExactlyWhen(steps[i].target, sources, owner, ids);
    }
  }

  /**
   A plan passes its checks exactly when its artifacts are sound, each of its steps
   is, and no artifact of it is left over.
  */
  lemma PlansFitExactlyWhen(plan: CompactionPlan, sources: seq<Span>, owner: ConversationId, ids: seq<TurnId>)
    requires Tiles(sources, owner, ids, |ids|)
    ensures PlanFits(plan, sources, owner, ids) <==>
            && SoundArtifacts(plan.artifacts, owner, ids)
            && (forall i :: 0 <= i < |plan.steps| ==> SoundStep(plan.steps, i, plan.artifacts, sources, owner, ids))
            && (forall k :: 0 <= k < |plan.artifacts| ==>
                  exists i :: 0 <= i < |plan.steps| && plan.steps[i].artifact == plan.artifacts[k].id)
  {
    ArtifactsFitExactlyWhen(plan.artifacts, owner, ids);
    forall i | 0 <= i < |plan.steps|
      ensures StepFitsAt(plan.steps, i, plan.artifacts, sources, owner, ids)
              <==> SoundStep(plan.steps, i, plan.artifacts, sources, owner, ids)
    {
      StepsFitExactlyWhen(plan.steps, i, plan.artifacts, sources, owner, ids);
    }
    assert forall k :: 0 <= k < |plan.artifacts| ==>
        (Referenced(plan.artifacts[k], plan.steps) <==>
           exists i :: 0 <= i < |plan.steps| && plan.steps[i].artifact == plan.artifacts[k].id);
  }

  /** None of the plan's artifact ids is taken by an artifact the overlay keeps. */
  predicate FreshArtifacts(plan: CompactionPlan, p: Projection) {
    forall i, j :: 0 <= i < |plan.artifacts| && 0 <= j < |p.artifacts| ==> plan.artifacts[i].id != p.artifacts[j].id
  }

  lemma {:induction false} AllAreKept(artifacts: seq<Artifact>, owner: ConversationId, ids: seq<TurnId>)
    requires forall i :: 0 <= i < |artifacts| ==> ArtifactFits(artifacts[i], owner, ids)
    ensures Kept(artifacts, owner, ids) == artifacts
    decreases |artifacts|
  {
    if artifacts != [] {
      var first := artifacts[..|artifacts| - 1];
      forall i | 0 <= i < |first|
        ensures ArtifactFits(first[i], owner, ids)
      {
        assert first[i] == artifacts[i];
      }
      AllAreKept(first, owner, ids);
      assert ArtifactFits(artifacts[|artifacts| - 1], owner, ids);
      assert artifacts == first + [artifacts[|artifacts| - 1]];
    }
  }

  lemma BothFit(a: seq<Artifact>, b: seq<Artifact>, owner: ConversationId, ids: seq<TurnId>)
    requires ArtifactsFit(a, owner, ids) && ArtifactsFit(b, owner, ids)
    ensures ArtifactsFit(a + b, owner, ids) <==> forall i, j :: 0 <= i < |b| && 0 <= j < |a| ==> b[i].id != a[j].id
  {
    var all := a + b;
    if DistinctArtifacts(all) {
      forall i, j | 0 <= i < |b| && 0 <= j < |a|
        ensures b[i].id != a[j].id
      {
        assert all[j] == a[j] && all[|a| + i] == b[i];
      }
    }
  }

  lemma BackedByBoth(spans: seq<Span>, sources: seq<Span>, steps: seq<CompactionStep>, a: seq<Artifact>,
                     b: seq<Artifact>, owner: ConversationId, ids: seq<TurnId>)
    requires ComesFrom(spans, sources, steps) && StepsFit(steps, b, sources, owner, ids) && AllBacked(sources, a)
    ensures AllBacked(spans, a + b)
  {
    forall i | 0 <= i < |spans| && spans[i].Compacted?
      ensures Backed(spans[i], a + b)
    {
      if spans[i] in sources {
        var j :| 0 <= j < |sources| && sources[j] == spans[i];
        assert Backed(sources[j], a);
        var k :| 0 <= k < |a| && Backs(a[k], spans[i]);
        assert (a + b)[k] == a[k];
      } else {
        var n :| 0 <= n < |steps| && spans[i] == SpanOf(steps[n]);
        assert StepFitsAt(steps, n, b, sources, owner, ids);
        var k :| 0 <= k < |b| && Backs(b[k], spans[i]);
        assert (a + b)[|a| + k] == b[k];
      }
    }
  }

  lemma SourcesAreBacked(spans: seq<Span>, p: Projection, owner: ConversationId, ids: seq<TurnId>)
    requires Fits(p, owner, ids) && CompactedFrom(spans, p.spans, |ids|)
    ensures AllBacked(spans, p.artifacts)
  {
    forall i | 0 <= i < |spans| && spans[i].Compacted?
      ensures Backed(spans[i], p.artifacts)
    {
      var j :| 0 <= j < |p.spans| && p.spans[j] == spans[i];
      assert Backed(p.spans[j], p.artifacts);
    }
  }

  lemma PlansRebuild(p: Projection, sources: seq<Span>, owner: ConversationId, ids: seq<TurnId>, plan: CompactionPlan)
    requires Fits(p, owner, ids) && PlanFits(plan, sources, owner, ids)
    requires Tiles(sources, owner, ids, |ids|) && CompactedFrom(sources, p.spans, |ids|)
    ensures var spans := ReplacementSpans(sources, plan.steps, owner, ids);
            && spans.Ok? && Tiles(spans.value, owner, ids, |ids|)
            && Done(spans.value, sources, plan.steps, |plan.steps|, |ids|)
            && AllBacked(spans.value, p.artifacts + plan.artifacts)
  {
    ResolvedStepsRebuild(sources, plan.steps, plan.artifacts, owner, ids);
    SourcesAreBacked(sources, p, owner, ids);
    BackedByBoth(ReplacementSpans(sources, plan.steps, owner, ids).value, sources, plan.steps, p.artifacts,
                 plan.artifacts, owner, ids);
  }

  /**
   Over an overlay that fits, a plan succeeds exactly when its own artifacts and
   steps pass and none of its artifact ids is taken; then the new overlay fits the
   same lineage, has every step's cover, and keeps every old cover no step touches.
  */
  lemma PlansSucceedExactlyWhen(p: Projection, owner: ConversationId, ids: seq<TurnId>, plan: CompactionPlan)
    requires Fits(p, owner, ids)
    ensures var sources := ActiveSpans(p.spans, owner, ids, |ids|);
            var planned := Planned(p, owner, ids, plan);
            && (planned.Ok? <==> PlanFits(plan, sources, owner, ids) && FreshArtifacts(plan, p))
            && (planned.Ok? ==>
                  && Fits(planned.value, owner, ids)
                  && planned.value.artifacts == p.artifacts + plan.artifacts
                  && Done(planned.value.spans, sources, plan.steps, |plan.steps|, |ids|))
  {
    var sources := ActiveSpans(p.spans, owner, ids, |ids|);
    ActiveSpansTile(p.spans, owner, ids, ids, |ids|);
    if PlanFits(plan, sources, owner, ids) {
      FittingPlans(p, sources, owner, ids, plan);
      BothFit(p.artifacts, plan.artifacts, owner, ids);
      PlansRebuild(p, sources, owner, ids, plan);
    } else {
      CheckedPlansFit(plan, sources, owner, ids);
    }
  }

  /** What a plan that passes its checks gives: only the artifacts together can still refuse it. */
  lemma FittingPlans(p: Projection, sources: seq<Span>, owner: ConversationId, ids: seq<TurnId>, plan: CompactionPlan)
    requires Fits(p, owner, ids) && sources == ActiveSpans(p.spans, owner, ids, |ids|)
    requires PlanFits(plan, sources, owner, ids)
    ensures ReplacementSpans(sources, plan.steps, owner, ids).Ok?
    ensures var next := Projection(ReplacementSpans(sources, plan.steps, owner, ids).value,
                                   p.artifacts + plan.artifacts);
            var planned := Planned(p, owner, ids, plan);
            && (planned.Ok? <==> ArtifactsFit(next.artifacts, owner, ids)) && (planned.Ok? ==> planned.value == next)
  {
    ActiveSpansTile(p.spans, owner, ids, ids, |ids|);
    CheckedPlansFit(plan, sources, owner, ids);
    PlansRebuild(p, sources, owner, ids, plan);
    AllAreKept(p.artifacts, owner, ids);
    RebuiltProjectionIsChecked(
      Projection(ReplacementSpans(sources, plan.steps, owner, ids).value, p.artifacts + plan.artifacts), owner, ids);
  }

  lemma RebuiltProjectionIsChecked(p: Projection, owner: ConversationId, ids: seq<TurnId>)
    requires Tiles(p.spans, owner, ids, |ids|) && AllBacked(p.spans, p.artifacts)
    ensures CheckProjection(p, owner, ids).Ok? <==> ArtifactsFit(p.artifacts, owner, ids)
  {
    CheckedArtifactsFit(p.artifacts, owner, ids);
    if ArtifactsFit(p.artifacts, owner, ids) {
      CheckedSpansFit(p.spans, p.artifacts, owner, ids);
    }
  }
}
