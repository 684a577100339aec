/**
 The projection overlay of a conversation: spans that cover its lineage, raw or
 compacted into artifacts, and what commits and compactions make of them
 (src/conversation/projection/mod.rs, projection/compaction.rs).
*/
module Projections {
  import opened Wrappers
  import opened Turns

  type ArtifactId = nat

  /** A strategy reference; its name and version are opaque. */
  datatype Strategy = Strategy(handle: nat)

  /** A stored turn range: positions with the turns they come after. */
  datatype Range = Range(
    owner: ConversationId, start: nat, startAfter: Option<TurnId>, end: nat, endAfter: Option<TurnId>)

  datatype Span =
    | Raw(turns: Range)
    | Compacted(covers: Range, artifact: ArtifactId, producedBy: Strategy)

  /** What a strategy produced from a range; `messages` counts the messages it renders. */
  datatype Artifact = Artifact(id: ArtifactId, messages: nat, input: Range, producedBy: Strategy)

  datatype Projection = Projection(spans: seq<Span>, artifacts: seq<Artifact>)

  datatype ProjectionError =
    | CompactionOwnerMismatch(owner: ConversationId, planned: ConversationId)
    | StaleCompactionPlan(plannedAt: nat, currentVersion: nat)
    | CompactionWhilePending(openTurn: TurnId)
    | CompactionHeadMismatch(plannedHead: nat, currentHead: nat)
    | CompactionOnRevertedHead(revertedHead: nat, lineageLen: nat)
    | EmptyCompactionPlan
    | RangeOwnerMismatch(expectedOwner: ConversationId, rangeOwner: ConversationId)
    | ReversedRange(from: nat, to: nat)
    | EmptyRange(at: nat)
    | RangeOutOfReach(reached: nat, top: nat)
    | RangeAnchorMismatch(position: nat, expectedAnchor: Option<TurnId>, actualAnchor: Option<TurnId>)
    | EmptyArtifact(bare: ArtifactId)
    | DuplicateArtifact(repeated: ArtifactId)
    | MissingArtifact(missing: ArtifactId)
    | ArtifactRangeMismatch(misranged: ArtifactId)
    | ArtifactStrategyMismatch(misproduced: ArtifactId)
    | UnreferencedArtifact(unused: ArtifactId)
    | SpanOverlap(expectedStart: nat, overlapStart: nat)
    | SpanGap(expectedNext: nat, gapStart: nat)
    | IncompleteProjection(expectedEnd: nat, actualEnd: nat)
    | TargetNotRaw(rawStart: nat, rawEnd: nat)
    | TargetNotSpanAligned(alignedStart: nat, alignedEnd: nat)

  function RangeOf(span: Span): Range {
    match span
    case Raw(turns) => turns
    case Compacted(covers, _, _) => covers
  }

  // ----- ranges over a lineage of turn ids -----

  /** The turn just before the cut, as far as there is one. */
  function AfterAt(ids: seq<TurnId>, position: nat): Option<TurnId> {
    if 0 < position <= |ids| then Some(ids[position - 1]) else None
  }

  function RangeAt(owner: ConversationId, ids: seq<TurnId>, start: nat, end: nat): Range {
    Range(owner, start, AfterAt(ids, start), end, AfterAt(ids, end))
  }

  /** A stored range still names two cuts of the lineage, in order. */
  predicate Matches(range: Range, owner: ConversationId, ids: seq<TurnId>) {
    range.start < range.end <= |ids| && range == RangeAt(owner, ids, range.start, range.end)
  }

  lemma MatchesPrefix(range: Range, owner: ConversationId, ids: seq<TurnId>, n: nat)
    requires n <= |ids|
    ensures Matches(range, owner, ids[..n]) <==> Matches(range, owner, ids) && range.end <= n
  {
    if range.start < range.end <= n {
      assert AfterAt(ids[..n], range.start) == AfterAt(ids, range.start);
      assert AfterAt(ids[..n], range.end) == AfterAt(ids, range.end);
    }
  }

  function CheckEndpoint(position: nat, after: Option<TurnId>, ids: seq<TurnId>): Result<(), ProjectionError> {
    if position > |ids| then Err(RangeOutOfReach(position, |ids|))
    else if after != AfterAt(ids, position) then Err(RangeAnchorMismatch(position, AfterAt(ids, position), after))
    else Ok(())
  }

  /** Resolves a stored range, or says which check it fails first. */
  function ResolveRange(range: Range, owner: ConversationId, ids: seq<TurnId>): (result: Result<(), ProjectionError>)
    ensures result.Ok? <==> Matches(range, owner, ids)
  {
    if range.owner != owner then Err(RangeOwnerMismatch(owner, range.owner))
    else if range.start > range.end then Err(ReversedRange(range.start, range.end))
    else if range.start == range.end then Err(EmptyRange(range.start))
    else
      var _ :- CheckEndpoint(range.start, range.startAfter, ids);
      CheckEndpoint(range.end, range.endAfter, ids)
  }

  // ----- what a projection must be -----

  /** Where the spans before `i` end. */
  function EndBefore(spans: seq<Span>, i: nat): nat
    requires i <= |spans|
  {
    if i == 0 then 0 else RangeOf(spans[i - 1]).end
  }

  predicate LinkAt(spans: seq<Span>, owner: ConversationId, ids: seq<TurnId>, i: nat)
    requires i < |spans|
  {
    Matches(RangeOf(spans[i]), owner, ids) && RangeOf(spans[i]).start == EndBefore(spans, i)
  }

  /** The spans follow one another without gap or overlap from the first turn to the cut `to`. */
  predicate Tiles(spans: seq<Span>, owner: ConversationId, ids: seq<TurnId>, to: nat) {
    EndBefore(spans, |spans|) == to && forall i :: 0 <= i < |spans| ==> LinkAt(spans, owner, ids, i)
  }

  /** An artifact over this very range, from this strategy, is at hand. */
  predicate Backed(span: Span, artifacts: seq<Artifact>) {
    span.Compacted? ==>
      exists i :: 0 <= i < |artifacts| && Backs(artifacts[i], span)
  }

  predicate Backs(a: Artifact, span: Span) {
    span.Compacted? && a.id == span.artifact && a.input == span.covers && a.producedBy == span.producedBy
  }

  predicate AllBacked(spans: seq<Span>, artifacts: seq<Artifact>) {
    forall i :: 0 <= i < |spans| ==> Backed(spans[i], artifacts)
  }

  predicate ArtifactFits(a: Artifact, owner: ConversationId, ids: seq<TurnId>) {
    a.messages > 0 && Matches(a.input, owner, ids)
  }

  predicate DistinctArtifacts(artifacts: seq<Artifact>) {
    forall i, j :: 0 <= i < j < |artifacts| ==> artifacts[i].id != artifacts[j].id
  }

  predicate ArtifactsFit(artifacts: seq<Artifact>, owner: ConversationId, ids: seq<TurnId>) {
    DistinctArtifacts(artifacts) && forall i :: 0 <= i < |artifacts| ==> ArtifactFits(artifacts[i], owner, ids)
  }

  /** The overlay covers the lineage exactly, and every compacted span has its artifact. */
  predicate Fits(p: Projection, owner: ConversationId, ids: seq<TurnId>) {
    Tiles(p.spans, owner, ids, |ids|) && AllBacked(p.spans, p.artifacts) && ArtifactsFit(p.artifacts, owner, ids)
  }

  /** The range is this conversation's, not empty, and each end names the turn before it. */
  predicate Named(range: Range, owner: ConversationId, ids: seq<TurnId>) {
    && range.owner == owner && range.start < range.end <= |ids|
    && range.startAfter == (if range.start == 0 then None else Some(ids[range.start - 1]))
    && range.endAfter == Some(ids[range.end - 1])
  }

  lemma RangesResolveExactlyWhen(range: Range, owner: ConversationId, ids: seq<TurnId>)
    ensures ResolveRange(range, owner, ids).Ok? <==> Named(range, owner, ids)
    ensures range.owner != owner ==> ResolveRange(range, owner, ids) == Err(RangeOwnerMismatch(owner, range.owner))
    ensures range.owner == owner && range.start > range.end ==>
              ResolveRange(range, owner, ids) == Err(ReversedRange(range.start, range.end))
    ensures range.owner == owner && range.start == range.end ==>
              ResolveRange(range, owner, ids) == Err(EmptyRange(range.start))
  {}

  /** The artifacts that may stand in a projection: each renders something, has an id of its own and a named input. */
  predicate SoundArtifacts(artifacts: seq<Artifact>, owner: ConversationId, ids: seq<TurnId>) {
    && (forall i :: 0 <= i < |artifacts| ==> artifacts[i].messages > 0 && Named(artifacts[i].input, owner, ids))
    && forall i, j :: 0 <= i < |artifacts| && 0 <= j < |artifacts| && artifacts[i].id == artifacts[j].id ==> i == j
  }

  /** Some artifact at hand has this id and came from this range by this strategy. */
  predicate AtHand(artifacts: seq<Artifact>, id: ArtifactId, range: Range, producedBy: Strategy) {
    exists i :: 0 <= i < |artifacts|
                && artifacts[i].id == id && artifacts[i].input == range && artifacts[i].producedBy == producedBy
  }

  /** The span names its turns and begins where the one before it ends, the first one with the first turn. */
  predicate Continues(spans: seq<Span>, i: nat, owner: ConversationId, ids: seq<TurnId>)
    requires i < |spans|
  {
    && Named(RangeOf(spans[i]), owner, ids)
    && RangeOf(spans[i]).start == if i == 0 then 0 else RangeOf(spans[i - 1]).end
  }

  /**
   An overlay fits a lineage exactly when its spans continue one another from the
   first turn to the last, every compacted one has its artifact at hand, and the
   artifacts are sound.
  */
  lemma FitsExactlyWhen(p: Projection, owner: ConversationId, ids: seq<TurnId>)
    ensures Fits(p, owner, ids) <==>
            && |ids| == (if p.spans == [] then 0 else RangeOf(p.spans[|p.spans| - 1]).end)
            && (forall i :: 0 <= i < |p.spans| ==> Continues(p.spans, i, owner, ids))
            && (forall i :: 0 <= i < |p.spans| && p.spans[i].Compacted? ==>
                  AtHand(p.artifacts, p.spans[i].artifact, p.spans[i].covers, p.spans[i].producedBy))
            && SoundArtifacts(p.artifacts, owner, ids)
  {
    forall i | 0 <= i < |p.spans|
      ensures LinkAt(p.spans, owner, ids, i) <==> Continues(p.spans, i, owner, ids)
    {
      RangesResolveExactlyWhen(RangeOf(p.spans[i]), owner, ids);
    }
    forall i | 0 <= i < |p.spans| && p.spans[i].Compacted?
      ensures Backed(p.spans[i], p.artifacts)
              <==> AtHand(p.artifacts, p.spans[i].artifact, p.spans[i].covers, p.spans[i].producedBy)
    {
      BackedIsAtHand(p.spans[i], p.artifacts);
    }
    ArtifactsFitExactlyWhen(p.artifacts, owner, ids);
  }

  lemma BackedIsAtHand(span: Span, artifacts: seq<Artifact>)
    requires span.Compacted?
    ensures Backed(span, artifacts) <==> AtHand(artifacts, span.artifact, span.covers, span.producedBy)
  {
    if AtHand(artifacts, span.artifact, span.covers, span.producedBy) {
      var i :| 0 <= i < |artifacts| && artifacts[i].id == span.artifact && artifacts[i].input == span.covers
               && artifacts[i].producedBy == span.producedBy;
      assert Backs(artifacts[i], span);
    }
  }

  lemma ArtifactsFitExactlyWhen(artifacts: seq<Artifact>, owner: ConversationId, ids: seq<TurnId>)
    ensures ArtifactsFit(artifacts, owner, ids) <==> SoundArtifacts(artifacts, owner, ids)
  {
    forall i | 0 <= i < |artifacts|
      ensures ArtifactFits(artifacts[i], owner, ids) <==>
              artifacts[i].messages > 0 && Named(artifacts[i].input, owner, ids)
    {
      RangesResolveExactlyWhen(artifacts[i].input, owner, ids);
    }
  }

  const NO_PROJECTION := Projection([], [])

  function RawFor(owner: ConversationId, ids: seq<TurnId>): Projection {
    if ids == [] then NO_PROJECTION else Projection([Raw(RangeAt(owner, ids, 0, |ids|))], [])
  }

  lemma RawForFits(owner: ConversationId, ids: seq<TurnId>)
    ensures Fits(RawFor(owner, ids), owner, ids)
  {}

  // ----- checks in order -----

  /** The first check that fails, in order. */
  function FirstErr(n: nat, check: nat -> Result<(), ProjectionError>): (result: Result<(), ProjectionError>)
    ensures result.Ok? <==> forall i: nat :: i < n ==> check(i).Ok?
  {
    if n == 0 then Ok(())
    else
      var _ :- FirstErr(n - 1, check);
      check(n - 1)
  }

  lemma {:induction false} FirstErrStays(n: nat, i: nat, check: nat -> Result<(), ProjectionError>)
    requires i < n && FirstErr(i, check).Ok? && check(i).Err?
    ensures FirstErr(n, check) == check(i)
    decreases n
  {
    if i + 1 < n {
      FirstErrStays(n - 1, i, check);
    }
  }

  /** The shape of every validation loop: one check after the other, up to the first that fails. */
  method CheckInOrder(n: nat, check: nat -> Result<(), ProjectionError>) returns (result: Result<(), ProjectionError>)
    ensures result == FirstErr(n, check)
  {
    var i := 0;
    while i < n
      invariant 0 <= i <= n && FirstErr(i, check) == Ok(())
    {
      var checked := check(i);
      if checked.Err? {
        FirstErrStays(n, i, check);
        return checked;
      }
      assert checked.value == () && FirstErr(i + 1, check) == checked;
      i := i + 1;
    }
    return Ok(());
  }

  // ----- checking a projection -----

  function FindArtifact(artifacts: seq<Artifact>, id: ArtifactId): (found: Option<Artifact>)
    ensures found.Some? ==> found.value in artifacts && found.value.id == id
    ensures found.None? ==> forall i :: 0 <= i < |artifacts| ==> artifacts[i].id != id
  {
    if artifacts == [] then None
    else if artifacts[0].id == id then Some(artifacts[0])
    else
      var found := FindArtifact(artifacts[1..], id);
      assert found.None? ==> forall i :: 0 < i < |artifacts| ==> artifacts[i] == artifacts[1..][i - 1];
      found
  }

  /** The artifact a compacted span or a step names, with the range and strategy it names. */
  function CheckReference(id: ArtifactId, range: Range, producedBy: Strategy, artifacts: seq<Artifact>)
    : Result<(), ProjectionError>
  {
    match FindArtifact(artifacts, id)
    case None => Err(MissingArtifact(id))
    case Some(a) =>
      if a.input != range then Err(ArtifactRangeMismatch(id))
      else if a.producedBy != producedBy then Err(ArtifactStrategyMismatch(id))
      else Ok(())
  }

  lemma ReferencesAreBacked(span: Span, artifacts: seq<Artifact>)
    requires span.Compacted? && DistinctArtifacts(artifacts)
    ensures CheckReference(span.artifact, span.covers, span.producedBy, artifacts).Ok? <==> Backed(span, artifacts)
  {
    var found := FindArtifact(artifacts, span.artifact);
    if found.Some? {
      var k :| 0 <= k < |artifacts| && artifacts[k] == found.value;
      if Backed(span, artifacts) {
        var i :| 0 <= i < |artifacts| && Backs(artifacts[i], span);
        assert i == k;
      }
      if CheckReference(span.artifact, span.covers, span.producedBy, artifacts).Ok? {
        assert Backs(artifacts[k], span);
      }
    }
  }

  function CheckArtifact(a: Artifact, earlier: seq<Artifact>, owner: ConversationId, ids: seq<TurnId>)
    : Result<(), ProjectionError>
  {
    if a.messages == 0 then Err(EmptyArtifact(a.id))
    else if FindArtifact(earlier, a.id).Some? then Err(DuplicateArtifact(a.id))
    else ResolveRange(a.input, owner, ids)
  }

  function ArtifactChecks(artifacts: seq<Artifact>, owner: ConversationId, ids: seq<TurnId>)
    : nat -> Result<(), ProjectionError>
  {
    (i: nat) => if i < |artifacts| then CheckArtifact(artifacts[i], artifacts[..i], owner, ids) else Ok(())
  }

  /** Every artifact renders something, has an id of its own and an input that still matches. */
  function CheckArtifacts(artifacts: seq<Artifact>, owner: ConversationId, ids: seq<TurnId>)
    : Result<(), ProjectionError>
  {
    FirstErr(|artifacts|, ArtifactChecks(artifacts, owner, ids))
  }

  lemma EarlierIdsDiffer(artifacts: seq<Artifact>, i: nat)
    requires i < |artifacts|
    ensures FindArtifact(artifacts[..i], artifacts[i].id).None? <==>
            forall k :: 0 <= k < i ==> artifacts[k].id != artifacts[i].id
  {
    assert forall k :: 0 <= k < i ==> artifacts[..i][k] == artifacts[k];
  }

  lemma CheckedArtifactsFit(artifacts: seq<Artifact>, owner: ConversationId, ids: seq<TurnId>)
    ensures CheckArtifacts(artifacts, owner, ids).Ok? <==> ArtifactsFit(artifacts, owner, ids)
  {
    var check := ArtifactChecks(artifacts, owner, ids);
    forall i: nat | i < |artifacts|
      ensures check(i).Ok? <==>
              ArtifactFits(artifacts[i], owner, ids) && forall k :: 0 <= k < i ==> artifacts[k].id != artifacts[i].id
    {
      EarlierIdsDiffer(artifacts, i);
    }
  }

  function CheckSpan(span: Span, expected: nat, artifacts: seq<Artifact>, owner: ConversationId, ids: seq<TurnId>)
    : Result<(), ProjectionError>
  {
    var _ :- ResolveRange(RangeOf(span), owner, ids);
    var start := RangeOf(span).start;
    if start < expected then Err(SpanOverlap(expected, start))
    else if start > expected then Err(SpanGap(expected, start))
    else if span.Compacted? then CheckReference(span.artifact, span.covers, span.producedBy, artifacts)
    else Ok(())
  }

  lemma CheckedSpanFits(span: Span, expected: nat, artifacts: seq<Artifact>, owner: ConversationId, ids: seq<TurnId>)
    requires DistinctArtifacts(artifacts)
    ensures CheckSpan(span, expected, artifacts, owner, ids).Ok? <==>
            Matches(RangeOf(span), owner, ids) && RangeOf(span).start == expected && Backed(span, artifacts)
  {
    if span.Compacted? {
      ReferencesAreBacked(span, artifacts);
    }
  }

  function SpanChecks(spans: seq<Span>, artifacts: seq<Artifact>, owner: ConversationId, ids: seq<TurnId>)
    : nat -> Result<(), ProjectionError>
  {
    (i: nat) => if i < |spans| then CheckSpan(spans[i], EndBefore(spans, i), artifacts, owner, ids) else Ok(())
  }

  /** Order, coverage and references of the spans. */
  function CheckSpans(spans: seq<Span>, artifacts: seq<Artifact>, owner: ConversationId, ids: seq<TurnId>)
    : Result<(), ProjectionError>
  {
    var _ :- FirstErr(|spans|, SpanChecks(spans, artifacts, owner, ids));
    if EndBefore(spans, |spans|) != |ids| then Err(IncompleteProjection(|ids|, EndBefore(spans, |spans|))) else Ok(())
  }

  lemma CheckedSpansFit(spans: seq<Span>, artifacts: seq<Artifact>, owner: ConversationId, ids: seq<TurnId>)
    requires DistinctArtifacts(artifacts)
    ensures CheckSpans(spans, artifacts, owner, ids).Ok? <==>
            Tiles(spans, owner, ids, |ids|) && AllBacked(spans, artifacts)
  {
    var check := SpanChecks(spans, artifacts, owner, ids);
    forall i: nat | i < |spans|
      ensures check(i).Ok? <==> LinkAt(spans, owner, ids, i) && Backed(spans[i], artifacts)
    {
      CheckedSpanFits(spans[i], EndBefore(spans, i), artifacts, owner, ids);
    }
  }

  /** The check of a whole projection over a lineage. */
  function CheckProjection(p: Projection, owner: ConversationId, ids: seq<TurnId>): Result<(), ProjectionError> {
    var _ :- CheckArtifacts(p.artifacts, owner, ids);
    CheckSpans(p.spans, p.artifacts, owner, ids)
  }

  /** Exactly the projections that fit the lineage pass. */
  method ValidateProjection(p: Projection, owner: ConversationId, ids: seq<TurnId>)
    returns (result: Result<(), ProjectionError>)
    ensures result == CheckProjection(p, owner, ids)
    ensures result.Ok? <==> Fits(p, owner, ids)
  {
    CheckedArtifactsFit(p.artifacts, owner, ids);
    result := CheckInOrder(|p.artifacts|, ArtifactChecks(p.artifacts, owner, ids));
    if result.Err? {
      return;
    }
    CheckedSpansFit(p.spans, p.artifacts, owner, ids);
    result := CheckInOrder(|p.spans|, SpanChecks(p.spans, p.artifacts, owner, ids));
    if result.Ok? && EndBefore(p.spans, |p.spans|) != |ids| {
      return Err(IncompleteProjection(|ids|, EndBefore(p.spans, |p.spans|)));
    }
  }

  // ----- cutting the spans down to a prefix -----

  /** A raw stretch, merged with a raw span that ends where it begins. */
  function PushRaw(spans: seq<Span>, owner: ConversationId, ids: seq<TurnId>, start: nat, end: nat): seq<Span> {
    if start == end then spans
    else if spans != [] && spans[|spans| - 1].Raw? && RangeOf(spans[|spans| - 1]).end == start then
      spans[..|spans| - 1] + [Raw(RangeAt(owner, ids, RangeOf(spans[|spans| - 1]).start, end))]
    else spans + [Raw(RangeAt(owner, ids, start, end))]
  }

  /** Every compacted span of `spans` is one of `source`, at or below the cut. */
  predicate CompactedFrom(spans: seq<Span>, source: seq<Span>, top: nat) {
    forall i :: 0 <= i < |spans| && spans[i].Compacted? ==> spans[i] in source && RangeOf(spans[i]).end <= top
  }

  lemma AppendedTiles(spans: seq<Span>, owner: ConversationId, ids: seq<TurnId>, span: Span)
    requires Tiles(spans, owner, ids, RangeOf(span).start) && Matches(RangeOf(span), owner, ids)
    ensures Tiles(spans + [span], owner, ids, RangeOf(span).end)
  {
    var more := spans + [span];
    forall i | 0 <= i < |more|
      ensures LinkAt(more, owner, ids, i)
    {
      if i < |spans| {
        assert LinkAt(spans, owner, ids, i) && more[i] == spans[i] && EndBefore(more, i) == EndBefore(spans, i);
      }
    }
  }

  lemma TilesWithoutTheLast(spans: seq<Span>, owner: ConversationId, ids: seq<TurnId>, to: nat)
    requires Tiles(spans, owner, ids, to) && spans != []
    ensures Tiles(spans[..|spans| - 1], owner, ids, RangeOf(spans[|spans| - 1]).start)
    ensures LinkAt(spans, owner, ids, |spans| - 1)
  {
    var fewer := spans[..|spans| - 1];
    assert LinkAt(spans, owner, ids, |spans| - 1);
    forall i | 0 <= i < |fewer|
      ensures LinkAt(fewer, owner, ids, i)
    {
      assert LinkAt(spans, owner, ids, i) && fewer[i] == spans[i] && EndBefore(fewer, i) == EndBefore(spans, i);
    }
  }

  lemma PushedRawTiles(spans: seq<Span>, owner: ConversationId, ids: seq<TurnId>, start: nat, end: nat)
    requires Tiles(spans, owner, ids, start) && start <= end <= |ids|
    ensures Tiles(PushRaw(spans, owner, ids, start, end), owner, ids, end)
    ensures forall source, top :: CompactedFrom(spans, source, top) ==>
              CompactedFrom(PushRaw(spans, owner, ids, start, end), source, top)
  {
    if start < end {
      if spans != [] && spans[|spans| - 1].Raw? {
        TilesWithoutTheLast(spans, owner, ids, start);
        AppendedTiles(spans[..|spans| - 1], owner, ids,
                      Raw(RangeAt(owner, ids, RangeOf(spans[|spans| - 1]).start, end)));
      } else {
        AppendedTiles(spans, owner, ids, Raw(RangeAt(owner, ids, start, end)));
      }
    }
  }

  predicate InOrder(spans: seq<Span>) {
    forall i, j :: 0 <= i < j < |spans| ==> RangeOf(spans[i]).end <= RangeOf(spans[j]).start
  }

  lemma {:induction false} TilesAreInOrder(spans: seq<Span>, owner: ConversationId, ids: seq<TurnId>, to: nat)
    requires Tiles(spans, owner, ids, to)
    ensures InOrder(spans) && forall i :: 0 <= i < |spans| ==> RangeOf(spans[i]).end <= to
    decreases |spans|
  {
    if spans != [] {
      TilesWithoutTheLast(spans, owner, ids, to);
      TilesAreInOrder(spans[..|spans| - 1], owner, ids, RangeOf(spans[|spans| - 1]).start);
    }
  }

  /** No cover gets lost. */
  predicate KeepsCovers(before: seq<Span>, after: seq<Span>) {
    forall span :: span in before && span.Compacted? ==> span in after
  }

  lemma PushedRawKeepsCovers(spans: seq<Span>, owner: ConversationId, ids: seq<TurnId>, start: nat, end: nat)
    ensures KeepsCovers(spans, PushRaw(spans, owner, ids, start, end))
    ensures forall span :: span in PushRaw(spans, owner, ids, start, end) && span.Compacted? ==> span in spans
  {
    if spans != [] {
      assert spans == spans[..|spans| - 1] + [spans[|spans| - 1]];
    }
  }

  function Min(a: nat, b: nat): nat {
    if a < b then a else b
  }

  /** One source span, as far as it lies below the cut `head`. */
  function Clipped(out: seq<Span>, span: Span, owner: ConversationId, ids: seq<TurnId>, head: nat): seq<Span>
    requires head <= |ids|
  {
    var r := RangeOf(span);
    var visible := Min(r.end, head);
    if r.start >= visible then out
    else if span.Compacted? && r.end <= head && Matches(r, owner, ids[..head]) then out + [span]
    else PushRaw(out, owner, ids, r.start, visible)
  }

  /** All source spans up to the first that starts at or above the cut. */
  function ActiveFrom(out: seq<Span>, spans: seq<Span>, owner: ConversationId, ids: seq<TurnId>, head: nat): seq<Span>
    requires head <= |ids|
    decreases |spans|
  {
    if spans == [] || RangeOf(spans[0]).start >= head then out
    else ActiveFrom(Clipped(out, spans[0], owner, ids, head), spans[1..], owner, ids, head)
  }

  function ActiveSpans(spans: seq<Span>, owner: ConversationId, ids: seq<TurnId>, head: nat): seq<Span>
    requires head <= |ids|
  {
    ActiveFrom([], spans, owner, ids, head)
  }

  method ActiveProjectionSpans(spans: seq<Span>, owner: ConversationId, ids: seq<TurnId>, head: nat)
    returns (active: seq<Span>)
    requires head <= |ids|
    ensures active == ActiveSpans(spans, owner, ids, head)
  {
    active := [];
    var i := 0;
    assert spans[0..] == spans;
    while i < |spans| && RangeOf(spans[i]).start < head
      invariant 0 <= i <= |spans|
      invariant ActiveFrom(active, spans[i..], owner, ids, head) == ActiveSpans(spans, owner, ids, head)
    {
      assert spans[i..][0] == spans[i] && spans[i..][1..] == spans[i + 1..];
      active := Clipped(active, spans[i], owner, ids, head);
      i := i + 1;
    }
  }

  lemma ClippedTiles(out: seq<Span>, span: Span, owner: ConversationId, ids: seq<TurnId>, was: seq<TurnId>, head: nat,
                     source: seq<Span>)
    requires head <= |ids| && head <= |was| && ids[..head] == was[..head] && span in source
    requires Matches(RangeOf(span), owner, was) && RangeOf(span).start < head
    requires Tiles(out, owner, ids, RangeOf(span).start) && CompactedFrom(out, source, head)
    ensures Tiles(Clipped(out, span, owner, ids, head), owner, ids, Min(RangeOf(span).end, head))
    ensures CompactedFrom(Clipped(out, span, owner, ids, head), source, head)
  {
    var r := RangeOf(span);
    if r.end <= head {
      MatchesPrefix(r, owner, was, head);
      MatchesPrefix(r, owner, ids, head);
    }
    if span.Compacted? && r.end <= head {
      AppendedTiles(out, owner, ids, span);
    } else {
      PushedRawTiles(out, owner, ids, r.start, Min(r.end, head));
    }
  }

  /** Cutting an overlay of one lineage down to a prefix two lineages share covers that prefix exactly. */
  lemma {:induction false} ActiveFromTiles(
    out: seq<Span>, spans: seq<Span>, i: nat, owner: ConversationId, ids: seq<TurnId>, was: seq<TurnId>, head: nat)
    requires i <= |spans| && Tiles(spans, owner, was, |was|)
    requires head <= |ids| && head <= |was| && ids[..head] == was[..head]
    requires Tiles(out, owner, ids, Min(EndBefore(spans, i), head)) && CompactedFrom(out, spans, head)
    ensures var active := ActiveFrom(out, spans[i..], owner, ids, head);
            Tiles(active, owner, ids, head) && CompactedFrom(active, spans, head)
    decreases |spans| - i
  {
    if i < |spans| {
      assert LinkAt(spans, owner, was, i) && spans[i..][0] == spans[i] && spans[i..][1..] == spans[i + 1..];
      if RangeOf(spans[i]).start < head {
        ClippedTiles(out, spans[i], owner, ids, was, head, spans);
        ActiveFromTiles(Clipped(out, spans[i], owner, ids, head), spans, i + 1, owner, ids, was, head);
      }
    }
  }

  lemma ActiveSpansTile(spans: seq<Span>, owner: ConversationId, ids: seq<TurnId>, was: seq<TurnId>, head: nat)
    requires Tiles(spans, owner, was, |was|) && head <= |ids| && head <= |was| && ids[..head] == was[..head]
    ensures Tiles(ActiveSpans(spans, owner, ids, head), owner, ids, head)
    ensures CompactedFrom(ActiveSpans(spans, owner, ids, head), spans, head)
  {
    assert spans[0..] == spans;
    ActiveFromTiles([], spans, 0, owner, ids, was, head);
  }

  lemma ClippedKeeps(out: seq<Span>, span: Span, owner: ConversationId, ids: seq<TurnId>, was: seq<TurnId>, head: nat)
    requires head <= |ids| && head <= |was| && ids[..head] == was[..head] && Matches(RangeOf(span), owner, was)
    ensures KeepsCovers(out, Clipped(out, span, owner, ids, head))
    ensures span.Compacted? && RangeOf(span).end <= head ==> span in Clipped(out, span, owner, ids, head)
  {
    var r := RangeOf(span);
    if r.end <= head {
      MatchesPrefix(r, owner, was, head);
    }
    PushedRawKeepsCovers(out, owner, ids, r.start, Min(r.end, head));
  }

  lemma {:induction false} ActiveFromKeeps(
    out: seq<Span>, spans: seq<Span>, i: nat, owner: ConversationId, ids: seq<TurnId>, was: seq<TurnId>, head: nat)
    requires i <= |spans| && Tiles(spans, owner, was, |was|)
    requires head <= |ids| && head <= |was| && ids[..head] == was[..head]
    ensures KeepsCovers(out, ActiveFrom(out, spans[i..], owner, ids, head))
    ensures forall j :: i <= j < |spans| && spans[j].Compacted? && RangeOf(spans[j]).end <= head ==>
              spans[j] in ActiveFrom(out, spans[i..], owner, ids, head)
    decreases |spans| - i
  {
    if i < |spans| {
      assert LinkAt(spans, owner, was, i) && spans[i..][0] == spans[i] && spans[i..][1..] == spans[i + 1..];
      if RangeOf(spans[i]).start < head {
        ClippedKeeps(out, spans[i], owner, ids, was, head);
        ActiveFromKeeps(Clipped(out, spans[i], owner, ids, head), spans, i + 1, owner, ids, was, head);
      } else {
        TilesAreInOrder(spans, owner, was, |was|);
        forall j | i <= j < |spans|
          ensures RangeOf(spans[j]).end > head
        {
          assert LinkAt(spans, owner, was, j);
        }
      }
    }
  }

  // ----- artifacts that stay -----

  function Kept(artifacts: seq<Artifact>, owner: ConversationId, ids: seq<TurnId>): (kept: seq<Artifact>)
    ensures forall a :: a in kept <==> a in artifacts && Matches(a.input, owner, ids)
  {
    if artifacts == [] then []
    else
      var last := artifacts[|artifacts| - 1];
      var before := Kept(artifacts[..|artifacts| - 1], owner, ids);
      assert artifacts == artifacts[..|artifacts| - 1] + [last];
      if Matches(last.input, owner, ids) then before + [last] else before
  }

  method RetainArtifacts(artifacts: seq<Artifact>, owner: ConversationId, ids: seq<TurnId>)
    returns (kept: seq<Artifact>)
    ensures kept == Kept(artifacts, owner, ids)
  {
    kept := [];
    var i := 0;
    while i < |artifacts|
      invariant 0 <= i <= |artifacts| && kept == Kept(artifacts[..i], owner, ids)
    {
      assert artifacts[..i + 1][..i] == artifacts[..i];
      if Matches(artifacts[i].input, owner, ids) {
        kept := kept + [artifacts[i]];
      }
      i := i + 1;
    }
    assert artifacts[..i] == artifacts;
  }

  lemma {:induction false} KeptAreDistinct(artifacts: seq<Artifact>, owner: ConversationId, ids: seq<TurnId>)
    requires DistinctArtifacts(artifacts)
    ensures DistinctArtifacts(Kept(artifacts, owner, ids))
    decreases |artifacts|
  {
    if artifacts != [] {
      var first, last := artifacts[..|artifacts| - 1], artifacts[|artifacts| - 1];
      KeptAreDistinct(first, owner, ids);
      forall a | a in Kept(first, owner, ids)
        ensures a.id != last.id
      {
        var i :| 0 <= i < |first| && first[i] == a;
        assert artifacts[i].id != artifacts[|artifacts| - 1].id;
      }
    }
  }

  lemma KeptFit(artifacts: seq<Artifact>, owner: ConversationId, was: seq<TurnId>, ids: seq<TurnId>)
    requires ArtifactsFit(artifacts, owner, was)
    ensures ArtifactsFit(Kept(artifacts, owner, ids), owner, ids)
  {
    KeptAreDistinct(artifacts, owner, ids);
    var kept := Kept(artifacts, owner, ids);
    forall i | 0 <= i < |kept|
      ensures ArtifactFits(kept[i], owner, ids)
    {
      assert kept[i] in artifacts;
      var k :| 0 <= k < |artifacts| && artifacts[k] == kept[i];
      assert ArtifactFits(artifacts[k], owner, was);
    }
  }

  lemma KeptBack(spans: seq<Span>, source: seq<Span>, artifacts: seq<Artifact>, owner: ConversationId, ids: seq<TurnId>)
    requires AllBacked(source, artifacts)
    requires forall i :: 0 <= i < |spans| && spans[i].Compacted? ==>
               spans[i] in source && Matches(RangeOf(spans[i]), owner, ids)
    ensures AllBacked(spans, Kept(artifacts, owner, ids))
  {
    var kept := Kept(artifacts, owner, ids);
    forall i | 0 <= i < |spans| && spans[i].Compacted?
      ensures Backed(spans[i], kept)
    {
      var s :| 0 <= s < |source| && source[s] == spans[i];
      assert Backed(source[s], artifacts);
      var k :| 0 <= k < |artifacts| && Backs(artifacts[k], spans[i]);
      assert artifacts[k] in kept;
      var j :| 0 <= j < |kept| && kept[j] == artifacts[k];
      assert Backs(kept[j], spans[i]);
    }
  }

  // ----- a commit -----

  /** The overlay after a commit on top of the first `head` turns: `ids` ends with the new one. */
  function Extended(p: Projection, owner: ConversationId, ids: seq<TurnId>, head: nat): Projection
    requires |ids| == head + 1
  {
    Projection(PushRaw(ActiveSpans(p.spans, owner, ids, head), owner, ids, head, head + 1),
               Kept(p.artifacts, owner, ids[..head]))
  }

  method ExtendAfterCommit(p: Projection, owner: ConversationId, ids: seq<TurnId>, head: nat)
    returns (extended: Projection)
    requires |ids| == head + 1
    ensures extended == Extended(p, owner, ids, head)
  {
    var spans := ActiveProjectionSpans(p.spans, owner, ids, head);
    var artifacts := RetainArtifacts(p.artifacts, owner, ids[..head]);
    return Projection(PushRaw(spans, owner, ids, head, head + 1), artifacts);
  }

  lemma KeptOfThePrefixFit(artifacts: seq<Artifact>, owner: ConversationId, ids: seq<TurnId>, n: nat)
    requires n <= |ids| && ArtifactsFit(artifacts, owner, ids[..n])
    ensures ArtifactsFit(artifacts, owner, ids)
  {
    forall i | 0 <= i < |artifacts|
      ensures ArtifactFits(artifacts[i], owner, ids)
    {
      assert ArtifactFits(artifacts[i], owner, ids[..n]);
      MatchesPrefix(artifacts[i].input, owner, ids, n);
    }
  }

  /**
   After a commit from any cut of the old lineage the overlay covers the new
   lineage exactly: covers above the cut are gone, a cover the cut goes through is
   raw again below it, and every cover that is left still has its artifact.
  */
  lemma ExtendedFits(p: Projection, owner: ConversationId, was: seq<TurnId>, ids: seq<TurnId>, head: nat)
    requires Fits(p, owner, was) && head <= |was| && |ids| == head + 1 && ids[..head] == was[..head]
    ensures Fits(Extended(p, owner, ids, head), owner, ids)
  {
    var active := ActiveSpans(p.spans, owner, ids, head);
    ActiveSpansTile(p.spans, owner, ids, was, head);
    PushedRawTiles(active, owner, ids, head, head + 1);
    var spans := PushRaw(active, owner, ids, head, head + 1);
    assert CompactedFrom(spans, p.spans, head);
    forall i | 0 <= i < |spans| && spans[i].Compacted?
      ensures spans[i] in p.spans && Matches(RangeOf(spans[i]), owner, ids[..head])
    {
      assert LinkAt(spans, owner, ids, i);
      MatchesPrefix(RangeOf(spans[i]), owner, ids, head);
    }
    KeptBack(spans, p.spans, p.artifacts, owner, ids[..head]);
    KeptFit(p.artifacts, owner, was, ids[..head]);
    KeptOfThePrefixFit(Kept(p.artifacts, owner, ids[..head]), owner, ids, head);
  }

  lemma ExtendedCovers(p: Projection, owner: ConversationId, was: seq<TurnId>, ids: seq<TurnId>, head: nat, span: Span)
    requires Fits(p, owner, was) && head <= |was| && |ids| == head + 1 && ids[..head] == was[..head]
    requires span.Compacted?
    ensures span in Extended(p, owner, ids, head).spans <==> span in p.spans && RangeOf(span).end <= head
  {
    var active := ActiveSpans(p.spans, owner, ids, head);
    ActiveSpansTile(p.spans, owner, ids, was, head);
    PushedRawKeepsCovers(active, owner, ids, head, head + 1);
    ActiveFromKeeps([], p.spans, 0, owner, ids, was, head);
    assert p.spans[0..] == p.spans;
  }

  lemma ExtendedArtifacts(p: Projection, owner: ConversationId, was: seq<TurnId>, ids: seq<TurnId>, head: nat,
                          a: Artifact)
    requires Fits(p, owner, was) && head <= |was| && |ids| == head + 1 && ids[..head] == was[..head]
    ensures a in Extended(p, owner, ids, head).artifacts <==> a in p.artifacts && a.input.end <= head
  {
    if a in p.artifacts {
      var i :| 0 <= i < |p.artifacts| && p.artifacts[i] == a;
      assert ArtifactFits(p.artifacts[i], owner, was);
      MatchesPrefix(a.input, owner, was, head);
    }
  }

  /** A commit keeps exactly the covers and the artifacts that lie below the head it was made at. */
  lemma CommitsKeepWhatLiesBelow(p: Projection, owner: ConversationId, was: seq<TurnId>, ids: seq<TurnId>, head: nat)
    requires Fits(p, owner, was) && head <= |was| && |ids| == head + 1 && ids[..head] == was[..head]
    ensures forall span: Span :: span.Compacted? ==>
              (span in Extended(p, owner, ids, head).spans <==> span in p.spans && RangeOf(span).end <= head)
    ensures forall a: Artifact ::
              a in Extended(p, owner, ids, head).artifacts <==> a in p.artifacts && a.input.end <= head
  {
    forall span: Span | span.Compacted?
      ensures span in Extended(p, owner, ids, head).spans <==> span in p.spans && RangeOf(span).end <= head
    {
      ExtendedCovers(p, owner, was, ids, head, span);
    }
    forall a: Artifact
      ensures a in Extended(p, owner, ids, head).artifacts <==> a in p.artifacts && a.input.end <= head
    {
      ExtendedArtifacts(p, owner, was, ids, head, a);
    }
  }

  // ----- the effective view -----

  /** A stretch of the rendering: the turns between two cuts, or an artifact in their place. */
  datatype Piece =
    | FromTurns(start: nat, end: nat)
    | FromArtifact(start: nat, end: nat, artifact: Artifact)

  function PieceEndBefore(pieces: seq<Piece>, i: nat): nat
    requires i <= |pieces|
  {
    if i == 0 then 0 else pieces[i - 1].end
  }

  predicate PieceLinkAt(pieces: seq<Piece>, i: nat)
    requires i < |pieces|
  {
    PieceEndBefore(pieces, i) == pieces[i].start < pieces[i].end
  }

  /** Every turn below the cut is rendered by exactly one piece, in order, and none above it. */
  predicate RendersUpTo(pieces: seq<Piece>, cut: nat) {
    PieceEndBefore(pieces, |pieces|) == cut && forall i :: 0 <= i < |pieces| ==> PieceLinkAt(pieces, i)
  }

  /** A cover speaks through its artifact exactly when the head lies at or above its end. */
  predicate PieceShows(piece: Piece, span: Span, artifacts: seq<Artifact>, head: nat) {
    && piece.start == RangeOf(span).start && piece.end == Min(RangeOf(span).end, head)
    && (piece.FromArtifact? <==> span.Compacted? && RangeOf(span).end <= head)
    && (piece.FromArtifact? ==>
          && piece.artifact in artifacts && piece.artifact.id == span.artifact
          && piece.artifact.input == span.covers && piece.artifact.producedBy == span.producedBy)
  }

  predicate ShowSpans(pieces: seq<Piece>, spans: seq<Span>, artifacts: seq<Artifact>, head: nat) {
    && |pieces| <= |spans|
    && forall i :: 0 <= i < |pieces| ==> PieceShows(pieces[i], spans[i], artifacts, head)
  }

  lemma OneMorePiece(pieces: seq<Piece>, piece: Piece)
    requires RendersUpTo(pieces, piece.start) && piece.start < piece.end
    ensures RendersUpTo(pieces + [piece], piece.end)
  {
    var more := pieces + [piece];
    forall i | 0 <= i < |more|
      ensures PieceLinkAt(more, i)
    {
      if i < |pieces| {
        assert PieceLinkAt(pieces, i) && more[i] == pieces[i] && PieceEndBefore(more, i) == PieceEndBefore(pieces, i);
      }
    }
  }

  /** What is rendered for one span that begins below the head; a wholly visible cover finds its artifact. */
  method PieceOf(span: Span, artifacts: seq<Artifact>, head: nat) returns (piece: Piece)
    requires Backed(span, artifacts) && DistinctArtifacts(artifacts)
    ensures PieceShows(piece, span, artifacts, head)
  {
    var r := RangeOf(span);
    if span.Raw? || r.end > head {
      return FromTurns(r.start, Min(r.end, head));
    }
    var found := FindArtifact(artifacts, span.artifact);
    ReferencesAreBacked(span, artifacts);
    return FromArtifact(r.start, r.end, found.value);
  }

  /** Renders an overlay that fits, as far as the head shows it. */
  method EffectiveView(p: Projection, head: nat, ghost owner: ConversationId, ghost ids: seq<TurnId>)
    returns (pieces: seq<Piece>)
    requires Fits(p, owner, ids) && head <= |ids|
    ensures RendersUpTo(pieces, head) && ShowSpans(pieces, p.spans, p.artifacts, head)
  {
    pieces := [];
    while |pieces| < |p.spans| && RangeOf(p.spans[|pieces|]).start < head
      invariant ShowSpans(pieces, p.spans, p.artifacts, head)
      invariant RendersUpTo(pieces, Min(EndBefore(p.spans, |pieces|), head))
      decreases |p.spans| - |pieces|
    {
      assert Backed(p.spans[|pieces|], p.artifacts) && LinkAt(p.spans, owner, ids, |pieces|);
      var piece := PieceOf(p.spans[|pieces|], p.artifacts, head);
      OneMorePiece(pieces, piece);
      pieces := pieces + [piece];
    }
    if |pieces| < |p.spans| {
      assert LinkAt(p.spans, owner, ids, |pieces|);
    }
  }
}
