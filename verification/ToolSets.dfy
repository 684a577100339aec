/** Tool declarations and the in-place patch of a tool set (src/agent/state.rs, src/agent/state/queue.rs). */
module ToolSets {
  import opened Wrappers

  datatype ToolName = ToolName(text: string)

  /** A declaration; everything but the name is opaque. */
  datatype Tool = Tool(name: ToolName, body: nat)

  datatype ToolSet = ToolSet(id: nat, tools: seq<Tool>)

  datatype ToolSetPatch = ToolSetPatch(
    expectedId: nat,
    resultingId: nat,
    remove: seq<ToolName>,
    addOrReplace: seq<Tool>
  )

  datatype ToolError =
    | DuplicateToolName(repeated: ToolName)
    | ToolSetVersionConflict(expected: nat, actual: nat)
    | UnknownToolName(missing: ToolName)

  function Names(tools: seq<Tool>): (names: seq<ToolName>)
    ensures |names| == |tools| && forall i :: 0 <= i < |tools| ==> names[i] == tools[i].name
  {
    seq(|tools|, i requires 0 <= i < |tools| => tools[i].name)
  }

  predicate Unique<T(==)>(items: seq<T>) {
    forall i, j :: 0 <= i < j < |items| ==> items[i] != items[j]
  }

  /** First item that repeats an earlier one. */
  function FirstDuplicate<T(==)>(items: seq<T>): (found: Option<T>)
    ensures found.None? <==> Unique(items)
    ensures found.Some? ==> found.value in items
  {
    if items == [] then None
    else
      var n := |items| - 1;
      match FirstDuplicate(items[..n])
      case Some(item) =>
        assert !Unique(items) by {
          var i, j :| 0 <= i < j < n && items[..n][i] == items[..n][j];
          assert items[i] == items[j];
        }
        Some(item)
      case None =>
        if items[n] in items[..n] then
          assert !Unique(items) by {
            var i :| 0 <= i < n && items[..n][i] == items[n];
            assert items[i] == items[n];
          }
          Some(items[n])
        else
          assert forall i :: 0 <= i < n ==> items[i] == items[..n][i];
          None
  }

  function EnsureUniqueTools(tools: seq<Tool>): Result<(), ToolError> {
    match FirstDuplicate(Names(tools))
    case Some(name) => Err(DuplicateToolName(name))
    case None => Ok(())
  }

  function ValidatePatch(patch: ToolSetPatch): Result<(), ToolError> {
    match FirstDuplicate(patch.remove)
    case Some(name) => Err(DuplicateToolName(name))
    case None => EnsureUniqueTools(patch.addOrReplace)
  }

  /** Position of the tool with this name, or the length when there is none. */
  function Position(tools: seq<Tool>, name: ToolName): (i: nat)
    ensures i <= |tools|
    ensures i < |tools| ==> tools[i].name == name
    ensures forall k :: 0 <= k < i ==> tools[k].name != name
  {
    if tools == [] then 0 else if tools[0].name == name then 0 else 1 + Position(tools[1..], name)
  }

  lemma PositionIsUnique(tools: seq<Tool>, name: ToolName, i: nat)
    requires i <= |tools| && (i < |tools| ==> tools[i].name == name)
    requires forall k :: 0 <= k < i ==> tools[k].name != name
    ensures Position(tools, name) == i
  {}

  method FindPosition(tools: seq<Tool>, name: ToolName) returns (i: nat)
    ensures i == Position(tools, name)
  {
    i := 0;
    while i < |tools| && tools[i].name != name
      invariant 0 <= i <= |tools|
      invariant forall k :: 0 <= k < i ==> tools[k].name != name
    {
      i := i + 1;
    }
    PositionIsUnique(tools, name, i);
  }

  // ----- the two loops, as folds from the left -----

  function RemoveOne(tools: seq<Tool>, name: ToolName): Result<seq<Tool>, ToolError> {
    var i := Position(tools, name);
    if i == |tools| then Err(UnknownToolName(name)) else Ok(tools[..i] + tools[i + 1..])
  }

  function RemoveAll(tools: seq<Tool>, names: seq<ToolName>): Result<seq<Tool>, ToolError> {
    if names == [] then Ok(tools)
    else
      var fewer :- RemoveAll(tools, names[..|names| - 1]);
      RemoveOne(fewer, names[|names| - 1])
  }

  function PutOne(tools: seq<Tool>, tool: Tool): seq<Tool> {
    var i := Position(tools, tool.name);
    if i == |tools| then tools + [tool] else tools[i := tool]
  }

  function PutAll(tools: seq<Tool>, puts: seq<Tool>): seq<Tool> {
    if puts == [] then tools else PutOne(PutAll(tools, puts[..|puts| - 1]), puts[|puts| - 1])
  }

  function Patched(current: ToolSet, patch: ToolSetPatch): Result<ToolSet, ToolError> {
    if patch.expectedId != current.id then Err(ToolSetVersionConflict(patch.expectedId, current.id))
    else
      var kept :- RemoveAll(current.tools, patch.remove);
      var tools := PutAll(kept, patch.addOrReplace);
      var _ :- EnsureUniqueTools(tools);
      Ok(ToolSet(patch.resultingId, tools))
  }

  lemma {:induction false} RemoveAllFails(tools: seq<Tool>, names: seq<ToolName>, n: nat)
    requires n <= |names| && RemoveAll(tools, names[..n]).Err?
    ensures RemoveAll(tools, names) == Err(RemoveAll(tools, names[..n]).error)
    decreases |names|
  {
    if n < |names| {
      assert names[..|names| - 1][..n] == names[..n];
      RemoveAllFails(tools, names[..|names| - 1], n);
    } else {
      assert names[..n] == names;
    }
  }

  method RemoveEach(current: seq<Tool>, names: seq<ToolName>) returns (result: Result<seq<Tool>, ToolError>)
    ensures result == RemoveAll(current, names)
  {
    var tools := current;
    var i := 0;
    while i < |names|
      invariant 0 <= i <= |names|
      invariant RemoveAll(current, names[..i]) == Ok(tools)
    {
      assert names[..i + 1][..i] == names[..i];
      var at := FindPosition(tools, names[i]);
      if at == |tools| {
        RemoveAllFails(current, names, i + 1);
        return Err(UnknownToolName(names[i]));
      }
      tools := tools[..at] + tools[at + 1..];
      i := i + 1;
    }
    assert names[..i] == names;
    return Ok(tools);
  }

  method PutEach(current: seq<Tool>, puts: seq<Tool>) returns (tools: seq<Tool>)
    ensures tools == PutAll(current, puts)
  {
    tools := current;
    var i := 0;
    while i < |puts|
      invariant 0 <= i <= |puts|
      invariant tools == PutAll(current, puts[..i])
    {
      assert puts[..i + 1][..i] == puts[..i];
      var at := FindPosition(tools, puts[i].name);
      if at < |tools| {
        tools := tools[at := puts[i]];
      } else {
        tools := tools + [puts[i]];
      }
      i := i + 1;
    }
    assert puts[..i] == puts;
  }

  /** Edits a copy of the declarations in place: removals first, then additions. */
  method ApplyToolSetPatch(current: ToolSet, patch: ToolSetPatch) returns (result: Result<ToolSet, ToolError>)
    ensures result == Patched(current, patch)
  {
    if patch.expectedId != current.id {
      return Err(ToolSetVersionConflict(patch.expectedId, current.id));
    }
    var kept := RemoveEach(current.tools, patch.remove);
    if kept.Err? {
      return Err(kept.error);
    }
    var tools := PutEach(kept.value, patch.addOrReplace);
    var unique := EnsureUniqueTools(tools);
    if unique.Err? {
      return Err(unique.error);
    }
    return Ok(ToolSet(patch.resultingId, tools));
  }

  function SetOf(names: seq<ToolName>): set<ToolName> {
    set name | name in names
  }

  // ----- the map a list of uniquely named tools stands for -----

  /** Later entries override earlier ones. */
  function AsMap(tools: seq<Tool>): (m: map<ToolName, Tool>) {
    if tools == [] then map[] else AsMap(tools[..|tools| - 1])[tools[|tools| - 1].name := tools[|tools| - 1]]
  }

  /** A list of uniquely named tools and a map that agree name by name. */
  ghost predicate Means(tools: seq<Tool>, m: map<ToolName, Tool>) {
    && m.Keys == SetOf(Names(tools))
    && forall i :: 0 <= i < |tools| ==> tools[i].name in m && m[tools[i].name] == tools[i]
  }

  lemma NamesOfMore(tools: seq<Tool>, tool: Tool)
    ensures Names(tools + [tool]) == Names(tools) + [tool.name]
    ensures SetOf(Names(tools + [tool])) == SetOf(Names(tools)) + {tool.name}
  {
    assert Names(tools + [tool]) == Names(tools) + [tool.name];
  }

  lemma MeansMore(tools: seq<Tool>, tool: Tool, m: map<ToolName, Tool>)
    requires Means(tools, m) && tool.name !in Names(tools)
    ensures Means(tools + [tool], m[tool.name := tool])
  {
    NamesOfMore(tools, tool);
    forall i | 0 <= i < |tools|
      ensures tools[i].name != tool.name
    {
      assert Names(tools)[i] == tools[i].name;
    }
  }

  lemma {:induction false} MapOfUnique(tools: seq<Tool>)
    requires Unique(Names(tools))
    ensures Means(tools, AsMap(tools))
    decreases |tools|
  {
    if tools != [] {
      var first, last := tools[..|tools| - 1], tools[|tools| - 1];
      assert tools == first + [last];
      NamesOfMore(first, last);
      assert Names(first) == Names(tools)[..|tools| - 1];
      MapOfUnique(first);
      MeansMore(first, last, AsMap(first));
    }
  }

  lemma MapIsDecidedPointwise(tools: seq<Tool>, m: map<ToolName, Tool>)
    requires Unique(Names(tools)) && Means(tools, m)
    ensures AsMap(tools) == m
  {
    MapOfUnique(tools);
    assert forall i :: 0 <= i < |tools| ==> AsMap(tools)[Names(tools)[i]] == m[Names(tools)[i]];
    assert forall name :: name in m ==> name in Names(tools);
  }

  /** The names in `names` that are not in `gone`, in their order. */
  function Without(names: seq<ToolName>, gone: set<ToolName>): seq<ToolName> {
    if names == [] then []
    else
      var n := |names| - 1;
      if names[n] in gone then Without(names[..n], gone) else Without(names[..n], gone) + [names[n]]
  }

  lemma UniqueWithoutOne<T>(items: seq<T>, i: nat)
    requires Unique(items) && i < |items|
    ensures Unique(items[..i] + items[i + 1..]) && items[i] !in items[..i] + items[i + 1..]
  {
    var fewer := items[..i] + items[i + 1..];
    assert forall k :: 0 <= k < |fewer| ==> fewer[k] == items[if k < i then k else k + 1];
  }

  lemma CutNames(names: seq<ToolName>, i: nat)
    requires Unique(names) && i < |names|
    ensures SetOf(names[..i] + names[i + 1..]) == SetOf(names) - {names[i]}
  {
    assert names == names[..i] + [names[i]] + names[i + 1..];
  }

  lemma CutAt(tools: seq<Tool>, i: nat)
    requires Unique(Names(tools)) && i < |tools|
    ensures var fewer := tools[..i] + tools[i + 1..];
            && Names(fewer) == Names(tools)[..i] + Names(tools)[i + 1..]
            && Unique(Names(fewer))
            && AsMap(fewer) == AsMap(tools) - {tools[i].name}
  {
    var fewer, names, name := tools[..i] + tools[i + 1..], Names(tools), tools[i].name;
    assert Names(fewer) == names[..i] + names[i + 1..];
    UniqueWithoutOne(names, i);
    MapOfUnique(tools);
    var m := AsMap(tools) - {name};
    CutNames(names, i);
    forall k | 0 <= k < |fewer|
      ensures fewer[k].name in m && m[fewer[k].name] == fewer[k]
    {
      assert Names(fewer)[k] in Names(fewer);
      assert fewer[k] == tools[if k < i then k else k + 1];
    }
    MapIsDecidedPointwise(fewer, m);
  }

  lemma RemoveOneRemoves(tools: seq<Tool>, name: ToolName)
    requires Unique(Names(tools))
    ensures RemoveOne(tools, name).Ok? <==> name in Names(tools)
    ensures RemoveOne(tools, name).Ok? ==>
              var fewer := RemoveOne(tools, name).value;
              && Unique(Names(fewer))
              && Names(fewer) == Without(Names(tools), {name})
              && AsMap(fewer) == AsMap(tools) - {name}
  {
    var i := Position(tools, name);
    if i < |tools| {
      assert Names(tools)[i] == name;
      assert RemoveOne(tools, name) == Ok(tools[..i] + tools[i + 1..]);
      CutAt(tools, i);
      WithoutOne(Names(tools), i);
    } else {
      assert forall k :: 0 <= k < |tools| ==> Names(tools)[k] != name;
    }
  }

  lemma {:induction false} WithoutOne(names: seq<ToolName>, i: nat)
    requires i < |names| && Unique(names)
    ensures Without(names, {names[i]}) == names[..i] + names[i + 1..]
    decreases |names|
  {
    var n := |names| - 1;
    if i < n {
      WithoutOne(names[..n], i);
      assert names[..n][i] == names[i] && names[n] != names[i];
      assert names[..i] + names[i + 1..] == (names[..n][..i] + names[..n][i + 1..]) + [names[n]];
    } else {
      WithoutNone(names[..n], {names[n]});
      assert names[..i] + names[i + 1..] == names[..n];
    }
  }

  lemma {:induction false} WithoutNone(names: seq<ToolName>, gone: set<ToolName>)
    requires forall i :: 0 <= i < |names| ==> names[i] !in gone
    ensures Without(names, gone) == names
    decreases |names|
  {
    if names != [] {
      var n := |names| - 1;
      assert forall i :: 0 <= i < n ==> names[..n][i] == names[i];
      WithoutNone(names[..n], gone);
      assert names == names[..n] + [names[n]];
    }
  }

  lemma {:induction false} WithoutTwice(names: seq<ToolName>, a: set<ToolName>, b: set<ToolName>)
    ensures Without(Without(names, a), b) == Without(names, a + b)
    decreases |names|
  {
    if names != [] {
      var n := |names| - 1;
      WithoutTwice(names[..n], a, b);
      var kept := Without(names[..n], a);
      if names[n] !in a {
        assert (kept + [names[n]])[..|kept|] == kept;
      }
    }
  }

  /**
   The removal loop succeeds exactly when it names existing tools, each once, and
   then the survivors keep their order.
  */
  lemma {:induction false} RemoveAllRemoves(tools: seq<Tool>, names: seq<ToolName>)
    requires Unique(Names(tools))
    ensures RemoveAll(tools, names).Ok? <==> Unique(names) && SetOf(names) <= SetOf(Names(tools))
    ensures RemoveAll(tools, names).Ok? ==>
              var kept := RemoveAll(tools, names).value;
              && Unique(Names(kept))
              && Names(kept) == Without(Names(tools), SetOf(names))
              && AsMap(kept) == AsMap(tools) - SetOf(names)
    decreases |names|
  {
    if names == [] {
      WithoutNone(Names(tools), {});
      assert SetOf(names) == {};
      assert AsMap(tools) - SetOf(names) == AsMap(tools);
    } else {
      var n := |names| - 1;
      var first, last := names[..n], names[n];
      RemoveAllRemoves(tools, first);
      SetOfSplits(first, last);
      assert names == first + [last];
      UniqueSplits(names);
      if RemoveAll(tools, first).Ok? {
        RemoveLast(tools, first, last, RemoveAll(tools, first).value);
      }
    }
  }

  lemma SetOfSplits(first: seq<ToolName>, last: ToolName)
    ensures SetOf(first + [last]) == SetOf(first) + {last}
  {
    forall name
      ensures name in SetOf(first + [last]) <==> name in SetOf(first) + {last}
    {
      assert name in first + [last] <==> name in first || name in [last];
    }
  }

  lemma RemoveLast(tools: seq<Tool>, first: seq<ToolName>, last: ToolName, fewer: seq<Tool>)
    requires Unique(Names(tools)) && Unique(Names(fewer))
    requires Names(fewer) == Without(Names(tools), SetOf(first)) && AsMap(fewer) == AsMap(tools) - SetOf(first)
    ensures RemoveOne(fewer, last).Ok? <==> last in SetOf(Names(tools)) && last !in first
    ensures RemoveOne(fewer, last).Ok? ==>
              var kept := RemoveOne(fewer, last).value;
              && Unique(Names(kept))
              && Names(kept) == Without(Names(tools), SetOf(first) + {last})
              && AsMap(kept) == AsMap(tools) - (SetOf(first) + {last})
  {
    RemoveOneRemoves(fewer, last);
    MapOfUnique(tools);
    MapOfUnique(fewer);
    assert last in Names(fewer) <==> last in SetOf(Names(fewer));
    assert last in AsMap(fewer) <==> last in AsMap(tools) && last !in first;
    WithoutTwice(Names(tools), SetOf(first), {last});
    assert AsMap(tools) - SetOf(first) - {last} == AsMap(tools) - (SetOf(first) + {last});
  }

  lemma UniqueSplits<T>(items: seq<T>)
    requires items != []
    ensures Unique(items) <==> Unique(items[..|items| - 1]) && items[|items| - 1] !in items[..|items| - 1]
  {
    var n := |items| - 1;
    assert forall i :: 0 <= i < n ==> items[..n][i] == items[i];
    if Unique(items[..n]) && items[n] !in items[..n] {
      forall i, j | 0 <= i < j < |items|
        ensures items[i] != items[j]
      {
        assert items[i] == items[..n][i];
        if j < n {
          assert items[j] == items[..n][j];
        }
      }
    }
  }

  /** Adding names one by one: a name already there keeps its place. */
  function NamesAfter(names: seq<ToolName>, puts: seq<Tool>): seq<ToolName> {
    if puts == [] then names
    else
      var before := NamesAfter(names, puts[..|puts| - 1]);
      var name := puts[|puts| - 1].name;
      if name in before then before else before + [name]
  }

  lemma ReplacedMeans(tools: seq<Tool>, i: nat, tool: Tool)
    requires Unique(Names(tools)) && i < |tools| && tools[i].name == tool.name
    ensures Names(tools[i := tool]) == Names(tools)
    ensures AsMap(tools[i := tool]) == AsMap(tools)[tool.name := tool]
  {
    var more, m := tools[i := tool], AsMap(tools)[tool.name := tool];
    MapOfUnique(tools);
    assert Names(more) == Names(tools);
    assert Names(tools)[i] == tool.name && m.Keys == AsMap(tools).Keys;
    forall k | 0 <= k < |more|
      ensures more[k].name in m && m[more[k].name] == more[k]
    {
      if k != i {
        assert Names(tools)[k] != Names(tools)[i];
      }
    }
    MapIsDecidedPointwise(more, m);
  }

  lemma AddedMeans(tools: seq<Tool>, tool: Tool)
    requires Unique(Names(tools)) && tool.name !in Names(tools)
    ensures Unique(Names(tools + [tool])) && Names(tools + [tool]) == Names(tools) + [tool.name]
    ensures AsMap(tools + [tool]) == AsMap(tools)[tool.name := tool]
  {
    NamesOfMore(tools, tool);
    assert (tools + [tool])[..|tools|] == tools;
  }

  lemma PutOnePuts(tools: seq<Tool>, tool: Tool)
    requires Unique(Names(tools))
    ensures var more := PutOne(tools, tool);
            && Unique(Names(more))
            && Names(more) == (if tool.name in Names(tools) then Names(tools) else Names(tools) + [tool.name])
            && AsMap(more) == AsMap(tools)[tool.name := tool]
  {
    var i := Position(tools, tool.name);
    if i < |tools| {
      assert Names(tools)[i] == tool.name;
      ReplacedMeans(tools, i, tool);
    } else {
      assert forall k :: 0 <= k < |tools| ==> Names(tools)[k] != tool.name;
      AddedMeans(tools, tool);
    }
  }

  /** The additions override the map, the last write winning, and old names keep their order. */
  lemma {:induction false} PutAllPuts(tools: seq<Tool>, puts: seq<Tool>)
    requires Unique(Names(tools))
    ensures var more := PutAll(tools, puts);
            && Unique(Names(more))
            && Names(more) == NamesAfter(Names(tools), puts)
            && Names(tools) <= Names(more)
            && AsMap(more) == AsMap(tools) + AsMap(puts)
    decreases |puts|
  {
    if puts == [] {
      assert AsMap(tools) + AsMap(puts) == AsMap(tools);
    } else {
      var first, last := puts[..|puts| - 1], puts[|puts| - 1];
      PutAllPuts(tools, first);
      PutOnePuts(PutAll(tools, first), last);
      OverrideLast(AsMap(tools), AsMap(first), last);
    }
  }

  lemma OverrideLast(m: map<ToolName, Tool>, puts: map<ToolName, Tool>, tool: Tool)
    ensures m + puts[tool.name := tool] == (m + puts)[tool.name := tool]
  {}

  /**
   From unique names the patch loops are a map update: what was there minus what
   is removed, overridden by the additions. Survivors keep their order and come
   first, and the final uniqueness check always passes.
  */
  lemma PatchRefinesAMapUpdate(current: ToolSet, patch: ToolSetPatch)
    requires Unique(Names(current.tools))
    ensures Patched(current, patch).Ok? <==>
            && patch.expectedId == current.id
            && Unique(patch.remove) && SetOf(patch.remove) <= SetOf(Names(current.tools))
    ensures Patched(current, patch).Ok? ==>
              var after := Patched(current, patch).value;
              && after.id == patch.resultingId
              && Unique(Names(after.tools))
              && AsMap(after.tools) == (AsMap(current.tools) - SetOf(patch.remove)) + AsMap(patch.addOrReplace)
              && Without(Names(current.tools), SetOf(patch.remove)) <= Names(after.tools)
    ensures Patched(current, patch).Err? ==> !Patched(current, patch).error.DuplicateToolName?
  {
    RemoveAllRemoves(current.tools, patch.remove);
    RemoveErrors(current.tools, patch.remove);
    if RemoveAll(current.tools, patch.remove).Ok? {
      PutAllPuts(RemoveAll(current.tools, patch.remove).value, patch.addOrReplace);
    }
  }

  lemma {:induction false} RemoveErrors(tools: seq<Tool>, names: seq<ToolName>)
    ensures RemoveAll(tools, names).Err? ==> RemoveAll(tools, names).error.UnknownToolName?
    decreases |names|
  {
    if names != [] {
      RemoveErrors(tools, names[..|names| - 1]);
    }
  }
}
