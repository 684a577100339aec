/**
 The shared trace and the settlement nodes a drive appends to it
 (src/agent/context/trace.rs, src/agent/drive.rs `record_requirement_node`).
*/
module Trace {
  import opened Wrappers
  import opened Effects

  datatype Disposition = Resumed | NeverResumed

  datatype TraceRecord = TraceRecord(node: string, tag: Tag, hops: nat, disposition: Disposition)

  datatype TraceError = DuplicateNodeId | UnknownParent

  function Digit(d: nat): (c: char)
    requires d < 10
  {
    "0123456789"[d]
  }

  /** Decimal rendering without leading zeros. */
  function Decimal(n: nat): (text: string)
    ensures text != []
  {
    if n < 10 then [Digit(n)] else Decimal(n / 10) + [Digit(n % 10)]
  }

  /** Node id of the n-th settlement of a requirement; the first keeps the plain id. */
  function NodeId(base: string, attempt: nat): string {
    if attempt < 2 then base else base + "#attempt-" + Decimal(attempt)
  }

  /** The number a decimal text stands for. */
  function ReadDecimal(text: string): int {
    if text == [] then 0 else 10 * ReadDecimal(text[..|text| - 1]) + (text[|text| - 1] as int - '0' as int)
  }

  /** The rendering reads back as the number, and has no leading zero to drop. */
  lemma {:induction false} DecimalReadsBack(n: nat)
    ensures ReadDecimal(Decimal(n)) == n
    ensures n > 0 ==> Decimal(n)[0] != '0'
    decreases n
  {
    var text := Decimal(n);
    assert text[|text| - 1] == Digit(n % 10) && Digit(n % 10) as int == '0' as int + n % 10;
    if n >= 10 {
      DecimalReadsBack(n / 10);
      assert text[..|text| - 1] == Decimal(n / 10);
    } else {
      assert text[..|text| - 1] == [];
    }
  }

  lemma DecimalIsInjective(a: nat, b: nat)
    requires Decimal(a) == Decimal(b)
    ensures a == b
  {
    DecimalReadsBack(a);
    DecimalReadsBack(b);
  }

  /** The first settlement of a requirement has its plain id, the n-th one the id with `#attempt-n`. */
  lemma NodeIdsAreNumbered(base: string, attempt: nat)
    requires attempt >= 1
    ensures attempt == 1 ==> NodeId(base, attempt) == base
    ensures attempt >= 2 ==> NodeId(base, attempt) == base + "#attempt-" + Decimal(attempt)
  {}

  lemma NodeIdsAreDistinct(base: string, a: nat, b: nat)
    requires 1 <= a < b
    ensures NodeId(base, a) != NodeId(base, b)
  {
    if a >= 2 && NodeId(base, a) == NodeId(base, b) {
      var head := base + "#attempt-";
      assert Decimal(a) == NodeId(base, a)[|head|..] == NodeId(base, b)[|head|..] == Decimal(b);
      DecimalIsInjective(a, b);
    } else if a < 2 {
      assert |NodeId(base, b)| > |base|;
    }
  }

  ghost function NodeIdsTo(base: string, n: nat): (ids: set<string>)
    ensures forall id :: id in ids <==> exists k :: 1 <= k <= n && id == NodeId(base, k)
    ensures |ids| == n
  {
    if n == 0 then {}
    else
      var fewer := NodeIdsTo(base, n - 1);
      assert NodeId(base, n) !in fewer by {
        forall k | 1 <= k <= n - 1
          ensures NodeId(base, k) != NodeId(base, n)
        {
          NodeIdsAreDistinct(base, k, n);
        }
      }
      fewer + {NodeId(base, n)}
  }

  lemma SubsetIsSmaller<T>(a: set<T>, b: set<T>)
    requires a <= b
    ensures |a| <= |b|
  {
    assert b == a + (b - a);
  }

  class TraceHandle {
    const parent: string
    var ids: set<string>
    var records: seq<TraceRecord>

    /** Every record's id is taken. */
    ghost predicate Indexed()
      reads this
    {
      forall i :: 0 <= i < |records| ==> records[i].node in ids
    }

    /** What every handle made through the constructors satisfies: its parent is in the tree. */
    ghost predicate Valid()
      reads this
    {
      Indexed() && parent in ids
    }

    constructor (parent: string)
      ensures Valid() && ids == {parent} && records == []
    {
      this.parent := parent;
      this.ids := {parent};
      this.records := [];
    }

    method RecordRequirement(node: string, tag: Tag, hops: nat, disposition: Disposition)
      returns (result: Result<(), TraceError>)
      requires Indexed()
      modifies this
      ensures Indexed()
      ensures result == if node in old(ids) then Err(DuplicateNodeId)
                        else if parent !in old(ids) then Err(UnknownParent)
                        else Ok(())
      ensures result.Err? ==> ids == old(ids) && records == old(records)
      ensures result.Ok? ==>
                && ids == old(ids) + {node}
                && records == old(records) + [TraceRecord(node, tag, hops, disposition)]
    {
      if node in ids {
        return Err(DuplicateNodeId);
      }
      if parent !in ids {
        return Err(UnknownParent);
      }
      ids := ids + {node};
      records := records + [TraceRecord(node, tag, hops, disposition)];
      return Ok(());
    }

    /**
     Appends exactly one settlement node when the handle's parent is in the tree,
     and none when it is not. A re-emitted id gets the first free `#attempt-N` id,
     and the search for it always ends.
    */
    method RecordRequirementNode(tag: Tag, id: RequirementId, hops: nat, disposition: Disposition)
      returns (node: string, ghost attempt: nat)
      requires Indexed()
      modifies this
      ensures Indexed()
      ensures node == NodeId(id.text, attempt) && attempt >= 1 && node !in old(ids)
      ensures forall k :: 1 <= k < attempt ==> NodeId(id.text, k) in old(ids)
      ensures if parent in old(ids) then
                ids == old(ids) + {node} && records == old(records) + [TraceRecord(node, tag, hops, disposition)]
              else
                ids == old(ids) && records == old(records)
    {
      node := id.text;
      var next := 2;
      while true
        invariant Indexed() && ids == old(ids) && records == old(records)
        invariant next >= 2 && node == NodeId(id.text, next - 1)
        invariant forall k :: 1 <= k < next - 1 ==> NodeId(id.text, k) in ids
        invariant next - 2 <= |ids|
        decreases |ids| + 2 - next
      {
        var result := RecordRequirement(node, tag, hops, disposition);
        if result != Err(DuplicateNodeId) {
          attempt := next - 1;
          return;
        }
        ghost var taken := NodeIdsTo(id.text, next - 1);
        SubsetIsSmaller(taken, ids);
        node := NodeId(id.text, next);
        next := next + 1;
      }
    }
  }
}
