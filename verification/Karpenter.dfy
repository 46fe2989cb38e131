/** The Karpenter part of PrepareCustomCloudResources (controllers/controlplane): the pools that
    stay are rendered into one stream of YAML documents, and the loop before it in Reconcile
    decides which pools stay and whether Karpenter is used at all. */
module Karpenter {
  import opened Common
  import opened Pools

  const SEPARATOR := "---\n"

  // ---------------------------------------------------------------- specification

  /** The pools not marked for deletion, in order. */
  function Existing(pools: seq<Pool>): seq<Pool> {
    if pools == [] then []
    else if pools[0].deleting then Existing(pools[1..])
    else [pools[0]] + Existing(pools[1..])
  }

  /** Any listed pool with node pools switches Karpenter on, even one marked for deletion. */
  predicate UsesKarpenter(pools: seq<Pool>) {
    exists i :: 0 <= i < |pools| && pools[i].nodePools != []
  }

  predicate Renderable(nodePools: seq<NodePool>) {
    forall i :: 0 <= i < |nodePools| ==> nodePools[i].nodeClass.Some?
  }

  predicate AllRenderable(pools: seq<Pool>) {
    forall i :: 0 <= i < |pools| ==> Renderable(pools[i].nodePools)
  }

  /** The documents of one pool: each node pool is followed by its node class, which ends with a
      blank line. */
  function PoolDocuments(nodePools: seq<NodePool>): seq<string>
    requires Renderable(nodePools)
  {
    if nodePools == [] then []
    else [nodePools[0].document, nodePools[0].nodeClass.value + "\n"] + PoolDocuments(nodePools[1..])
  }

  function Documents(pools: seq<Pool>): seq<string>
    requires AllRenderable(pools)
  {
    if pools == [] then [] else PoolDocuments(pools[0].nodePools) + Documents(pools[1..])
  }

  function Stream(documents: seq<string>): string {
    if documents == [] then [] else SEPARATOR + documents[0] + Stream(documents[1..])
  }

  function NodePoolTotal(pools: seq<Pool>): nat {
    if pools == [] then 0 else |pools[0].nodePools| + NodePoolTotal(pools[1..])
  }

  // ---------------------------------------------------------------- implementation

  method SelectPools(pools: seq<Pool>) returns (existing: seq<Pool>, enable: bool)
    ensures existing == Existing(pools)
    ensures forall p :: p in existing <==> p in pools && !p.deleting
    ensures enable == UsesKarpenter(pools)
    ensures enable <==> exists p :: p in pools && p.nodePools != []
  {
    existing, enable := [], false;
    var i := 0;
    while i < |pools|
      invariant 0 <= i <= |pools|
      invariant existing == Existing(pools[..i])
      invariant enable == UsesKarpenter(pools[..i])
    {
      assert pools[..i + 1] == pools[..i] + [pools[i]];
      ExistingOfConcat(pools[..i], [pools[i]]);
      UsesKarpenterNext(pools, i);
      if !pools[i].deleting {
        existing := existing + [pools[i]];
      }
      if |pools[i].nodePools| > 0 {
        enable := true;
      }
      i := i + 1;
    }
    assert pools[..i] == pools;
    forall p ensures p in existing <==> p in pools && !p.deleting {
      StayingPool(pools, p);
    }
    if enable {
      var k :| 0 <= k < |pools| && pools[k].nodePools != [];
      assert pools[k] in pools;
    }
  }

  /** The file the stream goes to. Creating it, marshalling and writing may fail; `failsAt` is the
      number of the first such call that does, counted from the start, if any does. */
  class ResourceFile {
    const failsAt: Option<nat>
    var content: string
    var calls: nat

    constructor (failsAt: Option<nat>)
      ensures this.failsAt == failsAt && Holds([], 0)
    {
      this.failsAt, content, calls := failsAt, [], 0;
    }

    /** So many calls have succeeded, and this is what they have written. */
    predicate Holds(text: string, n: nat)
      reads this
    {
      content == text && calls == n && (failsAt.Some? ==> n <= failsAt.value)
    }

    /** A call that writes nothing. */
    method Attempt() returns (failed: bool)
      requires failsAt.Some? ==> calls <= failsAt.value
      modifies this
      ensures failed <==> failsAt == Some(old(calls))
      ensures !failed ==> Holds(old(content), old(calls) + 1)
    {
      failed := failsAt == Some(calls);
      calls := calls + 1;
    }

    method Write(text: string) returns (failed: bool)
      requires failsAt.Some? ==> calls <= failsAt.value
      modifies this
      ensures failed <==> failsAt == Some(old(calls))
      ensures !failed ==> Holds(old(content) + text, old(calls) + 1)
    {
      failed := failsAt == Some(calls);
      calls := calls + 1;
      if !failed {
        content := content + text;
      }
    }

    method MarshalAndWrite(text: string) returns (failed: bool)
      requires failsAt.Some? ==> calls <= failsAt.value
      modifies this
      ensures failed <==> failsAt.Some? && failsAt.value < old(calls) + 2
      ensures !failed ==> Holds(old(content) + text, old(calls) + 2)
    {
      failed := Attempt();
      if !failed {
        failed := Write(text);
      }
    }

    /** The file is created and the placeholder written to it. */
    method WritePlaceholder(placeholder: string) returns (failed: bool)
      requires failsAt.Some? ==> calls <= failsAt.value
      modifies this
      ensures failed <==> failsAt.Some? && failsAt.value < old(calls) + CALLS_BEFORE
      ensures !failed ==> Holds(old(content) + SEPARATOR + placeholder, old(calls) + CALLS_BEFORE)
    {
      failed := Attempt();
      if failed {
        return;
      }
      failed := Attempt();
      if failed {
        return;
      }
      failed := Write(SEPARATOR);
      if failed {
        return;
      }
      failed := Write(placeholder);
    }

    /** One node pool and its node class. */
    method WriteNodePool(nodePool: NodePool) returns (failed: bool)
      requires failsAt.Some? ==> calls <= failsAt.value
      modifies this
      ensures failed <==> nodePool.nodeClass.None? || (failsAt.Some? && failsAt.value < old(calls) + CALLS)
      ensures !failed ==> Holds(old(content) + SEPARATOR + nodePool.document + SEPARATOR
        + (nodePool.nodeClass.value + "\n"), old(calls) + CALLS)
    {
      failed := Write(SEPARATOR);
      if failed {
        return;
      }
      failed := MarshalAndWrite(nodePool.document);
      if failed {
        return;
      }
      failed := Write(SEPARATOR);
      if failed {
        return;
      }
      if nodePool.nodeClass.None? {
        return true;
      }
      failed := MarshalAndWrite(nodePool.nodeClass.value);
      if failed {
        return;
      }
      failed := Write("\n");
      Grouped(old(content) + SEPARATOR + nodePool.document + SEPARATOR, nodePool.nodeClass.value);
    }
  }

  /** Calls that can fail for one node pool, and before the first one. */
  const CALLS := 7
  const CALLS_BEFORE := 4

  lemma Grouped(front: string, nodeClass: string)
    ensures front + nodeClass + "\n" == front + (nodeClass + "\n")
  {
  }

  /** So many calls can fail for these pools. */
  function CallsFor(pools: seq<Pool>): nat {
    CALLS_BEFORE + CALLS * NodePoolTotal(pools)
  }

  /** Writes the stream; fails as soon as one node class cannot be built or one call fails, and in
      no other case. */
  method WriteResources(placeholder: string, pools: seq<Pool>, failsAt: Option<nat>) returns (r: Option<string>)
    ensures r.Some? <==> AllRenderable(pools) && (failsAt.Some? ==> failsAt.value >= CallsFor(pools))
    ensures r.Some? ==> r.value == Stream([placeholder] + Documents(pools))
  {
    var file := new ResourceFile(failsAt);
    hide Stream, Documents, NodePoolTotal, Renderable;
    PlaceholderOnly(placeholder, pools);
    var failed := file.WritePlaceholder(placeholder);
    if failed {
      return None;
    }
    var i := 0;
    while i < |pools|
      invariant 0 <= i <= |pools|
      invariant AllRenderable(pools[..i])
      invariant file.failsAt == failsAt
      invariant file.Holds(Stream([placeholder] + Documents(pools[..i])), CallsFor(pools[..i]))
    {
      ghost var before := [placeholder] + Documents(pools[..i]);
      failed := WritePool(file, pools[i].nodePools, before);
      TotalNext(pools, i);
      if failed {
        return None;
      }
      OneMorePool(placeholder, pools, i);
      i := i + 1;
    }
    assert pools[..i] == pools;
    return Some(file.content);
  }

  lemma PlaceholderOnly(placeholder: string, pools: seq<Pool>)
    ensures AllRenderable(pools[..0]) && Stream([placeholder] + Documents(pools[..0])) == [] + SEPARATOR + placeholder
    ensures CallsFor(pools[..0]) == CALLS_BEFORE <= CallsFor(pools)
  {
    assert [placeholder] + Documents(pools[..0]) == [placeholder];
    assert Stream([placeholder]) == SEPARATOR + placeholder + [];
  }

  method WritePool(file: ResourceFile, nodePools: seq<NodePool>, ghost before: seq<string>) returns (failed: bool)
    requires file.Holds(Stream(before), file.calls)
    modifies file
    ensures failed <==>
      !Renderable(nodePools) || (file.failsAt.Some? && file.failsAt.value < old(file.calls) + CALLS * |nodePools|)
    ensures !failed ==> file.Holds(Stream(before + PoolDocuments(nodePools)), old(file.calls) + CALLS * |nodePools|)
  {
    var j := 0;
    assert before + PoolDocuments(nodePools[..0]) == before;
    while j < |nodePools|
      invariant 0 <= j <= |nodePools|
      invariant Renderable(nodePools[..j])
      invariant file.Holds(Stream(before + PoolDocuments(nodePools[..j])), old(file.calls) + CALLS * j)
    {
      failed := file.WriteNodePool(nodePools[j]);
      if failed {
        return;
      }
      OneMoreNodePool(before, nodePools, j);
      j := j + 1;
    }
    assert nodePools[..j] == nodePools;
    return false;
  }

  lemma {:induction false} TotalNext(pools: seq<Pool>, i: nat)
    requires i < |pools|
    ensures NodePoolTotal(pools[..i + 1]) == NodePoolTotal(pools[..i]) + |pools[i].nodePools|
    ensures NodePoolTotal(pools[..i + 1]) <= NodePoolTotal(pools)
  {
    if i == 0 {
      assert pools[..1][1..] == [] && pools[..0] == [];
    } else {
      assert pools[..i + 1][1..] == pools[1..][..i];
      assert pools[..i][1..] == pools[1..][..i - 1];
      TotalNext(pools[1..], i - 1);
    }
  }

  // ---------------------------------------------------------------- one step of each loop

  lemma ExistingOfConcat(a: seq<Pool>, b: seq<Pool>)
    ensures Existing(a + b) == Existing(a) + Existing(b)
  {
    if a == [] {
      assert a + b == b;
    } else {
      assert (a + b)[1..] == a[1..] + b;
    }
  }

  /** The pools that stay are the order-preserving filter of those listed: a strictly increasing choice
      of positions, exactly those of the pools that are not marked for deletion. */
  lemma ExistingIsFilter(pools: seq<Pool>) returns (at: seq<nat>)
    ensures Increasing(at) && Picks(pools, at, Existing(pools))
    ensures forall k: nat :: k < |pools| ==> (k in at <==> !pools[k].deleting)
  {
    at := Positions(pools, (p: Pool) => !p.deleting);
    PositionsAre(pools, (p: Pool) => !p.deleting);
    ExistingPositions(pools);
  }

  lemma {:induction false} ExistingPositions(pools: seq<Pool>)
    ensures Picks(pools, Positions(pools, (p: Pool) => !p.deleting), Existing(pools))
  {
    if pools != [] {
      var n := |pools| - 1;
      ExistingPositions(pools[..n]);
      ExistingOfConcat(pools[..n], [pools[n]]);
      assert pools == pools[..n] + [pools[n]];
      assert [pools[n]][1..] == [];
    }
  }

  lemma StayingPool(pools: seq<Pool>, p: Pool)
    ensures p in Existing(pools) <==> p in pools && !p.deleting
  {
    var at := ExistingIsFilter(pools);
    if p in Existing(pools) {
      var i :| 0 <= i < |at| && Existing(pools)[i] == p;
      assert at[i] in at && pools[at[i]] == p;
    }
    if p in pools && !p.deleting {
      var k :| 0 <= k < |pools| && pools[k] == p;
      assert k in at;
      var i :| 0 <= i < |at| && at[i] == k;
      assert Existing(pools)[i] == p;
    }
  }

  lemma UsesKarpenterNext(pools: seq<Pool>, i: nat)
    requires i < |pools|
    ensures UsesKarpenter(pools[..i + 1]) == (UsesKarpenter(pools[..i]) || pools[i].nodePools != [])
  {
    if UsesKarpenter(pools[..i]) {
      var k :| 0 <= k < i && pools[..i][k].nodePools != [];
      assert pools[..i + 1][k].nodePools != [];
    }
    assert pools[..i + 1][i] == pools[i];
  }

  lemma {:induction false} StreamOfConcat(a: seq<string>, b: seq<string>)
    ensures Stream(a + b) == Stream(a) + Stream(b)
  {
    if a == [] {
      assert a + b == b;
    } else {
      StreamOfConcat(a[1..], b);
      assert (a + b)[0] == a[0] && (a + b)[1..] == a[1..] + b;
      Regrouped(SEPARATOR + a[0], Stream(a[1..]), Stream(b));
    }
  }

  lemma {:induction false} PoolDocumentsOfConcat(a: seq<NodePool>, b: seq<NodePool>)
    requires Renderable(a) && Renderable(b) && Renderable(a + b)
    ensures PoolDocuments(a + b) == PoolDocuments(a) + PoolDocuments(b)
  {
    if a == [] {
      assert a + b == b;
    } else {
      PoolDocumentsOfConcat(a[1..], b);
      assert (a + b)[0] == a[0] && (a + b)[1..] == a[1..] + b;
      Regrouped([a[0].document, a[0].nodeClass.value + "\n"], PoolDocuments(a[1..]), PoolDocuments(b));
    }
  }

  lemma {:induction false} DocumentsOfConcat(a: seq<Pool>, b: seq<Pool>)
    requires AllRenderable(a) && AllRenderable(b) && AllRenderable(a + b)
    ensures Documents(a + b) == Documents(a) + Documents(b)
  {
    if a == [] {
      assert a + b == b;
    } else {
      DocumentsOfConcat(a[1..], b);
      assert (a + b)[1..] == a[1..] + b;
    }
  }

  lemma OneMoreNodePool(before: seq<string>, nodePools: seq<NodePool>, j: nat)
    requires j < |nodePools| && Renderable(nodePools[..j]) && nodePools[j].nodeClass.Some?
    ensures Renderable(nodePools[..j + 1])
    ensures Stream(before + PoolDocuments(nodePools[..j + 1]))
         == Stream(before + PoolDocuments(nodePools[..j])) + SEPARATOR + nodePools[j].document
            + SEPARATOR + nodePools[j].nodeClass.value + "\n"
  {
    var d := nodePools[j].document;
    var c := nodePools[j].nodeClass.value + "\n";
    assert nodePools[..j + 1] == nodePools[..j] + [nodePools[j]];
    PoolDocumentsOfConcat(nodePools[..j], [nodePools[j]]);
    assert [nodePools[j]][1..] == [];
    assert PoolDocuments([nodePools[j]]) == [d, c];
    assert before + PoolDocuments(nodePools[..j + 1]) == (before + PoolDocuments(nodePools[..j])) + [d, c];
    StreamOfConcat(before + PoolDocuments(nodePools[..j]), [d, c]);
    assert [d, c][1..] == [c] && [c][1..] == [];
    assert Stream([c]) == SEPARATOR + c;
    assert Stream([d, c]) == SEPARATOR + d + (SEPARATOR + c);
  }

  lemma OneMorePool(placeholder: string, pools: seq<Pool>, i: nat)
    requires i < |pools| && AllRenderable(pools[..i]) && Renderable(pools[i].nodePools)
    ensures AllRenderable(pools[..i + 1])
    ensures [placeholder] + Documents(pools[..i + 1])
         == [placeholder] + Documents(pools[..i]) + PoolDocuments(pools[i].nodePools)
  {
    assert pools[..i + 1] == pools[..i] + [pools[i]];
    DocumentsOfConcat(pools[..i], [pools[i]]);
    assert [pools[i]][1..] == [];
    assert Documents([pools[i]]) == PoolDocuments(pools[i].nodePools);
  }

  // ---------------------------------------------------------------- conservation

  lemma {:induction false} PoolDocumentCount(nodePools: seq<NodePool>)
    requires Renderable(nodePools)
    ensures |PoolDocuments(nodePools)| == 2 * |nodePools|
  {
    if nodePools != [] {
      PoolDocumentCount(nodePools[1..]);
    }
  }

  /** One NodePool and one EC2NodeClass for every node pool of every pool, nothing else. */
  lemma {:induction false} DocumentCount(pools: seq<Pool>)
    requires AllRenderable(pools)
    ensures |Documents(pools)| == 2 * NodePoolTotal(pools)
  {
    if pools != [] {
      PoolDocumentCount(pools[0].nodePools);
      DocumentCount(pools[1..]);
    }
  }

  lemma {:induction false} PoolDocumentAt(nodePools: seq<NodePool>, j: nat)
    requires Renderable(nodePools) && j < |nodePools|
    ensures 2 * j + 1 < |PoolDocuments(nodePools)|
    ensures PoolDocuments(nodePools)[2 * j] == nodePools[j].document
    ensures PoolDocuments(nodePools)[2 * j + 1] == nodePools[j].nodeClass.value + "\n"
  {
    PoolDocumentCount(nodePools);
    if j > 0 {
      PoolDocumentAt(nodePools[1..], j - 1);
    }
  }

  lemma {:induction false} DocumentOf(pools: seq<Pool>, i: nat, j: nat)
    requires AllRenderable(pools) && i < |pools| && j < |pools[i].nodePools|
    ensures var at := 2 * (NodePoolTotal(pools[..i]) + j);
            && at + 1 < |Documents(pools)|
            && Documents(pools)[at] == pools[i].nodePools[j].document
            && Documents(pools)[at + 1] == pools[i].nodePools[j].nodeClass.value + "\n"
  {
    PoolDocumentCount(pools[0].nodePools);
    if i == 0 {
      PoolDocumentAt(pools[0].nodePools, j);
      assert NodePoolTotal(pools[..0]) == 0;
    } else {
      DocumentOf(pools[1..], i - 1, j);
      assert pools[..i][1..] == pools[1..][..i - 1];
    }
  }

  /** Every node pool of every pool that stays is in the stream: its document and then its node class,
      at the place that the node pools before it leave for it, whichever pools go. */
  lemma EveryNodePoolRendered(pools: seq<Pool>, i: nat, j: nat)
    requires AllRenderable(Existing(pools)) && i < |pools| && !pools[i].deleting && j < |pools[i].nodePools|
    ensures var at := 2 * (NodePoolTotal(Existing(pools[..i])) + j);
            && at + 1 < |Documents(Existing(pools))|
            && pools[i].nodePools[j].nodeClass.Some?
            && Documents(Existing(pools))[at] == pools[i].nodePools[j].document
            && Documents(Existing(pools))[at + 1] == pools[i].nodePools[j].nodeClass.value + "\n"
  {
    hide Documents, NodePoolTotal;
    var front, rest := Existing(pools[..i]), Existing(pools[i + 1..]);
    assert pools == pools[..i] + ([pools[i]] + pools[i + 1..]);
    ExistingOfConcat(pools[..i], [pools[i]] + pools[i + 1..]);
    assert ([pools[i]] + pools[i + 1..])[1..] == pools[i + 1..];
    assert Existing([pools[i]] + pools[i + 1..]) == [pools[i]] + rest;
    var all := Existing(pools);
    assert all[|front|] == pools[i] && all[..|front|] == front;
    DocumentOf(all, |front|, j);
  }

  /** When only pools marked for deletion use Karpenter it is still switched on, and the stream
      is the placeholder alone. */
  lemma {:induction false} OnlyDeletingUsers(pools: seq<Pool>)
    requires forall i :: 0 <= i < |pools| ==> pools[i].nodePools != [] ==> pools[i].deleting
    ensures AllRenderable(Existing(pools)) && Documents(Existing(pools)) == []
  {
    if pools != [] {
      OnlyDeletingUsers(pools[1..]);
    }
  }

  // ---------------------------------------------------------------- splitting the stream back

  /** The lines of a text, each with its line end. */
  function Lines(s: string): seq<string> {
    if s == [] then []
    else if s[0] == '\n' then [['\n']] + Lines(s[1..])
    else
      var rest := Lines(s[1..]);
      if rest == [] then [s] else [[s[0]] + rest[0]] + rest[1..]
  }

  datatype Gathered = Gathered(head: string, documents: seq<string>)

  /** What a YAML reader does with separator lines: the text before the first one, then the
      documents between them. */
  function Gather(lines: seq<string>): Gathered {
    if lines == [] then Gathered([], [])
    else
      var rest := Gather(lines[1..]);
      if lines[0] == SEPARATOR then Gathered([], [rest.head] + rest.documents)
      else Gathered(lines[0] + rest.head, rest.documents)
  }

  function SplitDocuments(content: string): seq<string> {
    Gather(Lines(content)).documents
  }

  /** Newline-terminated text without a separator line. */
  predicate PlainDocument(d: string) {
    && (d != [] ==> d[|d| - 1] == '\n')
    && SEPARATOR !in Lines(d)
  }

  lemma {:induction false} LinesOfConcat(a: string, b: string)
    requires a != [] ==> a[|a| - 1] == '\n'
    ensures Lines(a + b) == Lines(a) + Lines(b)
  {
    if a == [] {
      assert a + b == b;
    } else {
      LinesOfConcat(a[1..], b);
      assert (a + b)[1..] == a[1..] + b && (a + b)[0] == a[0];
      var r := Lines(a[1..]);
      if a[0] == '\n' {
        assert [['\n']] + (r + Lines(b)) == ([['\n']] + r) + Lines(b);
      } else {
        LinesNonempty(a[1..]);
        JoinFirst(a[0], r, Lines(b));
      }
    }
  }

  lemma JoinFirst(c: char, r: seq<string>, t: seq<string>)
    requires r != []
    ensures [[c] + (r + t)[0]] + (r + t)[1..] == ([[c] + r[0]] + r[1..]) + t
  {
  }

  lemma LinesNonempty(s: string)
    requires s != []
    ensures Lines(s) != []
  {
  }

  lemma {:induction false} LinesWhole(d: string, rest: seq<string>)
    requires SEPARATOR !in Lines(d)
    ensures Gather(Lines(d) + rest) == Gathered(d + Gather(rest).head, Gather(rest).documents)
  {
    GatherPlain(Lines(d), rest);
    FlattenLines(d);
  }

  function Flatten(lines: seq<string>): string {
    if lines == [] then [] else lines[0] + Flatten(lines[1..])
  }

  lemma {:induction false} FlattenLines(s: string)
    ensures Flatten(Lines(s)) == s
  {
    if s != [] {
      FlattenLines(s[1..]);
      assert s == [s[0]] + s[1..];
      var rest := Lines(s[1..]);
      if s[0] == '\n' {
        assert ([['\n']] + rest)[1..] == rest;
      } else if rest == [] {
        assert Lines(s) == [s] && [s][1..] == [];
      } else {
        assert ([[s[0]] + rest[0]] + rest[1..])[1..] == rest[1..];
        assert [s[0]] + rest[0] + Flatten(rest[1..]) == [s[0]] + (rest[0] + Flatten(rest[1..]));
      }
    }
  }

  lemma {:induction false} GatherPlain(lines: seq<string>, rest: seq<string>)
    requires SEPARATOR !in lines
    ensures Gather(lines + rest) == Gathered(Flatten(lines) + Gather(rest).head, Gather(rest).documents)
  {
    if lines == [] {
      assert lines + rest == rest;
    } else {
      assert lines[0] in lines && forall x :: x in lines[1..] ==> x in lines;
      GatherPlain(lines[1..], rest);
      assert lines + rest == [lines[0]] + (lines[1..] + rest);
      GatherLine(lines[0], lines[1..] + rest);
      Regrouped(lines[0], Flatten(lines[1..]), Gather(rest).head);
    }
  }

  lemma GatherLine(line: string, lines: seq<string>)
    requires line != SEPARATOR
    ensures Gather([line] + lines) == Gathered(line + Gather(lines).head, Gather(lines).documents)
  {
    assert ([line] + lines)[1..] == lines;
  }

  lemma Regrouped<T>(a: seq<T>, b: seq<T>, c: seq<T>)
    ensures a + (b + c) == a + b + c
  {
  }

  /** Reading the stream at its separator lines gives the documents back, one for one and in
      order. */
  lemma {:induction false} SplitBack(documents: seq<string>)
    requires forall i :: 0 <= i < |documents| ==> PlainDocument(documents[i])
    ensures SplitDocuments(Stream(documents)) == documents
    ensures Gather(Lines(Stream(documents))).head == []
  {
    if documents != [] {
      var d := documents[0];
      var rest := Stream(documents[1..]);
      SplitBack(documents[1..]);
      LinesOfDocument(d, rest);
      LinesWhole(d, Lines(rest));
      assert d + [] == d;
      assert documents == [d] + documents[1..];
    }
  }

  lemma LinesOfDocument(d: string, rest: string)
    requires PlainDocument(d)
    ensures Lines(SEPARATOR + d + rest) == [SEPARATOR] + (Lines(d) + Lines(rest))
    ensures Gather(Lines(SEPARATOR + d + rest)) ==
      Gathered([], [Gather(Lines(d) + Lines(rest)).head] + Gather(Lines(d) + Lines(rest)).documents)
  {
    LinesOfConcat(d, rest);
    LinesOfConcat(SEPARATOR, d + rest);
    assert SEPARATOR + d + rest == SEPARATOR + (d + rest);
    SeparatorLine();
    hide Lines;
    GatherSeparator(Lines(d) + Lines(rest));
  }

  lemma GatherSeparator(lines: seq<string>)
    ensures Gather([SEPARATOR] + lines) == Gathered([], [Gather(lines).head] + Gather(lines).documents)
  {
    assert ([SEPARATOR] + lines)[1..] == lines;
  }

  lemma SeparatorLine()
    ensures Lines(SEPARATOR) == [SEPARATOR]
  {
    assert Lines("\n") == ["\n"];
    assert SEPARATOR == "-" + ("-" + ("-" + "\n"));
    assert ("-" + "\n")[1..] == "\n";
    assert Lines("-" + "\n") == ["-" + "\n"];
    assert ("-" + ("-" + "\n"))[1..] == "-" + "\n";
    assert Lines("-" + ("-" + "\n")) == ["-" + ("-" + "\n")];
    assert SEPARATOR[1..] == "-" + ("-" + "\n");
  }

  /** The rendered documents survive the round trip when their own text is plain; a node class
      comes back with the blank line that was written after it. */
  lemma ResourcesSplitBack(placeholder: string, pools: seq<Pool>)
    requires AllRenderable(pools) && PlainDocument(placeholder)
    requires forall i :: 0 <= i < |Documents(pools)| ==> PlainDocument(Documents(pools)[i])
    ensures SplitDocuments(Stream([placeholder] + Documents(pools))) == [placeholder] + Documents(pools)
    ensures |SplitDocuments(Stream([placeholder] + Documents(pools)))| == 1 + 2 * NodePoolTotal(pools)
  {
    SplitBack([placeholder] + Documents(pools));
    DocumentCount(pools);
  }

  /** A blank line after a plain document leaves it plain. */
  lemma BlankLineIsPlain(d: string)
    requires PlainDocument(d)
    ensures PlainDocument(d + "\n")
  {
    LinesOfConcat(d, "\n");
    assert Lines("\n") == ["\n"];
    assert |SEPARATOR| == 4;
  }

  // ---------------------------------------------------------------- independence of list order

  /** Whatever order the API server lists the pools in, the sorted list is the same. The rest
      follows from this alone: the rendered content is the same, and with it the hash that decides
      whether the manifest is pushed again. */
  lemma ContentIndependentOfOrder(placeholder: string, a: seq<Pool>, b: seq<Pool>, x: seq<Pool>, y: seq<Pool>)
    requires UniqueKeys(a) && Permutation(a, b)
    requires Sorted(x) && Permutation(x, a) && Sorted(y) && Permutation(y, b)
    ensures x == y
    ensures UsesKarpenter(x) == UsesKarpenter(y)
    ensures AllRenderable(Existing(x)) == AllRenderable(Existing(y))
    ensures AllRenderable(Existing(x)) ==>
      Stream([placeholder] + Documents(Existing(x))) == Stream([placeholder] + Documents(Existing(y)))
  {
    UniqueKeysPermuted(a, x);
    SortedIsUnique(x, y);
  }
}
