/** Machine pools as the controller lists them: GetKopsMachinePoolsWithLabel of pkg/kops/kops.go
    sorts what the API server returns by namespace and name. */
module Pools {
  import opened Common

  /** One Karpenter node pool, rendered: its own document and, unless building it fails, the
      document of its EC2NodeClass. */
  datatype NodePool = NodePool(document: string, nodeClass: Option<string>)

  datatype Pool = Pool(namespace: string, name: string, deleting: bool, finalizer: bool, nodePools: seq<NodePool>)

  datatype ListError = LabelKeyEmpty | LabelValueEmpty | ListFailed

  datatype Listing = Listed(pools: seq<Pool>) | Failed(error: ListError)

  /** Go's cmp.Compare on strings. */
  function Compare(a: string, b: string): int {
    if a == [] && b == [] then 0
    else if a == [] then -1
    else if b == [] then 1
    else if a[0] < b[0] then -1
    else if a[0] > b[0] then 1
    else Compare(a[1..], b[1..])
  }

  function ComparePools(p: Pool, q: Pool): int {
    var c := Compare(p.namespace, q.namespace);
    if c != 0 then c else Compare(p.name, q.name)
  }

  predicate SameKey(p: Pool, q: Pool) {
    p.namespace == q.namespace && p.name == q.name
  }

  predicate UniqueKeys(pools: seq<Pool>) {
    forall i, j :: 0 <= i < j < |pools| ==> !SameKey(pools[i], pools[j])
  }

  predicate DistinctNames(pools: seq<Pool>) {
    forall i, j :: 0 <= i < j < |pools| ==> pools[i].name != pools[j].name
  }

  predicate Sorted(pools: seq<Pool>) {
    forall i, j :: 0 <= i < j < |pools| ==> ComparePools(pools[i], pools[j]) <= 0
  }

  // ---------------------------------------------------------------- the order

  lemma CompareLaws(a: string, b: string)
    ensures Compare(a, b) == 0 <==> a == b
    ensures Compare(a, b) == -Compare(b, a)
  {
    if a != [] && b != [] && a[0] == b[0] {
      CompareLaws(a[1..], b[1..]);
      assert a == [a[0]] + a[1..] && b == [b[0]] + b[1..];
    }
  }

  lemma {:induction false} CompareTransitive(a: string, b: string, c: string)
    requires Compare(a, b) <= 0 && Compare(b, c) <= 0
    ensures Compare(a, c) <= 0
    ensures Compare(a, c) == 0 ==> Compare(a, b) == 0 && Compare(b, c) == 0
  {
    if a != [] && b != [] && c != [] && a[0] == b[0] == c[0] {
      CompareTransitive(a[1..], b[1..], c[1..]);
    }
  }

  /** A text comes before another if it is a proper beginning of it, or if the first character in which
      they differ is the smaller one. */
  predicate Before(a: string, b: string) {
    a < b || exists n :: 0 <= n < |a| && n < |b| && a[..n] == b[..n] && a[n] < b[n]
  }

  lemma BeforeTail(a: string, b: string)
    requires a != [] && b != [] && a[0] == b[0]
    ensures Before(a, b) <==> Before(a[1..], b[1..])
  {
    assert a == [a[0]] + a[1..] && b == [b[0]] + b[1..];
    if n :| 0 <= n < |a| && n < |b| && a[..n] == b[..n] && a[n] < b[n] {
      assert a[1..][..n - 1] == a[..n][1..] == b[..n][1..] == b[1..][..n - 1];
      assert a[1..][n - 1] < b[1..][n - 1];
    }
    if n :| 0 <= n < |a[1..]| && n < |b[1..]| && a[1..][..n] == b[1..][..n] && a[1..][n] < b[1..][n] {
      assert a[..n + 1] == [a[0]] + a[1..][..n] && b[..n + 1] == [b[0]] + b[1..][..n];
      assert a[n + 1] < b[n + 1];
    }
  }

  /** What the comparison means. */
  lemma {:induction false} CompareMeans(a: string, b: string)
    ensures Compare(a, b) < 0 <==> Before(a, b)
  {
    if a != [] && b != [] {
      if a[0] == b[0] {
        CompareMeans(a[1..], b[1..]);
        BeforeTail(a, b);
      } else {
        assert a[..0] == b[..0];
      }
    }
  }

  lemma ComparePoolsLaws(p: Pool, q: Pool)
    ensures ComparePools(p, q) == 0 <==> SameKey(p, q)
    ensures ComparePools(p, q) == -ComparePools(q, p)
  {
    CompareLaws(p.namespace, q.namespace);
    CompareLaws(p.name, q.name);
  }

  lemma ComparePoolsTransitive(p: Pool, q: Pool, r: Pool)
    requires ComparePools(p, q) <= 0 && ComparePools(q, r) <= 0
    ensures ComparePools(p, r) <= 0
  {
    CompareTransitive(p.namespace, q.namespace, r.namespace);
    if Compare(p.namespace, r.namespace) == 0 {
      CompareTransitive(p.name, q.name, r.name);
    }
  }

  /** By namespace, and within a namespace by name. */
  predicate InOrder(pools: seq<Pool>) {
    forall i, j :: 0 <= i < j < |pools| ==>
      || Before(pools[i].namespace, pools[j].namespace)
      || (pools[i].namespace == pools[j].namespace
          && (Before(pools[i].name, pools[j].name) || pools[i].name == pools[j].name))
  }

  lemma SortedMeans(pools: seq<Pool>)
    ensures Sorted(pools) <==> InOrder(pools)
  {
    hide Compare, Before;
    forall i, j | 0 <= i < j < |pools|
      ensures ComparePools(pools[i], pools[j]) <= 0 <==>
        || Before(pools[i].namespace, pools[j].namespace)
        || (pools[i].namespace == pools[j].namespace
            && (Before(pools[i].name, pools[j].name) || pools[i].name == pools[j].name))
    {
      CompareMeans(pools[i].namespace, pools[j].namespace);
      CompareMeans(pools[i].name, pools[j].name);
      CompareLaws(pools[i].namespace, pools[j].namespace);
      CompareLaws(pools[i].name, pools[j].name);
    }
  }

  // ---------------------------------------------------------------- sorting in place

  predicate Permutation(a: seq<Pool>, b: seq<Pool>) {
    multiset(a) == multiset(b)
  }

  method Swap(a: array<Pool>, j: nat)
    requires 0 < j < a.Length
    modifies a
    ensures a[..] == old(a[..])[j - 1 := old(a[j])][j := old(a[j - 1])]
    ensures Permutation(a[..], old(a[..]))
  {
    a[j - 1], a[j] := a[j], a[j - 1];
  }

  /** The first `i + 1` entries are in order but for the one at `j`, which may belong further down. */
  predicate SortedBut(s: seq<Pool>, i: nat, j: nat) {
    i < |s| && forall p, q :: 0 <= p < q <= i && q != j ==> ComparePools(s[p], s[q]) <= 0
  }

  lemma StillSortedBut(s: seq<Pool>, i: nat, j: nat)
    requires SortedBut(s, i, j) && 0 < j <= i && ComparePools(s[j - 1], s[j]) > 0
    ensures SortedBut(s[j - 1 := s[j]][j := s[j - 1]], i, j - 1)
  {
    hide ComparePools;
    ComparePoolsLaws(s[j - 1], s[j]);
  }

  lemma SortedAgain(s: seq<Pool>, i: nat, j: nat)
    requires SortedBut(s, i, j) && j <= i && (j > 0 ==> ComparePools(s[j - 1], s[j]) <= 0)
    ensures Sorted(s[..i + 1])
  {
    hide ComparePools;
    forall p | 0 <= p < j ensures ComparePools(s[p], s[j]) <= 0 {
      if p < j - 1 {
        ComparePoolsTransitive(s[p], s[j - 1], s[j]);
      }
    }
  }

  lemma SortedButLast(s: seq<Pool>, i: nat)
    requires i < |s| && Sorted(s[..i])
    ensures SortedBut(s, i, i)
  {
    hide ComparePools;
    var front := s[..i];
    assert forall k :: 0 <= k < i ==> front[k] == s[k];
  }

  /** Moves entry `i` down to its place among the sorted entries before it. */
  method Sift(a: array<Pool>, i: nat)
    requires i < a.Length && Sorted(a[..i])
    modifies a
    ensures Sorted(a[..i + 1])
    ensures Permutation(a[..], old(a[..]))
  {
    hide ComparePools, SortedBut, Sorted;
    assert a[..][..i] == a[..i];
    SortedButLast(a[..], i);
    var j := i;
    while j > 0 && ComparePools(a[j - 1], a[j]) > 0
      invariant 0 <= j <= i && SortedBut(a[..], i, j)
      invariant Permutation(a[..], old(a[..]))
    {
      StillSortedBut(a[..], i, j);
      Swap(a, j);
      j := j - 1;
    }
    SortedAgain(a[..], i, j);
    assert a[..][..i + 1] == a[..i + 1];
  }

  method SortPools(a: array<Pool>)
    modifies a
    ensures Sorted(a[..]) && InOrder(a[..])
    ensures Permutation(a[..], old(a[..]))
  {
    hide InOrder;
    var i := 0;
    while i < a.Length
      invariant 0 <= i <= a.Length
      invariant Sorted(a[..i])
      invariant Permutation(a[..], old(a[..]))
    {
      Sift(a, i);
      i := i + 1;
    }
    assert a[..i] == a[..];
    SortedMeans(a[..]);
  }

  /** `listed` is what the API server answers, None when the call fails. */
  method GetKopsMachinePoolsWithLabel(key: string, value: string, listed: Option<seq<Pool>>) returns (r: Listing)
    ensures key == [] ==> r == Failed(LabelKeyEmpty)
    ensures key != [] && value == [] ==> r == Failed(LabelValueEmpty)
    ensures key != [] && value != [] && listed.None? ==> r == Failed(ListFailed)
    ensures key != [] && value != [] && listed.Some? ==>
      r.Listed? && Sorted(r.pools) && InOrder(r.pools) && Permutation(r.pools, listed.value)
  {
    if key == [] {
      return Failed(LabelKeyEmpty);
    }
    if value == [] {
      return Failed(LabelValueEmpty);
    }
    if listed.None? {
      return Failed(ListFailed);
    }
    var items := listed.value;
    var a := new Pool[|items|](i requires 0 <= i < |items| => items[i]);
    assert a[..] == items;
    SortPools(a);
    return Listed(a[..]);
  }

  // ---------------------------------------------------------------- the sorted list is unique

  lemma PermutationMembers(a: seq<Pool>, b: seq<Pool>)
    requires Permutation(a, b)
    ensures |a| == |b|
    ensures forall p :: p in a <==> p in b
  {
    assert |multiset(a)| == |a| && |multiset(b)| == |b|;
    forall p ensures p in a <==> p in b {
      assert p in a <==> p in multiset(a);
      assert p in b <==> p in multiset(b);
    }
  }

  lemma SortedHead(a: seq<Pool>, b: seq<Pool>)
    requires Sorted(a) && Sorted(b) && Permutation(a, b) && UniqueKeys(a) && a != [] && b != []
    ensures a[0] == b[0]
  {
    PermutationMembers(a, b);
    assert a[0] in b && b[0] in a;
    var j :| 0 <= j < |b| && b[j] == a[0];
    var i :| 0 <= i < |a| && a[i] == b[0];
    LeastFirst(a, i);
    LeastFirst(b, j);
    ComparePoolsLaws(a[0], b[0]);
    OnePerKey(a, i);
  }

  lemma OnePerKey(a: seq<Pool>, i: nat)
    requires UniqueKeys(a) && i < |a| && SameKey(a[0], a[i])
    ensures a[i] == a[0]
  {
  }

  lemma LeastFirst(a: seq<Pool>, i: nat)
    requires Sorted(a) && i < |a|
    ensures ComparePools(a[0], a[i]) <= 0
  {
    ComparePoolsLaws(a[0], a[0]);
  }

  lemma SortedTail(a: seq<Pool>)
    requires Sorted(a) && a != []
    ensures Sorted(a[1..])
  {
    hide ComparePools;
    assert forall k :: 0 <= k < |a[1..]| ==> a[1..][k] == a[k + 1];
  }

  lemma UniqueTail(a: seq<Pool>)
    requires UniqueKeys(a) && a != []
    ensures UniqueKeys(a[1..])
  {
    assert forall k :: 0 <= k < |a[1..]| ==> a[1..][k] == a[k + 1];
  }

  lemma PermutationTail(a: seq<Pool>, b: seq<Pool>)
    requires Permutation(a, b) && a != [] && b != [] && a[0] == b[0]
    ensures Permutation(a[1..], b[1..])
  {
    assert a == [a[0]] + a[1..] && b == [b[0]] + b[1..];
    assert multiset(a[1..]) == multiset(a) - multiset{a[0]};
    assert multiset(b[1..]) == multiset(b) - multiset{b[0]};
  }

  /** With unique keys there is only one sorted arrangement of a set of pools: any two orders in
      which the API server may answer are sorted into the identical sequence. */
  lemma {:induction false} SortedIsUnique(a: seq<Pool>, b: seq<Pool>)
    requires Sorted(a) && Sorted(b) && Permutation(a, b) && UniqueKeys(a)
    ensures a == b
    decreases |a|
  {
    hide ComparePools, Sorted, UniqueKeys, Permutation;
    PermutationMembers(a, b);
    if a != [] {
      SortedHead(a, b);
      SortedTail(a);
      SortedTail(b);
      UniqueTail(a);
      PermutationTail(a, b);
      SortedIsUnique(a[1..], b[1..]);
      assert a == [a[0]] + a[1..] && b == [b[0]] + b[1..];
    }
  }

  lemma {:induction false} CountAtMostOne(a: seq<Pool>, p: Pool)
    requires UniqueKeys(a)
    ensures multiset(a)[p] <= 1
  {
    if a != [] {
      CountAtMostOne(a[1..], p);
      assert a == [a[0]] + a[1..];
      if p == a[0] {
        forall i | 0 <= i < |a[1..]| ensures a[1..][i] != p {
          assert !SameKey(a[0], a[i + 1]);
        }
        assert p !in a[1..];
      }
    }
  }

  lemma CountAtLeastTwo(b: seq<Pool>, i: nat, j: nat)
    requires i < j < |b| && b[i] == b[j]
    ensures multiset(b)[b[i]] >= 2
  {
    assert b == b[..j] + b[j..];
    assert b[i] == b[..j][i] && b[j] == b[j..][0];
  }

  /** Unique keys do not depend on the order either. */
  lemma UniqueKeysPermuted(a: seq<Pool>, b: seq<Pool>)
    requires Permutation(a, b) && UniqueKeys(a)
    ensures UniqueKeys(b)
  {
    PermutationMembers(a, b);
    forall i, j | 0 <= i < j < |b| ensures !SameKey(b[i], b[j]) {
      assert b[i] in a && b[j] in a;
      if b[i] == b[j] {
        CountAtLeastTwo(b, i, j);
        CountAtMostOne(a, b[i]);
      }
    }
  }

  // ---------------------------------------------------------------- the sorted list as a function

  function Insert(p: Pool, pools: seq<Pool>): seq<Pool> {
    if pools == [] || ComparePools(p, pools[0]) <= 0 then [p] + pools
    else [pools[0]] + Insert(p, pools[1..])
  }

  function Sort(pools: seq<Pool>): seq<Pool> {
    if pools == [] then [] else Insert(pools[0], Sort(pools[1..]))
  }

  lemma {:induction false} InsertKeeps(p: Pool, pools: seq<Pool>)
    requires Sorted(pools)
    ensures Sorted(Insert(p, pools)) && Permutation(Insert(p, pools), [p] + pools)
  {
    hide ComparePools;
    if pools == [] {
    } else if ComparePools(p, pools[0]) <= 0 {
      forall j | 0 <= j < |pools| ensures ComparePools(p, pools[j]) <= 0 {
        if j > 0 { ComparePoolsTransitive(p, pools[0], pools[j]); }
      }
    } else {
      var rest := Insert(p, pools[1..]);
      InsertKeeps(p, pools[1..]);
      ComparePoolsLaws(p, pools[0]);
      PermutationMembers(rest, [p] + pools[1..]);
      forall j | 0 <= j < |rest| ensures ComparePools(pools[0], rest[j]) <= 0 {
        assert rest[j] in [p] + pools[1..];
        if rest[j] != p {
          var k :| 0 <= k < |pools[1..]| && pools[1..][k] == rest[j];
          assert pools[k + 1] == rest[j];
        }
      }
      assert pools == [pools[0]] + pools[1..];
    }
  }

  lemma {:induction false} SortCorrect(pools: seq<Pool>)
    ensures Sorted(Sort(pools)) && Permutation(Sort(pools), pools)
  {
    if pools != [] {
      SortCorrect(pools[1..]);
      InsertKeeps(pools[0], Sort(pools[1..]));
      assert pools == [pools[0]] + pools[1..];
    }
  }
}
