/** What a run does, written down as the list of its calls: all of them when none fails, and the rest of
    the run when one does. */
module Script {
  import opened Pools
  import opened Phases
  import opened Runs

  // ---------------------------------------------------------------- the lists

  const OPENING := [Phase.Opening(Fetch), Phase.Opening(CheckClass), Phase.Opening(CheckSelected),
                    Phase.Opening(FindOwner), Phase.Opening(CheckPaused)]

  function BeforeDecide(run: Input): seq<Phase> {
    [Phase.Opening(ReadCredentials)] + if run.needsRange then [Phase.Opening(ServiceRange)] else []
  }

  const VARIABLES := [Section(UnsetKey), Section(UnsetSecret), Section(SetKey), Section(SetSecret)]

  const OPEN_SECTION := [Approach(AddFinalizer), Approach(TakeLock), Section(RaiseFlag), Section(ListPools),
                         Section(MakeClient)]

  /** One pool; `known` says that its instance group was found. */
  function ForPool(dryRun: bool, p: Pool, known: bool): seq<Phase> {
    [PoolWork(NextPool)]
    + if dryRun then []
      else if p.deleting then [PoolWork(IgDelete), PoolWork(PoolOwners)]
      else [PoolWork(IgGet), PoolWork(if known then IgUpdate else IgCreate)]
  }

  function ForPools(dryRun: bool, pools: seq<Pool>, known: seq<bool>): seq<Phase>
    requires |known| == |pools|
  {
    if pools == [] then [] else ForPool(dryRun, pools[0], known[0]) + ForPools(dryRun, pools[1..], known[1..])
  }

  const CONNECT := [Building(Addons), Building(KarpenterFlag), Building(SpotinstFlags), Section(BuildCloud),
                    Building(Populate)]

  /** `stored` says that the cluster was found in the kops state. */
  function Saving(run: Input, stored: bool): seq<Phase> {
    (if stored then [Building(ClusterStatus), Building(UpdateCluster)]
     else [Building(CreateCluster), Building(AddSshKey)])
    + if run.hasSecret then [Building(ReconcileSecrets)] else []
  }

  function Render(run: Input): seq<Phase> {
    [Building(PrepareKops), Building(PrepareCustom)] + if run.pinned then [Building(PinProvider)] else []
  }

  function Publish(run: Input): seq<Phase> {
    if run.dryRun then [Building(Plan)] else [Building(ReadKubeconfig), Building(SaveKubeconfig)]
  }

  const RELEASE := [Section(ReleaseLock), Phase.LowerFlag]

  const APPLY := [Applying(Apply), Applying(ProviderIds), Applying(ListGroups), Applying(Validate), Applying(SetReady)]

  /** What comes after the pools. */
  function Build(run: Input, stored: bool): seq<Phase> {
    CONNECT + (if run.dryRun then [] else [Building(GetCluster)] + Saving(run, stored))
    + Render(run) + Publish(run) + (RELEASE + if run.dryRun then [] else APPLY)
  }

  function Normal(run: Input, pools: seq<Pool>, known: seq<bool>, stored: bool): seq<Phase>
    requires |known| == |pools|
  {
    OPEN_SECTION + VARIABLES + (ForPools(run.dryRun, pools, known) + [PoolWork(NextPool)]) + Build(run, stored)
  }

  const DESTROY := [Approach(ListToDelete), Approach(PrepareTeardown), Approach(WriteProvider), Approach(Destroy),
                    Approach(TakeLock), Section(RaiseFlag), Section(MakeClient)]

  const DELETE := [Section(BuildCloud), Section(KopsDelete)]

  function Release(n: nat): seq<Phase> {
    if n == 0 then []
    else [Teardown(NextTeardown), Teardown(TeardownOwners), Teardown(Refetch)] + Release(n - 1)
  }

  const RELEASE_CONTROL_PLANE := [Teardown(NextTeardown), Teardown(ControlPlaneOwners), Teardown(DropFinalizer)]

  function Deletion(n: nat): seq<Phase> {
    DESTROY + VARIABLES + DELETE + RELEASE + Release(n) + RELEASE_CONTROL_PLANE
  }

  function Saves(n: nat): seq<Phase> {
    if n == 0 then [] else [Closing(UpdatePools)] + Saves(n - 1)
  }

  /** The deferred closure for `n` pools; the loop is left by one more look at the list. */
  function Deferred(dryRun: bool, n: nat): seq<Phase> {
    [Closing(SafetyUnlock)]
    + if dryRun then [] else Saves(n + 1) + [Closing(UpdateControlPlane), Closing(Metric)]
  }

  /** A whole run that finds its cluster. */
  function Whole(run: Input, pools: seq<Pool>, known: seq<bool>, stored: bool): seq<Phase>
    requires |known| == |pools|
  {
    var deletes := run.deleting && !run.protected && !run.dryRun;
    var work := if deletes then Deletion(|pools|) else Normal(run, pools, known, stored);
    OPENING + (if run.paused then [] else BeforeDecide(run) + [Phase.Opening(Decide)] + work)
    + Deferred(run.dryRun, |pools|)
  }

  // ---------------------------------------------------------------- following a history

  /** The points of a history from `a` to `b`. */
  function Points(ms: seq<Moment>, a: nat, b: nat): (r: seq<Phase>)
    requires a <= b <= |ms|
    ensures |r| == b - a && forall j :: 0 <= j < b - a ==> r[j] == ms[a + j].st.phase
  {
    seq(b - a, j requires 0 <= j < b - a => ms[a + j].st.phase)
  }

  lemma Joined(ms: seq<Moment>, a: nat, b: nat, c: nat)
    requires a <= b <= c <= |ms|
    ensures Points(ms, a, b) + Points(ms, b, c) == Points(ms, a, c)
  {
  }

  /** A run from its start to its end. */
  predicate Finished(run: Input, ms: seq<Moment>, ts: seq<Turn>) {
    History(run, ms, ts) && ms[|ts|].st.phase == Done
  }

  /** Every call succeeds, or tells that the instance group or the cluster is not there yet. */
  predicate Smooth(ms: seq<Moment>, ts: seq<Turn>)
    requires |ms| == |ts| + 1
  {
    forall k :: 0 <= k < |ts| ==>
      || ts[k].o.Ok?
      || (ts[k].o.NotFound? && (ms[k].st.phase == PoolWork(IgGet) || ms[k].st.phase == Building(GetCluster)))
  }

  /** A run in which everything goes well. */
  predicate Follows(run: Input, ms: seq<Moment>, ts: seq<Turn>) {
    Finished(run, ms, ts) && Smooth(ms, ts)
  }

  /** Nothing changes that the rest of the run depends on. */
  predicate Carried(m: Moment, n: Moment) {
    n.st.teardown == m.st.teardown && n.st.pools == m.st.pools && n.past.listed == m.past.listed
  }

  lemma Go(run: Input, ms: seq<Moment>, ts: seq<Turn>, k: nat)
    requires Finished(run, ms, ts) && k <= |ts| && ms[k].st.phase != Done
    ensures k < |ts| && Possible(run, ms[k].st, ts[k].o, ts[k].c)
    ensures ms[k + 1].st.phase == NextPhase(run, ms[k].st, ts[k].o)
    ensures ms[k + 1].st.i == IndexAfter(run, ms[k].st, ts[k].o)
    ensures ms[k + 1].st.teardown ==
      (ms[k].st.teardown || (ms[k].st.phase == Phase.Opening(Decide) && ShouldDeleteCluster(run)))
    ensures ms[k + 1].st.pools == PoolsAfter(run, ms[k].st, ts[k].o, ts[k].c)
    ensures ms[k + 1].past.listed ==
      if ReadsList(ms[k].st, ts[k].o) then ms[k + 1].st.pools else ms[k].past.listed
  {
    hide NextPhase, IndexAfter, ReadyAfter, Returns, Possible, ShouldDeleteCluster;
    assert ms[k + 1] == After(run, ms[k], ts[k]);
  }

  /** Points at which nothing is listed and no pool is in hand. */
  predicate Plain(at: Phase) {
    match at
    case Opening(p) => !p.Decide?
    case Approach(p) => !p.ListToDelete?
    case Section(p) => !p.ListPools?
    case PoolWork(_) => false
    case Teardown(p) => !p.Refetch?
    case Done => false
    case _ => true
  }

  lemma PlainKeeps(run: Input, st: Run, o: Outcome, c: Cluster)
    requires Plain(st.phase)
    ensures PoolsAfter(run, st, o, c) == st.pools && !ReadsList(st, o)
  {
  }

  /** One more step at such a point. */
  lemma GoPlain(run: Input, ms: seq<Moment>, ts: seq<Turn>, k: nat)
    requires Finished(run, ms, ts) && k <= |ts| && Plain(ms[k].st.phase)
    ensures k < |ts| && Possible(run, ms[k].st, ts[k].o, ts[k].c) && Carried(ms[k], ms[k + 1])
    ensures ms[k + 1].st.phase == NextPhase(run, ms[k].st, ts[k].o)
    ensures ms[k + 1].st.i == IndexAfter(run, ms[k].st, ts[k].o)
  {
    hide NextPhase, IndexAfter, PoolsAfter, ReadsList, Possible;
    Go(run, ms, ts, k);
    PlainKeeps(run, ms[k].st, ts[k].o, ts[k].c);
  }

  /** Points that have one successor, whatever the list of pools and as long as nothing fails. */
  predicate Straight(at: Phase) {
    Plain(at) && at != Building(GetCluster) && at != Teardown(NextTeardown) && at != Closing(UpdatePools)
  }

  function Successor(run: Input, at: Phase, teardown: bool): Phase {
    NextPhase(run, Run(at, teardown, 0, [], false, false, false, false, false, false), Ok)
  }

  lemma OneSuccessor(run: Input, st: Run, o: Outcome)
    requires Straight(st.phase) && (o.Ok? || st.phase.Closing?)
    ensures NextPhase(run, st, o) == Successor(run, st.phase, st.teardown)
    ensures IndexAfter(run, st, o) ==
      if st.phase == Section(SetSecret) || st.phase == Phase.LowerFlag || st.phase == RETURN then 0 else st.i
  {
  }

  /** At such a point, and where it leads. */
  predicate Edge(run: Input, teardown: bool, at: Phase, next: Phase) {
    Straight(at) && Successor(run, at, teardown) == next
  }

  /** A piece of the history so far: its points and what it has carried along. */
  predicate Piece(ms: seq<Moment>, a: nat, k: nat, s: seq<Phase>)
  {
    a <= k < |ms| && Points(ms, a, k) == s && Carried(ms[a], ms[k])
  }

  lemma NoPiece(run: Input, ms: seq<Moment>, ts: seq<Turn>, k: nat)
    requires Finished(run, ms, ts) && k <= |ts|
    ensures |ms| == |ts| + 1 && Piece(ms, k, k, [])
  {
  }

  /** A step from one such point to the next. */
  lemma GoOn(run: Input, ms: seq<Moment>, ts: seq<Turn>, a: nat, k: nat, s: seq<Phase>, at: Phase, next: Phase)
    requires Finished(run, ms, ts) && (at.Closing? || Smooth(ms, ts))
    requires k <= |ts| && Piece(ms, a, k, s) && ms[k].st.phase == at && Edge(run, ms[a].st.teardown, at, next)
    ensures k < |ts| && Piece(ms, a, k + 1, s + [at]) && ms[k + 1].st.phase == next
    ensures ms[k + 1].st.i ==
      if at == Section(SetSecret) || at == Phase.LowerFlag || at == RETURN then 0 else ms[k].st.i
  {
    hide NextPhase, IndexAfter, Successor, Possible, History;
    Sizes(run, ms, ts);
    GoPlain(run, ms, ts, k);
    OneSuccessor(run, ms[k].st, ts[k].o);
    Joined(ms, a, k, k + 1);
  }

  lemma Sizes(run: Input, ms: seq<Moment>, ts: seq<Turn>)
    requires Finished(run, ms, ts)
    ensures |ms| == |ts| + 1
  {
  }

  /** A list of points, each of which but the last leads to the next one. */
  predicate IsChain(run: Input, teardown: bool, p: seq<Phase>) {
    forall i, j :: 0 <= i < |p| && 0 <= j < |p| && j == i + 1 ==> Edge(run, teardown, p[i], p[j])
  }

  lemma {:induction false} Chain(run: Input, ms: seq<Moment>, ts: seq<Turn>, a: nat, k: nat, s: seq<Phase>,
    p: seq<Phase>, next: Phase)
    requires Finished(run, ms, ts) && (Smooth(ms, ts) || forall j :: 0 <= j < |p| ==> p[j].Closing?)
    requires p != [] && k <= |ts| && Piece(ms, a, k, s) && ms[k].st.phase == p[0]
    requires IsChain(run, ms[a].st.teardown, p + [next])
    ensures k + |p| <= |ts| && Piece(ms, a, k + |p|, s + p) && ms[k + |p|].st.phase == next
    ensures var last := p[|p| - 1];
            last == Section(SetSecret) || last == Phase.LowerFlag || last == RETURN ==> ms[k + |p|].st.i == 0
    decreases |p|
  {
    hide Finished, Smooth, Edge, Piece;
    Sizes(run, ms, ts);
    InPiece(ms, a, k, s);
    var q := p + [next];
    GoOn(run, ms, ts, a, k, s, q[0], q[1]);
    if |p| == 1 {
      assert p == [p[0]];
    } else {
      TailOfChain(run, ms[a].st.teardown, p, next);
      Chain(run, ms, ts, a, k + 1, s + [p[0]], p[1..], next);
      assert s + [p[0]] + p[1..] == s + p;
    }
  }

  lemma TailOfChain(run: Input, teardown: bool, p: seq<Phase>, next: Phase)
    requires p != [] && IsChain(run, teardown, p + [next])
    ensures IsChain(run, teardown, p[1..] + [next])
  {
    hide Edge;
    var q, r := p + [next], p[1..] + [next];
    assert forall k :: 0 <= k < |r| ==> r[k] == q[k + 1];
  }

  lemma InPiece(ms: seq<Moment>, a: nat, k: nat, s: seq<Phase>)
    requires Piece(ms, a, k, s)
    ensures a <= k < |ms|
  {
  }

  // ---------------------------------------------------------------- the closure

  lemma SaveOne(run: Input, ms: seq<Moment>, ts: seq<Turn>, k: nat)
    requires Finished(run, ms, ts) && k <= |ts| && ms[k].st.phase == Closing(UpdatePools)
    ensures k < |ts| && Carried(ms[k], ms[k + 1])
    ensures ms[k + 1].st.phase ==
      Closing(if ms[k].st.i < |ms[k].st.pools| then UpdatePools else UpdateControlPlane)
    ensures ms[k].st.i < |ms[k].st.pools| ==> ms[k + 1].st.i == ms[k].st.i + 1
  {
    hide History;
    GoPlain(run, ms, ts, k);
  }

  lemma SavesOn(run: Input, ms: seq<Moment>, ts: seq<Turn>, k: nat) returns (n: nat)
    requires Finished(run, ms, ts) && k <= |ts|
    requires ms[k].st.phase == Closing(UpdatePools) && ms[k].st.i <= |ms[k].st.pools|
    ensures k <= n <= |ts| && ms[n].st.phase == Closing(UpdateControlPlane)
    ensures Points(ms, k, n) == Saves(|ms[k].st.pools| + 1 - ms[k].st.i)
    decreases |ms[k].st.pools| - ms[k].st.i
  {
    hide Finished;
    Sizes(run, ms, ts);
    SaveOne(run, ms, ts, k);
    if ms[k].st.i < |ms[k].st.pools| {
      n := SavesOn(run, ms, ts, k + 1);
    } else {
      n := k + 1;
      assert Saves(0) == [];
    }
    Joined(ms, k, k + 1, n);
  }

  /** From a return statement on: the mutex, every pool in the list, the control plane and the gauge,
      whatever has failed and whatever fails now; after a dry run the mutex alone. */
  lemma DeferredCalls(run: Input, ms: seq<Moment>, ts: seq<Turn>, k: nat)
    requires Finished(run, ms, ts) && k <= |ts| && ms[k].st.phase == RETURN
    ensures Points(ms, k, |ts|) == Deferred(run.dryRun, |ms[k].st.pools|)
  {
    hide Finished, IsChain, Piece, Edge, Straight, Plain, Carried, Smooth;
    Sizes(run, ms, ts);
    LeavesBody(run, ms, ts, k);
    if run.dryRun {
      EndsAt(run, ms, ts, k + 1);
    } else {
      var n := SavesOn(run, ms, ts, k + 1);
      LastSaves(run, ms, ts, n);
      Joined(ms, k + 1, n, |ts|);
      Joined(ms, k, k + 1, |ts|);
    }
  }

  lemma LeavesBody(run: Input, ms: seq<Moment>, ts: seq<Turn>, k: nat)
    requires Finished(run, ms, ts) && k <= |ts| && ms[k].st.phase == RETURN
    ensures k < |ts| && Points(ms, k, k + 1) == [RETURN] && ms[k + 1].st.pools == ms[k].st.pools
    ensures ms[k + 1].st.phase == (if run.dryRun then Done else Closing(UpdatePools)) && ms[k + 1].st.i == 0
  {
    hide Finished, IsChain, Edge, Straight, Plain, Smooth;
    NoPiece(run, ms, ts, k);
    ClosingOrder(run, ms[k].st.teardown);
    Chain(run, ms, ts, k, k, [], [RETURN], if run.dryRun then Done else Closing(UpdatePools));
  }

  lemma LastSaves(run: Input, ms: seq<Moment>, ts: seq<Turn>, k: nat)
    requires Finished(run, ms, ts) && k <= |ts| && ms[k].st.phase == Closing(UpdateControlPlane)
    ensures k + 2 == |ts| && Points(ms, k, |ts|) == [Closing(UpdateControlPlane), Closing(Metric)]
  {
    hide Finished, IsChain, Edge, Straight, Plain, Smooth;
    NoPiece(run, ms, ts, k);
    ClosingOrder(run, ms[k].st.teardown);
    Chain(run, ms, ts, k, k, [], [Closing(UpdateControlPlane), Closing(Metric)], Done);
    EndsAt(run, ms, ts, k + 2);
  }

  lemma ClosingOrder(run: Input, teardown: bool)
    ensures IsChain(run, teardown, [RETURN] + [if run.dryRun then Done else Closing(UpdatePools)])
    ensures IsChain(run, teardown, [Closing(UpdateControlPlane), Closing(Metric)] + [Done])
  {
  }

  /** There is nothing after the end. */
  lemma EndsAt(run: Input, ms: seq<Moment>, ts: seq<Turn>, k: nat)
    requires Finished(run, ms, ts) && k <= |ts| && ms[k].st.phase == Done
    ensures k == |ts|
  {
    hide Step, Remember;
  }

  // ---------------------------------------------------------------- the loops

  /** A step of the loop over the pools. */
  lemma GoInLoop(run: Input, ms: seq<Moment>, ts: seq<Turn>, k: nat)
    requires Finished(run, ms, ts) && k <= |ts| && ms[k].st.phase.PoolWork?
    ensures k < |ts| && Possible(run, ms[k].st, ts[k].o, ts[k].c)
    ensures ms[k + 1].st.phase == NextPoolWork(run, ms[k].st, ms[k].st.phase.pool, ts[k].o)
    ensures ms[k + 1].st.i == if ms[k + 1].st.phase == PoolWork(NextPool) then ms[k].st.i + 1 else ms[k].st.i
    ensures ms[k + 1].st.teardown == ms[k].st.teardown && ms[k + 1].past.listed == ms[k].past.listed
    ensures SameButOne(ms[k].st.pools, ms[k + 1].st.pools, ms[k].st.i)
  {
    hide History, Possible, NextPoolWork, PoolsAfter, SameButOne;
    Sizes(run, ms, ts);
    Go(run, ms, ts, k);
    PoolsInLoop(run, ms[k].st, ts[k].o, ts[k].c);
  }

  lemma PoolsInLoop(run: Input, st: Run, o: Outcome, c: Cluster)
    requires st.phase.PoolWork?
    ensures SameButOne(st.pools, PoolsAfter(run, st, o, c), st.i) && !ReadsList(st, o)
  {
  }

  lemma PoolsInTeardown(run: Input, st: Run, o: Outcome, c: Cluster)
    requires st.phase.Teardown?
    ensures |PoolsAfter(run, st, o, c)| == |st.pools| && !ReadsList(st, o)
  {
    hide Lookup;
  }

  /** At most entry `i` is another one, and it is marked for deletion or not as before. */
  predicate SameButOne(a: seq<Pool>, b: seq<Pool>, i: nat) {
    && |a| == |b| && (forall j :: 0 <= j < |a| && j != i ==> a[j] == b[j])
    && (i < |a| ==> a[i].deleting == b[i].deleting)
  }

  lemma OnePool(run: Input, ms: seq<Moment>, ts: seq<Turn>, k: nat) returns (n: nat, known: bool)
    requires Finished(run, ms, ts) && Smooth(ms, ts) && k <= |ts|
    requires ms[k].st.phase == PoolWork(NextPool) && ms[k].st.i < |ms[k].st.pools|
    ensures k < n <= |ts| && Points(ms, k, n) == ForPool(run.dryRun, ms[k].st.pools[ms[k].st.i], known)
    ensures ms[n].st.phase == PoolWork(NextPool) && ms[n].st.i == ms[k].st.i + 1
    ensures ms[n].st.teardown == ms[k].st.teardown && ms[n].past.listed == ms[k].past.listed
    ensures SameButOne(ms[k].st.pools, ms[n].st.pools, ms[k].st.i)
  {
    hide Finished, Possible, NextPoolWork, SameButOne, Smooth, Points;
    Sizes(run, ms, ts);
    GoInLoop(run, ms, ts, k);
    FirstOfPool(run, ms[k].st, ts[k].o);
    n, known := k + 1, false;
    if !run.dryRun {
      TwoOfPool(run, ms, ts, k + 1);
      n, known := k + 3, ts[k + 1].o.Ok?;
      Joined(ms, k, k + 1, k + 3);
      SameTwice(ms[k].st.pools, ms[k + 1].st.pools, ms[n].st.pools, ms[k].st.i);
    }
  }

  lemma FirstOfPool(run: Input, st: Run, o: Outcome)
    requires st.i < |st.pools|
    ensures NextPoolWork(run, st, NextPool, o) ==
      PoolWork(if run.dryRun then NextPool else if st.pools[st.i].deleting then IgDelete else IgGet)
  {
  }

  lemma SameTwice(a: seq<Pool>, b: seq<Pool>, c: seq<Pool>, i: nat)
    requires SameButOne(a, b, i) && SameButOne(b, c, i)
    ensures SameButOne(a, c, i)
  {
  }

  lemma TwoOfPool(run: Input, ms: seq<Moment>, ts: seq<Turn>, k: nat)
    requires Finished(run, ms, ts) && Smooth(ms, ts) && k <= |ts|
    requires ms[k].st.phase == PoolWork(IgDelete) || ms[k].st.phase == PoolWork(IgGet)
    ensures k + 2 <= |ts| && ms[k + 2].st.phase == PoolWork(NextPool) && ms[k + 2].st.i == ms[k].st.i + 1
    ensures Points(ms, k, k + 2) == [ms[k].st.phase,
      PoolWork(if ms[k].st.phase == PoolWork(IgDelete) then PoolOwners else if ts[k].o.Ok? then IgUpdate else IgCreate)]
    ensures ms[k + 2].st.teardown == ms[k].st.teardown && ms[k + 2].past.listed == ms[k].past.listed
    ensures SameButOne(ms[k].st.pools, ms[k + 2].st.pools, ms[k].st.i)
  {
    hide Finished, Possible, SameButOne;
    Sizes(run, ms, ts);
    GoInLoop(run, ms, ts, k);
    GoInLoop(run, ms, ts, k + 1);
    SameTwice(ms[k].st.pools, ms[k + 1].st.pools, ms[k + 2].st.pools, ms[k].st.i);
  }

  lemma {:induction false} AllPools(run: Input, ms: seq<Moment>, ts: seq<Turn>, k: nat)
    returns (n: nat, known: seq<bool>)
    requires Finished(run, ms, ts) && Smooth(ms, ts) && k <= |ts|
    requires ms[k].st.phase == PoolWork(NextPool) && ms[k].st.i <= |ms[k].st.pools|
    ensures k < n <= |ts| && |known| == |ms[k].st.pools| - ms[k].st.i
    ensures Points(ms, k, n) == ForPools(run.dryRun, ms[k].st.pools[ms[k].st.i..], known) + [PoolWork(NextPool)]
    ensures ms[n].st.phase == Building(Addons)
    ensures ms[n].st.teardown == ms[k].st.teardown && ms[n].past.listed == ms[k].past.listed
    ensures |ms[n].st.pools| == |ms[k].st.pools|
    decreases |ms[k].st.pools| - ms[k].st.i
  {
    hide Finished, Smooth, ForPool;
    Sizes(run, ms, ts);
    var pools, i := ms[k].st.pools, ms[k].st.i;
    if i < |pools| {
      var m, found := OnePool(run, ms, ts, k);
      assert ms[m].st.pools[i + 1..] == pools[i..][1..];
      var others;
      n, others := AllPools(run, ms, ts, m);
      known := [found] + others;
      Joined(ms, k, m, n);
      assert known[1..] == others;
    } else {
      GoInLoop(run, ms, ts, k);
      n, known := k + 1, [];
    }
  }

  lemma GoInTeardown(run: Input, ms: seq<Moment>, ts: seq<Turn>, k: nat)
    requires Finished(run, ms, ts) && Smooth(ms, ts) && k <= |ts| && ms[k].st.phase.Teardown?
    ensures k < |ts| && ms[k + 1].past.listed == ms[k].past.listed && |ms[k + 1].st.pools| == |ms[k].st.pools|
    ensures ms[k + 1].st.phase == NextTeardownPhase(ms[k].st, ms[k].st.phase.teardown, Ok)
    ensures ms[k + 1].st.i == if ms[k].st.phase == Teardown(Refetch) then ms[k].st.i + 1 else ms[k].st.i
  {
    hide History, Possible, PoolsAfter;
    Sizes(run, ms, ts);
    Go(run, ms, ts, k);
    PoolsInTeardown(run, ms[k].st, ts[k].o, ts[k].c);
  }

  lemma ThreeReleasing(run: Input, ms: seq<Moment>, ts: seq<Turn>, k: nat)
    requires Finished(run, ms, ts) && Smooth(ms, ts) && k <= |ts|
    requires ms[k].st.phase == Teardown(NextTeardown) && ms[k].st.i <= |ms[k].st.pools|
    ensures k + 3 <= |ts| && ms[k + 3].past.listed == ms[k].past.listed
    ensures |ms[k + 3].st.pools| == |ms[k].st.pools|
    ensures if ms[k].st.i < |ms[k].st.pools|
            then Points(ms, k, k + 3) == [Teardown(NextTeardown), Teardown(TeardownOwners), Teardown(Refetch)]
              && ms[k + 3].st.phase == Teardown(NextTeardown) && ms[k + 3].st.i == ms[k].st.i + 1
            else Points(ms, k, k + 3) == RELEASE_CONTROL_PLANE && ms[k + 3].st.phase == RETURN
  {
    hide Finished, Smooth;
    Sizes(run, ms, ts);
    GoInTeardown(run, ms, ts, k);
    GoInTeardown(run, ms, ts, k + 1);
    GoInTeardown(run, ms, ts, k + 2);
  }

  lemma {:induction false} AllReleased(run: Input, ms: seq<Moment>, ts: seq<Turn>, k: nat) returns (n: nat)
    requires Finished(run, ms, ts) && Smooth(ms, ts) && k <= |ts|
    requires ms[k].st.phase == Teardown(NextTeardown) && ms[k].st.i <= |ms[k].st.pools|
    ensures k < n <= |ts| && ms[n].st.phase == RETURN
    ensures Points(ms, k, n) == Release(|ms[k].st.pools| - ms[k].st.i) + RELEASE_CONTROL_PLANE
    ensures ms[n].past.listed == ms[k].past.listed && |ms[n].st.pools| == |ms[k].st.pools|
    decreases |ms[k].st.pools| - ms[k].st.i
  {
    hide Finished, Smooth;
    Sizes(run, ms, ts);
    ThreeReleasing(run, ms, ts, k);
    if ms[k].st.i < |ms[k].st.pools| {
      n := AllReleased(run, ms, ts, k + 3);
      Joined(ms, k, k + 3, n);
    } else {
      n := k + 3;
      assert Release(0) == [];
    }
  }

  // ---------------------------------------------------------------- straight pieces

  lemma OpeningOrder(run: Input)
    requires run.sameClass && run.selected && run.hasOwner
    ensures IsChain(run, false, OPENING + [if run.paused then RETURN else Phase.Opening(ReadCredentials)])
  {
  }

  lemma InputsOrder(run: Input)
    ensures IsChain(run, false, BeforeDecide(run) + [Phase.Opening(Decide)])
  {
  }

  const TO_LIST := [Approach(AddFinalizer), Approach(TakeLock), Section(RaiseFlag)]

  lemma ToListOrder(run: Input)
    ensures IsChain(run, false, TO_LIST + [Section(ListPools)])
    ensures IsChain(run, false, [Section(MakeClient)] + [Section(UnsetKey)])
  {
  }

  lemma VariablesOrder(run: Input, teardown: bool)
    ensures IsChain(run, teardown, VARIABLES + [if teardown then Section(BuildCloud) else PoolWork(NextPool)])
  {
  }

  lemma ConnectOrder(run: Input)
    ensures IsChain(run, false, CONNECT + [Building(if run.dryRun then PrepareKops else GetCluster)])
  {
  }

  lemma SavingOrder(run: Input, stored: bool)
    ensures IsChain(run, false, Saving(run, stored) + [Building(PrepareKops)])
  {
  }

  lemma RenderOrder(run: Input)
    ensures IsChain(run, false, Render(run) + [Building(if run.dryRun then Plan else ReadKubeconfig)])
  {
  }

  lemma PublishOrder(run: Input)
    ensures IsChain(run, false, Publish(run) + [Section(ReleaseLock)])
  {
  }

  lemma ReleaseOrder(run: Input, teardown: bool)
    ensures IsChain(run, teardown, RELEASE +
      [if teardown then Teardown(NextTeardown) else if run.dryRun then RETURN else Applying(Apply)])
  {
  }

  lemma ApplyOrder(run: Input)
    ensures IsChain(run, false, APPLY + [RETURN])
  {
  }

  const TO_LOCK := [Approach(PrepareTeardown), Approach(WriteProvider), Approach(Destroy), Approach(TakeLock)]

  lemma DestroyOrder(run: Input)
    ensures IsChain(run, true, TO_LOCK + [Section(RaiseFlag)])
    ensures IsChain(run, true, [Section(RaiseFlag), Section(MakeClient)] + [Section(UnsetKey)])
  {
  }

  lemma DeleteOrder(run: Input)
    ensures IsChain(run, true, DELETE + [Section(ReleaseLock)])
  {
  }

  // ---------------------------------------------------------------- whole runs

  lemma GoThrough(run: Input, ms: seq<Moment>, ts: seq<Turn>, k: nat, p: seq<Phase>, next: Phase) returns (n: nat)
    requires Finished(run, ms, ts) && Smooth(ms, ts) && k <= |ts| && p != [] && ms[k].st.phase == p[0]
    requires IsChain(run, ms[k].st.teardown, p + [next])
    ensures n == k + |p| <= |ts| && Points(ms, k, n) == p && Carried(ms[k], ms[n]) && ms[n].st.phase == next
    ensures p[|p| - 1] == Section(SetSecret) || p[|p| - 1] == Phase.LowerFlag ==> ms[n].st.i == 0
  {
    hide Finished, Smooth, IsChain, Carried, Points;
    NoPiece(run, ms, ts, k);
    Chain(run, ms, ts, k, k, [], p, next);
    n := k + |p|;
    assert [] + p == p;
  }

  /** At the decision, in any history: a deletion is taken exactly for a control plane that is marked
      for deletion and not protected, in a run that is no dry run. */
  lemma DeletionTaken(run: Input, ms: seq<Moment>, ts: seq<Turn>, k: nat)
    requires History(run, ms, ts) && k < |ts| && ms[k].st.phase == Phase.Opening(Decide)
    ensures ms[k + 1].st.phase == Approach(ListToDelete) && ms[k + 1].st.teardown <==>
      run.deleting && !run.protected && !run.dryRun
    ensures ms[k + 1].st.phase == Approach(AddFinalizer) && !ms[k + 1].st.teardown <==>
      !run.deleting || run.protected || run.dryRun
  {
    InvHistory(run, ms, ts, k);
    assert ms[k + 1] == After(run, ms[k], ts[k]);
  }

  lemma Decides(run: Input, ms: seq<Moment>, ts: seq<Turn>, k: nat)
    requires Finished(run, ms, ts) && k <= |ts| && ms[k].st.phase == Phase.Opening(Decide)
    ensures k < |ts| && Points(ms, k, k + 1) == [Phase.Opening(Decide)]
    ensures ms[k + 1].st.teardown <==> run.deleting && !run.protected && !run.dryRun
    ensures ms[k + 1].st.phase == Approach(if ms[k + 1].st.teardown then ListToDelete else AddFinalizer)
  {
    hide History, Possible, Step, Remember;
    Sizes(run, ms, ts);
    NotAtEnd(run, ms, ts, k);
    DeletionTaken(run, ms, ts, k);
  }

  lemma NotAtEnd(run: Input, ms: seq<Moment>, ts: seq<Turn>, k: nat)
    requires Finished(run, ms, ts) && k <= |ts| && ms[k].st.phase != Done
    ensures k < |ts|
  {
  }

  lemma Lists(run: Input, ms: seq<Moment>, ts: seq<Turn>, k: nat)
    requires Finished(run, ms, ts) && Smooth(ms, ts) && k <= |ts|
    requires ms[k].st.phase == Approach(ListToDelete) || ms[k].st.phase == Section(ListPools)
    ensures k < |ts| && Points(ms, k, k + 1) == [ms[k].st.phase] && ms[k + 1].st.teardown == ms[k].st.teardown
    ensures ms[k + 1].past.listed == ms[k + 1].st.pools
    ensures ms[k + 1].st.phase == if ms[k].st.phase.Approach? then Approach(PrepareTeardown) else Section(MakeClient)
  {
    hide History, Possible, PoolsAfter;
    Sizes(run, ms, ts);
    Go(run, ms, ts, k);
  }

  lemma OpensSection(run: Input, ms: seq<Moment>, ts: seq<Turn>, k: nat) returns (n: nat)
    requires Finished(run, ms, ts) && Smooth(ms, ts) && k <= |ts|
    requires ms[k].st.phase == Approach(AddFinalizer) && !ms[k].st.teardown
    ensures k < n <= |ts| && Points(ms, k, n) == OPEN_SECTION + VARIABLES
    ensures ms[n].st.phase == PoolWork(NextPool) && ms[n].st.i == 0 && !ms[n].st.teardown
    ensures ms[n].past.listed == ms[n].st.pools
  {
    hide Finished, Smooth, IsChain, Points;
    Sizes(run, ms, ts);
    ToListOrder(run);
    VariablesOrder(run, false);
    var a := GoThrough(run, ms, ts, k, TO_LIST, Section(ListPools));
    Lists(run, ms, ts, a);
    var b := GoThrough(run, ms, ts, a + 1, [Section(MakeClient)], Section(UnsetKey));
    n := GoThrough(run, ms, ts, b, VARIABLES, PoolWork(NextPool));
    Joined(ms, a, a + 1, b);
    Joined(ms, k, a, b);
    Joined(ms, k, b, n);
    assert TO_LIST + ([Section(ListPools)] + [Section(MakeClient)]) == OPEN_SECTION;
  }

  lemma SavesCluster(run: Input, ms: seq<Moment>, ts: seq<Turn>, k: nat) returns (n: nat, stored: bool)
    requires Finished(run, ms, ts) && Smooth(ms, ts) && k <= |ts|
    requires ms[k].st.phase == Building(if run.dryRun then PrepareKops else GetCluster) && !ms[k].st.teardown
    ensures k <= n <= |ts|
    ensures Points(ms, k, n) == (if run.dryRun then [] else [Building(GetCluster)] + Saving(run, stored))
    ensures ms[n].st.phase == Building(PrepareKops) && Carried(ms[k], ms[n])
  {
    hide Finished, Smooth, IsChain, Possible, Points;
    Sizes(run, ms, ts);
    n, stored := k, false;
    if !run.dryRun {
      LooksUp(run, ms, ts, k);
      stored := ts[k].o.Ok?;
      SavingOrder(run, stored);
      n := GoThrough(run, ms, ts, k + 1, Saving(run, stored), Building(PrepareKops));
      Joined(ms, k, k + 1, n);
    }
  }

  lemma LooksUp(run: Input, ms: seq<Moment>, ts: seq<Turn>, k: nat)
    requires Finished(run, ms, ts) && Smooth(ms, ts) && k <= |ts| && ms[k].st.phase == Building(GetCluster)
    ensures k < |ts| && Points(ms, k, k + 1) == [Building(GetCluster)] && Carried(ms[k], ms[k + 1])
    ensures ms[k + 1].st.phase == Building(if ts[k].o.Ok? then ClusterStatus else CreateCluster)
  {
    hide History, Possible;
    Sizes(run, ms, ts);
    GoPlain(run, ms, ts, k);
  }

  lemma Builds(run: Input, ms: seq<Moment>, ts: seq<Turn>, k: nat) returns (n: nat, stored: bool)
    requires Finished(run, ms, ts) && Smooth(ms, ts) && k <= |ts|
    requires ms[k].st.phase == Building(Addons) && !ms[k].st.teardown
    ensures k <= n <= |ts| && Carried(ms[k], ms[n])
    ensures Points(ms, k, n) ==
      CONNECT + (if run.dryRun then [] else [Building(GetCluster)] + Saving(run, stored))
      + Render(run) + Publish(run)
    ensures ms[n].st.phase == Section(ReleaseLock)
  {
    hide Finished, Smooth, IsChain, Points, Saving;
    Sizes(run, ms, ts);
    ConnectOrder(run);
    RenderOrder(run);
    PublishOrder(run);
    var a := GoThrough(run, ms, ts, k, CONNECT, Building(if run.dryRun then PrepareKops else GetCluster));
    var b;
    b, stored := SavesCluster(run, ms, ts, a);
    var c := GoThrough(run, ms, ts, b, Render(run), Building(if run.dryRun then Plan else ReadKubeconfig));
    n := GoThrough(run, ms, ts, c, Publish(run), Section(ReleaseLock));
    Joined(ms, k, a, b);
    Joined(ms, k, b, c);
    Joined(ms, k, c, n);
  }

  lemma EndsNormally(run: Input, ms: seq<Moment>, ts: seq<Turn>, k: nat) returns (n: nat)
    requires Finished(run, ms, ts) && Smooth(ms, ts) && k <= |ts|
    requires ms[k].st.phase == Section(ReleaseLock) && !ms[k].st.teardown
    ensures k <= n <= |ts| && Carried(ms[k], ms[n]) && ms[n].st.phase == RETURN
    ensures Points(ms, k, n) == RELEASE + if run.dryRun then [] else APPLY
  {
    hide Finished, Smooth, IsChain, Points;
    Sizes(run, ms, ts);
    ReleaseOrder(run, false);
    n := GoThrough(run, ms, ts, k, RELEASE, if run.dryRun then RETURN else Applying(Apply));
    if !run.dryRun {
      var a := n;
      ApplyOrder(run);
      n := GoThrough(run, ms, ts, a, APPLY, RETURN);
      Joined(ms, k, a, n);
    }
  }

  lemma BuildsToEnd(run: Input, ms: seq<Moment>, ts: seq<Turn>, k: nat) returns (n: nat, stored: bool)
    requires Finished(run, ms, ts) && Smooth(ms, ts) && k <= |ts|
    requires ms[k].st.phase == Building(Addons) && !ms[k].st.teardown
    ensures k <= n <= |ts| && Carried(ms[k], ms[n]) && ms[n].st.phase == RETURN
    ensures Points(ms, k, n) == Build(run, stored)
  {
    hide Finished, Smooth, Points, Saving, Render, Publish;
    Sizes(run, ms, ts);
    var a;
    a, stored := Builds(run, ms, ts, k);
    n := EndsNormally(run, ms, ts, a);
    Joined(ms, k, a, n);
  }

  lemma NormalRun(run: Input, ms: seq<Moment>, ts: seq<Turn>, k: nat)
    returns (n: nat, known: seq<bool>, stored: bool)
    requires Finished(run, ms, ts) && Smooth(ms, ts) && k <= |ts|
    requires ms[k].st.phase == Approach(AddFinalizer) && !ms[k].st.teardown
    ensures k <= n <= |ts| && ms[n].st.phase == RETURN
    ensures |known| == |ms[n].past.listed| == |ms[n].st.pools|
    ensures Points(ms, k, n) == Normal(run, ms[n].past.listed, known, stored)
  {
    hide Finished, Smooth, Points, ForPools, Build;
    Sizes(run, ms, ts);
    var a := OpensSection(run, ms, ts, k);
    var b;
    b, known := AllPools(run, ms, ts, a);
    n, stored := BuildsToEnd(run, ms, ts, b);
    assert ms[a].st.pools[0..] == ms[a].st.pools;
    Joined(ms, k, a, b);
    Joined(ms, k, b, n);
  }

  lemma DeletionRun(run: Input, ms: seq<Moment>, ts: seq<Turn>, k: nat) returns (n: nat)
    requires Finished(run, ms, ts) && Smooth(ms, ts) && k <= |ts|
    requires ms[k].st.phase == Approach(ListToDelete) && ms[k].st.teardown
    ensures k <= n <= |ts| && ms[n].st.phase == RETURN && |ms[n].past.listed| == |ms[n].st.pools|
    ensures Points(ms, k, n) == Deletion(|ms[n].past.listed|)
  {
    hide Finished, Smooth, Points, Release, IsChain, Deletion, ToKops;
    Sizes(run, ms, ts);
    Lists(run, ms, ts, k);
    var a := LeavesForKops(run, ms, ts, k + 1);
    n := AllReleased(run, ms, ts, a);
    Joined(ms, k, k + 1, a);
    Joined(ms, k, a, n);
    DeletionParts(|ms[n].past.listed|);
  }

  function ToKops(): seq<Phase> {
    TO_LOCK + [Section(RaiseFlag), Section(MakeClient)] + VARIABLES + DELETE + RELEASE
  }

  lemma DeletionParts(n: nat)
    ensures [Approach(ListToDelete)] + ToKops() + (Release(n) + RELEASE_CONTROL_PLANE) == Deletion(n)
  {
    hide Release;
    assert [Approach(ListToDelete)] + (TO_LOCK + [Section(RaiseFlag), Section(MakeClient)]) == DESTROY;
    assert [Approach(ListToDelete)] + ToKops() == DESTROY + VARIABLES + DELETE + RELEASE;
  }

  lemma LeavesForKops(run: Input, ms: seq<Moment>, ts: seq<Turn>, k: nat) returns (n: nat)
    requires Finished(run, ms, ts) && Smooth(ms, ts) && k <= |ts|
    requires ms[k].st.phase == Approach(PrepareTeardown) && ms[k].st.teardown
    ensures k <= n <= |ts| && Carried(ms[k], ms[n])
    ensures ms[n].st.phase == Teardown(NextTeardown) && ms[n].st.i == 0
    ensures Points(ms, k, n) == ToKops()
  {
    hide Finished, Smooth, Points, IsChain;
    Sizes(run, ms, ts);
    DestroyOrder(run);
    VariablesOrder(run, true);
    DeleteOrder(run);
    ReleaseOrder(run, true);
    var a := GoThrough(run, ms, ts, k, TO_LOCK, Section(RaiseFlag));
    var b := GoThrough(run, ms, ts, a, [Section(RaiseFlag), Section(MakeClient)], Section(UnsetKey));
    var c := GoThrough(run, ms, ts, b, VARIABLES, Section(BuildCloud));
    var d := GoThrough(run, ms, ts, c, DELETE, Section(ReleaseLock));
    n := GoThrough(run, ms, ts, d, RELEASE, Teardown(NextTeardown));
    Joined(ms, k, a, b);
    Joined(ms, k, b, c);
    Joined(ms, k, c, d);
    Joined(ms, k, d, n);
  }

  lemma Begins(run: Input, ms: seq<Moment>, ts: seq<Turn>)
    requires Finished(run, ms, ts)
    ensures ms[0].st.phase == Phase.Opening(Fetch) && !ms[0].st.teardown && ms[0].st.pools == [] == ms[0].past.listed
  {
  }

  lemma WorkOf(run: Input, ms: seq<Moment>, ts: seq<Turn>, k: nat) returns (n: nat, known: seq<bool>, stored: bool)
    requires Finished(run, ms, ts) && Smooth(ms, ts) && k <= |ts|
    requires ms[k].st.phase == Phase.Opening(ReadCredentials) && !ms[k].st.teardown
    ensures k <= n <= |ts| && ms[n].st.phase == RETURN
    ensures |known| == |ms[n].past.listed| == |ms[n].st.pools|
    ensures Points(ms, k, n) == BeforeDecide(run) + [Phase.Opening(Decide)] +
      if run.deleting && !run.protected && !run.dryRun then Deletion(|ms[n].past.listed|)
      else Normal(run, ms[n].past.listed, known, stored)
  {
    hide Finished, Smooth, Points, IsChain, Deletion, Normal;
    Sizes(run, ms, ts);
    InputsOrder(run);
    var a := GoThrough(run, ms, ts, k, BeforeDecide(run), Phase.Opening(Decide));
    Decides(run, ms, ts, a);
    Joined(ms, k, a, a + 1);
    if ms[a + 1].st.teardown {
      n := DeletionRun(run, ms, ts, a + 1);
      known, stored := seq(|ms[n].past.listed|, _ => false), false;
    } else {
      n, known, stored := NormalRun(run, ms, ts, a + 1);
    }
    Joined(ms, k, a + 1, n);
  }

  /** A run in which no call fails makes exactly the calls of the source, in their order: the opening;
      unless the cluster is paused, the deletion of every listed pool or the normal path with every
      listed pool; and the closure. Only whether an instance group or the cluster is there already
      is left open. */
  lemma WholeRun(run: Input, ms: seq<Moment>, ts: seq<Turn>) returns (known: seq<bool>, stored: bool)
    requires Finished(run, ms, ts) && Smooth(ms, ts) && run.sameClass && run.selected && run.hasOwner
    ensures |known| == |ms[|ts|].past.listed|
    ensures Points(ms, 0, |ts|) == Whole(run, ms[|ts|].past.listed, known, stored)
  {
    hide Finished, Smooth, Points, IsChain, Deletion, Normal, Deferred, BeforeDecide;
    Sizes(run, ms, ts);
    Begins(run, ms, ts);
    OpeningOrder(run);
    var a := GoThrough(run, ms, ts, 0, OPENING, if run.paused then RETURN else Phase.Opening(ReadCredentials));
    var n := a;
    known, stored := [], false;
    if !run.paused {
      n, known, stored := WorkOf(run, ms, ts, a);
      Joined(ms, 0, a, n);
    }
    DeferredCalls(run, ms, ts, n);
    Joined(ms, 0, n, |ts|);
    ListedAtEnd(run, ms, ts, n);
  }

  /** The closure lists nothing. */
  lemma {:induction false} ListedAtEnd(run: Input, ms: seq<Moment>, ts: seq<Turn>, k: nat)
    requires Finished(run, ms, ts) && k <= |ts| && (ms[k].st.phase.Closing? || ms[k].st.phase.Done?)
    ensures ms[|ts|].past.listed == ms[k].past.listed
    decreases |ts| - k
  {
    if k < |ts| {
      ClosingStays(run, ms, ts, k);
      ListedAtEnd(run, ms, ts, k + 1);
    }
  }

  lemma ClosingStays(run: Input, ms: seq<Moment>, ts: seq<Turn>, k: nat)
    requires Finished(run, ms, ts) && k < |ts| && (ms[k].st.phase.Closing? || ms[k].st.phase.Done?)
    ensures ms[k + 1].st.phase.Closing? || ms[k + 1].st.phase.Done?
    ensures ms[k + 1].past.listed == ms[k].past.listed
  {
    hide History, Possible, PoolsAfter;
    Sizes(run, ms, ts);
    if ms[k].st.phase != Done {
      Go(run, ms, ts, k);
    } else {
      EndsAt(run, ms, ts, k);
    }
  }

  // ---------------------------------------------------------------- runs that end early

  /** Before the closure is registered: the run ends at the first of the four tests that it does not
      pass, and nothing else is called. */
  lemma TakenUp(run: Input, ms: seq<Moment>, ts: seq<Turn>)
    requires Finished(run, ms, ts)
    ensures |ts| > 0 && (!ts[0].o.Ok? <==> |ts| == 1)
    ensures |ts| > 1 ==> (!run.sameClass <==> |ts| == 2)
    ensures |ts| > 2 ==> (!run.selected <==> |ts| == 3)
    ensures |ts| > 3 ==> (!ts[3].o.Ok? || !run.hasOwner <==> |ts| == 4)
    ensures if |ts| > 4 then Points(ms, 0, 5) == OPENING else Points(ms, 0, |ts|) == OPENING[..|ts|]
  {
    hide History, Possible, PoolsAfter, IndexAfter;
    Sizes(run, ms, ts);
    Begins(run, ms, ts);
    Go(run, ms, ts, 0);
    if !ts[0].o.Ok? {
      EndsAt(run, ms, ts, 1);
      return;
    }
    Go(run, ms, ts, 1);
    if !run.sameClass {
      EndsAt(run, ms, ts, 2);
      return;
    }
    Go(run, ms, ts, 2);
    if !run.selected {
      EndsAt(run, ms, ts, 3);
      return;
    }
    Go(run, ms, ts, 3);
    if !ts[3].o.Ok? || !run.hasOwner {
      EndsAt(run, ms, ts, 4);
    } else {
      NotAtEnd(run, ms, ts, 4);
    }
  }

  /** The control plane is there, is to be served by this controller, and belongs to a cluster. */
  predicate Found(run: Input, trace: seq<Call>) {
    && run.sameClass && run.selected && run.hasOwner
    && Made(trace, Phase.Opening(Fetch)) && Made(trace, Phase.Opening(FindOwner))
  }

  lemma {:induction false} TraceIs(run: Input, ms: seq<Moment>, ts: seq<Turn>, k: nat)
    requires History(run, ms, ts) && k <= |ts|
    ensures |ms[k].past.trace| == k
    ensures forall j :: 0 <= j < k ==> ms[k].past.trace[j] == Call(ms[j].st.phase, ts[j].o)
  {
    hide Step, Possible, MilestoneOf;
    if k > 0 {
      TraceIs(run, ms, ts, k - 1);
      assert ms[k] == After(run, ms[k - 1], ts[k - 1]);
    }
  }

  /** A run that ends before the closure is registered has not found its cluster. */
  lemma NotFound(run: Input, ms: seq<Moment>, ts: seq<Turn>)
    requires Finished(run, ms, ts) && |ts| <= 4
    ensures !Found(run, ms[|ts|].past.trace) && !Made(ms[|ts|].past.trace, Phase.Opening(CheckPaused))
  {
    hide History, Points;
    Sizes(run, ms, ts);
    TakenUp(run, ms, ts);
    TraceOf(run, ms, ts);
    forall j | 0 <= j < |ts| ensures ms[|ts|].past.trace[j] == Call(OPENING[j], ts[j].o) {
      assert Points(ms, 0, |ts|)[j] == ms[0 + j].st.phase;
    }
  }

  /** The closure is registered exactly in a run that finds its cluster. */
  lemma FoundExactly(run: Input, ms: seq<Moment>, ts: seq<Turn>)
    requires Finished(run, ms, ts)
    ensures Found(run, ms[|ts|].past.trace) <==> Made(ms[|ts|].past.trace, Phase.Opening(CheckPaused))
  {
    if |ts| <= 4 {
      NotFound(run, ms, ts);
    } else {
      FoundLate(run, ms, ts);
    }
  }

  lemma FoundLate(run: Input, ms: seq<Moment>, ts: seq<Turn>)
    requires Finished(run, ms, ts) && |ts| > 4
    ensures Found(run, ms[|ts|].past.trace) && Made(ms[|ts|].past.trace, Phase.Opening(CheckPaused))
  {
    hide History, Points;
    Sizes(run, ms, ts);
    TakenUp(run, ms, ts);
    TraceOf(run, ms, ts);
    forall j | 0 <= j < 5 ensures ms[|ts|].past.trace[j] == Call(OPENING[j], ts[j].o) {
      assert Points(ms, 0, 5)[j] == ms[0 + j].st.phase;
    }
    var trace := ms[|ts|].past.trace;
    NotBeyondEnd(run, ms, ts, 4);
    assert trace[0] in trace && trace[3] in trace && trace[4] in trace;
  }

  lemma TraceOf(run: Input, ms: seq<Moment>, ts: seq<Turn>)
    requires Finished(run, ms, ts)
    ensures |ms[|ts|].past.trace| == |ts|
    ensures forall j :: 0 <= j < |ts| ==> ms[|ts|].past.trace[j] == Call(ms[j].st.phase, ts[j].o)
  {
    TraceIs(run, ms, ts, |ts|);
  }

  lemma FailureLeadsOut(run: Input, st: Run)
    requires !st.phase.PoolWork? && st.phase != Building(ReconcileSecrets) && !st.phase.Closing?
    requires st.phase != Done && !Internal(st.phase)
    ensures NextPhase(run, st, Fail) ==
      if st.phase == Phase.Opening(Fetch) || st.phase == Phase.Opening(FindOwner) then Done else RETURN
  {
  }

  /** An error ends the run unless it is one of a single pool, of the secrets or of the closure: from
      there it is the closure alone, or nothing at all if the closure is not registered yet. */
  lemma FailureEnds(run: Input, ms: seq<Moment>, ts: seq<Turn>, k: nat)
    requires Finished(run, ms, ts) && k < |ts| && ts[k].o.Fail?
    requires !ms[k].st.phase.PoolWork? && ms[k].st.phase != Building(ReconcileSecrets) && !ms[k].st.phase.Closing?
    ensures if ms[k].st.phase == Phase.Opening(Fetch) || ms[k].st.phase == Phase.Opening(FindOwner) then k + 1 == |ts|
            else Points(ms, k + 1, |ts|) == Deferred(run.dryRun, |ms[k + 1].st.pools|)
  {
    hide History, PoolsAfter, IndexAfter, NextPhase, Points, Deferred;
    Sizes(run, ms, ts);
    NotBeyondEnd(run, ms, ts, k);
    Go(run, ms, ts, k);
    FailureLeadsOut(run, ms[k].st);
    if ms[k + 1].st.phase == Done {
      EndsAt(run, ms, ts, k + 1);
    } else {
      DeferredCalls(run, ms, ts, k + 1);
    }
  }

  lemma NotBeyondEnd(run: Input, ms: seq<Moment>, ts: seq<Turn>, k: nat)
    requires Finished(run, ms, ts) && k < |ts|
    ensures ms[k].st.phase != Done && Possible(run, ms[k].st, ts[k].o, ts[k].c)
  {
  }

  /** An error at a pool ends the work on that pool and goes on with the next one; an error of the
      secrets changes nothing; an owner that is gone and a scaling group that is not there yet end
      the run without an error. */
  lemma GoesOn(run: Input, ms: seq<Moment>, ts: seq<Turn>, k: nat)
    requires Finished(run, ms, ts) && k < |ts|
    ensures ts[k].o.Fail? && ms[k].st.phase.PoolWork? ==>
      ms[k + 1].st.phase == PoolWork(NextPool) && ms[k + 1].st.i == ms[k].st.i + 1
    ensures ms[k].st.phase == Building(ReconcileSecrets) ==> ms[k + 1].st.phase == Building(PrepareKops)
    ensures ts[k].o.NotFound? && ms[k].st.phase == Phase.Opening(FindOwner) ==> k + 1 == |ts|
    ensures ts[k].o.NotFound? && ms[k].st.phase == Applying(ProviderIds) ==> ms[k + 1].st.phase == RETURN
  {
    hide History, PoolsAfter;
    Sizes(run, ms, ts);
    NotBeyondEnd(run, ms, ts, k);
    Go(run, ms, ts, k);
    if ms[k + 1].st.phase == Done {
      EndsAt(run, ms, ts, k + 1);
    }
  }

  /** Statements of the code that call nobody; the flags of Spotinst depend on the settings alone. */
  predicate Statement(at: Phase) {
    match at
    case Opening(p) => p in {CheckClass, CheckSelected, CheckPaused, Decide}
    case Approach(p) => p in {AddFinalizer, TakeLock}
    case Section(p) => p in {RaiseFlag, ReleaseLock}
    case PoolWork(p) => p == NextPool
    case Building(p) => p in {KarpenterFlag, SpotinstFlags}
    case LowerFlag => true
    case Teardown(p) => p in {NextTeardown, DropFinalizer}
    case Applying(p) => p == SetReady
    case Closing(p) => p in {SafetyUnlock, Metric}
    case Done => true
  }

  /** Every call may fail, at any point and whatever the cluster is like. */
  lemma AnyCallMayFail(run: Input, st: Run, c: Cluster)
    requires !Statement(st.phase) && (st.phase == Closing(UpdatePools) ==> st.i < |st.pools|)
    ensures Possible(run, st, Fail, c)
  {
  }
}
