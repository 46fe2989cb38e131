/** Every run ends, and no set of runs can block each other. */
module Progress {
  import opened Common
  import opened Pools
  import opened FeatureFlags
  import opened Phases
  import opened Runs
  import opened Fleet

  // ---------------------------------------------------------------- every run ends

  function OpeningStage(p: OpeningPoint): nat {
    match p
    case Fetch => 8
    case CheckClass => 7
    case CheckSelected => 6
    case FindOwner => 5
    case CheckPaused => 4
    case ReadCredentials => 3
    case ServiceRange => 2
    case Decide => 1
  }

  function ApproachStage(p: ApproachPoint): nat {
    match p
    case ListToDelete => 5
    case PrepareTeardown => 4
    case WriteProvider => 3
    case Destroy => 2
    case AddFinalizer => 1
    case TakeLock => 0
  }

  /** The points of the critical section in the order in which a run can pass them. */
  function SectionStage(p: SectionPoint): nat {
    match p
    case RaiseFlag => 39
    case ListPools => 38
    case MakeClient => 37
    case UnsetKey => 36
    case UnsetSecret => 35
    case SetKey => 34
    case SetSecret => 33
    case BuildCloud => 20
    case KopsDelete => 19
    case ReleaseLock => 1
  }

  function BuildStage(p: BuildPoint): nat {
    match p
    case Addons => 31
    case KarpenterFlag => 30
    case SpotinstFlags => 29
    case Populate => 18
    case GetCluster => 17
    case CreateCluster => 16
    case AddSshKey => 15
    case ClusterStatus => 14
    case UpdateCluster => 13
    case ReconcileSecrets => 12
    case PrepareKops => 11
    case PrepareCustom => 10
    case PinProvider => 9
    case Plan => 8
    case ReadKubeconfig => 7
    case SaveKubeconfig => 6
  }

  function ApplyStage(p: ApplyPoint): nat {
    match p
    case Apply => 4
    case ProviderIds => 3
    case ListGroups => 2
    case Validate => 1
    case SetReady => 0
  }

  function Stage(at: Phase): nat {
    match at
    case Opening(p) => 90 + OpeningStage(p)
    case Approach(p) => 80 + ApproachStage(p)
    case Section(p) => 30 + SectionStage(p)
    case PoolWork(_) => 62
    case Building(p) => 30 + BuildStage(p)
    case LowerFlag => 30
    case Teardown(p) => if p.ControlPlaneOwners? then 18 else if p.DropFinalizer? then 17 else 19
    case Applying(p) => 10 + ApplyStage(p)
    case Closing(p) =>
      if p.SafetyUnlock? then 4 else if p.UpdatePools? then 3 else if p.UpdateControlPlane? then 2 else 1
    case Done => 0
  }

  /** How much is left of the loop a run is in. */
  function Within(st: Run): int {
    var left := |st.pools| - st.i;
    match st.phase
    case PoolWork(p) =>
      5 * left + (if p.NextPool? then 4 else if p.IgDelete? || p.IgGet? then 3 else 2)
    case Teardown(p) => 3 * left + (if p.NextTeardown? then 2 else if p.TeardownOwners? then 1 else 0)
    case Closing(p) => if p.SafetyUnlock? then 0 else left
    case _ => 0
  }

  predicate Loops(at: Phase) {
    at.PoolWork? || at.Teardown? || at.Closing?
  }

  predicate InBounds(st: Run) {
    match st.phase
    case PoolWork(_) => st.i <= |st.pools|
    case Teardown(p) => if p.TeardownOwners? || p.Refetch? then st.i < |st.pools| else st.i <= |st.pools|
    case Closing(p) => p.SafetyUnlock? || st.i <= |st.pools|
    case _ => true
  }

  predicate Sooner(s: Run, t: Run) {
    Stage(s.phase) < Stage(t.phase) || (Stage(s.phase) == Stage(t.phase) && Within(s) < Within(t))
  }

  lemma OutsideSection(run: Input, st: Run, o: Outcome, c: Cluster)
    requires st.phase.Opening? || st.phase.Approach? || st.phase.LowerFlag? || st.phase.Applying?
    requires Possible(run, st, o, c)
    ensures Stage(NextPhase(run, st, o)) < Stage(st.phase)
  {
  }

  lemma InsideSection(run: Input, st: Run, o: Outcome, c: Cluster)
    requires st.phase.Section? && Possible(run, st, o, c)
    ensures Stage(NextPhase(run, st, o)) < Stage(st.phase)
  {
  }

  lemma InsideBuilding(run: Input, st: Run, o: Outcome, c: Cluster)
    requires st.phase.Building? && Possible(run, st, o, c)
    ensures Stage(NextPhase(run, st, o)) < Stage(st.phase)
  {
    BuildingGoesOn(run, st.phase.build, o);
    hide Possible;
  }

  lemma BuildingGoesOn(run: Input, p: BuildPoint, o: Outcome)
    ensures Stage(NextBuilding(run, p, o)) < 30 + BuildStage(p)
  {
  }

  lemma InsideLoops(run: Input, st: Run, o: Outcome, c: Cluster)
    requires Loops(st.phase) && Inv(run, st) && InBounds(st) && Possible(run, st, o, c)
    ensures Sooner(Step(run, st, o, c), st)
  {
  }

  /** A step changes the length of the list only where it reads it. */
  lemma ListLength(run: Input, st: Run, o: Outcome, c: Cluster)
    requires !ReadsList(st, o)
    ensures |PoolsAfter(run, st, o, c)| == |st.pools|
  {
  }

  lemma StepInBounds(run: Input, st: Run, o: Outcome, c: Cluster)
    requires InBounds(st) && Inv(run, st) && Possible(run, st, o, c)
    ensures InBounds(Step(run, st, o, c))
  {
    hide PoolsAfter, ReadyAfter;
    if !ReadsList(st, o) {
      ListLength(run, st, o, c);
    }
  }

  /** Each step brings a run nearer to its end in a well-founded order. */
  lemma EveryStepIsNearer(run: Input, st: Run, o: Outcome, c: Cluster)
    requires Inv(run, st) && InBounds(st) && Possible(run, st, o, c)
    ensures InBounds(Step(run, st, o, c)) && Sooner(Step(run, st, o, c), st)
  {
    StepInBounds(run, st, o, c);
    if Loops(st.phase) {
      InsideLoops(run, st, o, c);
    } else if st.phase.Building? {
      InsideBuilding(run, st, o, c);
    } else if st.phase.Section? {
      InsideSection(run, st, o, c);
    } else {
      OutsideSection(run, st, o, c);
    }
  }

  predicate SmallList(st: Run, b: nat) {
    |st.pools| <= b && InBounds(st)
  }

  function Rank(st: Run, b: nat): int {
    Stage(st.phase) * (5 * b + 5) + Within(st)
  }

  lemma WithinBounds(st: Run, b: nat)
    requires SmallList(st, b)
    ensures 0 <= Within(st) < 5 * b + 5
  {
  }

  lemma Lexicographic(a: nat, x: int, b: nat, y: int, width: nat)
    requires a < b || (a == b && x < y)
    requires 0 <= x < width && 0 <= y < width
    ensures a * width + x < b * width + y
  {
    if a < b {
      assert (a + 1) * width <= b * width;
    }
  }

  lemma RankDecreases(s: Run, t: Run, b: nat)
    requires SmallList(s, b) && SmallList(t, b) && Sooner(s, t)
    ensures Rank(s, b) < Rank(t, b)
  {
    WithinBounds(s, b);
    WithinBounds(t, b);
    Lexicographic(Stage(s.phase), Within(s), Stage(t.phase), Within(t), 5 * b + 5);
  }

  lemma ListStaysSmall(run: Input, st: Run, o: Outcome, c: Cluster, b: nat)
    requires |st.pools| <= b && |c.pools| <= b
    ensures |Step(run, st, o, c).pools| <= b
  {
    SortCorrect(c.pools);
    PermutationMembers(Sort(c.pools), c.pools);
  }

  lemma {:induction false} RankAfter(run: Input, ms: seq<Moment>, ts: seq<Turn>, b: nat, k: nat)
    requires History(run, ms, ts) && k <= |ts|
    requires forall j :: 0 <= j < |ts| ==> |ts[j].c.pools| <= b
    ensures SmallList(ms[k].st, b) && Rank(ms[k].st, b) + k <= Rank(Start(run), b)
  {
    if k > 0 {
      var st, t := ms[k - 1].st, ts[k - 1];
      RankAfter(run, ms, ts, b, k - 1);
      InvHistory(run, ms, ts, k - 1);
      EveryStepIsNearer(run, st, t.o, t.c);
      ListStaysSmall(run, st, t.o, t.c, b);
      RankDecreases(ms[k].st, st, b);
    }
  }

  /** A run of a cluster with at most `b` pools takes at most 490(b + 1) steps, whatever fails. */
  lemma RunsEnd(run: Input, ms: seq<Moment>, ts: seq<Turn>, b: nat)
    requires History(run, ms, ts)
    requires forall j :: 0 <= j < |ts| ==> |ts[j].c.pools| <= b
    ensures |ts| <= 490 * (b + 1)
  {
    hide History, Rank, SmallList;
    HistoryLength(run, ms, ts);
    RankAfter(run, ms, ts, b, |ts|);
    RankBounds(run, ms[|ts|].st, b);
  }

  lemma HistoryLength(run: Input, ms: seq<Moment>, ts: seq<Turn>)
    requires History(run, ms, ts)
    ensures |ms| == |ts| + 1
  {
  }

  lemma RankBounds(run: Input, st: Run, b: nat)
    requires SmallList(st, b)
    ensures Rank(st, b) >= 0 && Rank(Start(run), b) == 490 * (b + 1)
  {
    WithinBounds(st, b);
    NotNegative(Stage(st.phase), 5 * b + 5);
  }

  lemma NotNegative(x: nat, y: nat)
    ensures x * y >= 0
  {
  }

  // ---------------------------------------------------------------- no run is stuck

  /** Some outcome is always possible: the call succeeds where it can. */
  function SomeAnswer(run: Input, at: Phase, pool: Option<Pool>, c: Cluster): Outcome {
    match at
    case PoolWork(p) => if p.IgGet? && pool.Some? && pool.value.name !in c.groups then NotFound else Ok
    case Building(p) =>
      if p.GetCluster? && c.spec.None? then NotFound
      else if p.SpotinstFlags? && CredentialsMissing(run.spot, run.spotToken, run.spotAccount) then Fail
      else Ok
    case Teardown(p) => if p.Refetch? then Fail else Ok
    case Applying(p) => if p.ListGroups? then Fail else Ok
    case Closing(p) => if p.UpdatePools? && pool.Some? then Fail else Ok
    case _ => Ok
  }

  lemma SomethingIsPossible(run: Input, at: Phase, pool: Option<Pool>, c: Cluster)
    requires at != Done
    ensures Answers(run, at, pool, SomeAnswer(run, at, pool, c), c)
  {
  }

  /** No deadlock: as long as any run is active, one of them can move. The run that holds the mutex
      always can, and if there is none, every run can. */
  lemma NoDeadlock(w: World, es: seq<Event>)
    requires Idle(w) && Legal(w, es) && Exec(w, es).active != map[]
    ensures exists c: string, o: Outcome :: Enabled(Exec(w, es), Move(c, o))
  {
    Reached(w, es);
    var v := Exec(w, es);
    var c: string :| c in v.active && (v.locked ==> Holder(v, c));
    assert RunInv(v, c);
    var run, st := v.active[c].run, v.active[c].m.st;
    SomethingIsPossible(run, st.phase, PoolAt(st), v.clusters[c]);
    assert Enabled(v, Move(c, SomeAnswer(run, st.phase, PoolAt(st), v.clusters[c])));
  }
}
