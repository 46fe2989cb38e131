/** Reconcile itself, in the shape of the code: one run over the objects of its cluster, the mutex,
    the AWS variables and the feature flags, with the deferred closure. Every call to the outside
    takes one step of the machine of module Phases along, so that what is proved about the machine
    holds of the code. */
module Reconcile {
  import opened Common
  import opened Pools
  import opened FeatureFlags
  import opened Phases
  import opened Runs
  import opened Fleet
  import opened Metrics
  import Progress
  import Script
  import Validation

  /** The two process-global AWS variables. */
  class Environment {
    var key: Option<string>
    var secret: Option<string>

    function Value(): Env
      reads this
    {
      Env(key, secret)
    }
  }

  /** The mutex of the controller as one run sees it: `locked` says that this run has locked it.
      While the run waits for it the other workers may leave anything in the variables and in the
      flags. */
  class Mutex {
    var locked: bool

    method Lock(env: Environment, process: Process)
      requires !locked
      modifies this, env, process
      ensures locked
    {
      env.key, env.secret := *, *;
      process.flags := *;
      locked := true;
    }

    method Unlock()
      requires locked
      modifies this
      ensures !locked
    {
      locked := false;
    }
  }

  // ---------------------------------------------------------------- steps that keep the variables

  /** Points whose step changes no variable of the run. */
  predicate KeepsVariables(at: Phase) {
    match at
    case Opening(p) => !p.CheckPaused? && !p.Decide?
    case Approach(p) => p.PrepareTeardown? || p.WriteProvider? || p.Destroy?
    case Section(p) => !p.RaiseFlag? && !p.ListPools? && !p.ReleaseLock?
    case PoolWork(p) => !p.NextPool? && !p.PoolOwners?
    case Building(p) => true
    case LowerFlag => false
    case Teardown(p) => p.NextTeardown? || p.TeardownOwners? || p.ControlPlaneOwners?
    case Applying(p) => !p.SetReady?
    case Closing(p) => !p.SafetyUnlock?
    case Done => false
  }

  /** Points whose step changes the AWS variables or the feature flags. */
  predicate SetsGlobals(at: Phase) {
    match at
    case Section(p) => p.UnsetKey? || p.UnsetSecret? || p.SetKey? || p.SetSecret?
    case Building(p) => p.KarpenterFlag? || p.SpotinstFlags?
    case _ => false
  }

  lemma QuietStep(run: Input, st: Run, o: Outcome, c: Cluster)
    requires KeepsVariables(st.phase)
    ensures var t := Step(run, st, o, c);
            t.pools == st.pools && t.finalizer == st.finalizer && t.ready == st.ready
            && t.shouldUnlock == st.shouldUnlock && t.holds == st.holds && t.teardown == st.teardown
            && t.hasList == st.hasList
  {
  }

  /** Calls that are made once, that expect their object to be there, and whose error ends the run. */
  predicate Straight(at: Phase) {
    && KeepsVariables(at) && !SetsGlobals(at) && !Internal(at) && !TellsNotFound(at)
    && !at.PoolWork? && !at.Closing? && !at.Done? && at != Building(ReconcileSecrets)
  }

  /** Where such a call leads. */
  function Onward(run: Input, at: Phase, teardown: bool): Phase {
    NextPhase(run, Run(at, teardown, 0, [], false, false, false, false, false, false), Ok)
  }

  /** A call of the normal path that is about the whole cluster, and where it leads. */
  predicate Leads(run: Input, at: Phase, teardown: bool, next: Phase) {
    Straight(at) && Onward(run, at, teardown) == next
  }

  /** The straight calls inside the critical section. */
  lemma RouteInside(run: Input)
    ensures Leads(run, Section(MakeClient), true, Section(UnsetKey))
      && Leads(run, Section(MakeClient), false, Section(UnsetKey))
    ensures Leads(run, Section(BuildCloud), true, Section(KopsDelete))
    ensures Leads(run, Section(KopsDelete), true, Section(ReleaseLock))
    ensures Leads(run, Section(BuildCloud), false, Building(Populate))
    ensures !Builds(Section(MakeClient)) && !Builds(Section(BuildCloud))
  {
  }

  /** Those that build the cluster. */
  lemma RouteBuilding(run: Input, p: BuildPoint)
    requires !p.KarpenterFlag? && !p.SpotinstFlags? && !p.GetCluster? && !p.ReconcileSecrets?
    ensures Leads(run, Building(p), false, NextBuilding(run, p, Ok))
    ensures Builds(Building(p)) <==> p.CreateCluster? || p.UpdateCluster? || p.AddSshKey?
  {
  }

  lemma RouteSaving(run: Input)
    ensures Leads(run, Building(Addons), false, Building(KarpenterFlag))
    ensures Leads(run, Building(Populate), false, Building(if run.dryRun then PrepareKops else GetCluster))
    ensures !Builds(Building(Addons)) && !Builds(Building(Populate))
  {
    RouteBuilding(run, Addons);
    RouteBuilding(run, Populate);
    hide Leads, Builds;
  }

  lemma RouteRendering(run: Input)
    ensures Leads(run, Building(PrepareKops), false, Building(PrepareCustom))
    ensures Leads(run, Building(PrepareCustom), false, if run.pinned then Building(PinProvider) else AfterCustom(run))
    ensures Leads(run, Building(PinProvider), false, AfterCustom(run))
    ensures !Builds(Building(PrepareKops)) && !Builds(Building(PrepareCustom)) && !Builds(Building(PinProvider))
  {
    RouteBuilding(run, PrepareKops);
    RouteBuilding(run, PrepareCustom);
    RouteBuilding(run, PinProvider);
    hide Leads, Builds;
  }

  lemma RoutePublishing(run: Input)
    ensures AfterCustom(run) == Building(if run.dryRun then Plan else ReadKubeconfig)
    ensures Leads(run, Building(Plan), false, Section(ReleaseLock))
    ensures Leads(run, Building(ReadKubeconfig), false, Building(SaveKubeconfig))
    ensures Leads(run, Building(SaveKubeconfig), false, Section(ReleaseLock))
    ensures !Builds(Building(Plan)) && !Builds(Building(ReadKubeconfig)) && !Builds(Building(SaveKubeconfig))
  {
    RouteBuilding(run, Plan);
    RouteBuilding(run, ReadKubeconfig);
    RouteBuilding(run, SaveKubeconfig);
    hide Leads, Builds;
  }

  /** Those of a deletion outside it. */
  lemma RouteOutside(run: Input)
    ensures Leads(run, Approach(PrepareTeardown), true, Approach(WriteProvider))
    ensures Leads(run, Approach(WriteProvider), true, Approach(Destroy))
    ensures Leads(run, Approach(Destroy), true, Approach(TakeLock))
    ensures !Builds(Approach(PrepareTeardown)) && !Builds(Approach(WriteProvider))
  {
  }

  lemma RouteApplying(run: Input)
    ensures Leads(run, Applying(ListGroups), false, Applying(ApplyPoint.Validate))
    ensures Leads(run, Applying(ApplyPoint.Validate), false, Applying(ApplyPoint.SetReady))
    ensures !Builds(Applying(ListGroups)) && !Builds(Applying(ApplyPoint.Validate))
  {
  }

  lemma RouteUpdating(run: Input)
    ensures Leads(run, Building(ClusterStatus), false, Building(UpdateCluster)) && !Builds(Building(ClusterStatus))
    ensures Leads(run, Building(UpdateCluster), false, AfterSecrets(run))
  {
    RouteBuilding(run, ClusterStatus);
    RouteBuilding(run, UpdateCluster);
    hide Leads, Builds, AfterSecrets;
  }

  lemma StraightOn(run: Input, st: Run, o: Outcome)
    requires Straight(st.phase) && !o.NotFound?
    ensures NextPhase(run, st, o) == if o.Ok? then Onward(run, st.phase, st.teardown) else RETURN
    ensures IndexAfter(run, st, o) == st.i
    ensures Returns(run, st, o) <== !o.Ok?
  {
  }

  lemma NothingSet(run: Input, st: Run, o: Outcome, env: Env, flags: FlagTable)
    requires !SetsGlobals(st.phase)
    ensures EnvAfter(run, st, o, env) == env && FlagsAfter(run, st, flags) == flags
  {
  }

  /** What terraform, kops and the instance groups of a cluster amount to. */
  predicate SameInfrastructure(c: Cluster, d: Cluster) {
    c.groups == d.groups && c.spec == d.spec && c.sshKey == d.sshKey && c.applied == d.applied
  }

  /** Nothing of it is left. */
  predicate Gone(c: Cluster) {
    c.groups == {} && c.spec == None && !c.sshKey && c.applied == None
  }

  /** The calls that change it. */
  predicate Builds(at: Phase) {
    match at
    case Approach(p) => p.Destroy?
    case Section(p) => p.KopsDelete?
    case PoolWork(p) => p.IgDelete? || p.IgCreate?
    case Building(p) => p.CreateCluster? || p.UpdateCluster? || p.AddSshKey?
    case Applying(p) => p.Apply?
    case _ => false
  }

  lemma FoundOrNot(run: Input, pool: Option<Pool>, o: Outcome, c: Cluster)
    requires Answers(run, Building(GetCluster), pool, o, c)
    ensures (o.Ok? ==> c.spec.Some?) && (o.NotFound? ==> c.spec.None?)
  {
  }

  lemma NothingBuilt(run: Input, st: Run, o: Outcome, c: Cluster, env: Env, flags: FlagTable)
    requires !Builds(st.phase)
    ensures SameInfrastructure(ClusterAfter(run, st, o, c, env, flags), c)
  {
  }

  lemma WhatIsBuilt(run: Input, st: Run, o: Outcome, c: Cluster, env: Env, flags: FlagTable)
    ensures var d := ClusterAfter(run, st, o, c, env, flags);
            d.groups == GroupsAfter(st, o, c.groups) && d.spec == SpecAfter(st, o, c)
              && d.applied == AppliedAfter(run, st, o, c)
            && d.sshKey == KeyAfter(st, o, c.sshKey)
  {
  }

  lemma KopsCleared(run: Input, st: Run, o: Outcome, c: Cluster, env: Env, flags: FlagTable)
    requires st.phase == Section(KopsDelete)
    ensures var d := ClusterAfter(run, st, o, c, env, flags);
            (o.Ok? ==> d.groups == {} && d.spec == None && !d.sshKey) && d.applied == c.applied
  {
  }

  predicate BeforeSaving(at: Phase) {
    !at.Closing? && !at.Done? && !at.Teardown?
  }

  /** The calls that are about one pool. */
  predicate NeedsPool(at: Phase) {
    at.PoolWork? || at == Teardown(Refetch) || at == Closing(UpdatePools)
  }

  lemma AnswersAnyPool(run: Input, at: Phase, p: Option<Pool>, q: Option<Pool>, o: Outcome, c: Cluster)
    requires Answers(run, at, p, o, c) && (NeedsPool(at) ==> p == q)
    ensures Answers(run, at, q, o, c)
  {
  }

  /** A call as seen from the code, which has no index where there is no loop. */
  function Here(at: Phase, pool: Option<Pool>, finalizer: bool): Run {
    Run(at, false, 0, (match pool case Some(p) => [p] case None => []), false, finalizer, false, false, false, false)
  }

  lemma SameEffectHere(run: Input, st: Run, pool: Option<Pool>, o: Outcome, c: Cluster, env: Env, flags: FlagTable)
    requires NeedsPool(st.phase) ==> pool == PoolAt(st)
    ensures ClusterAfter(run, Here(st.phase, pool, st.finalizer), o, c, env, flags) ==
      ClusterAfter(run, st, o, c, env, flags)
  {
    hide PoolsSaved, GroupsAfter, BuildNow;
    SamePoolsHere(st, pool, o, c);
  }

  lemma SamePoolsHere(st: Run, pool: Option<Pool>, o: Outcome, c: Cluster)
    requires NeedsPool(st.phase) ==> pool == PoolAt(st)
    ensures var here := Here(st.phase, pool, st.finalizer);
            PoolsSaved(here, o, c.pools) == PoolsSaved(st, o, c.pools)
              && GroupsAfter(here, o, c.groups) == GroupsAfter(st, o, c.groups)
  {
    hide SavePool;
  }

  lemma OneMoreTurn(run: Input, ms: seq<Moment>, ts: seq<Turn>, t: Turn)
    requires History(run, ms, ts) && Possible(run, ms[|ts|].st, t.o, t.c)
    ensures History(run, ms + [After(run, ms[|ts|], t)], ts + [t])
  {
    hide Possible, Step, Remember;
    var all, turns := ms + [After(run, ms[|ts|], t)], ts + [t];
    forall k | 0 <= k < |turns|
      ensures Possible(run, all[k].st, turns[k].o, turns[k].c) && all[k + 1] == After(run, all[k], turns[k])
    {
      assert all[k] == ms[k];
      if k < |ts| {
        assert all[k + 1] == ms[k + 1] && turns[k] == ts[k];
      }
    }
  }

  // ---------------------------------------------------------------- one run

  class Reconciliation {
    const run: Input
    const name: string
    const mux: Mutex
    const env: Environment
    const process: Process
    const gauge: ErrorGauge

    /** What the API server, kops and terraform hold for the cluster of this run. */
    var cluster: Cluster

    var shouldUnlock: bool
    var kmps: seq<Pool>
    var finalizer: bool
    var ready: bool

    ghost var ms: seq<Moment>
    ghost var ts: seq<Turn>

    /** The cluster as the last call saw it. */
    ghost var seen: Cluster

    constructor (run: Input, name: string, mux: Mutex, env: Environment, process: Process, gauge: ErrorGauge,
      cluster: Cluster)
      requires name != [] && !mux.locked
      requires cluster.finalizer == run.finalizer && UniqueKeys(cluster.pools)
      ensures this.run == run && this.name == name && this.cluster == cluster
      ensures this.mux == mux && this.env == env && this.process == process && this.gauge == gauge
      ensures Begun()
    {
      this.run, this.name, this.cluster := run, name, cluster;
      this.mux, this.env, this.process, this.gauge := mux, env, process, gauge;
      shouldUnlock, kmps, finalizer, ready := false, [], run.finalizer, run.wasReady;
      ms, ts, seen := [Moment(Start(run), NOTHING)], [], cluster;
    }

    /** At the start of the run. */
    ghost predicate Begun()
      reads this, mux, env, process
    {
      At(Opening(Fetch)) && ms == [Moment(Start(run), NOTHING)] && ts == []
    }

    ghost predicate Tracked()
      reads this`ms, this`ts
    {
      History(run, ms, ts)
    }

    ghost function St(): Run
      requires Tracked()
      reads this`ms, this`ts
    {
      ms[|ts|].st
    }

    /** The variables of the code are those of the machine. */
    ghost predicate Mirrors()
      requires Tracked()
      reads this, mux
    {
      && shouldUnlock == St().shouldUnlock && kmps == St().pools && finalizer == St().finalizer
      && ready == St().ready && mux.locked == St().holds && name != []
      && (!St().hasList && BeforeSaving(St().phase) ==> UniqueKeys(cluster.pools))
    }

    /** The process and the cluster are as a run that is not interfered with needs them. */
    ghost predicate Undisturbed()
      requires Tracked()
      reads this`ms, this`ts, this`cluster, env, process
    {
      Owns(run, St(), env.Value(), process.flags, cluster)
    }

    ghost predicate At(p: Phase)
      reads this, mux, env, process
    {
      Tracked() && Mirrors() && Undisturbed() && St().phase == p
    }

    /** The last call of the run so far and how it ended. */
    ghost predicate Last(at: Phase, o: Outcome)
      reads this`ms, this`ts
    {
      |ts| > 0 && |ms| == |ts| + 1 && ms[|ts| - 1].st.phase == at && ts[|ts| - 1].o == o
    }

    /** A return statement: the deferred closure is next. */
    ghost predicate Returned(failed: bool)
      reads this, mux, env, process
    {
      At(RETURN) && St().failed == failed
    }

    /** One call to the outside, or one statement of the code. The call comes back with an outcome,
        and a successful one has its effect on the cluster. Before it users may have created and
        deleted pools. */
    method Ask(at: Phase, pool: Option<Pool>) returns (o: Outcome)
      requires Tracked() && St().phase == at && at != Done && finalizer == St().finalizer
      requires NeedsPool(at) ==> pool == PoolAt(St())
      modifies this`cluster, this`ms, this`ts, this`seen
      ensures Tracked() && Possible(run, old(St()), o, seen) && St() == Step(run, old(St()), o, seen)
      ensures old(ms) <= ms && Last(at, o) && |ts| == |old(ts)| + 1
      ensures (Internal(at) ==> o.Ok?) && (o.NotFound? ==> TellsNotFound(at))
      ensures seen == old(cluster).(pools := seen.pools)
      ensures UniqueKeys(old(cluster.pools)) ==> UniqueKeys(seen.pools)
      ensures cluster == ClusterAfter(run, old(St()), o, seen, env.Value(), process.flags)
    {
      hide ClusterAfter, History, Step, UniqueKeys;
      Lengths();
      var others: seq<Pool> := *;
      if UniqueKeys(others) {
        cluster := cluster.(pools := others);
      }
      seen := cluster;
      Progress.SomethingIsPossible(run, at, pool, cluster);
      o :| Answers(run, at, pool, o, cluster);
      AnswersAnyPool(run, at, pool, PoolAt(St()), o, cluster);
      ghost var t := Turn(o, seen);
      SameEffectHere(run, St(), pool, o, cluster, env.Value(), process.flags);
      cluster := ClusterAfter(run, Here(at, pool, finalizer), o, cluster, env.Value(), process.flags);
      OneMoreTurn(run, ms, ts, t);
      ms, ts := ms + [After(run, ms[|ts|], t)], ts + [t];
    }

    /** The same, with what it means for the process. */
    method Move(at: Phase, pool: Option<Pool>) returns (o: Outcome)
      requires Tracked() && Undisturbed() && St().phase == at && at != Done && finalizer == St().finalizer
      requires NeedsPool(at) ==> pool == PoolAt(St())
      modifies this`cluster, this`ms, this`ts, this`seen
      ensures Tracked() && Possible(run, old(St()), o, seen) && St() == Step(run, old(St()), o, seen)
      ensures old(ms) <= ms && Last(at, o) && |ts| == |old(ts)| + 1
      ensures Owns(run, St(), EnvAfter(run, old(St()), o, env.Value()), FlagsAfter(run, old(St()), process.flags),
        cluster)
      ensures UnsavedInv(run, St().phase, cluster.finalizer)
      ensures (Internal(at) ==> o.Ok?) && (o.NotFound? ==> TellsNotFound(at))
      ensures seen == old(cluster).(pools := seen.pools)
      ensures UniqueKeys(old(cluster.pools)) ==> UniqueKeys(seen.pools)
      ensures !at.Closing? ==> cluster.pools == seen.pools
      ensures cluster == ClusterAfter(run, old(St()), o, seen, env.Value(), process.flags)
      ensures !Builds(at) ==> SameInfrastructure(cluster, old(cluster))
    {
      hide ClusterAfter, Possible, History, Step, Inv, Owns, MomentInv, UniqueKeys, Last;
      InvNow(run, ms, ts);
      OwnsOther(run, St(), env.Value(), process.flags, cluster);
      ghost var s := St();
      o := Ask(at, pool);
      OwnsStep(run, s, o, env.Value(), process.flags, seen);
      if !at.Closing? {
        PoolsKept(run, s, o, seen, env.Value(), process.flags);
      }
      if !Builds(at) {
        NothingBuilt(run, s, o, seen, env.Value(), process.flags);
      }
    }

    /** One that sets neither the AWS variables nor the feature flags. */
    method Pass(at: Phase, pool: Option<Pool>) returns (o: Outcome)
      requires Tracked() && Undisturbed() && St().phase == at && at != Done && finalizer == St().finalizer
        && !SetsGlobals(at)
      requires NeedsPool(at) ==> pool == PoolAt(St())
      modifies this`cluster, this`ms, this`ts, this`seen
      ensures Tracked() && Undisturbed() && Possible(run, old(St()), o, seen) && St() == Step(run, old(St()), o, seen)
      ensures old(ms) <= ms && Last(at, o)
      ensures UnsavedInv(run, St().phase, cluster.finalizer)
      ensures (Internal(at) ==> o.Ok?) && (o.NotFound? ==> TellsNotFound(at))
      ensures UniqueKeys(old(cluster.pools)) ==> UniqueKeys(seen.pools)
      ensures !at.Closing? ==> cluster.pools == seen.pools
      ensures !Builds(at) ==> SameInfrastructure(cluster, old(cluster))
    {
      hide ClusterAfter, History, Owns, Possible, Step, UniqueKeys, Last, Builds, UnsavedInv;
      ghost var s := St();
      o := Move(at, pool);
      NothingSet(run, s, o, env.Value(), process.flags);
    }

    /** A call, or a statement, that leaves the variables of the run alone. */
    method Do(at: Phase, pool: Option<Pool>) returns (o: Outcome)
      requires At(at) && KeepsVariables(at)
      requires NeedsPool(at) ==> pool == PoolAt(St())
      modifies this`cluster, this`ms, this`ts, this`seen
      ensures Tracked() && Mirrors() && St().phase == NextPhase(run, old(St()), o)
      ensures old(ms) <= ms && Last(at, o) && |ts| == |old(ts)| + 1
      ensures Owns(run, St(), EnvAfter(run, old(St()), o, env.Value()), FlagsAfter(run, old(St()), process.flags),
        cluster)
      ensures St().i == IndexAfter(run, old(St()), o)
      ensures St().teardown == old(St().teardown) && St().hasList == old(St().hasList)
      ensures St().failed == if Returns(run, old(St()), o) then o.Fail? else old(St().failed)
      ensures (Internal(at) ==> o.Ok?) && (o.NotFound? ==> TellsNotFound(at))
      ensures Answers(run, at, PoolAt(old(St())), o, seen) && seen == old(cluster).(pools := seen.pools)
      ensures cluster == ClusterAfter(run, old(St()), o, seen, env.Value(), process.flags)
      ensures !Builds(at) ==> SameInfrastructure(cluster, old(cluster))
    {
      hide ClusterAfter, History, Owns, UniqueKeys, Last;
      ghost var s := St();
      o := Move(at, pool);
      QuietStep(run, s, o, seen);
      EarlierWasBefore(run, s, o);
    }

    /** One that leaves the process alone, too. */
    method Call(at: Phase, pool: Option<Pool>) returns (o: Outcome)
      requires At(at) && KeepsVariables(at) && !SetsGlobals(at)
      requires NeedsPool(at) ==> pool == PoolAt(St())
      modifies this`cluster, this`ms, this`ts, this`seen
      ensures At(NextPhase(run, old(St()), o))
      ensures old(ms) <= ms && Last(at, o) && |ts| == |old(ts)| + 1
      ensures St().i == IndexAfter(run, old(St()), o)
      ensures St().teardown == old(St().teardown) && St().hasList == old(St().hasList)
      ensures St().failed == if Returns(run, old(St()), o) then o.Fail? else old(St().failed)
      ensures (Internal(at) ==> o.Ok?) && (o.NotFound? ==> TellsNotFound(at))
      ensures Answers(run, at, PoolAt(old(St())), o, seen) && seen == old(cluster).(pools := seen.pools)
      ensures cluster == ClusterAfter(run, old(St()), o, seen, env.Value(), process.flags)
      ensures !Builds(at) ==> SameInfrastructure(cluster, old(cluster))
    {
      hide ClusterAfter, History, Owns, Step, NextPhase, IndexAfter, Returns, UniqueKeys, Answers, Last;
      ghost var s := St();
      o := Do(at, pool);
      NothingSet(run, s, o, env.Value(), process.flags);
    }

    ghost predicate On(p: Phase, teardown: bool)
      reads this, mux, env, process
    {
      At(p) && St().teardown == teardown
    }

    lemma InPlace(p: Phase, teardown: bool)
      requires On(p, teardown)
      ensures Tracked() && Undisturbed() && St().phase == p
    {
    }

    /** A call that has to succeed: it leads on, or the run returns its error. */
    method Must(at: Phase, ghost teardown: bool) returns (failed: bool)
      requires On(at, teardown) && Straight(at)
      modifies this`cluster, this`ms, this`ts, this`seen
      ensures failed ==> Returned(true)
      ensures !failed ==> On(Onward(run, at, teardown), teardown)
      ensures Last(at, if failed then Fail else Ok)
      ensures St().hasList == old(St().hasList) && St().i == old(St().i)
      ensures seen == old(cluster).(pools := seen.pools)
      ensures cluster == ClusterAfter(run, old(St()), if failed then Fail else Ok, seen, env.Value(), process.flags)
      ensures !Builds(at) ==> SameInfrastructure(cluster, old(cluster))
    {
      hide ClusterAfter, History, Owns, Step, UniqueKeys, Mirrors, NextPhase, IndexAfter, Returns, Answers, Last;
      ghost var s := St();
      var o := Call(at, None);
      StraightOn(run, s, o);
      return !o.Ok?;
    }

    // ---------------------------------------------------------------- the critical section

    method LockMutex(ghost teardown: bool)
      requires On(Approach(TakeLock), teardown) && !mux.locked
      modifies this, mux, env, process
      ensures On(Section(SectionPoint.RaiseFlag), teardown)
      ensures kmps == old(kmps) && finalizer == old(finalizer) && St().hasList == old(St().hasList)
      ensures SameInfrastructure(cluster, old(cluster))
    {
      hide ClusterAfter, History, Owns, Possible, UniqueKeys, Step, Last;
      ghost var s := St();
      var _ := Pass(Approach(TakeLock), None);
      LockingStep(run, s, seen);
      mux.Lock(env, process);
      AnyProcess(run, St(), env.Value(), process.flags, cluster);
      assert Tracked() && Mirrors();
    }

    method RaiseFlag(ghost teardown: bool)
      requires On(Section(SectionPoint.RaiseFlag), teardown)
      modifies this
      ensures On(if teardown then Section(MakeClient) else Section(ListPools), teardown)
      ensures kmps == old(kmps) && finalizer == old(finalizer) && St().hasList == old(St().hasList)
      ensures SameInfrastructure(cluster, old(cluster))
    {
      hide ClusterAfter, History, Owns, Possible, UniqueKeys, Step, Last, Undisturbed;
      ghost var s := St();
      var _ := Pass(Section(SectionPoint.RaiseFlag), None);
      LockingStep(run, s, seen);
      shouldUnlock := true;
      assert Tracked() && Mirrors();
    }

    method UnsetKey(ghost teardown: bool) returns (o: Outcome)
      requires On(Section(SectionPoint.UnsetKey), teardown)
      modifies this, env
      ensures o.Ok? ==> On(Section(SectionPoint.UnsetSecret), teardown)
      ensures !o.Ok? ==> Returned(true)
      ensures kmps == old(kmps) && St().hasList == old(St().hasList) && SameInfrastructure(cluster, old(cluster))
    {
      hide ClusterAfter, History, Owns, Step, UniqueKeys, Last;
      o := Do(Section(SectionPoint.UnsetKey), None);
      if o.Ok? {
        env.key := None;
      }
      assert Tracked() && Mirrors();
    }

    method UnsetSecret(ghost teardown: bool) returns (o: Outcome)
      requires On(Section(SectionPoint.UnsetSecret), teardown)
      modifies this, env
      ensures o.Ok? ==> On(Section(SectionPoint.SetKey), teardown)
      ensures !o.Ok? ==> Returned(true)
      ensures kmps == old(kmps) && St().hasList == old(St().hasList) && SameInfrastructure(cluster, old(cluster))
    {
      hide ClusterAfter, History, Owns, Step, UniqueKeys, Last;
      o := Do(Section(SectionPoint.UnsetSecret), None);
      if o.Ok? {
        env.secret := None;
      }
      assert Tracked() && Mirrors();
    }

    method SetKey(ghost teardown: bool) returns (o: Outcome)
      requires On(Section(SectionPoint.SetKey), teardown)
      modifies this, env
      ensures o.Ok? ==> On(Section(SectionPoint.SetSecret), teardown)
      ensures !o.Ok? ==> Returned(true)
      ensures kmps == old(kmps) && St().hasList == old(St().hasList) && SameInfrastructure(cluster, old(cluster))
    {
      hide ClusterAfter, History, Owns, Step, UniqueKeys, Last;
      o := Do(Section(SectionPoint.SetKey), None);
      if o.Ok? {
        env.key := Some(run.credentials.key);
      }
      assert Tracked() && Mirrors();
    }

    method SetSecret(ghost teardown: bool) returns (o: Outcome)
      requires On(Section(SectionPoint.SetSecret), teardown)
      modifies this, env
      ensures o.Ok? ==> On(if teardown then Section(BuildCloud) else PoolWork(NextPool), teardown) && St().i == 0
      ensures !o.Ok? ==> Returned(true)
      ensures kmps == old(kmps) && St().hasList == old(St().hasList) && SameInfrastructure(cluster, old(cluster))
    {
      hide ClusterAfter, History, Owns, Step, UniqueKeys, Last, NextPhase, IndexAfter, Returns, Answers;
      SecretStep(run, St());
      o := Do(Section(SectionPoint.SetSecret), None);
      if o.Ok? {
        env.secret := Some(run.credentials.secret);
      }
      assert Tracked() && Mirrors();
    }

    method SetEnvVarsFromAWSCredentials(ghost teardown: bool) returns (failed: bool)
      requires On(Section(SectionPoint.UnsetKey), teardown)
      modifies this, env
      ensures failed ==> Returned(true)
      ensures !failed ==> On(if teardown then Section(BuildCloud) else PoolWork(NextPool), teardown) && St().i == 0
      ensures !failed ==> env.Value() == OwnEnv(run)
      ensures kmps == old(kmps) && St().hasList == old(St().hasList) && SameInfrastructure(cluster, old(cluster))
    {
      hide History, Owns, Step, NextPhase, UniqueKeys, ClusterAfter, Last;
      var o := UnsetKey(teardown);
      if !o.Ok? {
        return true;
      }
      o := UnsetSecret(teardown);
      if !o.Ok? {
        return true;
      }
      o := SetKey(teardown);
      if !o.Ok? {
        return true;
      }
      o := SetSecret(teardown);
      if !o.Ok? {
        return true;
      }
      OwnByNow(teardown);
      return false;
    }

    lemma OwnByNow(teardown: bool)
      requires On(if teardown then Section(BuildCloud) else PoolWork(NextPool), teardown)
      ensures env.Value() == OwnEnv(run)
    {
    }

    method UnlockMutex(ghost teardown: bool)
      requires On(Section(ReleaseLock), teardown) && mux.locked
      modifies this, mux
      ensures On(Phase.LowerFlag, teardown)
      ensures kmps == old(kmps) && finalizer == old(finalizer) && SameInfrastructure(cluster, old(cluster))
    {
      hide ClusterAfter, History, Owns, Possible, UniqueKeys, Step, Last, Undisturbed;
      ghost var s := St();
      var _ := Pass(Section(ReleaseLock), None);
      LockingStep(run, s, seen);
      mux.Unlock();
      assert Tracked() && Mirrors();
    }

    method LowerFlag(ghost teardown: bool)
      requires On(Phase.LowerFlag, teardown)
      modifies this
      ensures teardown ==> On(Teardown(NextTeardown), true) && St().i == 0
      ensures !teardown && run.dryRun ==> Returned(false)
      ensures !teardown && !run.dryRun ==> On(Applying(Apply), false)
      ensures kmps == old(kmps) && finalizer == old(finalizer) && SameInfrastructure(cluster, old(cluster))
    {
      hide ClusterAfter, History, Owns, Possible, UniqueKeys, Step, Last, Undisturbed;
      ghost var s := St();
      var _ := Pass(Phase.LowerFlag, None);
      LockingStep(run, s, seen);
      shouldUnlock := false;
      assert Tracked() && Mirrors();
    }

    ghost predicate Lists(at: Phase) {
      at == Approach(ListToDelete) || at == Section(ListPools)
    }

    /** All variables but the list are as the machine has them. */
    ghost predicate MirrorsButPools()
      requires Tracked()
      reads this, mux
    {
      && shouldUnlock == St().shouldUnlock && finalizer == St().finalizer
      && ready == St().ready && mux.locked == St().holds && name != []
    }

    method AskForPools(at: Phase) returns (o: Outcome)
      requires At(at) && Lists(at) && !St().hasList && UniqueKeys(cluster.pools)
      modifies this`cluster, this`ms, this`ts, this`seen
      ensures Tracked() && MirrorsButPools() && Undisturbed()
      ensures St().pools == if o.Ok? then Sort(cluster.pools) else kmps
      ensures UniqueKeys(cluster.pools)
      ensures St().phase == if !o.Ok? then RETURN else if at.Approach? then Approach(PrepareTeardown)
        else Section(MakeClient)
      ensures St().teardown == old(St().teardown) && St().hasList == o.Ok?
      ensures (!o.Ok? ==> St().failed) && SameInfrastructure(cluster, old(cluster))
    {
      hide ClusterAfter, History, Owns, Step, UniqueKeys, NextPhase, Possible, Last, Undisturbed;
      ghost var s := St();
      o := Pass(at, None);
      ListedStep(run, s, o, seen);
    }

    /** Listing the pools, sorted by namespace and name whatever the order of the answer. */
    method ListKopsMachinePools(at: Phase) returns (failed: bool)
      requires At(at) && Lists(at) && !St().hasList
      modifies this
      ensures failed ==> Returned(true)
      ensures !failed ==>
        On(if at.Approach? then Approach(PrepareTeardown) else Section(MakeClient), old(St().teardown)) && St().hasList
      ensures !failed ==> kmps == Sort(cluster.pools) && InOrder(kmps)
      ensures SameInfrastructure(cluster, old(cluster))
    {
      hide History, Owns, Sort, UniqueKeys, ClusterAfter, Last, InOrder, Permutation;
      UniqueUntilListed();
      var o := AskForPools(at);
      var r := PoolsOfCluster(name, cluster.pools, o.Ok?);
      if r.Failed? {
        return true;
      }
      kmps := r.pools;
      return false;
    }

    lemma UniqueUntilListed()
      requires Tracked() && Mirrors() && Lists(St().phase) && !St().hasList
      ensures UniqueKeys(cluster.pools)
    {
    }

    // ---------------------------------------------------------------- one pool

    method StartPool(i: nat)
      requires At(PoolWork(NextPool)) && i == St().i < |kmps| && !run.dryRun
      modifies this
      ensures On(PoolWork(if old(kmps[i]).deleting then IgDelete else IgGet), old(St().teardown)) && St().i == i
      ensures kmps == if old(kmps[i]).deleting then old(kmps) else old(kmps)[i := old(kmps[i]).(finalizer := true)]
      ensures SameInfrastructure(cluster, old(cluster))
    {
      hide ClusterAfter, History, Owns, Step, UniqueKeys, Last, Undisturbed, NextPhase, PoolsAfter, IndexAfter,
        Possible, Answers, Returns;
      ghost var s := St();
      var _ := Pass(PoolWork(NextPool), PoolAtIndex(i));
      StartStep(run, s, seen);
      if !kmps[i].deleting && !kmps[i].finalizer {
        kmps := kmps[i := kmps[i].(finalizer := true)];
      }
      assert Tracked() && Mirrors();
    }

    function PoolAtIndex(i: nat): Option<Pool>
      reads this
    {
      if i < |kmps| then Some(kmps[i]) else None
    }

    method DeletePoolOwners(i: nat) returns (o: Outcome)
      requires At(PoolWork(PoolOwners)) && i == St().i < |kmps|
      modifies this
      ensures On(PoolWork(NextPool), old(St().teardown)) && St().i == i + 1
      ensures kmps == if o.Ok? then old(kmps)[i := old(kmps[i]).(finalizer := false)] else old(kmps)
      ensures SameInfrastructure(cluster, old(cluster))
    {
      hide ClusterAfter, History, Owns, Step, UniqueKeys, Last, Undisturbed, NextPhase, PoolsAfter, IndexAfter,
        Possible, Answers, Returns;
      ghost var s := St();
      o := Pass(PoolWork(PoolOwners), PoolAtIndex(i));
      OwnersStep(run, s, o, seen);
      if o.Ok? {
        kmps := kmps[i := kmps[i].(finalizer := false)];
      }
      assert Tracked() && Mirrors();
    }

    /** Creates the instance group of the pool if it is missing and updates it otherwise. */
    method CreateOrUpdateInstanceGroup(i: nat) returns (failed: bool)
      requires At(PoolWork(IgGet)) && i == St().i < |kmps|
      modifies this`cluster, this`ms, this`ts, this`seen
      ensures On(PoolWork(NextPool), old(St().teardown)) && St().i == i + 1
      ensures cluster.groups == old(cluster.groups) + if failed then {} else {kmps[i].name}
      ensures cluster.spec == old(cluster.spec) && cluster.applied == old(cluster.applied)
    {
      hide ClusterAfter, History, Owns, Step, UniqueKeys, Last, Undisturbed, NextPhase, IndexAfter, Answers;
      AtHandNow(i);
      ghost var s := St();
      var o := Call(PoolWork(IgGet), PoolAtIndex(i));
      GroupLookup(run, s, o, seen);
      if o.NotFound? {
        failed := CreateInstanceGroup(i);
        return;
      }
      if o.Fail? {
        return true;
      }
      failed := UpdateInstanceGroup(i);
    }

    method UpdateInstanceGroup(i: nat) returns (failed: bool)
      requires At(PoolWork(IgUpdate)) && i == St().i < |kmps|
      modifies this`cluster, this`ms, this`ts, this`seen
      ensures On(PoolWork(NextPool), old(St().teardown)) && St().i == i + 1
      ensures SameInfrastructure(cluster, old(cluster))
    {
      hide ClusterAfter, History, Owns, Step, UniqueKeys, Answers, Last, Undisturbed;
      AtHandNow(i);
      var o := Call(PoolWork(IgUpdate), PoolAtIndex(i));
      return !o.Ok?;
    }

    method CreateInstanceGroup(i: nat) returns (failed: bool)
      requires At(PoolWork(IgCreate)) && i == St().i < |kmps|
      modifies this`cluster, this`ms, this`ts, this`seen
      ensures On(PoolWork(NextPool), old(St().teardown)) && St().i == i + 1
      ensures cluster.groups == old(cluster.groups) + if failed then {} else {kmps[i].name}
      ensures cluster.spec == old(cluster.spec) && cluster.applied == old(cluster.applied)
    {
      hide ClusterAfter, History, Owns, Step, UniqueKeys, Answers, Last, Undisturbed;
      AtHandNow(i);
      ghost var s := St();
      var o := Call(PoolWork(IgCreate), PoolAtIndex(i));
      WhatIsBuilt(run, s, o, seen, env.Value(), process.flags);
      return !o.Ok?;
    }

    method DeleteInstanceGroup(i: nat) returns (failed: bool)
      requires At(PoolWork(IgDelete)) && i == St().i < |kmps|
      modifies this`cluster, this`ms, this`ts, this`seen
      ensures if failed then On(PoolWork(NextPool), old(St().teardown)) && St().i == i + 1
              else On(PoolWork(PoolOwners), old(St().teardown)) && St().i == i
      ensures cluster.groups == old(cluster.groups) - if failed then {} else {kmps[i].name}
      ensures cluster.spec == old(cluster.spec) && cluster.applied == old(cluster.applied)
    {
      hide ClusterAfter, History, Owns, Step, UniqueKeys, Answers, Last, Undisturbed;
      AtHandNow(i);
      ghost var s := St();
      var o := Call(PoolWork(IgDelete), PoolAtIndex(i));
      WhatIsBuilt(run, s, o, seen, env.Value(), process.flags);
      return !o.Ok?;
    }

    lemma AtHandNow(i: nat)
      requires Tracked() && Mirrors() && i == St().i < |kmps|
      ensures PoolAt(St()) == Some(kmps[i]) && PoolName(St()) == kmps[i].name
    {
    }

    /** What becomes of a pool depends on the pool and on its own calls alone. If they all succeed,
        the instance group is there exactly when the pool is to stay. */
    method ReconcileKopsMachinePool(i: nat) returns (failed: bool)
      requires At(PoolWork(NextPool)) && i == St().i < |kmps| && !run.dryRun
      modifies this
      ensures On(PoolWork(NextPool), old(St().teardown)) && St().i == i + 1
      ensures |kmps| == |old(kmps)| && kmps == old(kmps)[i := Reconciled(old(kmps[i]), !failed)]
      ensures !failed ==> (kmps[i].name in cluster.groups <==> !kmps[i].deleting)
      ensures forall g :: g != kmps[i].name ==> (g in cluster.groups <==> g in old(cluster.groups))
      ensures cluster.spec == old(cluster.spec) && cluster.applied == old(cluster.applied)
    {
      hide ClusterAfter, History, Owns, Step, NextPhase, IndexAfter, UniqueKeys, Mirrors, Last;
      StartPool(i);
      if kmps[i].deleting {
        failed := DeleteInstanceGroup(i);
        if failed {
          return;
        }
        var o := DeletePoolOwners(i);
        return !o.Ok?;
      }
      failed := CreateOrUpdateInstanceGroup(i);
    }

    method PassPool(i: nat)
      requires At(PoolWork(NextPool)) && i == St().i && (run.dryRun || i >= |kmps|)
      modifies this`cluster, this`ms, this`ts, this`seen
      ensures On(if i < |kmps| then PoolWork(NextPool) else Building(Addons), old(St().teardown))
      ensures i < |kmps| ==> St().i == i + 1
      ensures SameInfrastructure(cluster, old(cluster))
    {
      hide ClusterAfter, History, Owns, Step, UniqueKeys, Last, Undisturbed;
      ghost var s := St();
      var _ := Pass(PoolWork(NextPool), PoolAtIndex(i));
      PoolStep(run, s, Ok, seen);
    }

    /** The loop over the pools: what becomes of each is settled by its own calls, so that a failure
        of one changes nothing for the others. */
    method ReconcileKopsMachinePools() returns (ghost succeeded: seq<bool>)
      requires On(PoolWork(NextPool), false) && St().i == 0
      modifies this
      ensures On(Building(Addons), false)
      ensures |succeeded| == |kmps| == |old(kmps)|
      ensures forall j :: 0 <= j < |kmps| ==>
        kmps[j] == if run.dryRun then old(kmps)[j] else Reconciled(old(kmps)[j], succeeded[j])
      ensures DistinctNames(kmps) && !run.dryRun ==> GroupsFollow(kmps, succeeded, cluster.groups, |kmps|)
      ensures run.dryRun ==> cluster.groups == old(cluster.groups)
      ensures cluster.spec == old(cluster.spec) && cluster.applied == old(cluster.applied)
    {
      hide History, Owns, Mirrors, ClusterAfter, Answers, GroupsFollow, DistinctNames, Last;
      ghost var before := kmps;
      succeeded := [];
      var i := 0;
      NothingFollows(kmps, cluster.groups);
      while i < |kmps|
        invariant On(PoolWork(NextPool), false) && St().i == i
        invariant 0 <= i <= |kmps| == |before| && |succeeded| == i
        invariant forall j :: 0 <= j < i ==>
          kmps[j] == if run.dryRun then before[j] else Reconciled(before[j], succeeded[j])
        invariant forall j :: i <= j < |kmps| ==> kmps[j] == before[j]
        invariant DistinctNames(kmps) && !run.dryRun ==> GroupsFollow(kmps, succeeded, cluster.groups, i)
        invariant run.dryRun ==> cluster.groups == old(cluster.groups)
        invariant cluster.spec == old(cluster.spec) && cluster.applied == old(cluster.applied)
      {
        ghost var was, groups, fine := kmps, cluster.groups, succeeded;
        if !run.dryRun {
          var failed := ReconcileKopsMachinePool(i);
          succeeded := succeeded + [!failed];
          OneMoreFollows(was, kmps, fine, succeeded, groups, cluster.groups, i);
        } else {
          PassPool(i);
          succeeded := succeeded + [true];
        }
        i := i + 1;
      }
      PassPool(i);
    }

    // ---------------------------------------------------------------- building the cluster

    method SetKarpenterFlag()
      requires On(Building(KarpenterFlag), false)
      modifies this`cluster, this`ms, this`ts, this`seen, process
      ensures On(Building(SpotinstFlags), false)
      ensures Flag(process.flags, "Karpenter") == run.karpenter
      ensures SameInfrastructure(cluster, old(cluster))
    {
      hide ClusterAfter, History, Owns, Step, ParseFlags, Mirrors, IndexAfter, UniqueKeys, Answers, Last;
      var _ := Do(Building(KarpenterFlag), None);
      process.flags := ParseFlags(process.flags, "-Karpenter");
      if run.karpenter {
        process.flags := ParseFlags(process.flags, "Karpenter");
      }
      KarpenterFlagValue(old(process.flags), run.karpenter);
    }

    method SetSpotinstFlags() returns (failed: bool)
      requires On(Building(SpotinstFlags), false)
      modifies this`cluster, this`ms, this`ts, this`seen, process
      ensures failed == CredentialsMissing(run.spot, run.spotToken, run.spotAccount)
      ensures failed ==> Returned(true)
      ensures !failed ==> On(Section(BuildCloud), false)
      ensures failed <==> run.spot.enabled && (!run.spotToken || !run.spotAccount)
      ensures process.flags == SpotinstFlagsAfter(old(process.flags), run.spot, run.spotToken, run.spotAccount)
      ensures SameInfrastructure(cluster, old(cluster))
    {
      hide ClusterAfter, History, Owns, Step, UniqueKeys, SpotinstFlagsAfter, CredentialsMissing, Mirrors,
        IndexAfter, Last;
      var _ := Do(Building(SpotinstFlags), None);
      failed := process.ParseSpotinstFeatureflags(run.spot, run.spotToken, run.spotAccount);
    }

    method CreateKopsCluster() returns (failed: bool)
      requires On(Building(CreateCluster), false)
      modifies this`cluster, this`ms, this`ts, this`seen
      ensures failed ==> Returned(true) && !Last(Building(ReconcileSecrets), Fail)
      ensures !failed ==> On(AfterSecrets(run), false) && cluster.spec == Some(OwnBuilt(run))
      ensures cluster.sshKey == (old(cluster.sshKey) || !failed)
    {
      hide ClusterAfter, History, Owns, Step, Mirrors, IndexAfter, UniqueKeys, Answers, Undisturbed;
      ghost var s := St();
      PopulatedNow();
      failed := Must(Building(CreateCluster), false);
      SpecIsOwn(s, if failed then Fail else Ok);
      if failed {
        return;
      }
      failed := AddSshCredential();
    }

    method AddSshCredential() returns (failed: bool)
      requires On(Building(AddSshKey), false)
      modifies this`cluster, this`ms, this`ts, this`seen
      ensures failed ==> Returned(true) && Last(Building(AddSshKey), Fail)
      ensures !failed ==> On(AfterSecrets(run), false)
      ensures cluster.spec == old(cluster.spec) && cluster.sshKey == (old(cluster.sshKey) || !failed)
    {
      hide ClusterAfter, History, Owns, Step, Mirrors, IndexAfter, UniqueKeys, Answers, Undisturbed, Last;
      ghost var s := St();
      failed := Must(Building(AddSshKey), false);
      WhatIsBuilt(run, s, if failed then Fail else Ok, seen, env.Value(), process.flags);
    }

    method UpdateKopsCluster() returns (failed: bool)
      requires On(Building(ClusterStatus), false)
      modifies this`cluster, this`ms, this`ts, this`seen
      ensures failed ==> Returned(true) && !Last(Building(ReconcileSecrets), Fail)
      ensures !failed ==> On(AfterSecrets(run), false) && cluster.spec == Some(OwnBuilt(run))
      ensures cluster.sshKey == old(cluster.sshKey)
    {
      RouteUpdating(run);
      hide ClusterAfter, History, Owns, Step, Mirrors, IndexAfter, UniqueKeys, Answers, Undisturbed;
      hide On, At, Returned, Straight, Onward, Builds, NextPhase, AfterCustom, Internal, TellsNotFound,
        KeepsVariables, SetsGlobals;
      failed := Must(Building(ClusterStatus), false);
      if !failed {
        failed := StoreUpdate();
      }
    }

    method StoreUpdate() returns (failed: bool)
      requires On(Building(UpdateCluster), false)
      modifies this`cluster, this`ms, this`ts, this`seen
      ensures failed ==> Returned(true) && !Last(Building(ReconcileSecrets), Fail)
      ensures !failed ==> On(AfterSecrets(run), false) && cluster.spec == Some(OwnBuilt(run))
      ensures cluster.sshKey == old(cluster.sshKey)
    {
      RouteUpdating(run);
      InPlace(Building(UpdateCluster), false);
      hide ClusterAfter, History, Owns, Step, Mirrors, IndexAfter, UniqueKeys, Answers, Undisturbed;
      hide On, At, Returned, Straight, Onward, Builds, NextPhase, AfterCustom, Internal, TellsNotFound,
        KeepsVariables, SetsGlobals;
      ghost var s := St();
      PopulatedNow();
      failed := Must(Building(UpdateCluster), false);
      SpecIsOwn(s, if failed then Fail else Ok);
    }

    /** Creates the cluster in the kops state if it is missing and updates it otherwise. The key is
        added only right after creating, so a cluster that is stored without one goes on without. */
    method CreateOrUpdateKopsCluster() returns (failed: bool)
      requires On(Building(GetCluster), false)
      modifies this`cluster, this`ms, this`ts, this`seen
      ensures failed ==> Returned(true) && !Last(Building(ReconcileSecrets), Fail)
      ensures !failed ==> On(AfterSecrets(run), false) && cluster.spec == Some(OwnBuilt(run))
      ensures cluster.sshKey == (old(cluster.sshKey) || (!failed && old(cluster.spec) == None))
    {
      hide ClusterAfter, History, Owns, Step, Mirrors, IndexAfter, UniqueKeys, Answers;
      ghost var pool := PoolAt(St());
      var o := Call(Building(GetCluster), None);
      FoundOrNot(run, pool, o, seen);
      if o.Fail? {
        return true;
      }
      if o.NotFound? {
        failed := CreateKopsCluster();
      } else {
        failed := UpdateKopsCluster();
      }
    }

    /** What a dry run leaves out: saving the cluster and its secrets. An error of the secrets is
        noted and otherwise ignored. */
    method SaveCluster() returns (failed: bool)
      requires On(Building(GetCluster), false)
      modifies this`cluster, this`ms, this`ts, this`seen
      ensures failed ==> Returned(true) && !Last(Building(ReconcileSecrets), Fail)
      ensures !failed ==> On(Building(PrepareKops), false) && cluster.spec == Some(OwnBuilt(run))
    {
      hide *;
      failed := CreateOrUpdateKopsCluster();
      if !failed {
        SaveSecrets();
      }
    }

    method SaveSecrets()
      requires On(AfterSecrets(run), false)
      modifies this`cluster, this`ms, this`ts, this`seen
      ensures On(Building(PrepareKops), false) && cluster.spec == old(cluster.spec)
    {
      hide History, Owns, Step, Mirrors, IndexAfter, UniqueKeys, ClusterAfter, Answers, Undisturbed, Last;
      if run.hasSecret {
        var _ := Call(Building(ReconcileSecrets), None);
      }
    }

    method RenderTerraform() returns (failed: bool)
      requires On(Building(PrepareKops), false)
      modifies this`cluster, this`ms, this`ts, this`seen
      ensures failed ==> Returned(true)
      ensures !failed ==> On(AfterCustom(run), false)
      ensures SameInfrastructure(cluster, old(cluster))
    {
      RouteRendering(run);
      hide History, Owns, Step, Mirrors, IndexAfter, UniqueKeys, ClusterAfter, Answers, Last;
      hide On, At, Returned, Straight, Onward, Builds, NextPhase, AfterCustom, Internal, TellsNotFound,
        KeepsVariables, SetsGlobals;
      failed := Must(Building(PrepareKops), false);
      if failed {
        return;
      }
      failed := RenderOwnTerraform();
    }

    method RenderOwnTerraform() returns (failed: bool)
      requires On(Building(PrepareCustom), false)
      modifies this`cluster, this`ms, this`ts, this`seen
      ensures failed ==> Returned(true)
      ensures !failed ==> On(AfterCustom(run), false)
      ensures SameInfrastructure(cluster, old(cluster))
    {
      RouteRendering(run);
      hide History, Owns, Step, Mirrors, IndexAfter, UniqueKeys, ClusterAfter, Answers, Undisturbed, Last;
      hide On, At, Returned, Straight, Onward, Builds, NextPhase, AfterCustom, Internal, TellsNotFound,
        KeepsVariables, SetsGlobals;
      failed := Must(Building(PrepareCustom), false);
      if failed {
        return;
      }
      if run.pinned {
        failed := Must(Building(PinProvider), false);
      }
    }

    /** The end of the critical section on the normal path. */
    method PlanOrPublish() returns (failed: bool)
      requires On(AfterCustom(run), false)
      modifies this`cluster, this`ms, this`ts, this`seen
      ensures failed ==> Returned(true)
      ensures !failed ==> On(Section(ReleaseLock), false)
      ensures SameInfrastructure(cluster, old(cluster))
    {
      RoutePublishing(run);
      hide History, Owns, Step, Mirrors, IndexAfter, UniqueKeys, ClusterAfter, Answers, Undisturbed, Last;
      hide On, At, Returned, Straight, Onward, Builds, NextPhase, AfterCustom, Internal, TellsNotFound,
        KeepsVariables, SetsGlobals;
      if run.dryRun {
        failed := Must(Building(Plan), false);
      } else {
        failed := PublishKubeconfig();
      }
    }

    method PublishKubeconfig() returns (failed: bool)
      requires On(Building(ReadKubeconfig), false)
      modifies this`cluster, this`ms, this`ts, this`seen
      ensures failed ==> Returned(true)
      ensures !failed ==> On(Section(ReleaseLock), false)
      ensures SameInfrastructure(cluster, old(cluster))
    {
      RoutePublishing(run);
      hide History, Owns, Step, Mirrors, IndexAfter, UniqueKeys, ClusterAfter, Answers, Undisturbed, Last;
      hide On, At, Returned, Straight, Onward, Builds, NextPhase, AfterCustom, Internal, TellsNotFound,
        KeepsVariables, SetsGlobals;
      failed := Must(Building(ReadKubeconfig), false);
      if failed {
        return;
      }
      failed := Must(Building(SaveKubeconfig), false);
    }

    // ---------------------------------------------------------------- the three ways through

    /** Reading the pool again; the list of the run is not changed yet. */
    method AskForPool(i: nat) returns (o: Outcome)
      requires On(Teardown(Refetch), true) && i == St().i < |kmps|
      modifies this`cluster, this`ms, this`ts, this`seen
      ensures Tracked() && MirrorsButPools() && Undisturbed()
      ensures St().pools == if o.Ok? then kmps[i := Lookup(cluster.pools, kmps[i]).(finalizer := false)] else kmps
      ensures St().phase == if o.Ok? then Teardown(NextTeardown) else RETURN
      ensures St().i == (if o.Ok? then i + 1 else i) && St().teardown && (!o.Ok? ==> St().failed)
      ensures St().hasList && SameInfrastructure(cluster, old(cluster))
    {
      hide ClusterAfter, History, Owns, Step, Lookup, NextPhase, PoolsAfter, UniqueKeys, Last, Undisturbed, Returns,
        IndexAfter, Possible;
      InvNow(run, ms, ts);
      ghost var s := St();
      o := Pass(Teardown(Refetch), PoolAtIndex(i));
      RefetchStep(run, s, o, seen);
    }

    method RefetchPool(i: nat) returns (o: Outcome)
      requires On(Teardown(Refetch), true) && i == St().i < |kmps|
      modifies this
      ensures o.Ok? ==> On(Teardown(NextTeardown), true) && St().i == i + 1
      ensures o.Ok? ==> kmps == old(kmps)[i := Lookup(cluster.pools, old(kmps[i])).(finalizer := false)]
      ensures !o.Ok? ==> Returned(true) && kmps == old(kmps)
      ensures finalizer == old(finalizer) && SameInfrastructure(cluster, old(cluster))
    {
      hide History, Owns, Lookup, UniqueKeys, Last, Undisturbed;
      o := AskForPool(i);
      if o.Ok? {
        var refetched := Lookup(cluster.pools, kmps[i]);
        kmps := kmps[i := refetched.(finalizer := false)];
      }
    }

    method DropFinalizer()
      requires On(Teardown(TeardownPoint.DropFinalizer), true)
      modifies this
      ensures Returned(false) && !finalizer && kmps == old(kmps) && SameInfrastructure(cluster, old(cluster))
    {
      hide ClusterAfter, History, Owns, Step, Possible, UniqueKeys, Last, Undisturbed;
      ghost var s := St();
      var o := Pass(Teardown(TeardownPoint.DropFinalizer), None);
      DropStep(run, s, o, seen);
      finalizer := false;
      assert Tracked() && Mirrors();
    }

    /** After the cluster is gone: the owners and the finalizer of every pool in turn, then those of
        the control plane. A failure at one pool leaves exactly the pools before it released. */
    method ReleasePools() returns (failed: bool, ghost released: nat)
      requires On(Teardown(NextTeardown), true) && St().i == 0
      modifies this
      ensures Returned(failed) && SameInfrastructure(cluster, old(cluster))
      ensures released <= |kmps| == |old(kmps)|
      ensures forall j :: 0 <= j < released ==> !kmps[j].finalizer
      ensures forall j :: released <= j < |kmps| ==> kmps[j] == old(kmps)[j]
      ensures if failed then finalizer == old(finalizer) else released == |kmps| && !finalizer
    {
      hide ClusterAfter, History, Owns, Step, Mirrors, UniqueKeys, Answers, Last;
      ghost var before := kmps;
      released := 0;
      var i := 0;
      while i < |kmps|
        invariant On(Teardown(NextTeardown), true) && St().i == i == released
        invariant 0 <= i <= |kmps| == |before| && finalizer == old(finalizer)
        invariant SameInfrastructure(cluster, old(cluster))
        invariant forall j :: 0 <= j < i ==> !kmps[j].finalizer
        invariant forall j :: i <= j < |kmps| ==> kmps[j] == before[j]
      {
        failed := ReleasePool(i);
        if failed {
          return true, released;
        }
        i := i + 1;
        released := i;
      }
      failed := ReleaseControlPlane();
    }

    /** The owners of one pool. */
    method ReleaseOwners(i: nat) returns (failed: bool)
      requires On(Teardown(NextTeardown), true) && i == St().i < |kmps|
      modifies this`cluster, this`ms, this`ts, this`seen
      ensures failed ==> Returned(true)
      ensures !failed ==> On(Teardown(Refetch), true) && St().i == i
      ensures SameInfrastructure(cluster, old(cluster))
    {
      hide ClusterAfter, History, Owns, Step, Mirrors, UniqueKeys, Answers, Last, Undisturbed, Possible;
      ListInStep();
      var o := Call(Teardown(NextTeardown), None);
      failed := Must(Teardown(TeardownOwners), true);
    }

    method ReleasePool(i: nat) returns (failed: bool)
      requires On(Teardown(NextTeardown), true) && i == St().i < |kmps|
      modifies this
      ensures finalizer == old(finalizer) && |kmps| == |old(kmps)| && SameInfrastructure(cluster, old(cluster))
      ensures failed ==> Returned(true) && kmps == old(kmps)
      ensures !failed ==> On(Teardown(NextTeardown), true) && St().i == i + 1
      ensures !failed ==> kmps == old(kmps)[i := kmps[i]] && !kmps[i].finalizer
    {
      hide ClusterAfter, History, Owns, Step, Mirrors, UniqueKeys, Answers, Last, Undisturbed, Possible, NextPhase,
        Lookup, On, At, Returned;
      failed := ReleaseOwners(i);
      if !failed {
        var o := RefetchPool(i);
        failed := !o.Ok?;
      }
    }

    lemma ListInStep()
      requires Tracked() && Mirrors()
      ensures kmps == St().pools
    {
    }

    method ReleaseControlPlane() returns (failed: bool)
      requires On(Teardown(NextTeardown), true) && St().i == |kmps|
      modifies this
      ensures Returned(failed) && kmps == old(kmps) && SameInfrastructure(cluster, old(cluster))
      ensures finalizer == (failed && old(finalizer))
    {
      hide ClusterAfter, History, Owns, Step, IndexAfter, UniqueKeys, Last, Undisturbed, Answers, Possible, NextPhase,
        Mirrors, Returns;
      ListInStep();
      ReleaseOver(run, St());
      var o := Call(Teardown(NextTeardown), None);
      failed := DeleteOwners();
    }

    method DeleteOwners() returns (failed: bool)
      requires On(Teardown(ControlPlaneOwners), true)
      modifies this
      ensures Returned(failed) && kmps == old(kmps) && SameInfrastructure(cluster, old(cluster))
      ensures finalizer == (failed && old(finalizer))
    {
      hide ClusterAfter, History, Owns, Step, IndexAfter, UniqueKeys, Last, Undisturbed, Answers, Possible, Mirrors,
        Returns;
      failed := Must(Teardown(ControlPlaneOwners), true);
      if failed {
        return;
      }
      DropFinalizer();
      return false;
    }

    method SetReady()
      requires On(Applying(ApplyPoint.SetReady), false)
      modifies this
      ensures Returned(false) && finalizer == old(finalizer) && SameInfrastructure(cluster, old(cluster))
    {
      hide ClusterAfter, History, Owns, Step, Possible, UniqueKeys, Validation.Healthy, NextPhase, Last, Undisturbed;
      ghost var s := St();
      var healthy := KopsClusterValidation(run.report);
      var o := Pass(Applying(ApplyPoint.SetReady), None);
      JudgedStep(run, s, o, seen);
      ready := healthy;
      assert Tracked() && Mirrors();
    }

    method ApplyAndValidate() returns (failed: bool)
      requires On(Applying(Apply), false)
      modifies this
      ensures Returned(failed) && (Last(Applying(ProviderIds), NotFound) ==> !failed)
      ensures !failed ==> cluster.applied == Some((OwnBuilt(run), run.credentials))
      ensures finalizer == old(finalizer) && cluster.spec == old(cluster.spec) && cluster.groups == old(cluster.groups)
    {
      hide ClusterAfter, History, Owns, Step, Mirrors, IndexAfter, UniqueKeys, Answers;
      failed := ApplyTerraform();
      if failed {
        return;
      }
      failed := Validate();
    }

    method ApplyTerraform() returns (failed: bool)
      requires On(Applying(Apply), false)
      modifies this`cluster, this`ms, this`ts, this`seen
      ensures failed ==> Returned(true) && Last(Applying(Apply), Fail)
      ensures !failed ==> On(Applying(ProviderIds), false) && cluster.applied == Some((OwnBuilt(run), run.credentials))
      ensures cluster.spec == old(cluster.spec) && cluster.groups == old(cluster.groups)
    {
      hide ClusterAfter, History, Owns, Step, Mirrors, IndexAfter, UniqueKeys, Answers, Undisturbed, Last;
      ghost var s := St();
      ReadyToApply();
      failed := Must(Applying(Apply), false);
      WhatIsBuilt(run, s, if failed then Fail else Ok, seen, env.Value(), process.flags);
    }

    lemma ReadyToApply()
      requires On(Applying(Apply), false)
      ensures cluster.rendered == Some(OwnBuilt(run))
    {
    }

    method Validate() returns (failed: bool)
      requires On(Applying(ProviderIds), false)
      modifies this
      ensures Returned(failed) && (Last(Applying(ProviderIds), NotFound) ==> !failed)
      ensures finalizer == old(finalizer) && SameInfrastructure(cluster, old(cluster))
    {
      hide ClusterAfter, History, Owns, Step, Mirrors, IndexAfter, UniqueKeys, Answers;
      var o := Call(Applying(ProviderIds), None);
      if !o.Ok? {
        return o.Fail?;
      }
      failed := ValidateGroups();
    }

    method ValidateGroups() returns (failed: bool)
      requires On(Applying(ListGroups), false)
      modifies this
      ensures Returned(failed) && (Last(Applying(ProviderIds), NotFound) ==> !failed)
      ensures finalizer == old(finalizer) && SameInfrastructure(cluster, old(cluster))
    {
      RouteApplying(run);
      hide ClusterAfter, History, Owns, Step, Mirrors, IndexAfter, UniqueKeys, Answers, Undisturbed;
      hide On, At, Returned, Straight, Onward, Builds, NextPhase, AfterCustom, Internal, TellsNotFound,
        KeepsVariables, SetsGlobals;
      failed := Must(Applying(ListGroups), false);
      if failed {
        return;
      }
      failed := Must(Applying(ApplyPoint.Validate), false);
      if failed {
        return;
      }
      SetReady();
      return false;
    }

    method DestroyTerraform() returns (failed: bool)
      requires On(Approach(PrepareTeardown), true)
      modifies this`cluster, this`ms, this`ts, this`seen
      ensures failed ==> Returned(true)
      ensures !failed ==> On(Approach(TakeLock), true) && cluster.applied == None
    {
      RouteOutside(run);
      hide ClusterAfter, History, Owns, Step, Mirrors, IndexAfter, UniqueKeys, Answers, Undisturbed, Last;
      hide On, At, Returned, Straight, Onward, Builds, NextPhase, AfterCustom, Internal, TellsNotFound,
        KeepsVariables, SetsGlobals;
      failed := Must(Approach(PrepareTeardown), true);
      if failed {
        return;
      }
      failed := Must(Approach(WriteProvider), true);
      if failed {
        return;
      }
      failed := DestroyApplied();
    }

    method DestroyApplied() returns (failed: bool)
      requires On(Approach(Destroy), true)
      modifies this`cluster, this`ms, this`ts, this`seen
      ensures failed ==> Returned(true)
      ensures !failed ==> On(Approach(TakeLock), true) && cluster.applied == None
    {
      RouteOutside(run);
      InPlace(Approach(Destroy), true);
      hide ClusterAfter, History, Owns, Step, Mirrors, IndexAfter, UniqueKeys, Answers, Undisturbed, Last;
      hide On, At, Returned, Straight, Onward, Builds, NextPhase, AfterCustom, Internal, TellsNotFound,
        KeepsVariables, SetsGlobals;
      ghost var s := St();
      failed := Must(Approach(Destroy), true);
      WhatIsBuilt(run, s, if failed then Fail else Ok, seen, env.Value(), process.flags);
    }

    method DeleteCluster() returns (failed: bool)
      requires On(Approach(ListToDelete), true) && !St().hasList
      modifies this, mux, env, process
      ensures Returned(failed)
      ensures !failed ==> !finalizer && forall j :: 0 <= j < |kmps| ==> !kmps[j].finalizer
      ensures !failed ==> Gone(cluster)
    {
      hide ClusterAfter, History, Owns, Step, Mirrors, IndexAfter, UniqueKeys, NextPhase, Last;
      failed := ListKopsMachinePools(Approach(ListToDelete));
      if failed {
        return;
      }
      failed := DestroyTerraform();
      if failed {
        return;
      }
      failed := DeleteInKops();
      if failed {
        return;
      }
      ghost var released;
      failed, released := ReleasePools();
    }

    /** The critical section of a deletion. */
    method DeleteInKops() returns (failed: bool)
      requires On(Approach(TakeLock), true)
      modifies this, mux, env, process
      ensures failed ==> Returned(true)
      ensures !failed ==> On(Teardown(NextTeardown), true) && St().i == 0
      ensures !failed ==> cluster.groups == {} && cluster.spec == None && !cluster.sshKey
      ensures cluster.applied == old(cluster.applied)
    {
      hide ClusterAfter, History, Owns, Step, IndexAfter, UniqueKeys, NextPhase, Mirrors, Answers, Last;
      failed := ConnectToDelete();
      if failed {
        return;
      }
      failed := KopsDeleteResources();
      if failed {
        return;
      }
      HeldInside();
      UnlockMutex(true);
      LowerFlag(true);
      return false;
    }

    method ConnectToDelete() returns (failed: bool)
      requires On(Approach(TakeLock), true)
      modifies this, mux, env, process
      ensures failed ==> Returned(true)
      ensures !failed ==> On(Section(BuildCloud), true)
      ensures SameInfrastructure(cluster, old(cluster))
    {
      hide ClusterAfter, History, Owns, Step, IndexAfter, UniqueKeys, Last;
      NotHeldOutside();
      LockMutex(true);
      RaiseFlag(true);
      failed := Must(Section(MakeClient), true);
      if failed {
        return;
      }
      failed := SetEnvVarsFromAWSCredentials(true);
    }

    method KopsDeleteResources() returns (failed: bool)
      requires On(Section(BuildCloud), true)
      modifies this`cluster, this`ms, this`ts, this`seen
      ensures failed ==> Returned(true)
      ensures !failed ==> On(Section(ReleaseLock), true)
      ensures !failed ==> cluster.groups == {} && cluster.spec == None && !cluster.sshKey
      ensures cluster.applied == old(cluster.applied)
    {
      RouteInside(run);
      hide ClusterAfter, History, Owns, Step, IndexAfter, UniqueKeys, Mirrors, Answers, Undisturbed, Last;
      hide On, At, Returned, Straight, Onward, Builds, NextPhase, AfterCustom, Internal, TellsNotFound,
        KeepsVariables, SetsGlobals;
      failed := Must(Section(BuildCloud), true);
      if failed {
        return;
      }
      failed := DeleteResources();
    }

    method DeleteResources() returns (failed: bool)
      requires On(Section(KopsDelete), true)
      modifies this`cluster, this`ms, this`ts, this`seen
      ensures failed ==> Returned(true)
      ensures !failed ==> On(Section(ReleaseLock), true)
      ensures !failed ==> cluster.groups == {} && cluster.spec == None && !cluster.sshKey
      ensures cluster.applied == old(cluster.applied)
    {
      hide ClusterAfter, History, Owns, Step, IndexAfter, UniqueKeys, Mirrors, Answers, Undisturbed, Last, GroupsAfter,
        SpecAfter, KeyAfter, AppliedAfter, Returns;
      ghost var s := St();
      failed := Must(Section(KopsDelete), true);
      KopsCleared(run, s, if failed then Fail else Ok, seen, env.Value(), process.flags);
    }

    lemma NotHeldOutside()
      requires Tracked() && Mirrors() && St().phase == Approach(TakeLock)
      ensures !mux.locked
    {
      InvNow(run, ms, ts);
    }

    lemma FinalizerByNow()
      requires On(Section(ReleaseLock), false)
      ensures finalizer
    {
      FinalizerAdded(run, ms, ts, |ts|);
    }

    lemma NotHeldOn(teardown: bool)
      requires On(Approach(TakeLock), teardown)
      ensures !mux.locked
    {
      NotHeldOutside();
    }

    lemma NoListOn()
      requires On(Section(ListPools), false)
      ensures Tracked() && At(Section(ListPools)) && !St().hasList && !St().teardown
    {
      NoListYet();
    }

    lemma HeldInside()
      requires Tracked() && Mirrors() && St().phase == Section(ReleaseLock)
      ensures mux.locked
    {
      InvNow(run, ms, ts);
    }

    lemma NoListYet()
      requires Tracked() && (St().phase == Section(ListPools) || St().phase == Approach(ApproachPoint.AddFinalizer))
      ensures !St().hasList
    {
      InvNow(run, ms, ts);
    }

    method AddFinalizer()
      requires On(Approach(ApproachPoint.AddFinalizer), false)
      modifies this
      ensures On(Approach(TakeLock), false) && finalizer
    {
      hide ClusterAfter, History, Owns, Step, Possible, UniqueKeys, Last, Undisturbed;
      ghost var s := St();
      var o := Pass(Approach(ApproachPoint.AddFinalizer), None);
      FinalizerStep(run, s, o, seen);
      finalizer := true;
    }

    /** The critical section of the normal path, up to the pools. */
    method OpenSection() returns (failed: bool)
      requires On(Approach(TakeLock), false)
      modifies this, mux, env, process
      ensures failed ==> Returned(true)
      ensures !failed ==> On(PoolWork(NextPool), false) && St().i == 0
    {
      RouteInside(run);
      hide ClusterAfter, History, Owns, Step, IndexAfter, UniqueKeys, Last, Mirrors, Answers, Undisturbed, Possible;
      hide On, At, Returned, Straight, Onward, Builds, NextPhase, AfterCustom, Internal, TellsNotFound,
        KeepsVariables, SetsGlobals;
      NotHeldOn(false);
      LockMutex(false);
      RaiseFlag(false);
      NoListOn();
      failed := ListKopsMachinePools(Section(ListPools));
      if failed {
        return;
      }
      failed := Must(Section(MakeClient), false);
      if failed {
        return;
      }
      failed := SetEnvVarsFromAWSCredentials(false);
    }

    /** The addons, the feature flags and the connection. */
    method ConnectToBuild() returns (failed: bool)
      requires On(Building(Addons), false)
      modifies this`cluster, this`ms, this`ts, this`seen, process
      ensures failed ==> Returned(true)
      ensures !failed ==> On(Building(Populate), false)
    {
      RouteSaving(run);
      RouteInside(run);
      hide ClusterAfter, History, Owns, Step, Mirrors, IndexAfter, UniqueKeys, Answers, View, Undisturbed, Last;
      hide On, At, Returned, Straight, Onward, Builds, NextPhase, AfterCustom, Internal, TellsNotFound,
        KeepsVariables, SetsGlobals;
      failed := Must(Building(Addons), false);
      if failed {
        return;
      }
      failed := SetFeatureFlags();
      if failed {
        return;
      }
      failed := Must(Section(BuildCloud), false);
    }

    method SetFeatureFlags() returns (failed: bool)
      requires On(Building(KarpenterFlag), false)
      modifies this`cluster, this`ms, this`ts, this`seen, process
      ensures failed ==> Returned(true)
      ensures !failed ==> On(Section(BuildCloud), false) && View(process.flags) == OwnFlags(run)
    {
      hide ClusterAfter, History, Owns, Step, Mirrors, NextPhase, Flag, SpotinstFlagsAfter, View, Last;
      SetKarpenterFlag();
      failed := SetSpotinstFlags();
      if !failed {
        FlagsByNow();
      }
    }

    lemma FlagsByNow()
      requires On(Section(BuildCloud), false)
      ensures View(process.flags) == OwnFlags(run)
    {
    }

    /** The rest of it. */
    method BuildCluster() returns (failed: bool)
      requires On(Building(Addons), false)
      modifies this, process
      ensures failed ==> Returned(true)
      ensures !failed ==> On(Section(ReleaseLock), false)
      ensures !failed && !run.dryRun ==> cluster.spec == Some(OwnBuilt(run))
    {
      RouteSaving(run);
      hide ClusterAfter, History, Owns, Step, Mirrors, IndexAfter, UniqueKeys, Answers, Last;
      hide On, At, Returned, Straight, Onward, Builds, NextPhase, AfterCustom, Internal, TellsNotFound,
        KeepsVariables, SetsGlobals;
      failed := ConnectToBuild();
      if failed {
        return;
      }
      failed := Must(Building(Populate), false);
      if failed {
        return;
      }
      if !run.dryRun {
        failed := SaveCluster();
        if failed {
          return;
        }
      }
      failed := RenderTerraform();
      if failed {
        return;
      }
      failed := PlanOrPublish();
    }

    method ReconcileCluster() returns (failed: bool)
      requires On(Approach(ApproachPoint.AddFinalizer), false)
      modifies this, mux, env, process
      ensures Returned(failed)
      ensures !failed && !run.dryRun ==>
        cluster.spec == Some(OwnBuilt(run)) && cluster.applied == Some((OwnBuilt(run), run.credentials))
      ensures !failed ==> finalizer
    {
      hide ClusterAfter, History, Owns, Step, Mirrors, IndexAfter, NextPhase, UniqueKeys, Answers, Last;
      AddFinalizer();
      failed := OpenSection();
      if failed {
        return;
      }
      ghost var _ := ReconcileKopsMachinePools();
      failed := BuildCluster();
      if failed {
        return;
      }
      HeldInside();
      FinalizerByNow();
      UnlockMutex(false);
      LowerFlag(false);
      if run.dryRun {
        return false;
      }
      failed := ApplyAndValidate();
    }

    // ---------------------------------------------------------------- the body and its closure

    method Unpause()
      requires At(Opening(CheckPaused))
      modifies this
      ensures run.paused ==> Returned(false)
      ensures !run.paused ==> On(Opening(ReadCredentials), old(St().teardown)) && St().hasList == old(St().hasList)
    {
      hide ClusterAfter, History, Owns, Step, Possible, UniqueKeys, Last, Undisturbed;
      ghost var s := St();
      var o := Pass(Opening(CheckPaused), None);
      PausedStep(run, s, o, seen);
      if !run.paused {
        ready := false;
      }
      assert Tracked() && Mirrors();
    }

    method Decide()
      requires On(Opening(OpeningPoint.Decide), false)
      modifies this
      ensures On(Approach(if ShouldDeleteCluster(run) then ListToDelete else ApproachPoint.AddFinalizer),
        ShouldDeleteCluster(run))
      ensures St().hasList == old(St().hasList)
    {
      hide ClusterAfter, History, Owns, Step, Possible, UniqueKeys, Last, Undisturbed;
      ghost var s := St();
      var o := Pass(Opening(OpeningPoint.Decide), None);
      DecideStep(run, s, o, seen);
    }

    /** What a run that returns no error has brought about: a deletion has left nothing behind, and
        any other run but a dry one has saved and applied its own specification with its own
        credentials. */
    predicate Achieved(c: Cluster) {
      if ShouldDeleteCluster(run) then Gone(c)
      else run.dryRun || (c.spec == Some(OwnBuilt(run)) && c.applied == Some((OwnBuilt(run), run.credentials)))
    }

    lemma PopulatedNow()
      requires Tracked() && Undisturbed()
      ensures PopulatedInv(run, St().phase, cluster.populated)
    {
    }

    lemma SpecIsOwn(s: Run, o: Outcome)
      requires s.phase == Building(CreateCluster) || s.phase == Building(UpdateCluster)
      requires PopulatedInv(run, s.phase, seen.populated)
      requires cluster == ClusterAfter(run, s, o, seen, env.Value(), process.flags)
      ensures cluster.sshKey == seen.sshKey && (o.Ok? ==> cluster.spec == Some(OwnBuilt(run)))
    {
    }

    method ReadInputs() returns (failed: bool)
      requires On(Opening(ReadCredentials), false)
      modifies this`cluster, this`ms, this`ts, this`seen
      ensures failed ==> Returned(true)
      ensures !failed ==> On(Opening(OpeningPoint.Decide), false) && St().hasList == old(St().hasList)
    {
      hide ClusterAfter, History, Owns, Step, IndexAfter, UniqueKeys, Mirrors, Answers, Last, Undisturbed;
      failed := Must(Opening(ReadCredentials), false);
      if failed {
        return;
      }
      if run.needsRange {
        failed := Must(Opening(ServiceRange), false);
      }
    }

    /** Everything between registering the deferred closure and returning. */
    method Body() returns (failed: bool)
      requires On(Opening(CheckPaused), false) && !St().hasList
      modifies this, mux, env, process
      ensures Returned(failed)
      ensures !failed && !run.paused ==> Achieved(cluster) && finalizer == !ShouldDeleteCluster(run)
    {
      hide ClusterAfter, History, Owns, Step, IndexAfter, UniqueKeys, Mirrors, Answers, Last;
      Unpause();
      if run.paused {
        return false;
      }
      failed := ReadInputs();
      if failed {
        return;
      }
      Decide();
      if ShouldDeleteCluster(run) {
        failed := DeleteCluster();
      } else {
        failed := ReconcileCluster();
      }
    }

    method SafetyUnlock()
      requires At(RETURN)
      modifies this, mux
      ensures At(if run.dryRun then Done else Closing(UpdatePools)) && St().i == 0 && St().failed == old(St().failed)
      ensures finalizer == old(finalizer) && !mux.locked && old(ms) <= ms && SameInfrastructure(cluster, old(cluster))
    {
      hide ClusterAfter, History, Owns, Step, Possible, UniqueKeys, Last, Undisturbed;
      ghost var s := St();
      InvNow(run, ms, ts);
      var o := Pass(RETURN, None);
      SafetyStep(run, s, o, seen);
      if shouldUnlock {
        mux.Unlock();
      }
      assert Tracked() && Mirrors();
    }

    method SavePools()
      requires At(Closing(UpdatePools)) && St().i == 0
      modifies this`cluster, this`ms, this`ts, this`seen
      ensures At(Closing(UpdateControlPlane)) && St().failed == old(St().failed) && old(ms) <= ms
      ensures SameInfrastructure(cluster, old(cluster))
    {
      hide ClusterAfter, History, Owns, Step, UniqueKeys, Last;
      var i := 0;
      while i < |kmps|
        invariant At(Closing(UpdatePools)) && St().i == i <= |kmps| && St().failed == old(St().failed) && old(ms) <= ms
        invariant SameInfrastructure(cluster, old(cluster))
      {
        var _ := Call(Closing(UpdatePools), PoolAtIndex(i));
        i := i + 1;
      }
      var _ := Call(Closing(UpdatePools), PoolAtIndex(i));
    }

    method SaveControlPlane()
      requires At(Closing(UpdateControlPlane))
      modifies this`cluster, this`ms, this`ts, this`seen
      ensures At(Done) && St().failed == old(St().failed) && old(ms) <= ms
      ensures SameInfrastructure(cluster, old(cluster))
    {
      hide ClusterAfter, History, Owns, Step, UniqueKeys, Mirrors, IndexAfter, Answers, Last;
      var _ := Call(Closing(UpdateControlPlane), None);
      var _ := Call(Closing(Metric), None);
    }

    /** The closure that Reconcile defers: it unlocks if need be, saves the objects and counts the
        outcome. */
    method Deferred(failed: bool)
      requires Returned(failed) && gauge.Valid()
      modifies this, mux, gauge
      ensures At(Done) && St().failed == failed && !mux.locked && old(ms) <= ms
        && SameInfrastructure(cluster, old(cluster))
      ensures finalizer == old(finalizer)
      ensures gauge.Valid() && gauge.endings ==
        old(gauge.endings) + if run.dryRun then [] else [Ending(Key(name, run.environment), failed)]
    {
      hide ClusterAfter, History, Owns, Step, UniqueKeys, Mirrors, IndexAfter, NextPhase, Gauges, Answers, Last,
        At, Undisturbed, ErrorGauge.Valid;
      SafetyUnlock();
      if run.dryRun {
        return;
      }
      SavePools();
      SaveControlPlane();
      CountOutcome(failed);
    }

    method CountOutcome(failed: bool)
      requires gauge.Valid()
      modifies gauge
      ensures gauge.Valid() && gauge.endings == old(gauge.endings) + [Ending(Key(name, run.environment), failed)]
    {
      if failed {
        gauge.Inc(Key(name, run.environment));
      } else {
        gauge.SetZero(Key(name, run.environment));
      }
    }

    /** Before the closure is registered a return ends the run. */
    method FindCluster() returns (found: bool, failed: bool)
      requires Begun()
      modifies this`cluster, this`ms, this`ts, this`seen
      ensures found ==> On(Opening(CheckPaused), false) && !St().hasList
      ensures !found ==> At(Done) && St().failed == failed
      ensures |ts| <= 4 && (found ==> |ts| == 4)
    {
      hide ClusterAfter, History, Owns, Step, UniqueKeys, Mirrors, IndexAfter, Answers, Last;
      BegunFresh();
      var o := Call(Opening(Fetch), None);
      if !o.Ok? {
        return false, o.Fail?;
      }
      o := Call(Opening(CheckClass), None);
      if !run.sameClass {
        return false, false;
      }
      found, failed := FindOwner();
    }

    method FindOwner() returns (found: bool, failed: bool)
      requires On(Opening(CheckSelected), false) && !St().hasList
      modifies this`cluster, this`ms, this`ts, this`seen
      ensures found ==> On(Opening(CheckPaused), false) && !St().hasList
      ensures !found ==> At(Done) && St().failed == failed
      ensures |ts| <= |old(ts)| + 2 && (found ==> |ts| == |old(ts)| + 2)
    {
      hide ClusterAfter, History, Owns, Step, UniqueKeys, Mirrors, IndexAfter, Answers, Last;
      var o := Call(Opening(CheckSelected), None);
      if !run.selected {
        return false, false;
      }
      o := Call(Opening(OpeningPoint.FindOwner), None);
      if !o.Ok? || !run.hasOwner {
        return false, o.Fail?;
      }
      return true, false;
    }

    lemma BegunFresh()
      requires Begun()
      ensures !St().teardown && !St().hasList
    {
    }

    ghost function Now(): Moment
      requires Tracked()
      reads this
    {
      ms[|ts|]
    }

    /** One run of Reconcile. Whatever fails, it ends with the mutex released by it if it had locked
        it, and what it has done is a history of the machine. With that: an error is returned
        exactly when a call failed that is not tolerated; Ready is set exactly when it is deserved;
        the finalizer of the control plane is gone only after a complete teardown; and the gauge
        has counted the run. */
    method Reconcile() returns (failed: bool, registered: bool)
      requires Begun() && gauge.Valid() && !mux.locked
      modifies this, mux, env, process, gauge
      ensures At(Done) && !mux.locked
      ensures registered <==> Script.Found(run, Now().past.trace)
      ensures failed <==> !Harmless(Now().past.trace)
      ensures registered && !run.paused ==> ready == DeservesReady(run, Now().past.trace)
      ensures registered && run.paused ==> ready == run.wasReady
      ensures run.finalizer && !finalizer ==> ShouldDeleteCluster(run) && Now().past.log == FullLog(|Now().past.listed|)
      ensures registered && !failed && !run.paused ==> Achieved(cluster)
      ensures registered && !failed && !run.paused && run.deleting && !run.protected && !run.dryRun ==>
        Gone(cluster) && !finalizer
      ensures registered && !failed && !run.paused && (!run.deleting || run.protected) && !run.dryRun ==>
        cluster.spec == Some(OwnBuilt(run)) && cluster.applied == Some((OwnBuilt(run), run.credentials)) && finalizer
      ensures gauge.Valid()
      ensures gauge.endings == old(gauge.endings) +
        if registered && !run.dryRun then [Ending(Key(name, run.environment), failed)] else []
    {
      hide ClusterAfter, History, Owns, Step, UniqueKeys, Harmless, DeservesReady, NextPhase, Gauges, Last,
        Gone, FullLog, Mirrors, Undisturbed;
      registered, failed := FindCluster();
      if registered {
        failed := Serve();
      } else {
        Script.NotFound(run, ms, ts);
      }
      AtEnd(run, ms, ts);
      DoneNow();
    }

    /** The run of a cluster that is found, with its closure. */
    method Serve() returns (failed: bool)
      requires On(Opening(CheckPaused), false) && !St().hasList && gauge.Valid()
      modifies this, mux, env, process, gauge
      ensures At(Done) && !mux.locked && St().failed == failed
      ensures Script.Found(run, Now().past.trace)
      ensures !run.paused ==> ready == DeservesReady(run, Now().past.trace)
      ensures run.paused ==> ready == run.wasReady
      ensures !failed && !run.paused ==> Achieved(cluster) && finalizer == !ShouldDeleteCluster(run)
      ensures gauge.Valid()
      ensures gauge.endings == old(gauge.endings) +
        if !run.dryRun then [Ending(Key(name, run.environment), failed)] else []
    {
      hide ClusterAfter, History, Owns, Step, UniqueKeys, Harmless, DeservesReady, NextPhase, Gauges, Last;
      failed := Body();
      ghost var before, past := |ts|, ms;
      Asked(run, ms, ts);
      Lengths();
      Deferred(failed);
      Lengths();
      assert ms[before] == past[before];
      StillAsked(run, ms, ts, before);
      ReadyMeaning(run, ms, ts);
      Script.FoundExactly(run, ms, ts);
    }

    lemma DoneNow()
      requires At(Done)
      ensures finalizer == Now().st.finalizer && St() == Now().st
    {
    }

    lemma Lengths()
      requires Tracked()
      ensures |ms| == |ts| + 1
    {
    }
  }

  lemma InvNow(run: Input, ms: seq<Moment>, ts: seq<Turn>)
    requires History(run, ms, ts)
    ensures Inv(run, ms[|ts|].st)
  {
    InvHistory(run, ms, ts, |ts|);
  }

  lemma OwnsOther(run: Input, st: Run, env: Env, flags: FlagTable, cl: Cluster)
    requires Owns(run, st, env, flags, cl)
    ensures forall pools :: Owns(run, st, env, flags, cl.(pools := pools))
  {
  }

  lemma PoolsKept(run: Input, st: Run, o: Outcome, c: Cluster, env: Env, flags: FlagTable)
    requires !st.phase.Closing?
    ensures ClusterAfter(run, st, o, c, env, flags).pools == c.pools
  {
  }

  /** Before the variables are set nothing is relied on, whatever was found in the process. */
  lemma AnyProcess(run: Input, st: Run, env: Env, flags: FlagTable, cl: Cluster)
    requires st.phase == Section(SectionPoint.RaiseFlag) && UnsavedInv(run, st.phase, cl.finalizer)
    ensures Owns(run, st, env, flags, cl)
  {
  }

  lemma SortedListing(pools: seq<Pool>, listed: seq<Pool>)
    requires Sorted(pools) && Permutation(pools, listed) && UniqueKeys(listed)
    ensures pools == Sort(listed)
  {
    SortCorrect(listed);
    UniqueKeysPermuted(listed, pools);
    SortedIsUnique(pools, Sort(listed));
  }

  lemma EarlierWasBefore(run: Input, st: Run, o: Outcome)
    ensures BeforeSaving(NextPhase(run, st, o)) && !st.phase.Teardown? ==> BeforeSaving(st.phase)
    ensures st.phase.Teardown? ==> !BeforeSaving(NextPhase(run, st, o))
  {
  }

  const LABEL := "cluster.x-k8s.io/cluster-name"

  method PoolsOfCluster(name: string, listed: seq<Pool>, ok: bool) returns (r: Listing)
    requires name != [] && UniqueKeys(listed)
    ensures r == if ok then Listed(Sort(listed)) else Failed(ListFailed)
    ensures ok ==> InOrder(r.pools)
  {
    r := GetKopsMachinePoolsWithLabel(LABEL, name, if ok then Some(listed) else None);
    if ok {
      SortedListing(r.pools, listed);
    }
  }

  lemma ListedStep(run: Input, st: Run, o: Outcome, c: Cluster)
    requires st.phase == Approach(ListToDelete) || st.phase == Section(ListPools)
    ensures var t := Step(run, st, o, c);
            && t.phase == (if !o.Ok? then RETURN else if st.phase.Approach? then Approach(PrepareTeardown)
               else Section(MakeClient))
            && t.pools == (if o.Ok? then Sort(c.pools) else st.pools)
            && t.finalizer == st.finalizer && t.ready == st.ready && t.shouldUnlock == st.shouldUnlock
            && t.holds == st.holds && t.teardown == st.teardown
            && t.hasList == (st.hasList || o.Ok?) && (!o.Ok? ==> t.failed == o.Fail?)
  {
  }

  lemma PoolStep(run: Input, st: Run, o: Outcome, c: Cluster)
    requires st.phase == PoolWork(NextPool) || st.phase == PoolWork(PoolOwners)
    ensures var t := Step(run, st, o, c);
            && t.phase == NextPhase(run, st, o) && t.i == IndexAfter(run, st, o) && t.pools == PoolsAfter(run, st, o, c)
            && t.finalizer == st.finalizer && t.ready == st.ready && t.shouldUnlock == st.shouldUnlock
            && t.holds == st.holds && t.teardown == st.teardown && t.hasList == st.hasList
  {
  }

  lemma SecretStep(run: Input, st: Run)
    requires st.phase == Section(SectionPoint.SetSecret)
    ensures NextPhase(run, st, Ok) == (if st.teardown then Section(BuildCloud) else PoolWork(NextPool))
      && IndexAfter(run, st, Ok) == 0
    ensures forall o: Outcome :: !o.Ok? ==> NextPhase(run, st, o) == RETURN && Returns(run, st, o)
  {
  }

  lemma ReleaseOver(run: Input, st: Run)
    requires st.phase == Teardown(NextTeardown) && st.i == |st.pools|
    ensures forall o: Outcome :: NextPhase(run, st, o) == Teardown(ControlPlaneOwners)
  {
  }

  lemma GroupLookup(run: Input, st: Run, o: Outcome, c: Cluster)
    requires st.phase == PoolWork(IgGet) && st.i < |st.pools| && Answers(run, st.phase, PoolAt(st), o, c)
    ensures NextPhase(run, st, o) ==
      PoolWork(match o case Ok => IgUpdate case NotFound => IgCreate case Fail => NextPool)
    ensures IndexAfter(run, st, o) == if o.Fail? then st.i + 1 else st.i
    ensures o.Ok? ==> st.pools[st.i].name in c.groups
  {
  }

  lemma StartStep(run: Input, st: Run, c: Cluster)
    requires st.phase == PoolWork(NextPool) && st.i < |st.pools| && !run.dryRun
    ensures var t, p := Step(run, st, Ok, c), st.pools[st.i];
            && t.phase == PoolWork(if p.deleting then IgDelete else IgGet) && t.i == st.i
            && t.pools == (if p.deleting then st.pools else st.pools[st.i := p.(finalizer := true)])
            && t.finalizer == st.finalizer && t.ready == st.ready && t.shouldUnlock == st.shouldUnlock
            && t.holds == st.holds && t.teardown == st.teardown && t.hasList == st.hasList
  {
  }

  lemma OwnersStep(run: Input, st: Run, o: Outcome, c: Cluster)
    requires st.phase == PoolWork(PoolOwners) && st.i < |st.pools|
    ensures var t := Step(run, st, o, c);
            && t.phase == PoolWork(NextPool) && t.i == st.i + 1
            && t.pools == (if o.Ok? then st.pools[st.i := st.pools[st.i].(finalizer := false)] else st.pools)
            && t.finalizer == st.finalizer && t.ready == st.ready && t.shouldUnlock == st.shouldUnlock
            && t.holds == st.holds && t.teardown == st.teardown && t.hasList == st.hasList
  {
  }

  /** A live pool gets the finalizer, whether or not its instance group can be saved; a pool marked
      for deletion loses it when its group and its owners are gone. */
  function Reconciled(p: Pool, succeeded: bool): Pool {
    if !p.deleting then p.(finalizer := true)
    else if succeeded then p.(finalizer := false)
    else p
  }

  method KopsClusterValidation(report: Validation.Report) returns (ready: bool)
    ensures ready == Validation.Healthy(report)
  {
    var healthy, messages := Validation.EvaluateKopsValidationResult(report);
    return healthy;
  }

  lemma RefetchStep(run: Input, st: Run, o: Outcome, c: Cluster)
    requires st.phase == Teardown(Refetch) && st.i < |st.pools|
    ensures var t := Step(run, st, o, c);
            && t.phase == (if o.Ok? then Teardown(NextTeardown) else RETURN)
            && t.i == (if o.Ok? then st.i + 1 else st.i)
            && t.pools == (if o.Ok? then st.pools[st.i := Lookup(c.pools, st.pools[st.i]).(finalizer := false)]
               else st.pools)
            && t.finalizer == st.finalizer && t.ready == st.ready && t.shouldUnlock == st.shouldUnlock
            && t.holds == st.holds && t.teardown == st.teardown && t.hasList == st.hasList
            && (!o.Ok? ==> t.failed == o.Fail?)
  {
  }

  lemma JudgedStep(run: Input, st: Run, o: Outcome, c: Cluster)
    requires st.phase == Applying(ApplyPoint.SetReady)
    ensures var t := Step(run, st, o, c);
            && t.phase == RETURN && t.ready == Validation.Healthy(run.report) && t.failed == o.Fail?
            && t.pools == st.pools && t.finalizer == st.finalizer && t.shouldUnlock == st.shouldUnlock
            && t.holds == st.holds && t.hasList == st.hasList
  {
  }

  lemma DropStep(run: Input, st: Run, o: Outcome, c: Cluster)
    requires st.phase == Teardown(TeardownPoint.DropFinalizer)
    ensures var t := Step(run, st, o, c);
            && t.phase == RETURN && !t.finalizer && t.failed == o.Fail?
            && t.pools == st.pools && t.ready == st.ready && t.shouldUnlock == st.shouldUnlock
            && t.holds == st.holds && t.hasList == st.hasList
  {
  }

  /** The statements around the mutex. */
  lemma LockingStep(run: Input, st: Run, c: Cluster)
    requires st.phase == Approach(TakeLock) || st.phase == Section(SectionPoint.RaiseFlag)
          || st.phase == Section(ReleaseLock) || st.phase == Phase.LowerFlag
    ensures var t := Step(run, st, Ok, c);
            && t.phase == NextPhase(run, st, Ok) && t.i == IndexAfter(run, st, Ok)
            && t.pools == st.pools && t.finalizer == st.finalizer && t.ready == st.ready
            && t.shouldUnlock ==
               (st.phase == Section(SectionPoint.RaiseFlag) || (st.shouldUnlock && st.phase != Phase.LowerFlag))
            && t.holds == (st.phase == Approach(TakeLock) || (st.holds && st.phase != Section(ReleaseLock)))
            && t.teardown == st.teardown && t.hasList == st.hasList
            && (t.phase == RETURN ==> !t.failed)
  {
  }

  lemma FinalizerStep(run: Input, st: Run, o: Outcome, c: Cluster)
    requires st.phase == Approach(ApproachPoint.AddFinalizer)
    ensures var t := Step(run, st, o, c);
            && t.phase == Approach(TakeLock) && t.finalizer
            && t.pools == st.pools && t.ready == st.ready && t.shouldUnlock == st.shouldUnlock
            && t.holds == st.holds && t.hasList == st.hasList && t.teardown == st.teardown
  {
  }

  lemma PausedStep(run: Input, st: Run, o: Outcome, c: Cluster)
    requires st.phase == Opening(CheckPaused)
    ensures var t := Step(run, st, o, c);
            && t.phase == (if run.paused then RETURN else Opening(ReadCredentials))
            && t.ready == (run.paused && st.ready) && (run.paused ==> t.failed == o.Fail?)
            && t.pools == st.pools && t.finalizer == st.finalizer && t.shouldUnlock == st.shouldUnlock
            && t.holds == st.holds && t.hasList == st.hasList && t.teardown == st.teardown
  {
  }

  lemma DecideStep(run: Input, st: Run, o: Outcome, c: Cluster)
    requires st.phase == Opening(OpeningPoint.Decide)
    ensures var t := Step(run, st, o, c);
            && t.phase == Approach(if ShouldDeleteCluster(run) then ListToDelete else ApproachPoint.AddFinalizer)
            && t.teardown == (st.teardown || ShouldDeleteCluster(run))
            && t.pools == st.pools && t.finalizer == st.finalizer && t.shouldUnlock == st.shouldUnlock
            && t.holds == st.holds && t.hasList == st.hasList && t.ready == st.ready
  {
  }

  lemma SafetyStep(run: Input, st: Run, o: Outcome, c: Cluster)
    requires st.phase == RETURN
    ensures var t := Step(run, st, o, c);
            && t.phase == (if run.dryRun then Done else Closing(UpdatePools))
            && t.i == 0 && t.failed == st.failed && t.holds == (st.holds && !st.shouldUnlock)
            && t.pools == st.pools && t.finalizer == st.finalizer && t.shouldUnlock == st.shouldUnlock
            && t.hasList == st.hasList && t.ready == st.ready
  {
  }

  // ---------------------------------------------------------------- what the history says

  predicate BeforeRegistering(p: OpeningPoint) {
    p.Fetch? || p.CheckClass? || p.CheckSelected? || p.FindOwner? || p.CheckPaused?
  }

  predicate Registered(at: Phase) {
    !at.Done? && (at.Opening? ==> !BeforeRegistering(at.opening))
  }

  lemma RegisteredBefore(run: Input, st: Run, o: Outcome, c: Cluster)
    requires Possible(run, st, o, c) && Registered(NextPhase(run, st, o))
    ensures Registered(st.phase) || Call(st.phase, o) == Call(Opening(CheckPaused), Ok)
  {
    if st.phase.Opening? {
      assert st.phase.opening.CheckPaused? ==> o.Ok?;
    }
  }

  /** A run that has registered the closure has passed the question whether it is paused. */
  lemma {:induction false} Asked(run: Input, ms: seq<Moment>, ts: seq<Turn>)
    requires History(run, ms, ts)
    ensures Registered(ms[|ts|].st.phase) ==> Made(ms[|ts|].past.trace, Opening(CheckPaused))
  {
    if |ts| > 0 {
      var n := |ts| - 1;
      Asked(run, ms[..|ts|], ts[..n]);
      OneMoreCall(ms[n].past.trace, Call(ms[n].st.phase, ts[n].o));
      if Registered(ms[|ts|].st.phase) {
        RegisteredBefore(run, ms[n].st, ts[n].o, ts[n].c);
      }
    }
  }

  lemma {:induction false} StillAsked(run: Input, ms: seq<Moment>, ts: seq<Turn>, k: nat)
    requires History(run, ms, ts) && k <= |ts| && Made(ms[k].past.trace, Opening(CheckPaused))
    ensures Made(ms[|ts|].past.trace, Opening(CheckPaused))
    decreases |ts| - k
  {
    if k < |ts| {
      OneMoreCall(ms[k].past.trace, Call(ms[k].st.phase, ts[k].o));
      StillAsked(run, ms, ts, k + 1);
    }
  }

  lemma AtEnd(run: Input, ms: seq<Moment>, ts: seq<Turn>)
    requires History(run, ms, ts) && ms[|ts|].st.phase == Done
    ensures var m := ms[|ts|];
            && (m.st.failed <==> !Harmless(m.past.trace))
            && (run.finalizer && !m.st.finalizer ==> ShouldDeleteCluster(run) && m.past.log == FullLog(|m.past.listed|))
  {
    ErrorReturned(run, ms, ts);
    TeardownOrder(run, ms, ts, |ts|);
    InvNow(run, ms, ts);
  }

  /** The groups of the first `n` pools are as these pools want them, wherever all calls for a pool
      have succeeded. */
  predicate GroupsFollow(pools: seq<Pool>, succeeded: seq<bool>, groups: set<string>, n: nat) {
    n <= |pools| && n <= |succeeded|
    && forall j :: 0 <= j < n && succeeded[j] ==> (pools[j].name in groups <==> !pools[j].deleting)
  }

  lemma NothingFollows(pools: seq<Pool>, groups: set<string>)
    ensures GroupsFollow(pools, [], groups, 0)
  {
  }

  lemma OneMoreFollows(was: seq<Pool>, pools: seq<Pool>, before: seq<bool>, after: seq<bool>,
                       groups: set<string>, now: set<string>, i: nat)
    requires i < |pools| == |was| && |before| == i && (forall j :: 0 <= j < |pools| && j != i ==> pools[j] == was[j])
    requires pools[i].name == was[i].name && |after| == i + 1 && after == before + [after[i]]
    requires after[i] ==> (pools[i].name in now <==> !pools[i].deleting)
    requires forall g :: g != pools[i].name ==> (g in now <==> g in groups)
    requires DistinctNames(was) ==> GroupsFollow(was, before, groups, i)
    ensures DistinctNames(pools) ==> DistinctNames(was) && GroupsFollow(pools, after, now, i + 1)
  {
    if DistinctNames(pools) {
      assert forall j :: 0 <= j < |pools| ==> pools[j].name == was[j].name;
      assert forall j :: 0 <= j < i ==> after[j] == before[j] && pools[j] == was[j] && pools[j].name != pools[i].name;
    }
  }
}
