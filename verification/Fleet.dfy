/** Many runs at once: the workers of the controller share one mutex, the two AWS variables and
    the feature flags of the process. At most one run per cluster is active at a time; within
    that, steps of different runs interleave freely, every outside call may fail, and users create
    and delete pools and control planes whenever they like. */
module Fleet {
  import opened Common
  import opened Pools
  import opened FeatureFlags
  import opened Phases
  import opened Runs

  datatype Active = Active(run: Input, m: Moment)

  /** `locked` is the mutex itself: Go's mutexes do not know their owner. */
  datatype World = World(
    locked: bool, env: Env, flags: FlagTable,
    clusters: map<string, Cluster>, active: map<string, Active>, workers: nat)

  datatype Event =
    | Begin(cluster: string, run: Input)
    | Move(cluster: string, o: Outcome)
    | CreatePool(cluster: string, pool: Pool)
    | DeletePool(cluster: string, pool: Pool)
    | DeleteControlPlane(cluster: string)

  predicate Enabled(w: World, e: Event) {
    && e.cluster in w.clusters
    && var cl := w.clusters[e.cluster];
       match e
       case Begin(c, run) =>
         c !in w.active && |w.active| < w.workers && run.deleting == cl.deleting && run.finalizer == cl.finalizer
       case Move(c, o) =>
         && c in w.active
         && Possible(w.active[c].run, w.active[c].m.st, o, cl)
         && (w.active[c].m.st.phase == Approach(TakeLock) ==> !w.locked)
       case CreatePool(c, p) => !HasKey(cl.pools, p) && !p.deleting
       case DeletePool(c, p) => true
       case DeleteControlPlane(c) => true
  }

  /** Deleting an object that still has its finalizer only marks it. */
  function MarkPool(pools: seq<Pool>, p: Pool): seq<Pool> {
    if pools == [] then []
    else if !SameKey(pools[0], p) then [pools[0]] + MarkPool(pools[1..], p)
    else if !pools[0].finalizer then MarkPool(pools[1..], p)
    else [pools[0].(deleting := true)] + MarkPool(pools[1..], p)
  }

  function Moved(w: World, c: string, o: Outcome): World
    requires c in w.active && c in w.clusters
  {
    var a := w.active[c];
    var st := a.m.st;
    var m := After(a.run, a.m, Turn(o, w.clusters[c]));
    World(
      LockAfter(st, w.locked),
      EnvAfter(a.run, st, o, w.env),
      FlagsAfter(a.run, st, w.flags),
      w.clusters[c := ClusterAfter(a.run, st, o, w.clusters[c], w.env, w.flags)],
      if m.st.phase.Done? then w.active - {c} else w.active[c := Active(a.run, m)],
      w.workers)
  }

  function Next(w: World, e: Event): World
    requires Enabled(w, e)
  {
    var cl := w.clusters[e.cluster];
    match e
    case Begin(c, run) => w.(active := w.active[c := Active(run, Moment(Start(run), NOTHING))])
    case Move(c, o) => Moved(w, c, o)
    case CreatePool(c, p) => w.(clusters := w.clusters[c := cl.(pools := cl.pools + [p])])
    case DeletePool(c, p) => w.(clusters := w.clusters[c := cl.(pools := MarkPool(cl.pools, p))])
    case DeleteControlPlane(c) => w.(clusters := w.clusters[c := cl.(deleting := true)])
  }

  predicate Legal(w: World, es: seq<Event>)
    decreases |es|
  {
    es == [] || (Enabled(w, es[0]) && Legal(Next(w, es[0]), es[1..]))
  }

  function Exec(w: World, es: seq<Event>): World
    requires Legal(w, es)
    decreases |es|
  {
    if es == [] then w else Exec(Next(w, es[0]), es[1..])
  }

  /** The controller before its first run; the objects, the variables and the flags are what they
      are. */
  predicate Idle(w: World) {
    w.active == map[] && !w.locked && w.workers > 0
  }

  // ---------------------------------------------------------------- what every event keeps

  function OwnEnv(run: Input): Env {
    Env(Some(run.credentials.key), Some(run.credentials.secret))
  }

  function OwnFlags(run: Input): FlagView {
    Wanted(run.karpenter, run.spot, run.spotToken, run.spotAccount)
  }

  /** What a run must find in the variables of the process, point by point. */
  predicate EnvInv(run: Input, at: Phase, env: Env) {
    match at
    case Section(p) =>
      (p.SetSecret? ==> env.key == Some(run.credentials.key))
      && (p.BuildCloud? || p.KopsDelete? || p.ReleaseLock? ==> env == OwnEnv(run))
    case PoolWork(_) => env == OwnEnv(run)
    case Building(_) => env == OwnEnv(run)
    case _ => true
  }

  predicate FlagInv(run: Input, at: Phase, teardown: bool, flags: FlagTable) {
    match at
    case Section(p) => p.BuildCloud? && !teardown ==> View(flags) == OwnFlags(run)
    case Building(p) =>
      if p.Addons? || p.KarpenterFlag? then true
      else if p.SpotinstFlags? then Flag(flags, "Karpenter") == run.karpenter
      else View(flags) == OwnFlags(run)
    case _ => true
  }

  /** The connection that a run builds is made with its own credentials. */
  predicate CloudInv(run: Input, at: Phase, cloud: Option<Env>) {
    match at
    case Section(p) => p.KopsDelete? ==> cloud == Some(OwnEnv(run))
    case Building(p) => p.Addons? || p.KarpenterFlag? || p.SpotinstFlags? || cloud == Some(OwnEnv(run))
    case _ => true
  }

  /** What the library makes for a run that is left alone: its own specification, connection,
      variables and flags, and nothing of anybody else's. */
  function OwnBuilt(run: Input): Built {
    Built(run.spec, Some(OwnEnv(run)), OwnEnv(run), OwnFlags(run))
  }

  predicate SavesPopulated(p: BuildPoint) {
    p.GetCluster? || p.CreateCluster? || p.AddSshKey? || p.ClusterStatus? || p.UpdateCluster?
  }

  predicate AfterRendering(p: BuildPoint) {
    p.PrepareCustom? || p.PinProvider? || p.Plan? || p.ReadKubeconfig? || p.SaveKubeconfig?
  }

  /** From populating to saving a run carries its own specification. */
  predicate PopulatedInv(run: Input, at: Phase, populated: Option<Built>) {
    at.Building? && SavesPopulated(at.build) ==> populated == Some(OwnBuilt(run))
  }

  /** From rendering to the end of applying the terraform files are the run's own. */
  predicate RenderedInv(run: Input, at: Phase, teardown: bool, rendered: Option<Built>) {
    match at
    case Section(p) => p.ReleaseLock? && !teardown ==> rendered == Some(OwnBuilt(run))
    case Building(p) => AfterRendering(p) ==> rendered == Some(OwnBuilt(run))
    case LowerFlag => !teardown ==> rendered == Some(OwnBuilt(run))
    case Applying(p) => rendered == Some(OwnBuilt(run))
    case _ => true
  }

  /** Until the closure saves the control plane, its stored finalizer is as the run read it. */
  predicate UnsavedInv(run: Input, at: Phase, finalizer: bool) {
    at == Closing(Metric) || at == Done || finalizer == run.finalizer
  }

  /** What a run finds in the process and in its cluster. */
  predicate Owns(run: Input, st: Run, env: Env, flags: FlagTable, cl: Cluster) {
    && EnvInv(run, st.phase, env)
    && FlagInv(run, st.phase, st.teardown, flags)
    && CloudInv(run, st.phase, cl.cloud)
    && PopulatedInv(run, st.phase, cl.populated)
    && RenderedInv(run, st.phase, st.teardown, cl.rendered)
    && UnsavedInv(run, st.phase, cl.finalizer)
  }

  predicate RunInv(w: World, c: string)
    requires c in w.active
  {
    var run, m := w.active[c].run, w.active[c].m;
    c in w.clusters && MomentInv(run, m) && !m.st.phase.Done? && Owns(run, m.st, w.env, w.flags, w.clusters[c])
  }

  predicate Holder(w: World, c: string) {
    c in w.active && w.active[c].m.st.holds
  }

  /** The mutex is locked exactly when some run holds it, and only one run can. */
  predicate MutexInv(w: World) {
    && (forall c, d :: c in w.active && d in w.active && Holder(w, c) && Holder(w, d) ==> c == d)
    && (w.locked <==> exists c :: c in w.active && Holder(w, c))
  }

  predicate FleetInv(w: World) {
    && (forall c :: c in w.active ==> RunInv(w, c))
    && MutexInv(w)
  }

  /** A run that does not hold the mutex writes neither the variables nor the flags and relies on
      neither. */
  lemma OutsideTheSection(run: Input, st: Run, o: Outcome, env: Env, flags: FlagTable, cloud: Option<Env>)
    requires Inv(run, st) && !st.holds
    ensures EnvAfter(run, st, o, env) == env && FlagsAfter(run, st, flags) == flags
    ensures EnvInv(run, st.phase, env) && FlagInv(run, st.phase, st.teardown, flags) && CloudInv(run, st.phase, cloud)
  {
  }

  /** Once set, the right values are right at every later point. */
  lemma OwnIsEnough(run: Input, at: Phase, teardown: bool, flags: FlagTable)
    ensures EnvInv(run, at, OwnEnv(run))
    ensures CloudInv(run, at, Some(OwnEnv(run)))
    ensures View(flags) == OwnFlags(run) ==> FlagInv(run, at, teardown, flags)
  {
  }

  lemma OwnEnvStep(run: Input, st: Run, o: Outcome, env: Env)
    requires EnvInv(run, st.phase, env)
    ensures EnvInv(run, NextPhase(run, st, o), EnvAfter(run, st, o, env))
  {
    OwnIsEnough(run, NextPhase(run, st, o), st.teardown, map[]);
  }

  lemma OwnFlagBuilding(run: Input, st: Run, o: Outcome, flags: FlagTable)
    requires st.phase.Building? && !st.teardown && FlagInv(run, st.phase, st.teardown, flags)
    ensures FlagInv(run, NextPhase(run, st, o), st.teardown, FlagsAfter(run, st, flags))
  {
    match st.phase.build
    case Addons =>
    case KarpenterFlag => KarpenterFlagValue(flags, run.karpenter);
    case SpotinstFlags =>
      SpotinstFlagsAreOwn(flags, run.spot, run.spotToken, run.spotAccount);
      OwnIsEnough(run, NextPhase(run, st, o), st.teardown, FlagsAfter(run, st, flags));
    case _ => OwnIsEnough(run, NextPhase(run, st, o), st.teardown, flags);
  }

  lemma OwnFlagElsewhere(run: Input, st: Run, o: Outcome, flags: FlagTable)
    requires !st.phase.Building? && FlagInv(run, st.phase, st.teardown, flags)
    ensures FlagInv(run, NextPhase(run, st, o), st.teardown, FlagsAfter(run, st, flags))
  {
  }

  lemma OwnFlagStep(run: Input, st: Run, o: Outcome, flags: FlagTable)
    requires Inv(run, st) && FlagInv(run, st.phase, st.teardown, flags)
    ensures FlagInv(run, NextPhase(run, st, o), st.teardown, FlagsAfter(run, st, flags))
  {
    if st.phase.Building? {
      OwnFlagBuilding(run, st, o, flags);
    } else {
      OwnFlagElsewhere(run, st, o, flags);
    }
  }

  lemma OwnCloudSection(run: Input, st: Run, o: Outcome, c: Cluster, env: Env, flags: FlagTable)
    requires st.phase.Section? && EnvInv(run, st.phase, env) && CloudInv(run, st.phase, c.cloud)
    ensures CloudInv(run, NextPhase(run, st, o), ClusterAfter(run, st, o, c, env, flags).cloud)
  {
  }

  lemma CloudKept(run: Input, st: Run, o: Outcome, c: Cluster, env: Env, flags: FlagTable)
    requires !st.phase.Section?
    ensures ClusterAfter(run, st, o, c, env, flags).cloud == c.cloud
  {
    hide PoolsSaved, GroupsAfter, SpecAfter, KeyAfter, RenderedAfter, AppliedAfter, PopulatedAfter, BuildNow;
  }

  lemma CloudNeeded(run: Input, st: Run, o: Outcome, cloud: Option<Env>)
    requires !st.phase.Section? && CloudInv(run, st.phase, cloud)
    ensures CloudInv(run, NextPhase(run, st, o), cloud)
  {
    if cloud == Some(OwnEnv(run)) {
      OwnIsEnough(run, NextPhase(run, st, o), st.teardown, map[]);
    }
  }

  lemma OwnCloudElsewhere(run: Input, st: Run, o: Outcome, c: Cluster, env: Env, flags: FlagTable)
    requires !st.phase.Section? && CloudInv(run, st.phase, c.cloud)
    ensures CloudInv(run, NextPhase(run, st, o), ClusterAfter(run, st, o, c, env, flags).cloud)
  {
    hide ClusterAfter, CloudInv, NextPhase;
    CloudKept(run, st, o, c, env, flags);
    CloudNeeded(run, st, o, c.cloud);
  }

  lemma PopulatedStep(run: Input, st: Run, o: Outcome, populated: Option<Built>, made: Built)
    requires PopulatedInv(run, st.phase, populated)
    requires st.phase == Building(Populate) ==> made == OwnBuilt(run)
    ensures PopulatedInv(run, NextPhase(run, st, o), PopulatedAfter(st, o, populated, made))
  {
  }

  lemma RenderedBuilding(run: Input, st: Run, o: Outcome, rendered: Option<Built>, made: Built)
    requires st.phase.Building? && RenderedInv(run, st.phase, st.teardown, rendered)
    requires st.phase == Building(PrepareKops) ==> made == OwnBuilt(run)
    ensures RenderedInv(run, NextPhase(run, st, o), st.teardown, RenderedAfter(st, o, rendered, made))
  {
  }

  lemma RenderedElsewhere(run: Input, st: Run, o: Outcome, rendered: Option<Built>, made: Built)
    requires !st.phase.Building? && Inv(run, st) && RenderedInv(run, st.phase, st.teardown, rendered)
    ensures RenderedInv(run, NextPhase(run, st, o), st.teardown, RenderedAfter(st, o, rendered, made))
  {
  }

  lemma HoldsAfter(run: Input, st: Run, o: Outcome, c: Cluster, locked: bool)
    requires Inv(run, st) && Possible(run, st, o, c)
    ensures var t := Step(run, st, o, c);
            && (st.phase == Approach(TakeLock) ==> t.holds && LockAfter(st, locked))
            && (Unlocks(st) ==> st.holds && !t.holds && !LockAfter(st, locked))
            && (st.phase != Approach(TakeLock) && !Unlocks(st) ==>
               t.holds == st.holds && LockAfter(st, locked) == locked)
            && (t.phase.Done? ==> !t.holds)
  {
    StepKeepsInv(run, st, o, c);
  }

  lemma ArtifactsStep(run: Input, st: Run, o: Outcome, env: Env, flags: FlagTable, cl: Cluster)
    requires Inv(run, st) && Owns(run, st, env, flags, cl)
    ensures var d, next := ClusterAfter(run, st, o, cl, env, flags), NextPhase(run, st, o);
            CloudInv(run, next, d.cloud) && PopulatedInv(run, next, d.populated)
              && RenderedInv(run, next, st.teardown, d.rendered)
  {
    var made := BuildNow(run, cl, env, flags);
    PopulatedStep(run, st, o, cl.populated, made);
    if st.phase.Building? {
      RenderedBuilding(run, st, o, cl.rendered, made);
    } else {
      RenderedElsewhere(run, st, o, cl.rendered, made);
    }
    if st.phase.Section? {
      OwnCloudSection(run, st, o, cl, env, flags);
    } else {
      OwnCloudElsewhere(run, st, o, cl, env, flags);
    }
  }

  /** The one step that changes the branch leads to a point that relies on nothing. */
  lemma DecideRelies(run: Input, st: Run, env: Env, flags: FlagTable, cl: Cluster)
    requires st.phase.Approach? && UnsavedInv(run, st.phase, cl.finalizer)
    ensures Owns(run, st, env, flags, cl)
  {
  }

  lemma UnsavedStep(run: Input, st: Run, o: Outcome, env: Env, flags: FlagTable, cl: Cluster)
    requires UnsavedInv(run, st.phase, cl.finalizer)
    ensures UnsavedInv(run, NextPhase(run, st, o), ClusterAfter(run, st, o, cl, env, flags).finalizer)
  {
  }

  lemma OwnsAfterDecide(run: Input, st: Run, o: Outcome, env: Env, flags: FlagTable, cl: Cluster)
    requires st.phase == Opening(Decide) && UnsavedInv(run, st.phase, cl.finalizer)
    ensures Owns(run, Step(run, st, o, cl), EnvAfter(run, st, o, env), FlagsAfter(run, st, flags),
                 ClusterAfter(run, st, o, cl, env, flags))
  {
    hide PoolsSaved, GroupsAfter, SpecAfter, KeyAfter, RenderedAfter, AppliedAfter, PopulatedAfter, BuildNow,
      FlagsAfter, EnvAfter, Owns;
    DecideRelies(run, Step(run, st, o, cl), EnvAfter(run, st, o, env), FlagsAfter(run, st, flags),
                 ClusterAfter(run, st, o, cl, env, flags));
  }

  lemma OwnsStep(run: Input, st: Run, o: Outcome, env: Env, flags: FlagTable, cl: Cluster)
    requires Inv(run, st) && Owns(run, st, env, flags, cl)
    ensures Owns(run, Step(run, st, o, cl), EnvAfter(run, st, o, env), FlagsAfter(run, st, flags),
                 ClusterAfter(run, st, o, cl, env, flags))
  {
    if st.phase == Opening(Decide) {
      OwnsAfterDecide(run, st, o, env, flags, cl);
    } else {
      UnsavedStep(run, st, o, env, flags, cl);
      OwnEnvStep(run, st, o, env);
      OwnFlagStep(run, st, o, flags);
      ArtifactsStep(run, st, o, env, flags, cl);
    }
  }

  lemma MovedSelf(w: World, c: string, o: Outcome)
    requires FleetInv(w) && Enabled(w, Move(c, o)) && c in Moved(w, c, o).active
    ensures RunInv(Moved(w, c, o), c)
  {
    var a, cl := w.active[c], w.clusters[c];
    assert RunInv(w, c);
    InvAfter(a.run, a.m, Turn(o, cl));
    OwnsStep(a.run, a.m.st, o, w.env, w.flags, cl);
  }

  lemma MovedFrame(w: World, c: string, o: Outcome, d: string)
    requires c in w.active && c in w.clusters && d in w.active && d in w.clusters && d != c
    ensures var v := Moved(w, c, o);
            d in v.active && v.active[d] == w.active[d] && d in v.clusters && v.clusters[d] == w.clusters[d]
  {
    hide ClusterAfter, Step, Remember, EnvAfter, FlagsAfter, LockAfter;
  }

  lemma MovedOther(w: World, c: string, o: Outcome, d: string)
    requires FleetInv(w) && Enabled(w, Move(c, o)) && d in w.active && d != c
    ensures d in Moved(w, c, o).active && RunInv(Moved(w, c, o), d)
  {
    var a, b := w.active[c], w.active[d];
    assert RunInv(w, d) && RunInv(w, c);
    MovedFrame(w, c, o, d);
    if Holder(w, c) {
      assert !Holder(w, d);
      var v := Moved(w, c, o);
      OutsideTheSection(b.run, b.m.st, o, v.env, v.flags, w.clusters[d].cloud);
    } else {
      OutsideTheSection(a.run, a.m.st, o, w.env, w.flags, w.clusters[c].cloud);
    }
  }

  lemma MutexStep(w: World, c: string, v: World)
    requires MutexInv(w) && c in w.active
    requires forall d :: d != c ==> (Holder(v, d) <==> Holder(w, d))
    requires Holder(v, c) == v.locked || (Holder(v, c) == Holder(w, c) && v.locked == w.locked)
    requires Holder(v, c) && !Holder(w, c) ==> !w.locked
    requires !v.locked && w.locked ==> Holder(w, c)
    ensures MutexInv(v)
  {
    if v.locked && !Holder(v, c) {
      var d :| d in w.active && Holder(w, d);
      assert Holder(v, d);
    }
  }

  lemma MovedHolder(w: World, c: string, o: Outcome, d: string)
    requires c in w.active && c in w.clusters
    ensures var t := Step(w.active[c].run, w.active[c].m.st, o, w.clusters[c]);
            Holder(Moved(w, c, o), d) == if d == c then t.holds && !t.phase.Done? else Holder(w, d)
    ensures Moved(w, c, o).locked == LockAfter(w.active[c].m.st, w.locked)
  {
    hide ClusterAfter, Step, Remember, EnvAfter, FlagsAfter;
  }

  lemma MoveKeepsMutex(w: World, c: string, o: Outcome)
    requires FleetInv(w) && Enabled(w, Move(c, o))
    ensures MutexInv(Moved(w, c, o))
  {
    var a, v := w.active[c], Moved(w, c, o);
    assert RunInv(w, c);
    HoldsAfter(a.run, a.m.st, o, w.clusters[c], w.locked);
    forall d ensures d != c ==> (Holder(v, d) <==> Holder(w, d)) {
      MovedHolder(w, c, o, d);
    }
    MovedHolder(w, c, o, c);
    MutexStep(w, c, v);
  }

  lemma OthersMutex(w: World, e: Event)
    requires MutexInv(w) && Enabled(w, e) && !e.Move?
    ensures MutexInv(Next(w, e))
  {
    var v := Next(w, e);
    assert forall d :: Holder(v, d) <==> Holder(w, d);
    if v.locked {
      var d :| d in w.active && Holder(w, d);
      assert d in v.active && Holder(v, d);
    }
  }

  lemma OthersRun(w: World, e: Event, d: string)
    requires Enabled(w, e) && !e.Move? && d in w.active && RunInv(w, d)
    ensures d in Next(w, e).active && RunInv(Next(w, e), d)
  {
  }

  lemma BegunRun(w: World, e: Event)
    requires Enabled(w, e) && e.Begin?
    ensures e.cluster in Next(w, e).active && RunInv(Next(w, e), e.cluster)
  {
  }

  lemma OthersKeep(w: World, e: Event)
    requires FleetInv(w) && Enabled(w, e) && !e.Move?
    ensures FleetInv(Next(w, e))
  {
    forall d | d in Next(w, e).active ensures RunInv(Next(w, e), d) {
      if d in w.active {
        OthersRun(w, e, d);
      } else {
        BegunRun(w, e);
      }
    }
    OthersMutex(w, e);
  }

  lemma NextKeeps(w: World, e: Event)
    requires FleetInv(w) && Enabled(w, e)
    ensures FleetInv(Next(w, e))
  {
    if e.Move? {
      var v := Moved(w, e.cluster, e.o);
      forall d | d in v.active ensures RunInv(v, d) {
        if d == e.cluster {
          MovedSelf(w, d, e.o);
        } else {
          MovedOther(w, e.cluster, e.o, d);
        }
      }
      MoveKeepsMutex(w, e.cluster, e.o);
    } else {
      OthersKeep(w, e);
    }
  }

  lemma {:induction false} ExecKeeps(w: World, es: seq<Event>)
    requires FleetInv(w) && Legal(w, es)
    ensures FleetInv(Exec(w, es))
    decreases |es|
  {
    if es != [] {
      NextKeeps(w, es[0]);
      ExecKeeps(Next(w, es[0]), es[1..]);
    }
  }

  // ---------------------------------------------------------------- isolation

  /** What is known of a world that the controller can reach from its first run on. */
  lemma Reached(w: World, es: seq<Event>)
    requires Idle(w) && Legal(w, es)
    ensures FleetInv(Exec(w, es))
  {
    ExecKeeps(w, es);
  }

  /** Mutual exclusion, for any number of workers and whatever fails: the mutex is locked exactly
      when a run holds it, at most one run is in the critical section, and only the run that holds
      the mutex ever unlocks it. */
  lemma MutualExclusion(w: World, es: seq<Event>, c: string, d: string)
    requires Idle(w) && Legal(w, es)
    requires c in Exec(w, es).active && d in Exec(w, es).active
    ensures var v := Exec(w, es);
            var s, t := v.active[c].m.st, v.active[d].m.st;
            && (InSection(s) && InSection(t) ==> c == d)
            && (InSection(s) || Unlocks(s) ==> s.holds && v.locked)
            && (t.holds && s.holds ==> c == d)
    ensures Exec(w, es).locked <==> exists b :: b in Exec(w, es).active && Holder(Exec(w, es), b)
  {
    Reached(w, es);
    var v := Exec(w, es);
    assert RunInv(v, c) && RunInv(v, d);
    InsideHolds(v.active[c].run, v.active[c].m.st);
    InsideHolds(v.active[d].run, v.active[d].m.st);
    assert v.active[c].m.st.holds == Holder(v, c) && v.active[d].m.st.holds == Holder(v, d);
  }

  lemma InsideHolds(run: Input, st: Run)
    requires Inv(run, st)
    ensures InSection(st) || Unlocks(st) ==> st.holds
  {
  }

  /** Calls into the kops library that read the AWS variables. */
  predicate ReadsEnv(p: Phase) {
    p == Section(BuildCloud) || p == Section(KopsDelete) || p == Building(Populate) || p == Building(PrepareKops)
  }

  /** Isolation of the globals: whatever the other workers do, each of these calls finds the
      caller's own credentials in the variables; on the normal path also the caller's own feature
      flags; and the connection it uses was made with the caller's credentials. */
  lemma OwnGlobals(w: World, es: seq<Event>, c: string)
    requires Idle(w) && Legal(w, es) && c in Exec(w, es).active && c in Exec(w, es).clusters
    ensures var v := Exec(w, es);
            var run, st := v.active[c].run, v.active[c].m.st;
            ReadsEnv(st.phase) ==>
              && v.env == OwnEnv(run)
              && (!st.teardown ==> View(v.flags) == OwnFlags(run))
              && (st.phase != Section(BuildCloud) ==> v.clusters[c].cloud == Some(OwnEnv(run)))
  {
    Reached(w, es);
    var v := Exec(w, es);
    assert RunInv(v, c);
    hide FleetInv, Legal, Exec;
    if ReadsEnv(v.active[c].m.st.phase) {
      FoundAtCalls(v.active[c].run, v.active[c].m.st, v.env, v.flags, v.clusters[c]);
    }
  }

  lemma FoundAtCalls(run: Input, st: Run, env: Env, flags: FlagTable, cl: Cluster)
    requires Inv(run, st) && Owns(run, st, env, flags, cl) && ReadsEnv(st.phase)
    ensures env == OwnEnv(run) && (!st.teardown ==> View(flags) == OwnFlags(run))
    ensures st.phase != Section(BuildCloud) ==> cl.cloud == Some(OwnEnv(run))
  {
  }

  /** What a successful call leaves behind is made from what belongs to its own run. */
  predicate OwnEffect(run: Input, st: Run, o: Outcome, after: Cluster) {
    && (Succeeds(st, o, Applying(Apply)) ==> after.applied == Some((OwnBuilt(run), run.credentials)))
    && (Succeeds(st, o, Building(CreateCluster)) || Succeeds(st, o, Building(UpdateCluster)) ==>
          after.spec == Some(OwnBuilt(run)))
    && (Succeeds(st, o, Building(Addons)) ==> after.addons == Some(run.addons))
    && (Succeeds(st, o, Section(KopsDelete)) ==>
          && after.wipedWith == Some(OwnEnv(run)) && after.groups == {} && after.spec == None
          && !after.sshKey && after.addons == None)
    && (Succeeds(st, o, Approach(Destroy)) ==> after.applied == None)
    && (Succeeds(st, o, Closing(UpdateControlPlane)) ==> after.finalizer == st.finalizer)
  }

  lemma EffectIsOwn(run: Input, st: Run, o: Outcome, cl: Cluster, env: Env, flags: FlagTable)
    requires Owns(run, st, env, flags, cl)
    ensures OwnEffect(run, st, o, ClusterAfter(run, st, o, cl, env, flags))
  {
  }

  /** `k` is where the one object with the key of `p` is, or the length of the list if there is none. */
  predicate FoundAt(pools: seq<Pool>, p: Pool, k: nat) {
    k <= |pools| && forall j :: 0 <= j < |pools| ==> (SameKey(pools[j], p) <==> j == k)
  }

  lemma {:induction false} NothingSaved(pools: seq<Pool>, p: Pool)
    requires FoundAt(pools, p, |pools|)
    ensures SavePool(pools, p) == pools
  {
    if pools != [] {
      NothingSaved(pools[1..], p);
    }
  }

  lemma Prepended(pools: seq<Pool>, k: nat, rest: seq<Pool>)
    requires 0 < k < |pools|
    ensures [pools[0]] + (pools[1..][..k - 1] + rest) == pools[..k] + rest && pools[1..][k..] == pools[k + 1..]
  {
    assert pools[..k] == [pools[0]] + pools[1..][..k - 1];
  }

  /** Saving a pool gives the stored object with its key the finalizer of the pool, and takes it away if
      it is marked for deletion and has no finalizer any more; nothing else changes. */
  lemma {:induction false} SavedExactly(pools: seq<Pool>, p: Pool, k: nat)
    requires FoundAt(pools, p, k)
    ensures k == |pools| ==> SavePool(pools, p) == pools
    ensures k < |pools| ==>
      var kept := if pools[k].deleting && !p.finalizer then [] else [pools[k].(finalizer := p.finalizer)];
      SavePool(pools, p) == pools[..k] + (kept + pools[k + 1..])
  {
    if k == |pools| {
      NothingSaved(pools, p);
    } else if k == 0 {
      NothingSaved(pools[1..], p);
    } else {
      SavedExactly(pools[1..], p, k - 1);
      var kept := if pools[k].deleting && !p.finalizer then [] else [pools[k].(finalizer := p.finalizer)];
      Prepended(pools, k, kept + pools[k + 1..]);
    }
  }

  /** Reading a pool again gives the stored object with its key. */
  lemma {:induction false} ReadAgain(pools: seq<Pool>, p: Pool, k: nat)
    requires FoundAt(pools, p, k)
    ensures Lookup(pools, p) == if k < |pools| then pools[k] else p
  {
    if pools != [] && k > 0 {
      ReadAgain(pools[1..], p, k - 1);
    }
  }

  /** A run with any settings may begin whenever its cluster has none and a worker is free; it finds the
      mark and the finalizer of the control plane as they are stored. */
  lemma AnyRunMayBegin(w: World, c: string, run: Input)
    requires c in w.clusters
    ensures Enabled(w, Begin(c, run)) <==>
      && c !in w.active && |w.active| < w.workers
      && run.deleting == w.clusters[c].deleting && run.finalizer == w.clusters[c].finalizer
  {
  }

  /** Users may at any time create a pool with a new key, delete a pool and delete the control plane,
      which marks it and changes nothing else. */
  lemma UsersMayAct(w: World, c: string, p: Pool)
    requires c in w.clusters
    ensures Enabled(w, CreatePool(c, p)) <==> !p.deleting && forall q :: q in w.clusters[c].pools ==> !SameKey(q, p)
    ensures Enabled(w, CreatePool(c, p)) ==>
      Next(w, CreatePool(c, p)) ==
        w.(clusters := w.clusters[c := w.clusters[c].(pools := w.clusters[c].pools + [p])])
    ensures Enabled(w, DeletePool(c, p)) && Enabled(w, DeleteControlPlane(c))
    ensures Next(w, DeleteControlPlane(c)) == w.(clusters := w.clusters[c := w.clusters[c].(deleting := true)])
  {
    if HasKey(w.clusters[c].pools, p) {
      var k :| 0 <= k < |w.clusters[c].pools| && SameKey(w.clusters[c].pools[k], p);
      assert w.clusters[c].pools[k] in w.clusters[c].pools;
    }
  }

  /** Deleting a pool marks the stored object with its key, or takes it away if it has no finalizer. */
  lemma {:induction false} MarkedExactly(pools: seq<Pool>, p: Pool, k: nat)
    requires FoundAt(pools, p, k)
    ensures k == |pools| ==> MarkPool(pools, p) == pools
    ensures k < |pools| ==>
      var kept := if pools[k].finalizer then [pools[k].(deleting := true)] else [];
      MarkPool(pools, p) == pools[..k] + (kept + pools[k + 1..])
  {
    if k == 0 {
      if pools != [] {
        MarkedExactly(pools[1..], p, |pools| - 1);
      }
    } else {
      MarkedExactly(pools[1..], p, k - 1);
      assert pools[..k] == [pools[0]] + pools[1..][..k - 1];
      assert k < |pools| ==> pools[1..][k..] == pools[k + 1..];
    }
  }

  /** Nothing of another cluster gets into what a run saves, applies or deletes: the saved
      specification and the applied terraform files are made from the run's own specification,
      credentials and flags alone, terraform runs with the run's own credentials, and kops deletes
      through the run's own connection. */
  lemma OwnResults(w: World, es: seq<Event>, c: string, o: Outcome)
    requires Idle(w) && Legal(w, es) && Enabled(Exec(w, es), Move(c, o))
    ensures var v := Exec(w, es);
            OwnEffect(v.active[c].run, v.active[c].m.st, o, Next(v, Move(c, o)).clusters[c])
  {
    hide ClusterAfter, Owns, OwnEffect;
    Reached(w, es);
    var v := Exec(w, es);
    assert RunInv(v, c);
    EffectIsOwn(v.active[c].run, v.active[c].m.st, o, v.clusters[c], v.env, v.flags);
  }

  /** Teardown safety over every sequence of runs: the stored finalizer of a control plane goes
      away only by the save at the end of a run that was meant to delete the cluster and in which
      terraform destroy, the deletion in kops, the release of every listed pool in turn and the
      deletion of the control plane's owners all succeeded, in that order. */
  lemma ControlPlaneGoesLast(w: World, es: seq<Event>, e: Event)
    requires Idle(w) && Legal(w, es) && Enabled(Exec(w, es), e)
    requires var v := Exec(w, es); v.clusters[e.cluster].finalizer && !Next(v, e).clusters[e.cluster].finalizer
    ensures var v := Exec(w, es);
            && e.Move? && e.cluster in v.active
            && var a := v.active[e.cluster];
               && a.m.st.phase == Closing(UpdateControlPlane)
               && ShouldDeleteCluster(a.run) && !a.run.paused
               && a.run.deleting && !a.run.protected && !a.run.dryRun
               && a.m.past.log == FullLog(|a.m.past.listed|)
  {
    Reached(w, es);
    var v := Exec(w, es);
    if e.Move? {
      assert RunInv(v, e.cluster);
    }
  }
}
