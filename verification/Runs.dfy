/** What holds of every run of Reconcile, whatever fails: lock discipline, the order of a
    teardown and what guards it, and the meaning of Ready. */
module Runs {
  import opened Phases
  import opened Pools
  import Validation

  // ---------------------------------------------------------------- histories

  /** A point of a run with what has happened before it. */
  datatype Moment = Moment(st: Run, past: Past)

  /** The outcome of a call and what the run could see of its cluster when it made it. */
  datatype Turn = Turn(o: Outcome, c: Cluster)

  function After(run: Input, m: Moment, t: Turn): Moment {
    Moment(Step(run, m.st, t.o, t.c), Remember(m.past, m.st, t.o, t.c))
  }

  /** A run from its start; what it sees of its cluster may change between any two calls. */
  predicate History(run: Input, ms: seq<Moment>, ts: seq<Turn>) {
    && |ms| == |ts| + 1
    && ms[0] == Moment(Start(run), NOTHING)
    && forall k :: 0 <= k < |ts| ==> Possible(run, ms[k].st, ts[k].o, ts[k].c) && ms[k + 1] == After(run, ms[k], ts[k])
  }

  // ---------------------------------------------------------------- control and lock

  /** Between Lock and Unlock. */
  predicate InSection(st: Run) {
    st.phase.Section? || st.phase.PoolWork? || st.phase.Building?
  }

  /** The step leads to the deferred closure, or past it. */
  predicate EndsRun(run: Input, st: Run, o: Outcome) {
    NextPhase(run, st, o).Closing? || NextPhase(run, st, o).Done?
  }

  /** The build steps a dry run leaves out. */
  predicate Saving(p: BuildPoint) {
    match p
    case GetCluster => true
    case CreateCluster => true
    case AddSshKey => true
    case ClusterStatus => true
    case UpdateCluster => true
    case ReconcileSecrets => true
    case ReadKubeconfig => true
    case SaveKubeconfig => true
    case _ => false
  }

  /** Which path a run is on, and that each path is taken only by the runs it is meant for. */
  predicate ControlInv(run: Input, st: Run) {
    && (st.teardown ==> ShouldDeleteCluster(run) && !run.paused)
    && match st.phase
       case Opening(p) =>
         !st.teardown && !st.hasList && (p.ReadCredentials? || p.ServiceRange? || p.Decide? ==> !run.paused)
         && (p.CheckPaused? || p.ReadCredentials? || p.ServiceRange? || p.Decide? ==> run.hasOwner)
       case Approach(p) =>
         run.hasOwner && !run.paused && st.teardown == ShouldDeleteCluster(run)
         && (p.AddFinalizer? ==> !st.teardown) && (st.teardown || p.TakeLock? || p.AddFinalizer?)
         && st.hasList == (st.teardown && !p.ListToDelete?)
       case Section(p) =>
         run.hasOwner && !run.paused && st.teardown == ShouldDeleteCluster(run)
         && (p.KopsDelete? ==> st.teardown) && (p.ListPools? ==> !st.teardown)
         && st.hasList == (st.teardown || !(p.RaiseFlag? || p.ListPools?))
       case PoolWork(p) =>
         run.hasOwner && !run.paused && !st.teardown && !ShouldDeleteCluster(run) && st.hasList
         && (p.NextPool? || (!run.dryRun && st.i < |st.pools|))
       case Building(p) =>
         run.hasOwner && !run.paused && !st.teardown && !ShouldDeleteCluster(run) && st.hasList
         && (Saving(p) ==> !run.dryRun) && (p.Plan? ==> run.dryRun)
       case LowerFlag => run.hasOwner && !run.paused && st.teardown == ShouldDeleteCluster(run) && st.hasList
       case Teardown(p) => run.hasOwner && st.teardown && st.hasList
       case Applying(p) =>
         run.hasOwner && !run.paused && !st.teardown && !ShouldDeleteCluster(run) && !run.dryRun && st.hasList
       case Closing(p) => run.hasOwner && (p.SafetyUnlock? || !run.dryRun)
       case Done => true
  }

  /** Outside the closure the mutex is held exactly in the critical section, and the flag follows
      it by one statement; at the start of the closure the two agree. */
  predicate LockInv(st: Run) {
    match st.phase
    case Closing(p) => if p.SafetyUnlock? then st.shouldUnlock == st.holds else !st.holds
    case Done => !st.holds
    case LowerFlag => !st.holds && st.shouldUnlock
    case Section(p) => st.holds && st.shouldUnlock == !p.RaiseFlag?
    case PoolWork(_) => st.holds && st.shouldUnlock
    case Building(_) => st.holds && st.shouldUnlock
    case _ => !st.holds && !st.shouldUnlock
  }

  predicate Inv(run: Input, st: Run) {
    ControlInv(run, st) && LockInv(st)
  }

  lemma OpeningKeepsInv(run: Input, st: Run, o: Outcome, c: Cluster)
    requires st.phase.Opening? && Inv(run, st) && Possible(run, st, o, c)
    ensures Inv(run, Step(run, st, o, c))
  {
  }

  lemma ApproachKeepsInv(run: Input, st: Run, o: Outcome, c: Cluster)
    requires st.phase.Approach? && Inv(run, st) && Possible(run, st, o, c)
    ensures Inv(run, Step(run, st, o, c))
  {
  }

  lemma SectionKeepsInv(run: Input, st: Run, o: Outcome, c: Cluster)
    requires st.phase.Section? && Inv(run, st) && Possible(run, st, o, c)
    ensures Inv(run, Step(run, st, o, c))
  {
  }

  lemma PoolWorkKeepsInv(run: Input, st: Run, o: Outcome, c: Cluster)
    requires st.phase.PoolWork? && Inv(run, st) && Possible(run, st, o, c)
    ensures Inv(run, Step(run, st, o, c))
  {
  }

  lemma BuildingKeepsInv(run: Input, st: Run, o: Outcome, c: Cluster)
    requires st.phase.Building? && Inv(run, st) && Possible(run, st, o, c)
    ensures Inv(run, Step(run, st, o, c))
  {
  }

  lemma RestKeepsInv(run: Input, st: Run, o: Outcome, c: Cluster)
    requires st.phase.LowerFlag? || st.phase.Teardown? || st.phase.Applying? || st.phase.Closing?
    requires Inv(run, st) && Possible(run, st, o, c)
    ensures Inv(run, Step(run, st, o, c))
  {
  }

  lemma StepKeepsInv(run: Input, st: Run, o: Outcome, c: Cluster)
    requires Inv(run, st) && Possible(run, st, o, c)
    ensures Inv(run, Step(run, st, o, c))
  {
    match st.phase
    case Opening(_) => OpeningKeepsInv(run, st, o, c);
    case Approach(_) => ApproachKeepsInv(run, st, o, c);
    case Section(_) => SectionKeepsInv(run, st, o, c);
    case PoolWork(_) => PoolWorkKeepsInv(run, st, o, c);
    case Building(_) => BuildingKeepsInv(run, st, o, c);
    case _ => RestKeepsInv(run, st, o, c);
  }

  // ---------------------------------------------------------------- teardown

  function PoolLog(k: nat): seq<Milestone> {
    if k == 0 then [] else PoolLog(k - 1) + [PoolOwnersDeleted(k - 1), PoolReleased(k - 1)]
  }

  const GONE := [Destroyed, KopsDeleted]

  /** A complete teardown of `n` pools, in the only order there is. */
  function FullLog(n: nat): seq<Milestone> {
    GONE + PoolLog(n) + [ControlPlaneOwnersDeleted, ControlPlaneReleased]
  }

  /** Exactly the first `released` pools have lost their finalizer; the others are as listed. */
  predicate ReleasedPrefix(st: Run, past: Past) {
    && |st.pools| == |past.listed| && past.released <= |st.pools|
    && (forall k :: 0 <= k < past.released ==> !st.pools[k].finalizer)
    && (forall k :: past.released <= k < |st.pools| ==> st.pools[k] == past.listed[k])
  }

  /** Where a teardown can stop: before or after destroying, before or after some pool, or at its
      end. */
  predicate Stopped(past: Past, n: nat) {
    var k := past.released;
    || (k == 0 && past.log == [])
    || (k == 0 && past.log == [Destroyed])
    || (k <= n && past.log == GONE + PoolLog(k))
    || (k < n && past.log == GONE + PoolLog(k) + [PoolOwnersDeleted(k)])
    || (k == n && past.log == GONE + PoolLog(n) + [ControlPlaneOwnersDeleted])
    || (k == n && past.log == FullLog(n))
  }

  predicate TeardownLog(st: Run, past: Past, p: TeardownPoint) {
    var n := |st.pools|;
    match p
    case NextTeardown => st.i == past.released && past.log == GONE + PoolLog(st.i)
    case TeardownOwners => st.i == past.released < n && past.log == GONE + PoolLog(st.i)
    case Refetch => st.i == past.released < n && past.log == GONE + PoolLog(st.i) + [PoolOwnersDeleted(st.i)]
    case ControlPlaneOwners => past.released == n && past.log == GONE + PoolLog(n)
    case DropFinalizer => past.released == n && past.log == GONE + PoolLog(n) + [ControlPlaneOwnersDeleted]
  }

  predicate LogInv(run: Input, st: Run, past: Past) {
    var n := |st.pools|;
    if st.teardown then
      && ReleasedPrefix(st, past)
      && (st.finalizer == run.finalizer || (past.released == n && past.log == FullLog(n)))
      && match st.phase
         case Opening(_) => false
         case Approach(p) => past.released == 0 && past.log == if p.TakeLock? then [Destroyed] else []
         case Section(p) => past.released == 0 && past.log == if p.ReleaseLock? then GONE + PoolLog(0) else [Destroyed]
         case LowerFlag => past.released == 0 && past.log == GONE + PoolLog(0)
         case Teardown(p) => TeardownLog(st, past, p)
         case _ => Stopped(past, n)
    else
      past.log == [] && past.released == 0
      && (if st.phase.Opening? then st.finalizer == run.finalizer else run.finalizer ==> st.finalizer)
      && (!st.hasList ==> st.pools == [] == past.listed)
  }

  lemma LogDecide(run: Input, st: Run, past: Past, o: Outcome, c: Cluster)
    requires st.phase == Opening(Decide)
    requires !st.teardown && Inv(run, st) && LogInv(run, st, past) && Possible(run, st, o, c)
    ensures LogInv(run, Step(run, st, o, c), Remember(past, st, o, c))
  {
  }

  /** Off the path of a deletion no milestone is passed. */
  lemma NoMilestone(run: Input, st: Run, o: Outcome)
    requires !st.teardown && Inv(run, st)
    ensures MilestoneOf(st, o) == [] && !st.phase.Teardown? && st.phase != Approach(ListToDelete)
  {
  }

  /** The list is read before the run has one, and nothing else sets a first pool. */
  lemma NoListNoPools(run: Input, st: Run, o: Outcome, c: Cluster)
    requires st.pools == []
    ensures !ReadsList(st, o) ==> PoolsAfter(run, st, o, c) == []
  {
  }

  lemma OpeningEnds(run: Input, st: Run, o: Outcome)
    requires st.phase != Opening(Decide)
    ensures NextPhase(run, st, o).Opening? ==> st.phase.Opening?
    ensures st.phase.Opening? ==>
      NextPhase(run, st, o).Opening? || NextPhase(run, st, o) == RETURN || NextPhase(run, st, o) == Done
  {
  }

  lemma LogOutside(run: Input, st: Run, past: Past, o: Outcome, c: Cluster)
    requires st.phase != Opening(Decide)
    requires !st.teardown && Inv(run, st) && LogInv(run, st, past) && Possible(run, st, o, c)
    ensures LogInv(run, Step(run, st, o, c), Remember(past, st, o, c))
  {
    hide Inv, Possible, NextPhase, PoolsAfter, MilestoneOf, IndexAfter, ReadyAfter;
    NoMilestone(run, st, o);
    OpeningEnds(run, st, o);
    if !st.hasList {
      NoListNoPools(run, st, o, c);
    }
  }

  /** Outside the loops only the list being read changes the pools. */
  lemma PoolsOutside(run: Input, st: Run, o: Outcome, c: Cluster)
    requires !st.phase.PoolWork? && !st.phase.Teardown?
    ensures PoolsAfter(run, st, o, c) == if ReadsList(st, o) then Sort(c.pools) else st.pools
  {
    hide Sort;
  }

  lemma LogApproach(run: Input, st: Run, past: Past, o: Outcome, c: Cluster)
    requires st.teardown && st.phase.Approach?
    requires Inv(run, st) && LogInv(run, st, past) && Possible(run, st, o, c)
    ensures LogInv(run, Step(run, st, o, c), Remember(past, st, o, c))
  {
    hide PoolsAfter, Sort, IndexAfter, ReadyAfter, PoolLog;
    PoolsOutside(run, st, o, c);
  }

  lemma LogSection(run: Input, st: Run, past: Past, o: Outcome, c: Cluster)
    requires st.teardown && st.phase.Section?
    requires Inv(run, st) && LogInv(run, st, past) && Possible(run, st, o, c)
    ensures LogInv(run, Step(run, st, o, c), Remember(past, st, o, c))
  {
    hide PoolsAfter, Sort, IndexAfter, ReadyAfter, LockInv;
    PoolsOutside(run, st, o, c);
  }

  lemma LogClosing(run: Input, st: Run, past: Past, o: Outcome, c: Cluster)
    requires st.teardown && (st.phase.LowerFlag? || st.phase.Closing?)
    requires Inv(run, st) && LogInv(run, st, past) && Possible(run, st, o, c)
    ensures LogInv(run, Step(run, st, o, c), Remember(past, st, o, c))
  {
    hide PoolsAfter, Sort, ReadyAfter;
    PoolsOutside(run, st, o, c);
  }

  lemma LogNextPool(run: Input, st: Run, past: Past, o: Outcome, c: Cluster)
    requires st.phase == Teardown(NextTeardown) || st.phase == Teardown(TeardownOwners)
    requires Inv(run, st) && LogInv(run, st, past) && Possible(run, st, o, c)
    ensures LogInv(run, Step(run, st, o, c), Remember(past, st, o, c))
  {
  }

  lemma OneMorePool(k: nat)
    ensures GONE + PoolLog(k) + [PoolOwnersDeleted(k)] + [PoolReleased(k)] == GONE + PoolLog(k + 1)
  {
    assert GONE + (PoolLog(k) + [PoolOwnersDeleted(k), PoolReleased(k)])
        == GONE + PoolLog(k) + [PoolOwnersDeleted(k)] + [PoolReleased(k)];
  }

  lemma OneMoreReleased(run: Input, st: Run, past: Past, o: Outcome, c: Cluster)
    requires st.phase == Teardown(Refetch) && st.i == past.released < |st.pools| && ReleasedPrefix(st, past)
    ensures ReleasedPrefix(Step(run, st, o, c), Remember(past, st, o, c))
  {
  }

  lemma LogRefetch(run: Input, st: Run, past: Past, o: Outcome, c: Cluster)
    requires st.phase == Teardown(Refetch)
    requires Inv(run, st) && LogInv(run, st, past) && Possible(run, st, o, c)
    ensures LogInv(run, Step(run, st, o, c), Remember(past, st, o, c))
  {
    OneMorePool(past.released);
    OneMoreReleased(run, st, past, o, c);
  }

  lemma LastTwo(n: nat)
    ensures GONE + PoolLog(n) + [ControlPlaneOwnersDeleted] + [ControlPlaneReleased] == FullLog(n)
  {
    assert GONE + PoolLog(n) + [ControlPlaneOwnersDeleted, ControlPlaneReleased]
        == GONE + PoolLog(n) + [ControlPlaneOwnersDeleted] + [ControlPlaneReleased];
  }

  /** Nothing of a pool changes any more. */
  lemma PoolsAtEnd(run: Input, st: Run, o: Outcome, c: Cluster)
    requires st.phase == Teardown(ControlPlaneOwners) || st.phase == Teardown(DropFinalizer)
    ensures PoolsAfter(run, st, o, c) == st.pools
  {
  }

  lemma LogControlPlane(run: Input, st: Run, past: Past, o: Outcome, c: Cluster)
    requires st.phase == Teardown(ControlPlaneOwners) || st.phase == Teardown(DropFinalizer)
    requires Inv(run, st) && LogInv(run, st, past) && Possible(run, st, o, c)
    ensures LogInv(run, Step(run, st, o, c), Remember(past, st, o, c))
  {
    hide IndexAfter, ReadyAfter, PoolsAfter, PoolLog, FullLog, LockInv;
    LastTwo(|st.pools|);
    PoolsAtEnd(run, st, o, c);
  }

  lemma LogStep(run: Input, st: Run, past: Past, o: Outcome, c: Cluster)
    requires Inv(run, st) && LogInv(run, st, past) && Possible(run, st, o, c)
    ensures LogInv(run, Step(run, st, o, c), Remember(past, st, o, c))
  {
    if st.phase == Opening(Decide) {
      LogDecide(run, st, past, o, c);
    } else if !st.teardown {
      LogOutside(run, st, past, o, c);
    } else {
      match st.phase
      case Approach(_) => LogApproach(run, st, past, o, c);
      case Section(_) => LogSection(run, st, past, o, c);
      case Teardown(p) =>
        if p.NextTeardown? || p.TeardownOwners? {
          LogNextPool(run, st, past, o, c);
        } else if p.Refetch? {
          LogRefetch(run, st, past, o, c);
        } else {
          LogControlPlane(run, st, past, o, c);
        }
      case _ => LogClosing(run, st, past, o, c);
    }
  }

  lemma {:induction false} PoolLogFacts(k: nat, n: nat)
    requires k <= n
    ensures |PoolLog(k)| == 2 * k
    ensures PoolLog(k) <= PoolLog(n)
    ensures k < n ==> PoolLog(k) + [PoolOwnersDeleted(k)] <= PoolLog(n)
    ensures forall j: nat :: PoolReleased(j) in PoolLog(k) <==> j < k
    decreases n + k
  {
    if k > 0 {
      PoolLogFacts(k - 1, k - 1);
    }
    if k < n {
      PoolLogFacts(k, n - 1);
    }
  }

  // ---------------------------------------------------------------- the meaning of Ready

  /** Errors that do not end the run. */
  predicate Tolerated(p: Phase) {
    p.PoolWork? || p == Building(ReconcileSecrets) || p.Closing?
  }

  predicate Broken(call: Call) {
    (call.outcome.Fail? && !Tolerated(call.phase)) || (call.outcome.NotFound? && call.phase == Applying(ProviderIds))
  }

  predicate Unbroken(trace: seq<Call>) {
    forall k :: 0 <= k < |trace| ==> !Broken(trace[k])
  }

  predicate Made(trace: seq<Call>, p: Phase) {
    Call(p, Ok) in trace
  }

  predicate ReadyInv(run: Input, st: Run, past: Past) {
    match st.phase
    case Opening(p) =>
      if p.ReadCredentials? || p.ServiceRange? || p.Decide? then !st.ready && Unbroken(past.trace)
      else st.ready == run.wasReady && Unbroken(past.trace) && !Made(past.trace, Opening(CheckPaused))
    case Applying(p) =>
      !st.ready && Unbroken(past.trace)
      && (p.Apply? || Made(past.trace, Applying(Apply))) && (p.SetReady? ==> Made(past.trace, Applying(Validate)))
    case Closing(p) => Judged(run, st, past)
    case Done => Made(past.trace, Opening(CheckPaused)) ==> Judged(run, st, past)
    case _ => !st.ready && Unbroken(past.trace)
  }

  predicate DeservesReady(run: Input, trace: seq<Call>) {
    !run.dryRun && !ShouldDeleteCluster(run) && Unbroken(trace) && Validation.Healthy(run.report)
  }

  predicate Judged(run: Input, st: Run, past: Past) {
    if run.paused then st.ready == run.wasReady
    else
      && st.ready == DeservesReady(run, past.trace)
      && (st.ready ==> Made(past.trace, Applying(Apply)) && Made(past.trace, Applying(Validate)))
  }

  lemma OneMoreCall(trace: seq<Call>, call: Call)
    ensures Unbroken(trace + [call]) <==> Unbroken(trace) && !Broken(call)
    ensures forall p :: Made(trace + [call], p) <==> Made(trace, p) || call == Call(p, Ok)
  {
    var all := trace + [call];
    if Unbroken(all) {
      assert all[|trace|] == call;
      forall k | 0 <= k < |trace| ensures !Broken(trace[k]) {
        assert all[k] == trace[k];
      }
    }
  }

  lemma ReadyOpening(run: Input, st: Run, past: Past, o: Outcome, c: Cluster)
    requires st.phase.Opening?
    requires Inv(run, st) && ReadyInv(run, st, past) && Possible(run, st, o, c)
    ensures ReadyInv(run, Step(run, st, o, c), Remember(past, st, o, c))
  {
    hide PoolsAfter, IndexAfter, MilestoneOf;
    OneMoreCall(past.trace, Call(st.phase, o));
  }

  lemma ReadyToSection(run: Input, st: Run, past: Past, o: Outcome, c: Cluster)
    requires st.phase.Approach? || st.phase.Section?
    requires Inv(run, st) && ReadyInv(run, st, past) && Possible(run, st, o, c)
    ensures ReadyInv(run, Step(run, st, o, c), Remember(past, st, o, c))
  {
    hide PoolsAfter, IndexAfter, MilestoneOf;
    OneMoreCall(past.trace, Call(st.phase, o));
  }

  lemma ReadyMiddle(run: Input, st: Run, past: Past, o: Outcome, c: Cluster)
    requires st.phase.PoolWork? || st.phase.LowerFlag? || st.phase.Teardown?
    requires Inv(run, st) && ReadyInv(run, st, past) && Possible(run, st, o, c)
    ensures ReadyInv(run, Step(run, st, o, c), Remember(past, st, o, c))
  {
    hide PoolsAfter, IndexAfter, MilestoneOf;
    OneMoreCall(past.trace, Call(st.phase, o));
  }

  lemma ReadyBuilding(run: Input, st: Run, past: Past, o: Outcome, c: Cluster)
    requires st.phase.Building?
    requires Inv(run, st) && ReadyInv(run, st, past) && Possible(run, st, o, c)
    ensures ReadyInv(run, Step(run, st, o, c), Remember(past, st, o, c))
  {
    hide PoolsAfter, IndexAfter, MilestoneOf;
    OneMoreCall(past.trace, Call(st.phase, o));
  }

  lemma ReadyApplying(run: Input, st: Run, past: Past, o: Outcome, c: Cluster)
    requires st.phase.Applying? || st.phase.Closing?
    requires Inv(run, st) && ReadyInv(run, st, past) && Possible(run, st, o, c)
    ensures ReadyInv(run, Step(run, st, o, c), Remember(past, st, o, c))
  {
    hide PoolsAfter, IndexAfter, MilestoneOf;
    OneMoreCall(past.trace, Call(st.phase, o));
  }

  lemma ReadyStep(run: Input, st: Run, past: Past, o: Outcome, c: Cluster)
    requires Inv(run, st) && ReadyInv(run, st, past) && Possible(run, st, o, c)
    ensures ReadyInv(run, Step(run, st, o, c), Remember(past, st, o, c))
  {
    match st.phase
    case Opening(_) => ReadyOpening(run, st, past, o, c);
    case Approach(_) => ReadyToSection(run, st, past, o, c);
    case Section(_) => ReadyToSection(run, st, past, o, c);
    case Building(_) => ReadyBuilding(run, st, past, o, c);
    case Applying(_) => ReadyApplying(run, st, past, o, c);
    case Closing(_) => ReadyApplying(run, st, past, o, c);
    case _ => ReadyMiddle(run, st, past, o, c);
  }

  // ---------------------------------------------------------------- over whole runs

  /** Everything above holds at every point of every run. */
  predicate MomentInv(run: Input, m: Moment) {
    Inv(run, m.st) && LogInv(run, m.st, m.past) && ReadyInv(run, m.st, m.past)
  }

  lemma InvAfter(run: Input, m: Moment, t: Turn)
    requires MomentInv(run, m) && Possible(run, m.st, t.o, t.c)
    ensures MomentInv(run, After(run, m, t))
  {
    StepKeepsInv(run, m.st, t.o, t.c);
    LogStep(run, m.st, m.past, t.o, t.c);
    ReadyStep(run, m.st, m.past, t.o, t.c);
  }

  lemma {:induction false} InvHistory(run: Input, ms: seq<Moment>, ts: seq<Turn>, k: nat)
    requires History(run, ms, ts) && k <= |ts|
    ensures MomentInv(run, ms[k])
  {
    if k > 0 {
      InvHistory(run, ms, ts, k - 1);
      InvAfter(run, ms[k - 1], ts[k - 1]);
    }
  }

  /** Lock discipline over every path: the mutex is taken only by a run that does not hold it and
      given back only by one that does; at every return the flag says exactly whether it is held;
      no finished run holds it, whichever call failed. */
  lemma LockDiscipline(run: Input, ms: seq<Moment>, ts: seq<Turn>)
    requires History(run, ms, ts)
    ensures forall k :: 0 <= k <= |ts| && ms[k].st.phase == Approach(TakeLock) ==> !ms[k].st.holds
    ensures forall k :: 0 <= k <= |ts| && Unlocks(ms[k].st) ==> ms[k].st.holds
    ensures forall k :: 0 <= k <= |ts| && ms[k].st.phase == RETURN ==> ms[k].st.shouldUnlock == ms[k].st.holds
    ensures forall k :: 0 <= k <= |ts| && ms[k].st.phase == Done ==> !ms[k].st.holds
  {
    forall k | 0 <= k <= |ts| ensures MomentInv(run, ms[k]) {
      InvHistory(run, ms, ts, k);
    }
  }

  /** The critical section and the way into it. */
  predicate Locking(st: Run) {
    InSection(st) || st.phase == Approach(TakeLock)
  }

  lemma FinalizerStays(run: Input, st: Run, o: Outcome, c: Cluster)
    requires Inv(run, st) && (Locking(st) && !st.teardown ==> st.finalizer)
    ensures var t := Step(run, st, o, c);
            Locking(t) && !t.teardown ==> t.finalizer
  {
    hide PoolsAfter, IndexAfter, ReadyAfter;
  }

  /** In the critical section a run that is no deletion has its finalizer set. */
  lemma {:induction false} FinalizerAdded(run: Input, ms: seq<Moment>, ts: seq<Turn>, k: nat)
    requires History(run, ms, ts) && k <= |ts| && Locking(ms[k].st) && !ms[k].st.teardown
    ensures ms[k].st.finalizer
  {
    FinalizerEver(run, ms, ts, k);
  }

  lemma {:induction false} FinalizerEver(run: Input, ms: seq<Moment>, ts: seq<Turn>, k: nat)
    requires History(run, ms, ts) && k <= |ts|
    ensures Locking(ms[k].st) && !ms[k].st.teardown ==> ms[k].st.finalizer
  {
    hide Step, Locking, Inv, Remember, LogInv, ReadyInv;
    if k > 0 {
      FinalizerEver(run, ms, ts, k - 1);
      InvHistory(run, ms, ts, k - 1);
      FinalizerStays(run, ms[k - 1].st, ts[k - 1].o, ts[k - 1].c);
    } else {
      NotLockingYet(run);
    }
  }

  lemma NotLockingYet(run: Input)
    ensures !Locking(Start(run))
  {
  }

  /** Calls that save the cluster, its pools or its objects, or that apply and judge it. */
  predicate Writes(p: Phase) {
    || p.Applying?
    || (p.Building? && Saving(p.build))
    || (p.PoolWork? && !p.pool.NextPool?)
    || p == Closing(UpdatePools)
    || p == Closing(UpdateControlPlane)
  }

  /** Terraform destroy, the deletion in kops and everything after it happen only in a run for a
      control plane that is marked for deletion, not protected, not paused, and not a dry run; a
      dry run saves and applies nothing. */
  lemma TeardownGuard(run: Input, ms: seq<Moment>, ts: seq<Turn>, k: nat)
    requires History(run, ms, ts) && k <= |ts|
    ensures var p := ms[k].st.phase;
            p == Approach(Destroy) || p == Section(KopsDelete) || p.Teardown? ==>
              run.deleting && !run.protected && !run.paused && !run.dryRun
    ensures Writes(ms[k].st.phase) ==> !run.dryRun
  {
    InvHistory(run, ms, ts, k);
  }

  lemma StoppedIsPrefix(past: Past, n: nat)
    requires Stopped(past, n)
    ensures past.log <= FullLog(n)
    ensures forall k: nat :: PoolReleased(k) in past.log <==> k < past.released
    ensures past.log == FullLog(n) ==> past.released == n
  {
    var k := past.released;
    PoolLogFacts(k, n);
    PoolLogFacts(n, n);
    assert |FullLog(n)| == 2 * n + 4;
  }

  /** Teardown order: at every point of every run, what a deletion has done is an initial part of
      the one full order (destroy, delete in kops, owner and finalizer of every listed pool in
      turn, owner and finalizer of the control plane). The finalizer of the control plane is gone
      only if all of it was done, and exactly the pools released so far have lost theirs. */
  lemma TeardownOrder(run: Input, ms: seq<Moment>, ts: seq<Turn>, k: nat)
    requires History(run, ms, ts) && k <= |ts|
    ensures var m := ms[k];
            && (m.st.phase.Closing? || m.st.phase.Done? ==> m.past.log <= FullLog(|m.st.pools|))
            && (run.finalizer && !m.st.finalizer ==> m.st.teardown && m.past.log == FullLog(|m.past.listed|))
            && (m.st.teardown ==> ReleasedPrefix(m.st, m.past))
            && (m.st.teardown && (m.st.phase.Closing? || m.st.phase.Done?) ==>
                  forall j: nat :: PoolReleased(j) in m.past.log <==> j < m.past.released)
  {
    InvHistory(run, ms, ts, k);
    var m := ms[k];
    if m.st.teardown && (m.st.phase.Closing? || m.st.phase.Done?) {
      StoppedIsPrefix(m.past, |m.st.pools|);
    }
  }

  /** The meaning of Ready: after a finished run that got past the owner lookup and was not
      paused, Ready is set exactly when the run was no dry run and no deletion, no call failed
      other than those for single pools and for the secrets, and the validation was healthy. In
      particular terraform was applied and the cluster validated. A paused run leaves it alone. */
  lemma ReadyMeaning(run: Input, ms: seq<Moment>, ts: seq<Turn>)
    requires History(run, ms, ts)
    requires ms[|ts|].st.phase == Done && Made(ms[|ts|].past.trace, Opening(CheckPaused))
    ensures !run.paused ==> ms[|ts|].st.ready == DeservesReady(run, ms[|ts|].past.trace)
    ensures !run.paused ==>
      (ms[|ts|].st.ready <==>
         && !run.dryRun && (!run.deleting || run.protected)
         && Unbroken(ms[|ts|].past.trace) && Validation.Healthy(run.report))
    ensures !run.paused && ms[|ts|].st.ready ==>
      Made(ms[|ts|].past.trace, Applying(Apply)) && Made(ms[|ts|].past.trace, Applying(Validate))
    ensures run.paused ==> ms[|ts|].st.ready == run.wasReady
  {
    InvHistory(run, ms, ts, |ts|);
  }
}
