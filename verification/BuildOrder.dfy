/** The normal path leaves nothing out: what a run has to do before a point of the critical section
    or before applying terraform has been done when the run gets there. */
module BuildOrder {
  import opened Phases
  import opened Runs
  import Progress

  /** The steps that a run with these settings cannot do without. Whether a cluster is created or
      updated depends on what it finds, see `Saved`. */
  predicate Needed(run: Input, q: BuildPoint) {
    match q
    case CreateCluster => false
    case AddSshKey => false
    case ClusterStatus => false
    case UpdateCluster => false
    case GetCluster => !run.dryRun
    case ReconcileSecrets => !run.dryRun && run.hasSecret
    case PinProvider => run.pinned
    case Plan => run.dryRun
    case ReadKubeconfig => !run.dryRun
    case SaveKubeconfig => !run.dryRun
    case _ => true
  }

  predicate Asked(trace: seq<Call>, at: Phase) {
    Call(at, Ok) in trace || Call(at, NotFound) in trace || (Tolerated(at) && Call(at, Fail) in trace)
  }

  /** Either a missing cluster was created with its key, or an existing one was updated. */
  predicate Saved(trace: seq<Call>) {
    || (Made(trace, Building(CreateCluster)) && Made(trace, Building(AddSshKey)))
    || (Made(trace, Building(ClusterStatus)) && Made(trace, Building(UpdateCluster)))
  }

  predicate Under(st: Run) {
    !st.teardown && (InSection(st) || st.phase.LowerFlag? || st.phase.Applying?)
  }

  /** Everything needed that comes before a point has been asked for, without an error. */
  predicate AskedBefore(run: Input, at: Phase, trace: seq<Call>) {
    forall q :: Needed(run, q) && Progress.BuildStage(q) + 30 > Progress.Stage(at) ==> Asked(trace, Building(q))
  }

  /** The cluster is being saved, or has been. */
  predicate SavedBefore(run: Input, at: Phase, trace: seq<Call>) {
    && (at == Building(AddSshKey) ==> Made(trace, Building(CreateCluster)))
    && (at == Building(UpdateCluster) ==> Made(trace, Building(ClusterStatus)))
    && (!run.dryRun && Progress.Stage(at) < Progress.Stage(Building(UpdateCluster)) ==> Saved(trace))
  }

  predicate OrderInv(run: Input, st: Run, trace: seq<Call>) {
    Under(st) ==> AskedBefore(run, st.phase, trace) && SavedBefore(run, st.phase, trace)
  }

  // ---------------------------------------------------------------- one step

  lemma TraceGrows(trace: seq<Call>, call: Call)
    ensures forall at :: Asked(trace, at) ==> Asked(trace + [call], at)
    ensures forall at :: Made(trace, at) ==> Made(trace + [call], at)
    ensures call in trace + [call]
  {
  }

  /** Between a point and the next one there is nothing needed. */
  lemma NothingSkipped(run: Input, st: Run, o: Outcome, q: BuildPoint)
    requires st.phase.Building? && Inv(run, st) && !EndsRun(run, st, o) && Needed(run, q)
    requires Progress.BuildStage(q) + 30 > Progress.Stage(NextPhase(run, st, o))
    ensures q == st.phase.build || Progress.BuildStage(q) > Progress.BuildStage(st.phase.build)
  {
  }

  lemma NothingSkippedElsewhere(run: Input, st: Run, o: Outcome, q: BuildPoint)
    requires st.phase.Section? || st.phase.PoolWork? || st.phase.LowerFlag? || st.phase.Applying?
    requires Inv(run, st) && !st.teardown && !EndsRun(run, st, o) && Needed(run, q)
    requires Progress.BuildStage(q) + 30 > Progress.Stage(NextPhase(run, st, o))
    ensures Progress.BuildStage(q) + 30 > Progress.Stage(st.phase)
  {
  }

  /** A step that leads on has not failed, unless its failure is tolerated. */
  lemma LeadsOn(run: Input, st: Run, o: Outcome, c: Cluster)
    requires st.phase.Building? && Possible(run, st, o, c) && !EndsRun(run, st, o)
    ensures o.Fail? ==> Tolerated(st.phase)
  {
  }

  lemma AskedStep(run: Input, st: Run, o: Outcome, c: Cluster, trace: seq<Call>)
    requires Under(st) && Inv(run, st) && Possible(run, st, o, c) && !EndsRun(run, st, o)
      && AskedBefore(run, st.phase, trace)
    ensures AskedBefore(run, NextPhase(run, st, o), trace + [Call(st.phase, o)])
  {
    hide NextPhase, Needed, Progress.BuildStage, Inv, Possible;
    var after := trace + [Call(st.phase, o)];
    TraceGrows(trace, Call(st.phase, o));
    forall q | Needed(run, q) && Progress.BuildStage(q) + 30 > Progress.Stage(NextPhase(run, st, o))
      ensures Asked(after, Building(q))
    {
      if st.phase.Building? {
        NothingSkipped(run, st, o, q);
        LeadsOn(run, st, o, c);
      } else {
        NothingSkippedElsewhere(run, st, o, q);
      }
    }
  }

  lemma SavedStep(run: Input, st: Run, o: Outcome, trace: seq<Call>)
    requires st.phase.Building? && !EndsRun(run, st, o) && SavedBefore(run, st.phase, trace)
    ensures SavedBefore(run, NextPhase(run, st, o), trace + [Call(st.phase, o)])
  {
    TraceGrows(trace, Call(st.phase, o));
  }

  lemma SavedElsewhere(run: Input, st: Run, o: Outcome, trace: seq<Call>)
    requires Under(st) && Inv(run, st) && !st.phase.Building? && !EndsRun(run, st, o)
      && SavedBefore(run, st.phase, trace)
    ensures SavedBefore(run, NextPhase(run, st, o), trace + [Call(st.phase, o)])
  {
    TraceGrows(trace, Call(st.phase, o));
  }

  lemma EntersFresh(run: Input, st: Run, o: Outcome, c: Cluster, trace: seq<Call>)
    requires !Under(st) && Inv(run, st) && Possible(run, st, o, c) && Under(Step(run, st, o, c))
    ensures AskedBefore(run, NextPhase(run, st, o), trace) && SavedBefore(run, NextPhase(run, st, o), trace)
  {
    hide AskedBefore, SavedBefore;
    TakesLock(run, st, o, c);
    NothingBefore(run, trace);
  }

  /** At the start of the critical section nothing has been needed yet. */
  lemma NothingBefore(run: Input, trace: seq<Call>)
    ensures AskedBefore(run, Section(RaiseFlag), trace) && SavedBefore(run, Section(RaiseFlag), trace)
  {
  }

  lemma TakesLock(run: Input, st: Run, o: Outcome, c: Cluster)
    requires !Under(st) && Inv(run, st) && Possible(run, st, o, c) && Under(Step(run, st, o, c))
    ensures NextPhase(run, st, o) == Section(RaiseFlag)
  {
  }

  lemma StaysOrEnds(run: Input, st: Run, o: Outcome, c: Cluster)
    requires Under(st) && Under(Step(run, st, o, c))
    ensures !EndsRun(run, st, o)
  {
  }

  lemma OrderStep(run: Input, st: Run, o: Outcome, c: Cluster, trace: seq<Call>)
    requires Inv(run, st) && Possible(run, st, o, c) && OrderInv(run, st, trace)
    ensures OrderInv(run, Step(run, st, o, c), trace + [Call(st.phase, o)])
  {
    hide AskedBefore, SavedBefore, Possible;
    if Under(Step(run, st, o, c)) {
      if Under(st) {
        StaysOrEnds(run, st, o, c);
        AskedStep(run, st, o, c, trace);
        if st.phase.Building? {
          SavedStep(run, st, o, trace);
        } else {
          SavedElsewhere(run, st, o, trace);
        }
      } else {
        EntersFresh(run, st, o, c, trace + [Call(st.phase, o)]);
      }
    }
  }

  // ---------------------------------------------------------------- over whole runs

  lemma {:induction false} OrderHistory(run: Input, ms: seq<Moment>, ts: seq<Turn>, k: nat)
    requires History(run, ms, ts) && k <= |ts|
    ensures OrderInv(run, ms[k].st, ms[k].past.trace)
  {
    hide OrderInv;
    if k == 0 {
      NotUnderYet(run);
    } else {
      OrderHistory(run, ms, ts, k - 1);
      InvHistory(run, ms, ts, k - 1);
      OrderStep(run, ms[k - 1].st, ts[k - 1].o, ts[k - 1].c, ms[k - 1].past.trace);
    }
  }

  lemma NotUnderYet(run: Input)
    ensures OrderInv(run, Start(run), [])
  {
  }

  /** Nothing is left out on the way to a point of the critical section: every needed step that
      comes before it has succeeded, or has failed where that is tolerated. */
  lemma NothingLeftOut(run: Input, ms: seq<Moment>, ts: seq<Turn>, k: nat, p: BuildPoint, q: BuildPoint)
    requires History(run, ms, ts) && k <= |ts| && ms[k].st.phase == Building(p)
    requires Needed(run, q) && Progress.BuildStage(q) > Progress.BuildStage(p)
    ensures Asked(ms[k].past.trace, Building(q))
  {
    hide Needed, Progress.BuildStage, Asked;
    OrderHistory(run, ms, ts, k);
    InvHistory(run, ms, ts, k);
  }

  /** Terraform is applied only after every needed step of the critical section, the rewrite of the
      pinned provider version among them, and after the cluster was created with its key or
      updated. */
  lemma AppliedLast(run: Input, ms: seq<Moment>, ts: seq<Turn>, k: nat)
    requires History(run, ms, ts) && k <= |ts| && ms[k].st.phase.Applying?
    ensures forall q :: Needed(run, q) ==> Asked(ms[k].past.trace, Building(q))
    ensures Saved(ms[k].past.trace)
  {
    hide Needed, Asked, Saved;
    OrderHistory(run, ms, ts, k);
    InvHistory(run, ms, ts, k);
  }
}
