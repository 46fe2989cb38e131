/** The SSH key of a cluster: createOrUpdateKopsCluster adds it right after creating the cluster and
    at no other time, so that one failed call decides for the whole life of the cluster. */
module SshKeys {
  import opened Common
  import opened Phases
  import opened Fleet
  import Road

  /** Between finding no cluster and having called for its key. */
  predicate BeingCreated(at: Phase) {
    at == Building(CreateCluster) || at == Building(AddSshKey)
  }

  predicate BeingUpdated(at: Phase) {
    at == Building(ClusterStatus) || at == Building(UpdateCluster)
  }

  /** How the calls for the key have ended since the cluster was last deleted in kops. */
  function AttemptsAfter(st: Run, o: Outcome, attempts: seq<bool>): seq<bool> {
    if Succeeds(st, o, Section(KopsDelete)) then []
    else if st.phase == Building(AddSshKey) then attempts + [o.Ok?]
    else attempts
  }

  /** A stored cluster has had exactly one such call, and that call has settled the matter. */
  predicate KeyInv(at: Phase, spec: Option<Built>, sshKey: bool, attempts: seq<bool>) {
    && (BeingUpdated(at) ==> spec.Some?)
    && if BeingCreated(at) then
         spec.Some? == (at == Building(AddSshKey)) && !sshKey && attempts == []
       else if spec.Some? then attempts == [sshKey]
       else !sshKey && attempts == []
  }

  // ---------------------------------------------------------------- one step of a run

  lemma KeyBuilding(run: Input, st: Run, o: Outcome, cl: Cluster, attempts: seq<bool>)
    requires st.phase.Building? && Possible(run, st, o, cl) && PopulatedInv(run, st.phase, cl.populated)
    requires KeyInv(st.phase, cl.spec, cl.sshKey, attempts)
    ensures KeyInv(NextPhase(run, st, o), SpecAfter(st, o, cl), KeyAfter(st, o, cl.sshKey),
      AttemptsAfter(st, o, attempts))
  {
  }

  lemma NextElsewhere(run: Input, st: Run, o: Outcome)
    requires !st.phase.Building?
    ensures !BeingCreated(NextPhase(run, st, o)) && !BeingUpdated(NextPhase(run, st, o))
  {
  }

  lemma KeyStep(run: Input, st: Run, o: Outcome, cl: Cluster, attempts: seq<bool>)
    requires Possible(run, st, o, cl) && PopulatedInv(run, st.phase, cl.populated)
    requires KeyInv(st.phase, cl.spec, cl.sshKey, attempts)
    ensures KeyInv(NextPhase(run, st, o), SpecAfter(st, o, cl), KeyAfter(st, o, cl.sshKey),
      AttemptsAfter(st, o, attempts))
  {
    if st.phase.Building? {
      KeyBuilding(run, st, o, cl, attempts);
    } else {
      hide NextPhase, Possible;
      NextElsewhere(run, st, o);
    }
  }

  // ---------------------------------------------------------------- over all histories

  /** Where the run of a cluster is; without one it is nowhere near its key. */
  function Where(w: World, c: string): Phase {
    if c in w.active then w.active[c].m.st.phase else Done
  }

  predicate Keyed(w: World, c: string, attempts: seq<bool>) {
    c in w.clusters && KeyInv(Where(w, c), w.clusters[c].spec, w.clusters[c].sshKey, attempts)
  }

  function AttemptsNext(w: World, e: Event, c: string, attempts: seq<bool>): seq<bool>
    requires Enabled(w, e)
  {
    if e.Move? && e.cluster == c then AttemptsAfter(w.active[c].m.st, e.o, attempts) else attempts
  }

  function Attempts(w: World, es: seq<Event>, c: string, attempts: seq<bool>): seq<bool>
    requires Legal(w, es)
    decreases |es|
  {
    if es == [] then attempts else Attempts(Next(w, es[0]), es[1..], c, AttemptsNext(w, es[0], c, attempts))
  }

  lemma KeyedMove(w: World, c: string, o: Outcome, attempts: seq<bool>)
    requires FleetInv(w) && Enabled(w, Move(c, o)) && Keyed(w, c, attempts)
    ensures Keyed(Moved(w, c, o), c, AttemptsAfter(w.active[c].m.st, o, attempts))
  {
    hide KeyInv, NextPhase, Possible, SpecAfter, KeyAfter, AttemptsAfter;
    assert RunInv(w, c);
    KeyStep(w.active[c].run, w.active[c].m.st, o, w.clusters[c], attempts);
  }

  lemma KeyedNext(w: World, e: Event, c: string, attempts: seq<bool>)
    requires FleetInv(w) && Enabled(w, e) && Keyed(w, c, attempts)
    ensures Keyed(Next(w, e), c, AttemptsNext(w, e, c, attempts))
  {
    if e.Move? && e.cluster == c {
      KeyedMove(w, c, e.o, attempts);
    } else {
      KeyedOther(w, e, c, attempts);
    }
  }

  lemma KeyedOther(w: World, e: Event, c: string, attempts: seq<bool>)
    requires Enabled(w, e) && Keyed(w, c, attempts) && !(e.Move? && e.cluster == c)
    ensures Keyed(Next(w, e), c, attempts)
  {
  }

  lemma {:induction false} KeyedKept(w: World, es: seq<Event>, c: string, attempts: seq<bool>)
    requires FleetInv(w) && Legal(w, es) && Keyed(w, c, attempts)
    ensures Keyed(Exec(w, es), c, Attempts(w, es, c, attempts))
    decreases |es|
  {
    hide Keyed, FleetInv;
    if es != [] {
      NextKeeps(w, es[0]);
      KeyedNext(w, es[0], c, attempts);
      KeyedKept(Next(w, es[0]), es[1..], c, AttemptsNext(w, es[0], c, attempts));
    }
  }

  /** A key belongs to a stored cluster, and what became of it at its creation counts as its first
      call. */
  predicate Found(cl: Cluster, before: seq<bool>) {
    if cl.spec.Some? then before == [cl.sshKey] else !cl.sshKey && before == []
  }

  /** Exactly when a cluster has its key: over any history at most one call for the key is made
      between two deletions of the cluster in kops, the cluster is stored exactly if that call was
      made, and it has the key exactly if that call succeeded. */
  lemma KeyDecidedOnce(w: World, es: seq<Event>, c: string, before: seq<bool>)
    requires Idle(w) && Legal(w, es) && c in w.clusters && Found(w.clusters[c], before)
    ensures c in Exec(w, es).clusters
    ensures var v, attempts := Exec(w, es), Attempts(w, es, c, before);
            && |attempts| <= 1
            && (v.clusters[c].sshKey <==> attempts == [true])
            && (!BeingCreated(Where(v, c)) ==> (v.clusters[c].spec.Some? <==> attempts != []))
  {
    KeyedKept(w, es, c, before);
  }

  /** No deletion of this cluster in kops succeeds. */
  predicate Undeleted(w: World, es: seq<Event>, c: string)
    requires Legal(w, es)
    decreases |es|
  {
    es == []
    || (!(es[0].Move? && es[0].cluster == c && Succeeds(w.active[c].m.st, es[0].o, Section(KopsDelete)))
        && Undeleted(Next(w, es[0]), es[1..], c))
  }

  lemma SettledNext(w: World, e: Event, c: string, attempts: seq<bool>)
    requires FleetInv(w) && Enabled(w, e) && Keyed(w, c, attempts) && attempts != []
    requires !(e.Move? && e.cluster == c && Succeeds(w.active[c].m.st, e.o, Section(KopsDelete)))
    ensures AttemptsNext(w, e, c, attempts) == attempts
  {
  }

  lemma {:induction false} Settled(w: World, es: seq<Event>, c: string, attempts: seq<bool>)
    requires FleetInv(w) && Legal(w, es) && Keyed(w, c, attempts) && attempts != [] && Undeleted(w, es, c)
    ensures Attempts(w, es, c, attempts) == attempts
    decreases |es|
  {
    hide Keyed, FleetInv;
    if es != [] {
      NextKeeps(w, es[0]);
      KeyedNext(w, es[0], c, attempts);
      SettledNext(w, es[0], c, attempts);
      Settled(Next(w, es[0]), es[1..], c, attempts);
    }
  }

  /** A lost key stays lost: once the cluster is stored and the call for its key has failed, no run
      ever calls for it again, however many runs succeed, until the cluster is deleted in kops. A
      key that was added stays as well. */
  lemma KeyLostForGood(w: World, es: seq<Event>, fs: seq<Event>, c: string, before: seq<bool>)
    requires Idle(w) && Legal(w, es) && c in w.clusters && Found(w.clusters[c], before)
    requires var v := Exec(w, es);
             Legal(v, fs) && Undeleted(v, fs, c) && !BeingCreated(Where(v, c)) && c in v.clusters
               && v.clusters[c].spec.Some?
    ensures var v, x := Exec(w, es), Exec(Exec(w, es), fs);
            && c in x.clusters && x.clusters[c].spec.Some?
            && x.clusters[c].sshKey == v.clusters[c].sshKey
            && !BeingCreated(Where(x, c))
  {
    hide FleetInv, Legal, Exec, Undeleted, Attempts;
    var v := Exec(w, es);
    var attempts := Attempts(w, es, c, before);
    Reached(w, es);
    NothingYet(w);
    KeyedKept(w, es, c, before);
    Settled(v, fs, c, attempts);
    KeyedKept(v, fs, c, attempts);
  }

  lemma NothingYet(w: World)
    requires Idle(w)
    ensures FleetInv(w)
  {
  }

  // ---------------------------------------------------------------- it happens

  /** Stored without a key. */
  predicate Keyless(w: World, c: string) {
    c in w.clusters && w.clusters[c].spec.Some? && !w.clusters[c].sshKey
  }

  lemma FailedKey(w: World, c: string)
    requires c in w.active && c in w.clusters && Where(w, c) == Building(AddSshKey)
    ensures Enabled(w, Move(c, Fail))
    ensures var v := Next(w, Move(c, Fail));
            && c in v.clusters && v.clusters[c].spec == w.clusters[c].spec
               && v.clusters[c].sshKey == w.clusters[c].sshKey
            && !BeingCreated(Where(v, c))
  {
  }

  /** Wherever a history reaches the call for the key, the call may fail, and then the cluster is
      stored without a key and is no longer being created. */
  lemma KeyCanBeLost(w: World, es: seq<Event>, c: string, before: seq<bool>)
    requires Idle(w) && Legal(w, es) && c in w.clusters && Found(w.clusters[c], before)
    requires Where(Exec(w, es), c) == Building(AddSshKey)
    ensures Enabled(Exec(w, es), Move(c, Fail))
    ensures var v := Next(Exec(w, es), Move(c, Fail));
            Keyless(v, c) && !BeingCreated(Where(v, c))
  {
    NothingYet(w);
    KeyedKept(w, es, c, before);
    FailedKey(Exec(w, es), c);
  }

  /** It happens in every idle world: any ordinary run for a cluster that is not stored can end up
      with a cluster that is stored without a key, and then the cluster has none until it is deleted
      in kops, whatever runs follow. */
  lemma KeyLostExample(w: World, c: string, run: Input) returns (es: seq<Event>)
    requires Idle(w) && Enabled(w, Begin(c, run)) && Road.Ordinary(run)
    requires w.clusters[c].spec.None? && !w.clusters[c].sshKey
    ensures Legal(w, es) && Keyless(Exec(w, es), c)
    ensures forall fs :: Legal(Exec(w, es), fs) && Undeleted(Exec(w, es), fs, c) ==> Keyless(Exec(Exec(w, es), fs), c)
  {
    var way := Road.Way(w, c, run);
    Road.WayLeads(w, c, run);
    es := way + [Move(c, Fail)];
    hide Enabled, Next, Legal, Exec, Road.Driving, Road.Way, BeingCreated, Undeleted;
    KeyCanBeLost(w, way, c, []);
    Road.OneMore(w, way, Move(c, Fail));
    forall fs | Legal(Exec(w, es), fs) && Undeleted(Exec(w, es), fs, c) ensures Keyless(Exec(Exec(w, es), fs), c) {
      KeyLostForGood(w, es, fs, c, []);
    }
  }
}
