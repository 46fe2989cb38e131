/** An ordinary run that is left alone: from any idle world it gets as far as the first call for the
    key of its cluster. The histories built here are the inputs on which things go wrong. */
module Road {
  import opened Phases
  import opened Runs
  import opened Fleet
  import FeatureFlags
  import Progress
  import Serial

  /** A run for a live cluster that is meant to be reconciled. */
  predicate Ordinary(run: Input) {
    && run.sameClass && run.selected && run.hasOwner && !run.paused && !run.dryRun
    && !ShouldDeleteCluster(run)
    && !FeatureFlags.CredentialsMissing(run.spot, run.spotToken, run.spotAccount)
  }

  /** The points from the start to the call for the key of a new cluster. */
  predicate OnRoad(at: Phase) {
    match at
    case Opening(_) => true
    case Approach(p) => p.AddFinalizer? || p.TakeLock?
    case Section(p) => !p.KopsDelete? && !p.ReleaseLock?
    case PoolWork(_) => true
    case Building(p) =>
      || p.Addons? || p.KarpenterFlag? || p.SpotinstFlags? || p.Populate?
      || p.GetCluster? || p.CreateCluster? || p.AddSshKey?
    case _ => false
  }

  /** The calls succeed wherever they can. */
  function Answer(run: Input, st: Run, cl: Cluster): Outcome {
    Progress.SomeAnswer(run, st.phase, PoolAt(st), cl)
  }

  lemma RoadGoesOn(run: Input, st: Run, cl: Cluster)
    requires Ordinary(run) && OnRoad(st.phase) && st.phase != Building(AddSshKey) && !st.teardown && cl.spec.None?
    ensures OnRoad(NextPhase(run, st, Answer(run, st, cl)))
  {
  }

  lemma StaysOffTeardown(run: Input, st: Run, o: Outcome, cl: Cluster)
    requires Ordinary(run) && !st.teardown
    ensures !Step(run, st, o, cl).teardown
  {
  }

  lemma StillMissing(st: Run, o: Outcome, cl: Cluster)
    requires OnRoad(st.phase) && st.phase != Building(CreateCluster) && cl.spec.None?
    ensures SpecAfter(st, o, cl).None?
  {
  }

  /** Only the run of this cluster is active. */
  ghost predicate Alone(w: World, c: string) {
    && FleetInv(w) && c in w.active && c in w.clusters
    && (forall d :: d in w.active ==> d == c)
    && Progress.InBounds(w.active[c].m.st)
  }

  ghost predicate Driving(w: World, c: string) {
    && Alone(w, c)
    && Ordinary(w.active[c].run)
    && var st := w.active[c].m.st;
       OnRoad(st.phase) && !st.teardown && (st.phase != Building(AddSshKey) ==> w.clusters[c].spec.None?)
  }

  function Onward(w: World, c: string): Event
    requires c in w.active && c in w.clusters
  {
    Move(c, Answer(w.active[c].run, w.active[c].m.st, w.clusters[c]))
  }

  lemma MovedAlone(w: World, c: string, o: Outcome)
    requires Enabled(w, Move(c, o)) && forall d :: d in w.active ==> d == c
    ensures var a, v := w.active[c], Next(w, Move(c, o));
            var st := Step(a.run, a.m.st, o, w.clusters[c]);
            && c in v.clusters && (forall d :: d in v.active ==> d == c)
            && (c in v.active <==> !st.phase.Done?)
            && (c in v.active ==> v.active[c].run == a.run && v.active[c].m.st == st)
  {
    hide Possible, Step, Remember, ClusterAfter, EnvAfter, FlagsAfter;
  }

  lemma MayMove(w: World, c: string, o: Outcome)
    requires Alone(w, c) && Possible(w.active[c].run, w.active[c].m.st, o, w.clusters[c])
    ensures Enabled(w, Move(c, o))
  {
    hide Possible;
    if w.active[c].m.st.phase == Approach(TakeLock) {
      Serial.FreeAlone(w, c);
    }
  }

  /** A run that is alone can always move, and gets nearer to its end. */
  lemma AloneMoves(w: World, c: string, o: Outcome)
    requires Alone(w, c) && Possible(w.active[c].run, w.active[c].m.st, o, w.clusters[c])
    ensures Enabled(w, Move(c, o))
    ensures var v := Next(w, Move(c, o));
            if c in v.active then Alone(v, c) && Progress.Sooner(v.active[c].m.st, w.active[c].m.st)
            else v.active == map[]
  {
    var run, st, cl := w.active[c].run, w.active[c].m.st, w.clusters[c];
    assert Inv(run, st) by { assert RunInv(w, c); }
    hide Possible, Step, FleetInv, Inv, Progress.Sooner, Progress.InBounds;
    MayMove(w, c, o);
    NextKeeps(w, Move(c, o));
    Progress.EveryStepIsNearer(run, st, o, cl);
    hide Next;
    MovedAlone(w, c, o);
  }

  lemma AnswerEnabled(w: World, c: string)
    requires Alone(w, c)
    ensures Possible(w.active[c].run, w.active[c].m.st, Onward(w, c).o, w.clusters[c])
  {
    assert RunInv(w, c);
    Progress.SomethingIsPossible(w.active[c].run, w.active[c].m.st.phase, PoolAt(w.active[c].m.st), w.clusters[c]);
  }

  lemma DrivesOn(w: World, c: string)
    requires Driving(w, c) && w.active[c].m.st.phase != Building(AddSshKey)
    ensures Enabled(w, Onward(w, c))
    ensures var v := Next(w, Onward(w, c));
            Driving(v, c) && v.active[c].run == w.active[c].run
            && Progress.Sooner(v.active[c].m.st, w.active[c].m.st)
  {
    var a, cl := w.active[c], w.clusters[c];
    var o := Answer(a.run, a.m.st, cl);
    hide Possible, Alone, OnRoad, Ordinary;
    AnswerEnabled(w, c);
    AloneMoves(w, c, o);
    RoadGoesOn(a.run, a.m.st, cl);
    StaysOffTeardown(a.run, a.m.st, o, cl);
    Arrives(w, c, o);
  }

  lemma Arrives(w: World, c: string, o: Outcome)
    requires Enabled(w, Move(c, o)) && OnRoad(w.active[c].m.st.phase) && w.clusters[c].spec.None?
    requires OnRoad(NextPhase(w.active[c].run, w.active[c].m.st, o))
    ensures var a, v := w.active[c], Next(w, Move(c, o));
            && c in v.active && c in v.clusters
            && v.active[c].run == a.run && v.active[c].m.st == Step(a.run, a.m.st, o, w.clusters[c])
            && (v.active[c].m.st.phase != Building(AddSshKey) ==> v.clusters[c].spec.None?)
  {
    if w.active[c].m.st.phase != Building(CreateCluster) {
      StillMissing(w.active[c].m.st, o, w.clusters[c]);
    }
  }

  /** The rest of the way to the call for the key. */
  ghost function Drive(w: World, c: string): seq<Event>
    requires Driving(w, c)
    decreases Progress.Stage(w.active[c].m.st.phase), Progress.Within(w.active[c].m.st)
  {
    if w.active[c].m.st.phase == Building(AddSshKey) then []
    else
      DrivesOn(w, c);
      [Onward(w, c)] + Drive(Next(w, Onward(w, c)), c)
  }

  lemma {:induction false} Driven(w: World, c: string)
    requires Driving(w, c)
    ensures Legal(w, Drive(w, c))
    ensures var v := Exec(w, Drive(w, c));
            Driving(v, c) && v.active[c].m.st.phase == Building(AddSshKey) && v.active[c].run == w.active[c].run
    decreases Progress.Stage(w.active[c].m.st.phase), Progress.Within(w.active[c].m.st)
  {
    hide FleetInv, Enabled, Next, Onward, Ordinary, OnRoad, Progress.Stage;
    if w.active[c].m.st.phase != Building(AddSshKey) {
      DrivesOn(w, c);
      var v := Next(w, Onward(w, c));
      Driven(v, c);
      assert ([Onward(w, c)] + Drive(v, c))[1..] == Drive(v, c);
    }
  }

  lemma Begins(w: World, c: string, run: Input)
    requires Idle(w) && Enabled(w, Begin(c, run)) && Ordinary(run) && w.clusters[c].spec.None?
    ensures Driving(Next(w, Begin(c, run)), c)
  {
    NextKeeps(w, Begin(c, run));
  }

  /** An ordinary run for a cluster that is not stored, from its start to the call for the key. */
  ghost function Way(w: World, c: string, run: Input): seq<Event>
    requires Idle(w) && Enabled(w, Begin(c, run)) && Ordinary(run) && w.clusters[c].spec.None?
  {
    Begins(w, c, run);
    [Begin(c, run)] + Drive(Next(w, Begin(c, run)), c)
  }

  lemma WayLeads(w: World, c: string, run: Input)
    requires Idle(w) && Enabled(w, Begin(c, run)) && Ordinary(run) && w.clusters[c].spec.None?
    ensures Legal(w, Way(w, c, run))
    ensures var v := Exec(w, Way(w, c, run));
            Driving(v, c) && v.active[c].m.st.phase == Building(AddSshKey) && v.active[c].run == run
  {
    Begins(w, c, run);
    var v := Next(w, Begin(c, run));
    assert v.active[c].run == run;
    hide Driving, Drive, Enabled, Next;
    Driven(v, c);
    assert ([Begin(c, run)] + Drive(v, c))[1..] == Drive(v, c);
  }

  /** One more event at the end of a history. */
  lemma OneMore(w: World, es: seq<Event>, e: Event)
    requires Legal(w, es) && Enabled(Exec(w, es), e)
    ensures Legal(w, es + [e]) && Exec(w, es + [e]) == Next(Exec(w, es), e)
  {
    hide Enabled, Next;
    var v := Exec(w, es);
    assert [e][1..] == [];
    assert Legal(v, [e]) && Exec(v, [e]) == Next(v, e);
    Serial.ExecOfConcat(w, es, [e]);
  }

  /** One more call of a run that is alone: it gets nearer to its end or is over. */
  lemma GoesOn(w: World, c: string)
    requires Alone(w, c)
    ensures Onward(w, c).Move? && Enabled(w, Onward(w, c))
    ensures var v := Next(w, Onward(w, c));
            if c in v.active then Alone(v, c) && Progress.Sooner(v.active[c].m.st, w.active[c].m.st)
            else v.active == map[]
  {
    hide Possible, Enabled, Next, Progress.Sooner;
    AnswerEnabled(w, c);
    AloneMoves(w, c, Onward(w, c).o);
  }

  /** The run of a cluster brought to its end, the calls succeeding where they can. */
  ghost function Finish(w: World, c: string): seq<Event>
    requires Alone(w, c)
    decreases Progress.Stage(w.active[c].m.st.phase), Progress.Within(w.active[c].m.st)
  {
    GoesOn(w, c);
    var v := Next(w, Onward(w, c));
    [Onward(w, c)] + if c in v.active then Finish(v, c) else []
  }

  lemma {:induction false} Finished(w: World, c: string)
    requires Alone(w, c)
    ensures Legal(w, Finish(w, c)) && Exec(w, Finish(w, c)).active == map[]
    ensures forall e :: e in Finish(w, c) ==> e.Move?
    decreases Progress.Stage(w.active[c].m.st.phase), Progress.Within(w.active[c].m.st)
  {
    hide Enabled, Next, Onward, FleetInv, Progress.Stage;
    GoesOn(w, c);
    var e := Onward(w, c);
    var v := Next(w, e);
    if c in v.active {
      Finished(v, c);
      Followed(w, e, Finish(v, c));
    } else {
      Followed(w, e, []);
    }
  }

  /** A first event and then a history. */
  lemma Followed(w: World, e: Event, es: seq<Event>)
    requires Enabled(w, e) && Legal(Next(w, e), es)
    ensures Legal(w, [e] + es) && Exec(w, [e] + es) == Exec(Next(w, e), es)
  {
    hide Enabled, Next;
    assert ([e] + es)[1..] == es;
  }
}
