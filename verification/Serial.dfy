/** Interleaved runs against runs one after the other: what the controller leaves behind for a
    cluster depends only on that cluster's own events, so every interleaving of any number of
    workers, with any failures, is equivalent to running the clusters one at a time. */
module Serial {
  import opened Common
  import opened FeatureFlags
  import opened Phases
  import opened Runs
  import opened Fleet

  /** The events of one cluster, in order. */
  function For(c: string, es: seq<Event>): seq<Event> {
    if es == [] then []
    else if es[0].cluster == c then [es[0]] + For(c, es[1..])
    else For(c, es[1..])
  }

  /** The events of one cluster after another. */
  function OneByOne(cs: seq<string>, es: seq<Event>): seq<Event> {
    if cs == [] then [] else For(cs[0], es) + OneByOne(cs[1..], es)
  }

  predicate SameCluster(w: World, u: World, c: string) {
    && (c in w.clusters <==> c in u.clusters)
    && (c in w.clusters ==> w.clusters[c] == u.clusters[c])
  }

  predicate SameRun(w: World, u: World, c: string) {
    && (c in w.active <==> c in u.active)
    && (c in w.active ==> w.active[c] == u.active[c])
  }

  /** `u` looks to the cluster `c` as `w` does, though in `u` no other cluster has a run. */
  predicate Alone(w: World, u: World, c: string) {
    && FleetInv(w) && FleetInv(u) && u.workers > 0
    && (forall d :: d in u.active ==> d == c)
    && SameCluster(w, u, c) && SameRun(w, u, c)
  }

  /** What a step does to its cluster does not depend on what others left in the variables and in
      the flags. */
  lemma SameEffect(run: Input, st: Run, o: Outcome, cl: Cluster, env: Env, flags: FlagTable, env': Env,
    flags': FlagTable)
    requires Inv(run, st) && Owns(run, st, env, flags, cl) && Owns(run, st, env', flags', cl)
    ensures ClusterAfter(run, st, o, cl, env, flags) == ClusterAfter(run, st, o, cl, env', flags')
  {
    if Succeeds(st, o, Building(Populate)) || Succeeds(st, o, Building(PrepareKops)) {
      assert BuildNow(run, cl, env, flags) == BuildNow(run, cl, env', flags');
    }
  }

  /** Where no other run is active the mutex is free for whoever wants it. */
  lemma FreeAlone(u: World, c: string)
    requires FleetInv(u) && (forall d :: d in u.active ==> d == c)
    requires c in u.active && u.active[c].m.st.phase == Approach(TakeLock)
    ensures !u.locked
  {
    assert RunInv(u, c);
    assert !Holder(u, c);
    assert forall d :: d in u.active ==> !Holder(u, d);
  }

  lemma OwnEventEnabled(w: World, u: World, e: Event)
    requires Alone(w, u, e.cluster) && Enabled(w, e)
    ensures Enabled(u, e)
  {
    var c := e.cluster;
    match e
    case Move(_, _) =>
      if u.active[c].m.st.phase == Approach(TakeLock) {
        FreeAlone(u, c);
      }
    case Begin(_, _) =>
      assert u.active == map[];
    case _ =>
  }

  lemma OwnMove(w: World, u: World, c: string, o: Outcome)
    requires Alone(w, u, c) && Enabled(w, Move(c, o)) && Enabled(u, Move(c, o))
    ensures SameCluster(Moved(w, c, o), Moved(u, c, o), c) && SameRun(Moved(w, c, o), Moved(u, c, o), c)
  {
    assert RunInv(w, c) && RunInv(u, c);
    SameEffect(w.active[c].run, w.active[c].m.st, o, w.clusters[c], w.env, w.flags, u.env, u.flags);
  }

  /** An event changes nothing of another cluster. */
  lemma OthersUntouched(w: World, e: Event, d: string)
    requires Enabled(w, e) && d != e.cluster
    ensures SameCluster(w, Next(w, e), d) && SameRun(w, Next(w, e), d)
  {
  }

  lemma OwnEvent(w: World, u: World, e: Event)
    requires Alone(w, u, e.cluster) && Enabled(w, e)
    ensures Enabled(u, e) && Alone(Next(w, e), Next(u, e), e.cluster)
  {
    OwnEventEnabled(w, u, e);
    NextKeeps(w, e);
    NextKeeps(u, e);
    if e.Move? {
      OwnMove(w, u, e.cluster, e.o);
    }
    forall d | d in Next(u, e).active ensures d == e.cluster {
      if d != e.cluster {
        OthersUntouched(u, e, d);
      }
    }
  }

  lemma OtherEvent(w: World, u: World, c: string, e: Event)
    requires Alone(w, u, c) && Enabled(w, e) && e.cluster != c
    ensures Alone(Next(w, e), u, c)
  {
    NextKeeps(w, e);
    OthersUntouched(w, e, c);
  }

  /** Running the events of one cluster alone is possible and has the same effect on it. */
  lemma {:induction false} Solo(w: World, u: World, c: string, es: seq<Event>)
    requires Alone(w, u, c) && Legal(w, es)
    ensures Legal(u, For(c, es)) && Alone(Exec(w, es), Exec(u, For(c, es)), c)
    ensures forall d :: d != c ==> SameCluster(u, Exec(u, For(c, es)), d)
    decreases |es|
  {
    if es != [] {
      var e := es[0];
      if e.cluster == c {
        OwnEvent(w, u, e);
        var rest := For(c, es[1..]);
        Solo(Next(w, e), Next(u, e), c, es[1..]);
        assert ([e] + rest)[1..] == rest;
        forall d | d != c ensures SameCluster(u, Exec(u, For(c, es)), d) {
          OthersUntouched(u, e, d);
          assert SameCluster(Next(u, e), Exec(Next(u, e), rest), d);
        }
      } else {
        OtherEvent(w, u, c, e);
        Solo(Next(w, e), u, c, es[1..]);
      }
    }
  }

  /** The outcome for every cluster depends only on its own events: two interleavings of the same
      events of each cluster leave the same objects, the same kops state, the same applied
      terraform and the same active runs. */
  lemma OnlyOwnEventsMatter(w: World, es: seq<Event>, fs: seq<Event>)
    requires Idle(w) && Legal(w, es) && Legal(w, fs)
    requires forall c :: For(c, es) == For(c, fs)
    ensures Exec(w, es).clusters == Exec(w, fs).clusters && Exec(w, es).active == Exec(w, fs).active
  {
    forall c
      ensures SameCluster(Exec(w, es), Exec(w, fs), c) && SameRun(Exec(w, es), Exec(w, fs), c)
    {
      Solo(w, w, c, es);
      Solo(w, w, c, fs);
    }
    SameEverywhere(Exec(w, es), Exec(w, fs));
  }

  lemma SameEverywhere(w: World, u: World)
    requires forall c :: SameCluster(w, u, c) && SameRun(w, u, c)
    ensures w.clusters == u.clusters && w.active == u.active
  {
    forall c
      ensures c in w.clusters <==> c in u.clusters
      ensures c in w.active <==> c in u.active
    {
      assert SameCluster(w, u, c) && SameRun(w, u, c);
    }
    assert forall c :: c in w.clusters ==> SameCluster(w, u, c);
    assert forall c :: c in w.active ==> SameRun(w, u, c);
  }

  lemma {:induction false} ExecOfConcat(w: World, a: seq<Event>, b: seq<Event>)
    requires Legal(w, a) && Legal(Exec(w, a), b)
    ensures Legal(w, a + b) && Exec(w, a + b) == Exec(Exec(w, a), b)
    decreases |a|
  {
    if a == [] {
      assert a + b == b;
    } else {
      assert (a + b)[1..] == a[1..] + b;
      ExecOfConcat(Next(w, a[0]), a[1..], b);
    }
  }

  lemma OneInTurn(w: World, u: World, c: string, es: seq<Event>)
    requires Idle(w) && Legal(w, es) && Exec(w, es).active == map[]
    requires FleetInv(u) && u.active == map[] && u.workers > 0 && SameCluster(w, u, c)
    ensures Legal(u, For(c, es))
    ensures var v := Exec(u, For(c, es));
            FleetInv(v) && v.active == map[] && v.workers > 0 && SameCluster(Exec(w, es), v, c)
    ensures AgreeOff(u, Exec(u, For(c, es)), [c])
  {
    Solo(w, u, c, es);
    var v := Exec(u, For(c, es));
    assert SameRun(Exec(w, es), v, c);
    assert v.active == map[];
  }

  predicate AgreeOn(w: World, u: World, cs: seq<string>) {
    forall c :: c in cs ==> SameCluster(w, u, c)
  }

  ghost predicate AgreeOff(w: World, u: World, cs: seq<string>) {
    forall c :: c !in cs ==> SameCluster(w, u, c)
  }

  lemma FirstAgrees(w: World, u: World, v: World, cs: seq<string>)
    requires cs != [] && Distinct(cs) && AgreeOn(w, u, cs) && AgreeOff(u, v, [cs[0]])
    ensures AgreeOn(w, v, cs[1..])
  {
    forall d | d in cs[1..] ensures SameCluster(w, v, d) {
      assert SameCluster(w, u, d) && SameCluster(u, v, d);
    }
  }

  lemma AllAgree(w: World, u: World, v: World, x: World, cs: seq<string>)
    requires cs != [] && Distinct(cs)
    requires SameCluster(w, v, cs[0]) && AgreeOff(u, v, [cs[0]])
    requires AgreeOn(w, x, cs[1..]) && AgreeOff(v, x, cs[1..])
    ensures AgreeOn(w, x, cs) && AgreeOff(u, x, cs)
  {
    assert cs == [cs[0]] + cs[1..];
    assert SameCluster(v, x, cs[0]);
    forall c | c !in cs ensures SameCluster(u, x, c) {
      assert SameCluster(u, v, c) && SameCluster(v, x, c);
    }
  }

  lemma {:induction false} EachInTurn(w: World, u: World, cs: seq<string>, es: seq<Event>)
    requires Idle(w) && Legal(w, es) && Exec(w, es).active == map[]
    requires FleetInv(u) && u.active == map[] && u.workers > 0
    requires Distinct(cs) && AgreeOn(w, u, cs)
    ensures Legal(u, OneByOne(cs, es))
    ensures var x := Exec(u, OneByOne(cs, es)); x.active == map[] && AgreeOn(Exec(w, es), x, cs) && AgreeOff(u, x, cs)
    decreases |cs|
  {
    if cs != [] {
      OneInTurn(w, u, cs[0], es);
      var v := Exec(u, For(cs[0], es));
      FirstAgrees(w, u, v, cs);
      EachInTurn(w, v, cs[1..], es);
      ExecOfConcat(u, For(cs[0], es), OneByOne(cs[1..], es));
      AllAgree(Exec(w, es), u, v, Exec(u, OneByOne(cs, es)), cs);
    }
  }

  lemma {:induction false} NoEvents(c: string, es: seq<Event>)
    requires forall e :: e in es ==> e.cluster != c
    ensures For(c, es) == []
  {
    if es != [] {
      NoEvents(c, es[1..]);
    }
  }

  /** Serialisability: when all runs have ended, the clusters are exactly as if they had been
      served one after the other, never two runs at a time, in any order one likes. */
  lemma Serialisable(w: World, es: seq<Event>, cs: seq<string>)
    requires Idle(w) && Legal(w, es) && Exec(w, es).active == map[]
    requires Distinct(cs) && forall e :: e in es ==> e.cluster in cs
    ensures Legal(w, OneByOne(cs, es)) && Exec(w, OneByOne(cs, es)).clusters == Exec(w, es).clusters
  {
    EachInTurn(w, w, cs, es);
    var v := Exec(w, OneByOne(cs, es));
    forall c ensures SameCluster(Exec(w, es), v, c) && SameRun(Exec(w, es), v, c) {
      if c !in cs {
        NoEvents(c, es);
        Solo(w, w, c, es);
        assert SameCluster(w, v, c);
      }
    }
    SameEverywhere(Exec(w, es), v);
  }
}
