/** The other half of module Orphans: which failed save leaves an instance group behind without a
    pool that carries the finalizer, and that it stays behind to the end of the run. */
module LostGuards {
  import opened Common
  import opened Pools
  import opened Phases
  import opened Runs
  import opened Fleet
  import opened Orphans
  import Progress
  import Road
  import Serial

  /** A group that no stored pool guards. */
  predicate Orphaned(group: string, groups: set<string>, stored: seq<Pool>) {
    group in groups && forall k :: 0 <= k < |stored| ==> !Guards(stored[k], group)
  }

  lemma OrphanedIsUncovered(group: string, groups: set<string>, stored: seq<Pool>)
    requires Orphaned(group, groups, stored)
    ensures !Covered(groups, stored)
  {
  }

  /** The step at which it happens: the save of a new finalizer fails, and no other stored pool of
      that name carries one. */
  lemma FailedSaveOrphans(w: World, c: string, o: Outcome)
    requires Enabled(w, Move(c, o)) && SaveFails(w, Move(c, o))
    requires var p := w.active[c].m.st.pools[w.active[c].m.st.i];
             forall k :: 0 <= k < |w.clusters[c].pools| ==> !Guards(w.clusters[c].pools[k], p.name)
    ensures !Covered(Next(w, Move(c, o)).clusters[c].groups, Next(w, Move(c, o)).clusters[c].pools)
  {
    MovedParts(w, c, o);
    var st, cl := w.active[c].m.st, w.clusters[c];
    OrphanedIsUncovered(st.pools[st.i].name, cl.groups, cl.pools);
  }

  // ---------------------------------------------------------------- names stay distinct

  /** Pools of the same name are the same object. */
  predicate NamesAgree(pools: seq<Pool>, stored: seq<Pool>) {
    forall j, k :: 0 <= j < |pools| && 0 <= k < |stored| && pools[j].name == stored[k].name ==>
      SameKey(pools[j], stored[k])
  }

  predicate Named(st: Run, stored: seq<Pool>) {
    && DistinctNames(stored) && DistinctNames(st.pools) && NamesAgree(st.pools, stored)
    && (st.hasList || st.pools == [])
  }

  predicate AllFrom(before: seq<Pool>, after: seq<Pool>) {
    forall q :: q in after ==> HasKey(before, q)
  }

  lemma NamesAreKeys(pools: seq<Pool>)
    requires DistinctNames(pools)
    ensures UniqueKeys(pools)
  {
  }

  lemma DistinctFrom(before: seq<Pool>, after: seq<Pool>)
    requires DistinctNames(before) && UniqueKeys(after) && AllFrom(before, after)
    ensures DistinctNames(after) && NamesAgree(after, before)
  {
    forall i, j | 0 <= i < |after| && 0 <= j < |before| && after[i].name == before[j].name
      ensures SameKey(after[i], before[j])
    {
      assert HasKey(before, after[i]);
    }
    forall i, j | 0 <= i < j < |after| ensures after[i].name != after[j].name {
      assert HasKey(before, after[i]);
      var k :| 0 <= k < |before| && SameKey(before[k], after[i]);
      assert !SameKey(after[i], after[j]);
    }
  }

  lemma AgreeFrom(pools: seq<Pool>, before: seq<Pool>, after: seq<Pool>)
    requires NamesAgree(pools, before) && AllFrom(before, after)
    ensures NamesAgree(pools, after)
  {
    forall j, k | 0 <= j < |pools| && 0 <= k < |after| && pools[j].name == after[k].name
      ensures SameKey(pools[j], after[k])
    {
      assert after[k] in after && HasKey(before, after[k]);
    }
  }

  lemma SortedNames(stored: seq<Pool>)
    requires DistinctNames(stored)
    ensures DistinctNames(Sort(stored)) && NamesAgree(Sort(stored), stored)
  {
    NamesAreKeys(stored);
    SortCorrect(stored);
    UniqueKeysPermuted(stored, Sort(stored));
    PermutationMembers(Sort(stored), stored);
    forall q | q in Sort(stored) ensures HasKey(stored, q) {
      var k :| 0 <= k < |stored| && stored[k] == q;
      assert SameKey(stored[k], q);
    }
    DistinctFrom(stored, Sort(stored));
  }

  lemma {:induction false} LookupKey(pools: seq<Pool>, p: Pool)
    ensures SameKey(Lookup(pools, p), p)
  {
    if pools != [] && !SameKey(pools[0], p) {
      LookupKey(pools[1..], p);
    }
  }

  predicate SameKeys(a: seq<Pool>, b: seq<Pool>) {
    |a| == |b| && forall k :: 0 <= k < |a| ==> SameKey(a[k], b[k])
  }

  lemma ListKeys(run: Input, st: Run, o: Outcome, cl: Cluster)
    requires !ReadsList(st, o)
    ensures SameKeys(PoolsAfter(run, st, o, cl), st.pools)
  {
    if st.i < |st.pools| {
      LookupKey(cl.pools, st.pools[st.i]);
    }
  }

  lemma NamedList(run: Input, st: Run, o: Outcome, cl: Cluster)
    requires Named(st, cl.pools)
    ensures DistinctNames(PoolsAfter(run, st, o, cl)) && NamesAgree(PoolsAfter(run, st, o, cl), cl.pools)
    ensures st.hasList || ReadsList(st, o) || PoolsAfter(run, st, o, cl) == []
  {
    if ReadsList(st, o) {
      SortedNames(cl.pools);
    } else {
      ListKeys(run, st, o, cl);
    }
  }

  lemma NamedStep(run: Input, st: Run, o: Outcome, cl: Cluster)
    requires Named(st, cl.pools)
    ensures Named(Step(run, st, o, cl), PoolsSaved(st, o, cl.pools))
  {
    hide NextPhase, IndexAfter, ReadyAfter, PoolsAfter, NamesAgree, DistinctNames;
    NamedList(run, st, o, cl);
    if Succeeds(st, o, Closing(UpdatePools)) && st.i < |st.pools| {
      var p := st.pools[st.i];
      NamesAreKeys(cl.pools);
      SavedFrom(cl.pools, p);
      SaveKeepsUnique(cl.pools, p);
      DistinctFrom(cl.pools, SavePool(cl.pools, p));
      AgreeFrom(PoolsAfter(run, st, o, cl), cl.pools, SavePool(cl.pools, p));
    }
  }

  // ---------------------------------------------------------------- the rest of the saving

  /** The group is orphaned, and no pool of its name is yet to be saved. */
  predicate LostFor(group: string, st: Run, groups: set<string>, stored: seq<Pool>) {
    && Orphaned(group, groups, stored)
    && st.phase.Closing? && !st.phase.closing.SafetyUnlock?
    && (st.phase.closing.UpdatePools? ==> forall k :: st.i <= k < |st.pools| ==> st.pools[k].name != group)
  }

  predicate Lost(st: Run, groups: set<string>, stored: seq<Pool>) {
    exists group :: group in groups && LostFor(group, st, groups, stored)
  }

  lemma LostNow(run: Input, st: Run, o: Outcome, cl: Cluster)
    requires LosesGuard(st, o, cl) && Named(st, cl.pools) && Possible(run, st, o, cl)
    ensures Lost(Step(run, st, o, cl), GroupsAfter(st, o, cl.groups), PoolsSaved(st, o, cl.pools))
  {
    var p := st.pools[st.i];
    assert forall k :: 0 <= k < |cl.pools| ==> !Guards(cl.pools[k], p.name);
    assert LostFor(p.name, Step(run, st, o, cl), GroupsAfter(st, o, cl.groups), PoolsSaved(st, o, cl.pools));
  }

  lemma {:induction false} SaveElsewhere(stored: seq<Pool>, p: Pool)
    ensures forall q :: q in SavePool(stored, p) ==> q in stored || q.name == p.name
  {
    if stored != [] {
      SaveElsewhere(stored[1..], p);
      assert stored == [stored[0]] + stored[1..];
    }
  }

  lemma OrphanedStays(group: string, groups: set<string>, stored: seq<Pool>, p: Pool)
    requires Orphaned(group, groups, stored) && p.name != group
    ensures Orphaned(group, groups, SavePool(stored, p))
  {
    SaveElsewhere(stored, p);
    var after := SavePool(stored, p);
    forall k | 0 <= k < |after| ensures !Guards(after[k], group) {
      assert after[k] in after;
    }
  }

  lemma LostStep(run: Input, st: Run, o: Outcome, cl: Cluster)
    requires Lost(st, cl.groups, cl.pools) && Possible(run, st, o, cl)
    ensures var next := Step(run, st, o, cl);
            && !Covered(GroupsAfter(st, o, cl.groups), PoolsSaved(st, o, cl.pools))
            && (next.phase.Done? || Lost(next, GroupsAfter(st, o, cl.groups), PoolsSaved(st, o, cl.pools)))
  {
    var g :| g in cl.groups && LostFor(g, st, cl.groups, cl.pools);
    if Succeeds(st, o, Closing(UpdatePools)) && st.i < |st.pools| {
      OrphanedStays(g, cl.groups, cl.pools, st.pools[st.i]);
    }
    assert GroupsAfter(st, o, cl.groups) == cl.groups;
    OrphanedIsUncovered(g, cl.groups, PoolsSaved(st, o, cl.pools));
    var next := Step(run, st, o, cl);
    assert next.phase.Done? || LostFor(g, next, cl.groups, PoolsSaved(st, o, cl.pools));
  }

  // ---------------------------------------------------------------- over a whole run

  /** What is known of a cluster in whose run a guard has been lost, or not. */
  ghost predicate Tracked(w: World, c: string, lost: bool) {
    && c in w.clusters
    && var cl := w.clusters[c];
       if c in w.active then
         Named(w.active[c].m.st, cl.pools)
           && if lost then Lost(w.active[c].m.st, cl.groups, cl.pools) else Accountable(w, c)
       else
         Covered(cl.groups, cl.pools) == !lost
  }

  /** The event is a save of this cluster's run that fails and loses a guard. */
  predicate LosesAt(w: World, e: Event, c: string)
    requires Enabled(w, e)
  {
    e.cluster == c && SaveFails(w, e)
  }

  predicate Loses(w: World, es: seq<Event>, c: string)
    requires Legal(w, es)
    decreases |es|
  {
    es != [] && (LosesAt(w, es[0], c) || Loses(Next(w, es[0]), es[1..], c))
  }

  /** Users leave the pools of the cluster alone, and no other run of it begins. */
  predicate OnlyMoves(es: seq<Event>, c: string) {
    forall e :: e in es && e.cluster == c ==> e.Move?
  }

  lemma TrackedMove(w: World, c: string, o: Outcome, lost: bool)
    requires FleetInv(w) && Enabled(w, Move(c, o)) && Tracked(w, c, lost)
    ensures Tracked(Next(w, Move(c, o)), c, lost || LosesAt(w, Move(c, o), c))
  {
    var run, st, cl := w.active[c].run, w.active[c].m.st, w.clusters[c];
    MovedParts(w, c, o);
    NamedStep(run, st, o, cl);
    hide Named, Lost, LosesGuard, Possible, Step, GroupsAfter, PoolsSaved, Covered;
    if lost {
      LostStep(run, st, o, cl);
    } else if LosesGuard(st, o, cl) {
      LostNow(run, st, o, cl);
      LostIsClosing(run, st, o, cl);
    } else {
      AccountOfMove(w, c, o);
    }
  }

  lemma LostIsClosing(run: Input, st: Run, o: Outcome, cl: Cluster)
    requires LosesGuard(st, o, cl)
    ensures !Step(run, st, o, cl).phase.Done?
  {
  }

  lemma TrackedElsewhere(w: World, e: Event, c: string, lost: bool)
    requires Enabled(w, e) && e.cluster != c && Tracked(w, c, lost)
    ensures Tracked(Next(w, e), c, lost)
  {
    Serial.OthersUntouched(w, e, c);
  }

  lemma {:induction false} TrackedKept(w: World, es: seq<Event>, c: string, lost: bool)
    requires FleetInv(w) && Legal(w, es) && OnlyMoves(es, c) && Tracked(w, c, lost)
    ensures Tracked(Exec(w, es), c, lost || Loses(w, es, c))
    decreases |es|
  {
    hide Tracked, FleetInv, LosesAt;
    if es != [] {
      var e := es[0];
      NextKeeps(w, e);
      if e.cluster == c {
        TrackedMove(w, c, e.o, lost);
        TrackedKept(Next(w, e), es[1..], c, lost || LosesAt(w, e, c));
      } else {
        TrackedElsewhere(w, e, c, lost);
        NotHere(w, e, c);
        TrackedKept(Next(w, e), es[1..], c, lost);
      }
    }
  }

  lemma NotHere(w: World, e: Event, c: string)
    requires Enabled(w, e) && e.cluster != c
    ensures !LosesAt(w, e, c)
  {
  }

  lemma TrackedBegin(w: World, c: string, run: Input)
    requires Enabled(w, Begin(c, run))
    requires DistinctNames(w.clusters[c].pools) && Covered(w.clusters[c].groups, w.clusters[c].pools)
    ensures Tracked(Next(w, Begin(c, run)), c, false)
  {
    NamesAreKeys(w.clusters[c].pools);
  }

  /** Exactly when a run leaves orphans: in any reachable world, a run of a cluster whose pools have
      distinct names and whose groups are all guarded ends with all its groups guarded if and only
      if none of its saves failed that was to store a new finalizer for an existing group. Runs of
      other clusters, and what users do to those, may come in between; only the pools of this
      cluster are left alone. */
  lemma OrphansExactly(w: World, ds: seq<Event>, c: string, run: Input, es: seq<Event>)
    requires Idle(w) && Legal(w, ds) && Enabled(Exec(w, ds), Begin(c, run))
    requires var cl := Exec(w, ds).clusters[c]; DistinctNames(cl.pools) && Covered(cl.groups, cl.pools)
    requires var u := Next(Exec(w, ds), Begin(c, run)); Legal(u, es) && c !in Exec(u, es).active
    requires OnlyMoves(es, c)
    ensures var u := Next(Exec(w, ds), Begin(c, run));
            && c in Exec(u, es).clusters
            && (Covered(Exec(u, es).clusters[c].groups, Exec(u, es).clusters[c].pools) <==> !Loses(u, es, c))
  {
    hide Enabled, Next, Legal, Exec, FleetInv, Loses, OnlyMoves;
    Reached(w, ds);
    NextKeeps(Exec(w, ds), Begin(c, run));
    TrackedBegin(Exec(w, ds), c, run);
    TrackedKept(Next(Exec(w, ds), Begin(c, run)), es, c, false);
  }

  // ---------------------------------------------------------------- it happens

  function Guarded(p: Pool): Pool {
    p.(finalizer := true)
  }

  /** A new pool on the way to the call for the key: from the loop over the pools on it has the
      finalizer in memory, and its group exists. */
  predicate NewPool(st: Run, groups: set<string>, p: Pool) {
    match st.phase
    case PoolWork(q) =>
      if q.NextPool? && st.i == 0 then st.pools == [p]
      else
        && st.pools == [Guarded(p)] && !q.IgDelete? && !q.PoolOwners?
        && st.i == (if q.NextPool? then 1 else 0) && (q.NextPool? || q.IgUpdate? ==> p.name in groups)
    case Section(q) =>
      if q.BuildCloud? then st.pools == [Guarded(p)] && p.name in groups
      else q.RaiseFlag? || q.ListPools? || st.pools == [p]
    case Building(_) => st.pools == [Guarded(p)] && p.name in groups
    case _ => true
  }

  lemma SortOne(p: Pool)
    ensures Sort([p]) == [p]
  {
    assert [p][1..] == [];
    assert Sort([]) == [];
  }

  lemma NewInLoop(run: Input, st: Run, cl: Cluster, p: Pool)
    requires Road.Ordinary(run) && st.phase.PoolWork? && !p.deleting && NewPool(st, cl.groups, p)
    ensures var o := Road.Answer(run, st, cl);
            NewPool(Step(run, st, o, cl), GroupsAfter(st, o, cl.groups), p)
  {
    if st.phase.pool.IgGet? {
      assert PoolAt(st) == Some(Guarded(p));
    }
  }

  /** No pool changes outside the loop, but for the list being read. */
  lemma ListOutside(run: Input, st: Run, o: Outcome, cl: Cluster, p: Pool)
    requires Road.OnRoad(st.phase) && !st.phase.PoolWork? && cl.pools == [p]
    ensures PoolsAfter(run, st, o, cl) == if ReadsList(st, o) then [p] else st.pools
    ensures GroupsAfter(st, o, cl.groups) == cl.groups
  {
    SortOne(p);
  }

  /** All of the next state that matters here. */
  function Ahead(run: Input, st: Run, o: Outcome, pools: seq<Pool>): Run {
    st.(phase := NextPhase(run, st, o), i := IndexAfter(run, st, o), pools := pools)
  }

  lemma NewInSection(run: Input, st: Run, o: Outcome, pools: seq<Pool>, groups: set<string>, p: Pool)
    requires st.phase.Section? && Road.OnRoad(st.phase) && !st.teardown && Road.OnRoad(NextPhase(run, st, o))
    requires NewPool(st, groups, p) && pools == if ReadsList(st, o) then [p] else st.pools
    ensures NewPool(Ahead(run, st, o, pools), groups, p)
  {
  }

  lemma NewInBuilding(run: Input, st: Run, o: Outcome, groups: set<string>, p: Pool)
    requires st.phase.Building? && Road.OnRoad(NextPhase(run, st, o)) && NewPool(st, groups, p)
    ensures NewPool(Ahead(run, st, o, st.pools), groups, p)
  {
  }

  lemma NewBefore(run: Input, st: Run, o: Outcome, pools: seq<Pool>, groups: set<string>, p: Pool)
    requires st.phase.Opening? || st.phase.Approach?
    ensures NewPool(Ahead(run, st, o, pools), groups, p)
  {
  }

  lemma NewAhead(run: Input, st: Run, o: Outcome, cl: Cluster, p: Pool)
    requires NewPool(Ahead(run, st, o, PoolsAfter(run, st, o, cl)), cl.groups, p)
    ensures NewPool(Step(run, st, o, cl), cl.groups, p)
  {
    hide NextPhase, IndexAfter, PoolsAfter, ReadyAfter;
  }

  lemma NewOutside(run: Input, st: Run, o: Outcome, cl: Cluster, p: Pool)
    requires Road.OnRoad(st.phase) && !st.phase.PoolWork? && !st.teardown
    requires NewPool(st, cl.groups, p) && cl.pools == [p]
    requires Road.OnRoad(NextPhase(run, st, o))
    ensures NewPool(Step(run, st, o, cl), GroupsAfter(st, o, cl.groups), p)
  {
    ListOutside(run, st, o, cl, p);
    var pools := PoolsAfter(run, st, o, cl);
    assert st.phase.Building? ==> !ReadsList(st, o);
    assert st.phase.Section? || st.phase.Building? || st.phase.Opening? || st.phase.Approach?;
    hide *;
    if st.phase.Section? {
      NewInSection(run, st, o, pools, cl.groups, p);
    } else if st.phase.Building? {
      NewInBuilding(run, st, o, cl.groups, p);
    } else {
      NewBefore(run, st, o, pools, cl.groups, p);
    }
    NewAhead(run, st, o, cl, p);
  }

  lemma NewDriven(w: World, c: string, p: Pool)
    requires Road.Driving(w, c) && w.active[c].m.st.phase != Building(AddSshKey) && !p.deleting
    requires w.clusters[c].pools == [p] && NewPool(w.active[c].m.st, w.clusters[c].groups, p)
    ensures Enabled(w, Road.Onward(w, c))
    ensures var v := Next(w, Road.Onward(w, c));
            && c in v.active && c in v.clusters && v.clusters[c].pools == [p]
            && NewPool(v.active[c].m.st, v.clusters[c].groups, p)
  {
    var run, st, cl := w.active[c].run, w.active[c].m.st, w.clusters[c];
    var o := Road.Answer(run, st, cl);
    Road.DrivesOn(w, c);
    Road.AnswerEnabled(w, c);
    Road.RoadGoesOn(run, st, cl);
    MovedParts(w, c, o);
    assert PoolsSaved(st, o, cl.pools) == cl.pools;
    hide NewPool, Possible, Step, GroupsAfter, PoolsSaved, NextPhase, Next, FleetInv;
    if st.phase.PoolWork? {
      NewInLoop(run, st, cl, p);
    } else {
      NewOutside(run, st, o, cl, p);
    }
  }

  lemma {:induction false} NewArrives(w: World, c: string, p: Pool)
    requires Road.Driving(w, c) && !p.deleting
    requires w.clusters[c].pools == [p] && NewPool(w.active[c].m.st, w.clusters[c].groups, p)
    ensures Legal(w, Road.Drive(w, c))
    ensures var v := Exec(w, Road.Drive(w, c));
            && c in v.active && c in v.clusters && v.clusters[c].pools == [p]
            && NewPool(v.active[c].m.st, v.clusters[c].groups, p)
    decreases Progress.Stage(w.active[c].m.st.phase), Progress.Within(w.active[c].m.st)
  {
    if w.active[c].m.st.phase != Building(AddSshKey) {
      NewDriven(w, c, p);
      Road.DrivesOn(w, c);
      var e := Road.Onward(w, c);
      var v := Next(w, e);
      hide NewPool, FleetInv, Enabled, Next, Road.Ordinary, Road.OnRoad, Road.Onward;
      NewArrives(v, c, p);
      assert ([e] + Road.Drive(v, c))[1..] == Road.Drive(v, c);
    }
  }

  /** What the closure is about to save, in the world it finds. */
  ghost predicate Holding(w: World, c: string, at: Phase, p: Pool) {
    && Road.Alone(w, c) && w.clusters[c].pools == [p] && p.name in w.clusters[c].groups
    && var a := w.active[c];
       a.m.st.phase == at && a.m.st.pools == [Guarded(p)] && a.m.st.hasList && !a.run.dryRun
       && (at == Closing(UpdatePools) ==> a.m.st.i == 0)
  }

  /** The step between two points on the way from the failed call to the saves. */
  predicate Towards(st: Run, o: Outcome) {
    (st.phase == Building(AddSshKey) && o == Fail) || (st.phase == RETURN && o == Ok)
  }

  lemma TowardsSaving(run: Input, st: Run, o: Outcome, cl: Cluster)
    requires Towards(st, o) && !run.dryRun
    ensures Possible(run, st, o, cl)
    ensures var t := Step(run, st, o, cl);
            && t.phase == (if st.phase == RETURN then Closing(UpdatePools) else RETURN)
            && t.pools == st.pools && t.hasList == st.hasList && (st.phase == RETURN ==> t.i == 0)
            && GroupsAfter(st, o, cl.groups) == cl.groups && PoolsSaved(st, o, cl.pools) == cl.pools
  {
  }

  lemma ComesNearer(w: World, c: string, at: Phase, o: Outcome, p: Pool)
    requires Holding(w, c, at, p) && Towards(w.active[c].m.st, o)
    ensures Enabled(w, Move(c, o))
    ensures Holding(Next(w, Move(c, o)), c, if at == RETURN then Closing(UpdatePools) else RETURN, p)
  {
    var run, st, cl := w.active[c].run, w.active[c].m.st, w.clusters[c];
    hide FleetInv, Next, ClusterAfter, Step, Possible, PoolsSaved, GroupsAfter, Road.Alone;
    TowardsSaving(run, st, o, cl);
    Road.AloneMoves(w, c, o);
    MovedParts(w, c, o);
  }

  lemma SaveLost(w: World, c: string, p: Pool)
    requires Holding(w, c, Closing(UpdatePools), p) && !p.finalizer
    ensures Enabled(w, Move(c, Fail)) && SaveFails(w, Move(c, Fail))
    ensures var v := Next(w, Move(c, Fail)); Road.Alone(v, c) && Tracked(v, c, true)
  {
    var a, cl := w.active[c], w.clusters[c];
    assert Named(a.m.st, cl.pools);
    Road.AloneMoves(w, c, Fail);
    MovedParts(w, c, Fail);
    NamedStep(a.run, a.m.st, Fail, cl);
    LostNow(a.run, a.m.st, Fail, cl);
    LostIsClosing(a.run, a.m.st, Fail, cl);
    hide FleetInv, Next, ClusterAfter, Named, Lost;
  }

  /** At the call for the key the run holds the new pool. */
  lemma HoldsAtKey(w: World, c: string, run: Input, p: Pool)
    requires Idle(w) && Enabled(w, Begin(c, run)) && Road.Ordinary(run) && w.clusters[c].spec.None?
    requires w.clusters[c].pools == [p] && !p.deleting
    ensures Legal(w, Road.Way(w, c, run)) && Holding(Exec(w, Road.Way(w, c, run)), c, Building(AddSshKey), p)
  {
    Road.WayLeads(w, c, run);
    Road.Begins(w, c, run);
    var u := Next(w, Begin(c, run));
    NewArrives(u, c, p);
    var v := Exec(w, Road.Way(w, c, run));
    assert ([Begin(c, run)] + Road.Drive(u, c))[1..] == Road.Drive(u, c);
    assert v == Exec(u, Road.Drive(u, c));
    hide FleetInv, Next, Legal, Exec, Road.Way, Road.Drive, Enabled;
    ListAtKey(v, c);
  }

  lemma ListAtKey(w: World, c: string)
    requires FleetInv(w) && c in w.active && w.active[c].m.st.phase == Building(AddSshKey)
    ensures w.active[c].m.st.hasList
  {
    assert RunInv(w, c);
  }

  /** It happens in every idle world with a new pool of a cluster that is not stored: an ordinary run
      creates the group of the pool, a later call fails, the save of the finalizer fails, and the run
      ends with the group left behind unguarded. */
  lemma OrphanExample(w: World, c: string, run: Input, p: Pool) returns (es: seq<Event>)
    requires Idle(w) && Enabled(w, Begin(c, run)) && Road.Ordinary(run) && w.clusters[c].spec.None?
    requires w.clusters[c].pools == [p] && !p.deleting && !p.finalizer
    ensures Legal(w, es) && Exec(w, es).active == map[]
    ensures c in Exec(w, es).clusters && !Covered(Exec(w, es).clusters[c].groups, Exec(w, es).clusters[c].pools)
  {
    HoldsAtKey(w, c, run, p);
    var way := Road.Way(w, c, run);
    hide Enabled, Next, Legal, Exec, Holding, Tracked, FleetInv, Idle, Covered, Road.Way, Road.Alone, Road.Finish,
      SaveFails;
    var x := Exec(w, way);
    ComesNearer(x, c, Building(AddSshKey), Fail, p);
    Road.OneMore(w, way, Move(c, Fail));
    var y := Next(x, Move(c, Fail));
    ComesNearer(y, c, RETURN, Ok, p);
    Road.OneMore(w, way + [Move(c, Fail)], Move(c, Ok));
    var z := Next(y, Move(c, Ok));
    SaveLost(z, c, p);
    var front := way + [Move(c, Fail)] + [Move(c, Ok)] + [Move(c, Fail)];
    Road.OneMore(w, way + [Move(c, Fail)] + [Move(c, Ok)], Move(c, Fail));
    es := EndsUncovered(w, front, c);
  }

  lemma EndsUncovered(w: World, front: seq<Event>, c: string) returns (es: seq<Event>)
    requires Legal(w, front) && Road.Alone(Exec(w, front), c) && Tracked(Exec(w, front), c, true)
    ensures Legal(w, es) && Exec(w, es).active == map[]
    ensures c in Exec(w, es).clusters && !Covered(Exec(w, es).clusters[c].groups, Exec(w, es).clusters[c].pools)
  {
    var v := Exec(w, front);
    assert FleetInv(v);
    hide Enabled, Next, Legal, Exec, FleetInv, Covered, Loses, Road.Alone, Road.Finish;
    Road.Finished(v, c);
    TrackedKept(v, Road.Finish(v, c), c, true);
    Serial.ExecOfConcat(w, front, Road.Finish(v, c));
    es := front + Road.Finish(v, c);
  }
}
