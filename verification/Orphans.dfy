/** Instance groups and the pools they belong to: while the deferred closure can store the
    finalizer of each pool once, no instance group is left behind without a pool that carries it. */
module Orphans {
  import opened Pools
  import opened Phases
  import opened Runs
  import opened Fleet

  predicate Guards(p: Pool, group: string) {
    p.finalizer && p.name == group
  }

  /** Every group has a pool that cannot go away before the controller has dealt with it. */
  predicate Covered(groups: set<string>, pools: seq<Pool>) {
    forall g :: g in groups ==> exists k :: 0 <= k < |pools| && Guards(pools[k], g)
  }

  /** The list in memory accounts for every group, whatever becomes of the stored pools. */
  predicate Working(groups: set<string>, pools: seq<Pool>) {
    UniqueKeys(pools) && Covered(groups, pools)
  }

  /** A stored pool that guards the group and is not going to be saved again. */
  predicate Settled(p: Pool, group: string, pools: seq<Pool>, i: nat) {
    Guards(p, group) && forall k :: i <= k < |pools| ==> !SameKey(pools[k], p)
  }

  /** While the pools are being saved, from the i-th on: a group is accounted for by a pool saved
      already or by one yet to be saved. */
  predicate SavingFrom(groups: set<string>, pools: seq<Pool>, stored: seq<Pool>, i: nat) {
    groups == {}
    || (UniqueKeys(pools)
        && forall g :: g in groups ==>
             (exists k :: 0 <= k < |stored| && Settled(stored[k], g, pools, i))
             || (exists k :: i <= k < |pools| && Guards(pools[k], g)))
  }

  /** Where the list that accounts for the groups is to be found. */
  datatype Stance = AsStored | InMemory | BeingSaved | Wiped

  function StanceOf(run: Input, st: Run): Stance {
    if run.dryRun then AsStored
    else match st.phase
      case Closing(p) => if p.SafetyUnlock? || p.UpdatePools? then BeingSaved else AsStored
      case Done => AsStored
      case Teardown(_) => Wiped
      case LowerFlag => if st.teardown then Wiped else InMemory
      case PoolWork(_) => InMemory
      case _ =>
        if !st.hasList then AsStored
        else if st.teardown && st.phase == Section(ReleaseLock) then Wiped
        else InMemory
  }

  /** How far the saving has come. */
  function SavedUpTo(st: Run): nat {
    if st.phase == Closing(UpdatePools) then st.i else 0
  }

  predicate Accounted(s: Stance, groups: set<string>, pools: seq<Pool>, stored: seq<Pool>, i: nat) {
    match s
    case AsStored => Covered(groups, stored)
    case InMemory => Working(groups, pools)
    case BeingSaved => SavingFrom(groups, pools, stored, i)
    case Wiped => groups == {}
  }

  /** The pool at hand in the loop over the pools. */
  predicate AtHand(st: Run, groups: set<string>) {
    st.phase.PoolWork? ==>
      var p := st.phase.pool;
      && (p.PoolOwners? ==> PoolName(st) !in groups)
      && (p.IgGet? || p.IgCreate? || p.IgUpdate? ==> st.i < |st.pools| && st.pools[st.i].finalizer)
  }

  predicate GroupInv(run: Input, st: Run, groups: set<string>, stored: seq<Pool>) {
    && Accounted(StanceOf(run, st), groups, st.pools, stored, SavedUpTo(st))
    && AtHand(st, groups)
    && (st.hasList || st.pools == [])
  }

  // ---------------------------------------------------------------- lists of pools

  lemma SortedWorks(groups: set<string>, stored: seq<Pool>)
    requires UniqueKeys(stored) && Covered(groups, stored)
    ensures Working(groups, Sort(stored))
  {
    var pools := Sort(stored);
    SortCorrect(stored);
    PermutationMembers(pools, stored);
    UniqueKeysPermuted(stored, pools);
    forall g | g in groups ensures exists k :: 0 <= k < |pools| && Guards(pools[k], g) {
      var j :| 0 <= j < |stored| && Guards(stored[j], g);
      assert stored[j] in pools;
    }
  }

  /** Setting the finalizer of a pool in the list. */
  lemma GuardedWorks(groups: set<string>, pools: seq<Pool>, i: nat)
    requires Working(groups, pools) && i < |pools|
    ensures Working(groups, pools[i := pools[i].(finalizer := true)])
  {
    var after := pools[i := pools[i].(finalizer := true)];
    forall g | g in groups ensures exists k :: 0 <= k < |after| && Guards(after[k], g) {
      var k :| 0 <= k < |pools| && Guards(pools[k], g);
      assert Guards(after[k], g);
    }
  }

  /** Dropping it once the group is gone. */
  lemma ReleasedWorks(groups: set<string>, pools: seq<Pool>, i: nat)
    requires Working(groups, pools) && i < |pools| && pools[i].name !in groups
    ensures Working(groups, pools[i := pools[i].(finalizer := false)])
  {
    var after := pools[i := pools[i].(finalizer := false)];
    forall g | g in groups ensures exists k :: 0 <= k < |after| && Guards(after[k], g) {
      var k :| 0 <= k < |pools| && Guards(pools[k], g);
      assert Guards(after[k], g);
    }
  }

  /** The object of the pool already carries the finalizer in the API server. */
  predicate Stored(p: Pool, stored: seq<Pool>) {
    exists k :: 0 <= k < |stored| && SameKey(stored[k], p) && stored[k].finalizer
  }

  lemma {:induction false} SavedEntry(stored: seq<Pool>, p: Pool, k: nat)
    requires k < |stored| && (SameKey(stored[k], p) ==> p.finalizer)
    ensures var q := if SameKey(stored[k], p) then stored[k].(finalizer := true) else stored[k];
            exists j :: 0 <= j < |SavePool(stored, p)| && SavePool(stored, p)[j] == q
  {
    var q := if SameKey(stored[k], p) then stored[k].(finalizer := true) else stored[k];
    var after := SavePool(stored, p);
    if k == 0 {
      assert after[0] == q;
    } else {
      SavedEntry(stored[1..], p, k - 1);
      var rest := SavePool(stored[1..], p);
      var j :| 0 <= j < |rest| && rest[j] == q;
      assert after == rest || after[1..] == rest;
      assert after == rest ==> after[j] == q;
      assert after != rest ==> after[j + 1] == after[1..][j];
    }
  }

  lemma SaveOne(groups: set<string>, pools: seq<Pool>, stored: seq<Pool>, i: nat)
    requires SavingFrom(groups, pools, stored, i) && i < |pools| && HasKey(stored, pools[i])
    ensures SavingFrom(groups, pools, SavePool(stored, pools[i]), i + 1)
  {
    var after := SavePool(stored, pools[i]);
    forall g | g in groups
      ensures (exists k :: 0 <= k < |after| && Settled(after[k], g, pools, i + 1))
           || (exists k :: i + 1 <= k < |pools| && Guards(pools[k], g))
    {
      if k :| 0 <= k < |stored| && Settled(stored[k], g, pools, i) {
        assert !SameKey(pools[i], stored[k]);
        SavedEntry(stored, pools[i], k);
        var j :| 0 <= j < |after| && after[j] == stored[k];
        assert Settled(after[j], g, pools, i + 1);
      } else {
        var k :| i <= k < |pools| && Guards(pools[k], g);
        if k == i {
          var j :| 0 <= j < |stored| && SameKey(stored[j], pools[i]);
          SavedEntry(stored, pools[i], j);
          var l :| 0 <= l < |after| && after[l] == stored[j].(finalizer := true);
          assert Settled(after[l], g, pools, i + 1);
        }
      }
    }
  }

  /** A save that may fail: the pool guards no group, or its finalizer is stored already. */
  lemma SkipOne(groups: set<string>, pools: seq<Pool>, stored: seq<Pool>, i: nat)
    requires SavingFrom(groups, pools, stored, i) && i < |pools|
    requires pools[i].finalizer && pools[i].name in groups ==> Stored(pools[i], stored)
    ensures SavingFrom(groups, pools, stored, i + 1)
  {
    forall g | g in groups
      ensures (exists k :: 0 <= k < |stored| && Settled(stored[k], g, pools, i + 1))
           || (exists k :: i + 1 <= k < |pools| && Guards(pools[k], g))
    {
      if k :| 0 <= k < |stored| && Settled(stored[k], g, pools, i) {
        assert Settled(stored[k], g, pools, i + 1);
      } else {
        var k :| i <= k < |pools| && Guards(pools[k], g);
        if k == i {
          var j :| 0 <= j < |stored| && SameKey(stored[j], pools[i]) && stored[j].finalizer;
          assert Settled(stored[j], g, pools, i + 1);
        }
      }
    }
  }

  lemma AllSaved(groups: set<string>, pools: seq<Pool>, stored: seq<Pool>, i: nat)
    requires SavingFrom(groups, pools, stored, i) && i >= |pools|
    ensures Covered(groups, stored)
  {
    forall g | g in groups ensures exists k :: 0 <= k < |stored| && Guards(stored[k], g) {
      var k :| 0 <= k < |stored| && Settled(stored[k], g, pools, i);
      assert Guards(stored[k], g);
    }
  }

  lemma StartSaving(groups: set<string>, pools: seq<Pool>, stored: seq<Pool>)
    requires groups == {} || Working(groups, pools) || (pools == [] && Covered(groups, stored))
    ensures SavingFrom(groups, pools, stored, 0)
  {
    if groups != {} && !Working(groups, pools) {
      forall g | g in groups ensures exists k :: 0 <= k < |stored| && Settled(stored[k], g, pools, 0) {
        var k :| 0 <= k < |stored| && Guards(stored[k], g);
        assert Settled(stored[k], g, pools, 0);
      }
    }
  }

  lemma CreatedWorks(groups: set<string>, pools: seq<Pool>, i: nat)
    requires Working(groups, pools) && i < |pools| && pools[i].finalizer
    ensures Working(groups + {pools[i].name}, pools)
  {
    assert Guards(pools[i], pools[i].name);
  }

  // ---------------------------------------------------------------- one step of a run

  /** A failed save of a pool whose group exists and whose finalizer is not stored yet. */
  predicate LosesGuard(st: Run, o: Outcome, cl: Cluster) {
    && st.phase == Closing(UpdatePools) && !o.Ok? && st.i < |st.pools|
    && var p := st.pools[st.i];
       p.finalizer && p.name in cl.groups && !Stored(p, cl.pools)
  }

  /** The steps that touch the groups, the list or the stored pools. */
  predicate Touches(st: Run, o: Outcome) {
    || ReadsList(st, o)
    || st.phase.PoolWork?
    || st.phase == Section(KopsDelete)
    || st.phase == Teardown(Refetch)
    || st.phase == Closing(UpdatePools)
  }

  lemma NothingTouched(run: Input, st: Run, o: Outcome, cl: Cluster)
    requires !Touches(st, o)
    ensures PoolsAfter(run, st, o, cl) == st.pools
    ensures GroupsAfter(st, o, cl.groups) == cl.groups && PoolsSaved(st, o, cl.pools) == cl.pools
  {
  }

  lemma StanceEarly(run: Input, st: Run, o: Outcome, cl: Cluster)
    requires st.phase.Opening? || st.phase.Approach?
    requires Inv(run, st) && Possible(run, st, o, cl)
    ensures var s, t := StanceOf(run, st), StanceOf(run, Step(run, st, o, cl));
            if ReadsList(st, o) && !run.dryRun then s == AsStored && t == InMemory
            else t == s || (t == BeingSaved && NextPhase(run, st, o) == RETURN)
  {
  }

  lemma StanceSection(run: Input, st: Run, o: Outcome, cl: Cluster)
    requires st.phase.Section? && Inv(run, st) && Possible(run, st, o, cl)
    ensures var s, t := StanceOf(run, st), StanceOf(run, Step(run, st, o, cl));
            if ReadsList(st, o) && !run.dryRun then s == AsStored && t == InMemory
            else if Succeeds(st, o, Section(KopsDelete)) && !run.dryRun then t == Wiped
            else t == s || (t == BeingSaved && NextPhase(run, st, o) == RETURN)
  {
  }

  lemma StanceBuilding(run: Input, st: Run, o: Outcome, cl: Cluster)
    requires st.phase.Building? && Inv(run, st) && Possible(run, st, o, cl)
    ensures var s, t := StanceOf(run, st), StanceOf(run, Step(run, st, o, cl));
            t == s || (t == BeingSaved && NextPhase(run, st, o) == RETURN)
  {
  }

  lemma StanceLate(run: Input, st: Run, o: Outcome, cl: Cluster)
    requires st.phase.LowerFlag? || st.phase.Applying? || st.phase.Teardown? || st.phase.PoolWork?
    requires Inv(run, st) && Possible(run, st, o, cl)
    ensures var s, t := StanceOf(run, st), StanceOf(run, Step(run, st, o, cl));
            t == s || (t == BeingSaved && NextPhase(run, st, o) == RETURN)
  {
  }

  /** A return hands the account to the closure; other steps leave it where it is, unless they
      read the list or wipe the cluster. */
  lemma StanceStep(run: Input, st: Run, o: Outcome, cl: Cluster)
    requires !st.phase.Closing? && Inv(run, st) && Possible(run, st, o, cl)
    ensures var s, t := StanceOf(run, st), StanceOf(run, Step(run, st, o, cl));
            if ReadsList(st, o) && !run.dryRun then s == AsStored && t == InMemory
            else if Succeeds(st, o, Section(KopsDelete)) && !run.dryRun then t == Wiped
            else t == s || (t == BeingSaved && NextPhase(run, st, o) == RETURN)
  {
    match st.phase
    case Opening(_) => StanceEarly(run, st, o, cl);
    case Approach(_) => StanceEarly(run, st, o, cl);
    case Section(_) => StanceSection(run, st, o, cl);
    case Building(_) => StanceBuilding(run, st, o, cl);
    case _ => StanceLate(run, st, o, cl);
  }

  /** What one step makes of the account. */
  predicate AccountedAfter(run: Input, st: Run, o: Outcome, cl: Cluster) {
    var next := Step(run, st, o, cl);
    Accounted(StanceOf(run, next), GroupsAfter(st, o, cl.groups), next.pools, PoolsSaved(st, o, cl.pools),
      SavedUpTo(next))
  }

  lemma QuietStep(run: Input, st: Run, o: Outcome, cl: Cluster)
    requires !st.phase.Closing? && !Touches(st, o) && Inv(run, st) && Possible(run, st, o, cl)
    requires GroupInv(run, st, cl.groups, cl.pools)
    ensures AccountedAfter(run, st, o, cl)
  {
    NothingTouched(run, st, o, cl);
    StanceStep(run, st, o, cl);
    if StanceOf(run, Step(run, st, o, cl)) == BeingSaved {
      StartSaving(cl.groups, st.pools, cl.pools);
    }
  }

  lemma ListRead(run: Input, st: Run, o: Outcome, cl: Cluster)
    requires ReadsList(st, o)
    ensures Step(run, st, o, cl).pools == Sort(cl.pools)
    ensures GroupsAfter(st, o, cl.groups) == cl.groups && PoolsSaved(st, o, cl.pools) == cl.pools
  {
  }

  lemma ListStep(run: Input, st: Run, o: Outcome, cl: Cluster)
    requires ReadsList(st, o) && Inv(run, st) && Possible(run, st, o, cl)
    requires GroupInv(run, st, cl.groups, cl.pools) && UniqueKeys(cl.pools)
    ensures AccountedAfter(run, st, o, cl)
  {
    ListRead(run, st, o, cl);
    StanceStep(run, st, o, cl);
    if !run.dryRun {
      SortedWorks(cl.groups, cl.pools);
    }
  }

  lemma WipeStep(run: Input, st: Run, o: Outcome, cl: Cluster)
    requires st.phase == Section(KopsDelete) || st.phase == Teardown(Refetch)
    requires Inv(run, st) && Possible(run, st, o, cl)
    requires GroupInv(run, st, cl.groups, cl.pools)
    ensures AccountedAfter(run, st, o, cl)
  {
    StanceStep(run, st, o, cl);
    if StanceOf(run, Step(run, st, o, cl)) == BeingSaved {
      StartSaving(cl.groups, Step(run, st, o, cl).pools, cl.pools);
    }
  }

  lemma PoolMarked(run: Input, st: Run, o: Outcome, cl: Cluster)
    requires st.phase == PoolWork(NextPool) || (st.phase == PoolWork(PoolOwners) && AtHand(st, cl.groups))
    requires Working(cl.groups, st.pools)
    ensures Working(cl.groups, PoolsAfter(run, st, o, cl))
  {
    if st.i < |st.pools| {
      if st.phase.pool.NextPool? {
        GuardedWorks(cl.groups, st.pools, st.i);
      } else {
        ReleasedWorks(cl.groups, st.pools, st.i);
      }
    }
  }

  lemma GroupsChanged(st: Run, o: Outcome, cl: Cluster)
    requires st.phase == PoolWork(IgCreate) || st.phase == PoolWork(IgDelete)
    requires AtHand(st, cl.groups) && Working(cl.groups, st.pools)
    ensures Working(GroupsAfter(st, o, cl.groups), st.pools)
  {
    if st.phase.pool.IgCreate? {
      CreatedWorks(cl.groups, st.pools, st.i);
    }
  }

  lemma PoolWorking(run: Input, st: Run, o: Outcome, cl: Cluster)
    requires st.phase.PoolWork? && AtHand(st, cl.groups) && Working(cl.groups, st.pools)
    ensures Working(GroupsAfter(st, o, cl.groups), PoolsAfter(run, st, o, cl))
  {
    match st.phase.pool
    case IgDelete => GroupsChanged(st, o, cl);
    case IgCreate => GroupsChanged(st, o, cl);
    case NextPool => PoolMarked(run, st, o, cl);
    case PoolOwners => PoolMarked(run, st, o, cl);
    case _ =>
  }

  lemma PoolStep(run: Input, st: Run, o: Outcome, cl: Cluster)
    requires st.phase.PoolWork? && Inv(run, st) && Possible(run, st, o, cl)
    requires GroupInv(run, st, cl.groups, cl.pools)
    ensures AccountedAfter(run, st, o, cl)
  {
    StanceStep(run, st, o, cl);
    if !run.dryRun {
      PoolWorking(run, st, o, cl);
    }
  }

  lemma PoolStored(run: Input, st: Run, o: Outcome, cl: Cluster)
    requires st.phase == Closing(UpdatePools) && Inv(run, st)
    ensures var more, next := st.i < |st.pools|, Step(run, st, o, cl);
            && next.pools == st.pools && GroupsAfter(st, o, cl.groups) == cl.groups
            && PoolsSaved(st, o, cl.pools) == (if o.Ok? && more then SavePool(cl.pools, st.pools[st.i]) else cl.pools)
            && StanceOf(run, next) == (if more then BeingSaved else AsStored)
            && SavedUpTo(next) == (if more then st.i + 1 else 0)
  {
  }

  lemma SaveStep(run: Input, st: Run, o: Outcome, cl: Cluster)
    requires st.phase == Closing(UpdatePools) && !LosesGuard(st, o, cl) && Inv(run, st) && Possible(run, st, o, cl)
    requires GroupInv(run, st, cl.groups, cl.pools)
    ensures AccountedAfter(run, st, o, cl)
  {
    PoolStored(run, st, o, cl);
    if !o.Ok? {
      SkipOne(cl.groups, st.pools, cl.pools, st.i);
    } else if st.i < |st.pools| {
      SaveOne(cl.groups, st.pools, cl.pools, st.i);
    } else {
      AllSaved(cl.groups, st.pools, cl.pools, st.i);
    }
  }

  lemma ClosingStep(run: Input, st: Run, o: Outcome, cl: Cluster)
    requires st.phase.Closing? && st.phase != Closing(UpdatePools) && Inv(run, st)
    requires GroupInv(run, st, cl.groups, cl.pools)
    ensures AccountedAfter(run, st, o, cl)
  {
    hide Touches, PoolsAfter, GroupsAfter, PoolsSaved, SavingFrom, Covered;
    Untouched(st, o);
    NothingTouched(run, st, o, cl);
  }

  lemma Untouched(st: Run, o: Outcome)
    requires st.phase.Closing? && st.phase != Closing(UpdatePools)
    ensures !Touches(st, o)
  {
  }

  lemma AtHandStep(run: Input, st: Run, o: Outcome, cl: Cluster)
    requires st.phase.PoolWork? && Inv(run, st) && AtHand(st, cl.groups)
    ensures AtHand(Step(run, st, o, cl), GroupsAfter(st, o, cl.groups))
  {
  }

  lemma LoopEntered(run: Input, st: Run, o: Outcome)
    requires !st.phase.PoolWork?
    ensures NextPhase(run, st, o).PoolWork? ==> NextPhase(run, st, o) == PoolWork(NextPool)
  {
  }

  lemma GroupStep(run: Input, st: Run, o: Outcome, cl: Cluster)
    requires Inv(run, st) && Possible(run, st, o, cl)
    requires GroupInv(run, st, cl.groups, cl.pools) && UniqueKeys(cl.pools)
    requires !LosesGuard(st, o, cl)
    ensures GroupInv(run, Step(run, st, o, cl), GroupsAfter(st, o, cl.groups), PoolsSaved(st, o, cl.pools))
  {
    if st.phase.PoolWork? {
      AtHandStep(run, st, o, cl);
    } else {
      LoopEntered(run, st, o);
    }
    if st.phase == Closing(UpdatePools) {
      SaveStep(run, st, o, cl);
    } else if st.phase.Closing? {
      ClosingStep(run, st, o, cl);
    } else if !Touches(st, o) {
      QuietStep(run, st, o, cl);
    } else if ReadsList(st, o) {
      ListStep(run, st, o, cl);
    } else if st.phase.PoolWork? {
      PoolStep(run, st, o, cl);
    } else {
      WipeStep(run, st, o, cl);
    }
  }

  // ---------------------------------------------------------------- keys stay unique

  lemma {:induction false} SavedFrom(pools: seq<Pool>, p: Pool)
    ensures forall q :: q in SavePool(pools, p) ==> HasKey(pools, q)
  {
    if pools != [] {
      SavedFrom(pools[1..], p);
      KeysOfTail(pools);
      assert SameKey(pools[0], pools[0].(finalizer := p.finalizer));
    }
  }

  lemma {:induction false} MarkedFrom(pools: seq<Pool>, p: Pool)
    ensures forall q :: q in MarkPool(pools, p) ==> HasKey(pools, q)
  {
    if pools != [] {
      MarkedFrom(pools[1..], p);
      KeysOfTail(pools);
      assert SameKey(pools[0], pools[0].(deleting := true));
    }
  }

  lemma KeysOfTail(pools: seq<Pool>)
    requires pools != []
    ensures forall q :: HasKey(pools[1..], q) ==> HasKey(pools, q)
    ensures HasKey(pools, pools[0])
  {
    forall q | HasKey(pools[1..], q) ensures HasKey(pools, q) {
      var k :| 0 <= k < |pools[1..]| && SameKey(pools[1..][k], q);
      assert SameKey(pools[k + 1], q);
    }
  }

  lemma UniqueCons(p: Pool, pools: seq<Pool>)
    requires UniqueKeys(pools) && !HasKey(pools, p)
    ensures UniqueKeys([p] + pools)
  {
    var all := [p] + pools;
    forall i, j | 0 <= i < j < |all| ensures !SameKey(all[i], all[j]) {
      assert all[j] == pools[j - 1];
    }
  }

  lemma UniqueHead(pools: seq<Pool>)
    requires UniqueKeys(pools) && pools != []
    ensures UniqueKeys(pools[1..]) && !HasKey(pools[1..], pools[0])
  {
    forall k | 0 <= k < |pools[1..]| ensures !SameKey(pools[1..][k], pools[0]) {
      assert pools[1..][k] == pools[k + 1];
    }
  }

  lemma {:induction false} SaveKeepsUnique(pools: seq<Pool>, p: Pool)
    requires UniqueKeys(pools)
    ensures UniqueKeys(SavePool(pools, p))
  {
    if pools != [] {
      var rest := SavePool(pools[1..], p);
      UniqueHead(pools);
      SaveKeepsUnique(pools[1..], p);
      SavedFrom(pools[1..], p);
      NotAmong(pools[1..], rest, pools[0]);
      UniqueCons(pools[0], rest);
      UniqueCons(pools[0].(finalizer := p.finalizer), rest);
    }
  }

  lemma NotAmong(pools: seq<Pool>, rest: seq<Pool>, p: Pool)
    requires !HasKey(pools, p) && forall q :: q in rest ==> HasKey(pools, q)
    ensures forall q :: SameKey(p, q) ==> !HasKey(rest, q)
  {
    forall q | SameKey(p, q) ensures !HasKey(rest, q) {
      forall k | 0 <= k < |rest| ensures !SameKey(rest[k], q) {
        assert rest[k] in rest;
      }
    }
  }

  lemma {:induction false} MarkKeepsUnique(pools: seq<Pool>, p: Pool)
    requires UniqueKeys(pools)
    ensures UniqueKeys(MarkPool(pools, p))
  {
    if pools != [] {
      var rest := MarkPool(pools[1..], p);
      UniqueHead(pools);
      MarkKeepsUnique(pools[1..], p);
      MarkedFrom(pools[1..], p);
      NotAmong(pools[1..], rest, pools[0]);
      UniqueCons(pools[0], rest);
      UniqueCons(pools[0].(deleting := true), rest);
    }
  }

  /** Marking a pool for deletion takes no guard away. */
  lemma {:induction false} MarkedEntry(pools: seq<Pool>, p: Pool, k: nat)
    requires k < |pools| && pools[k].finalizer
    ensures exists j :: 0 <= j < |MarkPool(pools, p)| && Successor(pools[k], MarkPool(pools, p)[j])
  {
    var after := MarkPool(pools, p);
    if k == 0 {
      assert Successor(pools[0], after[0]);
    } else {
      MarkedEntry(pools[1..], p, k - 1);
      var rest := MarkPool(pools[1..], p);
      var j :| 0 <= j < |rest| && Successor(pools[k], rest[j]);
      assert after == rest || after[1..] == rest;
      assert after != rest ==> after[j + 1] == after[1..][j];
    }
  }

  /** The same object, possibly marked. */
  predicate Successor(p: Pool, q: Pool) {
    SameKey(p, q) && p.finalizer == q.finalizer
  }

  /** Every pool that carries the finalizer is still there. */
  predicate GuardsStay(before: seq<Pool>, after: seq<Pool>) {
    forall k :: 0 <= k < |before| && before[k].finalizer ==>
      exists j :: 0 <= j < |after| && Successor(before[k], after[j])
  }

  lemma MarkingStays(pools: seq<Pool>, p: Pool)
    ensures GuardsStay(pools, MarkPool(pools, p))
  {
    forall k | 0 <= k < |pools| && pools[k].finalizer
      ensures exists j :: 0 <= j < |MarkPool(pools, p)| && Successor(pools[k], MarkPool(pools, p)[j])
    {
      MarkedEntry(pools, p, k);
    }
  }

  lemma CreatingStays(pools: seq<Pool>, p: Pool)
    requires UniqueKeys(pools) && !HasKey(pools, p)
    ensures UniqueKeys(pools + [p]) && GuardsStay(pools, pools + [p])
  {
    var all := pools + [p];
    forall i, j | 0 <= i < j < |all| ensures !SameKey(all[i], all[j]) {
      if j == |pools| {
        assert !SameKey(pools[i], p);
      }
    }
    forall k | 0 <= k < |pools| ensures exists j :: 0 <= j < |all| && Successor(pools[k], all[j]) {
      assert all[k] == pools[k];
    }
  }

  lemma StaysCovered(groups: set<string>, before: seq<Pool>, after: seq<Pool>)
    requires Covered(groups, before) && GuardsStay(before, after)
    ensures Covered(groups, after)
  {
    forall g | g in groups ensures exists j :: 0 <= j < |after| && Guards(after[j], g) {
      var k :| 0 <= k < |before| && Guards(before[k], g);
      var j :| 0 <= j < |after| && Successor(before[k], after[j]);
      assert Guards(after[j], g);
    }
  }

  lemma StaysSaving(groups: set<string>, pools: seq<Pool>, before: seq<Pool>, after: seq<Pool>, i: nat)
    requires SavingFrom(groups, pools, before, i) && GuardsStay(before, after)
    ensures SavingFrom(groups, pools, after, i)
  {
    forall g | g in groups
      ensures (exists k :: 0 <= k < |after| && Settled(after[k], g, pools, i))
           || (exists k :: i <= k < |pools| && Guards(pools[k], g))
    {
      if k :| 0 <= k < |before| && Settled(before[k], g, pools, i) {
        var j :| 0 <= j < |after| && Successor(before[k], after[j]);
        assert Settled(after[j], g, pools, i);
      }
    }
  }

  /** Users may create and delete pools in the middle of a run: the account of the run holds. */
  lemma StaysAccounted(run: Input, st: Run, groups: set<string>, before: seq<Pool>, after: seq<Pool>)
    requires GroupInv(run, st, groups, before) && GuardsStay(before, after)
    ensures GroupInv(run, st, groups, after)
  {
    match StanceOf(run, st)
    case AsStored => StaysCovered(groups, before, after);
    case BeingSaved => StaysSaving(groups, st.pools, before, after, SavedUpTo(st));
    case _ =>
  }

  // ---------------------------------------------------------------- every reachable world

  predicate Accountable(w: World, c: string)
    requires c in w.clusters
  {
    var cl := w.clusters[c];
    && UniqueKeys(cl.pools)
    && if c in w.active then GroupInv(w.active[c].run, w.active[c].m.st, cl.groups, cl.pools)
       else Covered(cl.groups, cl.pools)
  }

  predicate AllAccountable(w: World) {
    forall c :: c in w.clusters ==> Accountable(w, c)
  }

  /** No save fails that was to store a new finalizer for a group. */
  predicate SavesSucceed(w: World, es: seq<Event>)
    requires Legal(w, es)
    decreases |es|
  {
    es == [] || (!SaveFails(w, es[0]) && SavesSucceed(Next(w, es[0]), es[1..]))
  }

  predicate SaveFails(w: World, e: Event)
    requires Enabled(w, e)
  {
    e.Move? && LosesGuard(w.active[e.cluster].m.st, e.o, w.clusters[e.cluster])
  }

  lemma KeysAfter(st: Run, o: Outcome, stored: seq<Pool>)
    requires UniqueKeys(stored)
    ensures UniqueKeys(PoolsSaved(st, o, stored))
  {
    if Succeeds(st, o, Closing(UpdatePools)) && st.i < |st.pools| {
      SaveKeepsUnique(stored, st.pools[st.i]);
    }
  }

  lemma AccountAtEnd(run: Input, st: Run, groups: set<string>, stored: seq<Pool>)
    requires GroupInv(run, st, groups, stored) && st.phase.Done?
    ensures Covered(groups, stored)
  {
  }

  lemma MovedParts(w: World, c: string, o: Outcome)
    requires c in w.active && c in w.clusters
    ensures var v, a, cl := Moved(w, c, o), w.active[c], w.clusters[c];
            var next := Step(a.run, a.m.st, o, cl);
            && v.clusters[c].groups == GroupsAfter(a.m.st, o, cl.groups)
            && v.clusters[c].pools == PoolsSaved(a.m.st, o, cl.pools)
            && (c in v.active <==> !next.phase.Done?)
            && (c in v.active ==> v.active[c].run == a.run && v.active[c].m.st == next)
  {
  }

  lemma AccountOfMove(w: World, c: string, o: Outcome)
    requires FleetInv(w) && Enabled(w, Move(c, o)) && Accountable(w, c) && !SaveFails(w, Move(c, o))
    ensures c in Moved(w, c, o).clusters && Accountable(Moved(w, c, o), c)
  {
    assert RunInv(w, c);
    MovedParts(w, c, o);
    var run, st, cl := w.active[c].run, w.active[c].m.st, w.clusters[c];
    KeysAfter(st, o, cl.pools);
    GroupStep(run, st, o, cl);
    if Step(run, st, o, cl).phase.Done? {
      AccountAtEnd(run, Step(run, st, o, cl), GroupsAfter(st, o, cl.groups), PoolsSaved(st, o, cl.pools));
    }
  }

  lemma AccountOfOther(w: World, e: Event)
    requires Enabled(w, e) && !e.Move? && Accountable(w, e.cluster)
    ensures Accountable(Next(w, e), e.cluster)
  {
    var cl := w.clusters[e.cluster];
    match e
    case CreatePool(c, p) =>
      CreatingStays(cl.pools, p);
      PoolsChanged(w, c, cl.pools + [p]);
    case DeletePool(c, p) =>
      MarkKeepsUnique(cl.pools, p);
      MarkingStays(cl.pools, p);
      PoolsChanged(w, c, MarkPool(cl.pools, p));
    case _ =>
  }

  lemma PoolsChanged(w: World, c: string, pools: seq<Pool>)
    requires c in w.clusters && Accountable(w, c) && UniqueKeys(pools) && GuardsStay(w.clusters[c].pools, pools)
    ensures Accountable(w.(clusters := w.clusters[c := w.clusters[c].(pools := pools)]), c)
  {
    var cl := w.clusters[c];
    if c in w.active {
      StaysAccounted(w.active[c].run, w.active[c].m.st, cl.groups, cl.pools, pools);
    } else {
      StaysCovered(cl.groups, cl.pools, pools);
    }
  }

  lemma AccountElsewhere(w: World, e: Event, d: string)
    requires Enabled(w, e) && d != e.cluster && d in w.clusters && Accountable(w, d)
    ensures d in Next(w, e).clusters && Accountable(Next(w, e), d)
  {
  }

  lemma {:induction false} AccountKept(w: World, es: seq<Event>)
    requires FleetInv(w) && AllAccountable(w) && Legal(w, es) && SavesSucceed(w, es)
    ensures AllAccountable(Exec(w, es))
    decreases |es|
  {
    if es != [] {
      var e := es[0];
      assert Accountable(w, e.cluster);
      NextKeeps(w, e);
      if e.Move? {
        AccountOfMove(w, e.cluster, e.o);
      } else {
        AccountOfOther(w, e);
      }
      forall d | d in Next(w, e).clusters ensures Accountable(Next(w, e), d) {
        if d != e.cluster {
          AccountElsewhere(w, e, d);
        }
      }
      AccountKept(Next(w, e), es[1..]);
    }
  }

  /** No orphans: as long as no save fails that was to store a new finalizer for an existing group,
      in every reachable world every instance group of a cluster without an active run has a stored
      pool with its name that still carries the finalizer, whatever else fails, whoever creates and
      deletes pools and control planes at any time, and however the runs interleave. */
  lemma NoOrphans(w: World, es: seq<Event>, c: string)
    requires Idle(w) && AllAccountable(w) && Legal(w, es) && SavesSucceed(w, es)
    requires c in Exec(w, es).clusters && c !in Exec(w, es).active
    ensures Covered(Exec(w, es).clusters[c].groups, Exec(w, es).clusters[c].pools)
  {
    AccountKept(w, es);
    assert Accountable(Exec(w, es), c);
  }

  // ---------------------------------------------------------------- finalizers and groups

  /** Where a run takes finalizers off, the groups of these pools are gone; this holds whatever
      happened to the stored pools. */
  predicate ReleaseInv(st: Run, groups: set<string>) {
    match st.phase
    case PoolWork(p) => p.PoolOwners? ==> PoolName(st) !in groups
    case Section(p) => p.ReleaseLock? && st.teardown ==> groups == {}
    case LowerFlag => st.teardown ==> groups == {}
    case Teardown(_) => groups == {}
    case _ => true
  }

  lemma ReleaseBuilding(run: Input, st: Run, o: Outcome, groups: set<string>)
    requires st.phase.Building? && !st.teardown
    ensures ReleaseInv(st.(phase := NextPhase(run, st, o)), groups)
  {
  }

  /** Elsewhere nothing is to be released, and the branch is settled. */
  lemma ReleaseElsewhere(run: Input, st: Run, o: Outcome, cl: Cluster)
    requires st.phase.Opening? || st.phase.Approach? || st.phase.Building? || st.phase.Applying? || st.phase.Closing?
    requires Inv(run, st)
    ensures ReleaseInv(Step(run, st, o, cl), GroupsAfter(st, o, cl.groups))
  {
    hide NextPhase, GroupsAfter;
    if st.phase.Building? {
      ReleaseBuilding(run, st, o, GroupsAfter(st, o, cl.groups));
    } else {
      NoLoop(run, st, o);
    }
  }

  lemma NoLoop(run: Input, st: Run, o: Outcome)
    requires st.phase.Opening? || st.phase.Approach? || st.phase.Applying? || st.phase.Closing?
    ensures var next := NextPhase(run, st, o);
            !next.PoolWork? && !next.LowerFlag? && next != Section(ReleaseLock) && !next.Teardown?
  {
  }

  lemma ReleaseInside(run: Input, st: Run, o: Outcome, cl: Cluster)
    requires st.phase.Section? || st.phase.PoolWork? || st.phase.LowerFlag? || st.phase.Teardown?
    requires Inv(run, st) && Possible(run, st, o, cl) && ReleaseInv(st, cl.groups)
    ensures ReleaseInv(Step(run, st, o, cl), GroupsAfter(st, o, cl.groups))
  {
  }

  lemma ReleaseStep(run: Input, st: Run, o: Outcome, cl: Cluster)
    requires Inv(run, st) && Possible(run, st, o, cl) && ReleaseInv(st, cl.groups)
    ensures ReleaseInv(Step(run, st, o, cl), GroupsAfter(st, o, cl.groups))
  {
    hide ReleaseInv, Inv, Possible, Step, GroupsAfter;
    if st.phase.Section? || st.phase.PoolWork? || st.phase.LowerFlag? || st.phase.Teardown? {
      ReleaseInside(run, st, o, cl);
    } else if !st.phase.Done? {
      ReleaseElsewhere(run, st, o, cl);
    } else {
      NothingAtEnd(run, st, o, cl);
    }
  }

  lemma NothingAtEnd(run: Input, st: Run, o: Outcome, cl: Cluster)
    requires st.phase.Done?
    ensures !Possible(run, st, o, cl)
  {
  }

  predicate Releases(w: World) {
    forall c :: c in w.active && c in w.clusters ==> ReleaseInv(w.active[c].m.st, w.clusters[c].groups)
  }

  lemma ReleasesNext(w: World, e: Event)
    requires FleetInv(w) && Releases(w) && Enabled(w, e)
    ensures Releases(Next(w, e))
  {
    hide ReleaseInv, Possible, Step, GroupsAfter, ClusterAfter;
    var v := Next(w, e);
    forall c | c in v.active && c in v.clusters ensures ReleaseInv(v.active[c].m.st, v.clusters[c].groups) {
      if c == e.cluster {
        OwnReleases(w, e);
      }
    }
  }

  lemma OwnReleases(w: World, e: Event)
    requires FleetInv(w) && Releases(w) && Enabled(w, e)
    ensures var v := Next(w, e);
            e.cluster in v.active ==>
              e.cluster in v.clusters && ReleaseInv(v.active[e.cluster].m.st, v.clusters[e.cluster].groups)
  {
    hide ReleaseInv;
    match e
    case Move(c, o) =>
      assert RunInv(w, c);
      MovedParts(w, c, o);
      ReleaseStep(w.active[c].run, w.active[c].m.st, o, w.clusters[c]);
    case Begin(c, run) => NothingToRelease(run, w.clusters[c].groups);
    case _ =>
  }

  lemma NothingToRelease(run: Input, groups: set<string>)
    ensures ReleaseInv(Start(run), groups)
  {
  }

  lemma {:induction false} ReleasesKept(w: World, es: seq<Event>)
    requires FleetInv(w) && Releases(w) && Legal(w, es)
    ensures Releases(Exec(w, es))
    decreases |es|
  {
    hide Releases, FleetInv;
    if es != [] {
      NextKeeps(w, es[0]);
      ReleasesNext(w, es[0]);
      ReleasesKept(Next(w, es[0]), es[1..]);
    }
  }

  /** A run takes the finalizer off a pool only when the instance group of that name is gone:
      deleted for this pool, or with the whole cluster. Nothing is asked of the start, of the
      calls or of the users: it holds also after saves have failed and where groups have lost
      their pools. */
  lemma FinalizerGoesLast(w: World, es: seq<Event>, c: string, o: Outcome, j: nat)
    requires Idle(w) && Legal(w, es) && Enabled(Exec(w, es), Move(c, o))
    requires var v := Exec(w, es);
             var st := v.active[c].m.st;
             var next := Step(v.active[c].run, st, o, v.clusters[c]);
             j < |st.pools| == |next.pools| && !ReadsList(st, o) && st.pools[j].finalizer && !next.pools[j].finalizer
    ensures var v := Exec(w, es);
            v.active[c].m.st.pools[j].name !in v.clusters[c].groups
    ensures Exec(w, es).active[c].m.st.i == j
  {
    hide Legal, Exec, FleetInv, ReleaseInv, Possible, Step, ReadsList;
    Reached(w, es);
    NothingBegun(w);
    ReleasesKept(w, es);
    var v := Exec(w, es);
    DropsAtHand(v.active[c].run, v.active[c].m.st, o, v.clusters[c], j);
  }

  lemma NothingBegun(w: World)
    requires Idle(w)
    ensures FleetInv(w) && Releases(w)
  {
  }

  lemma DropsAtHand(run: Input, st: Run, o: Outcome, cl: Cluster, j: nat)
    requires ReleaseInv(st, cl.groups) && !ReadsList(st, o)
    requires j < |st.pools| == |Step(run, st, o, cl).pools|
    requires st.pools[j].finalizer && !Step(run, st, o, cl).pools[j].finalizer
    ensures st.i == j && st.pools[j].name !in cl.groups
  {
  }
}
