/** What a run returns, and the gauge of consecutive errors that the deferred closure keeps for
    every cluster and environment. */
module Metrics {
  import opened Phases
  import opened Runs

  // ---------------------------------------------------------------- when a run returns an error

  /** A failed call that ends the run with its error. */
  predicate Fatal(call: Call) {
    call.outcome.Fail? && !Tolerated(call.phase)
  }

  predicate Harmless(trace: seq<Call>) {
    forall k :: 0 <= k < |trace| ==> !Fatal(trace[k])
  }

  predicate FailedInv(st: Run, past: Past) {
    if st.phase.Closing? || st.phase.Done? then st.failed <==> !Harmless(past.trace)
    else !st.failed && Harmless(past.trace)
  }

  lemma OneMoreHarmless(trace: seq<Call>, call: Call)
    ensures Harmless(trace + [call]) <==> Harmless(trace) && !Fatal(call)
  {
    var all := trace + [call];
    if Harmless(all) {
      assert all[|trace|] == call;
      forall k | 0 <= k < |trace| ensures !Fatal(trace[k]) {
        assert all[k] == trace[k];
      }
    }
  }

  lemma FatalEnds(run: Input, st: Run, o: Outcome, c: Cluster)
    requires Possible(run, st, o, c)
    requires st.phase.Opening? || st.phase.Approach? || st.phase.Section? || st.phase.Building?
    ensures Fatal(Call(st.phase, o)) ==> EndsRun(run, st, o)
    ensures EndsRun(run, st, o) ==> Returns(run, st, o)
  {
  }

  lemma FatalEndsLate(run: Input, st: Run, o: Outcome, c: Cluster)
    requires Possible(run, st, o, c)
    requires st.phase.PoolWork? || st.phase.LowerFlag? || st.phase.Teardown? || st.phase.Applying?
    ensures Fatal(Call(st.phase, o)) ==> EndsRun(run, st, o)
    ensures EndsRun(run, st, o) ==> Returns(run, st, o)
  {
  }

  lemma ClosingStays(run: Input, st: Run, o: Outcome, c: Cluster)
    requires st.phase.Closing?
    ensures EndsRun(run, st, o) && !Returns(run, st, o) && !Fatal(Call(st.phase, o))
  {
  }

  lemma FailedStep(run: Input, st: Run, past: Past, o: Outcome, c: Cluster)
    requires Inv(run, st) && FailedInv(st, past) && Possible(run, st, o, c)
    ensures FailedInv(Step(run, st, o, c), Remember(past, st, o, c))
  {
    OneMoreHarmless(past.trace, Call(st.phase, o));
    match st.phase
    case Closing(_) => ClosingStays(run, st, o, c);
    case Opening(_) => FatalEnds(run, st, o, c);
    case Approach(_) => FatalEnds(run, st, o, c);
    case Section(_) => FatalEnds(run, st, o, c);
    case Building(_) => FatalEnds(run, st, o, c);
    case _ => FatalEndsLate(run, st, o, c);
  }

  lemma {:induction false} FailedHistory(run: Input, ms: seq<Moment>, ts: seq<Turn>, k: nat)
    requires History(run, ms, ts) && k <= |ts|
    ensures FailedInv(ms[k].st, ms[k].past)
  {
    if k > 0 {
      FailedHistory(run, ms, ts, k - 1);
      InvHistory(run, ms, ts, k - 1);
      FailedStep(run, ms[k - 1].st, ms[k - 1].past, ts[k - 1].o, ts[k - 1].c);
    }
  }

  /** A finished run returned an error exactly when some call failed other than those for single
      pools, for the secrets and in the closure. A missing owner, an unfinished scaling group and
      a fetch that finds nothing are no errors. */
  lemma ErrorReturned(run: Input, ms: seq<Moment>, ts: seq<Turn>)
    requires History(run, ms, ts) && ms[|ts|].st.phase == Done
    ensures ms[|ts|].st.failed <==> !Harmless(ms[|ts|].past.trace)
    ensures ms[|ts|].st.failed <==>
      exists call :: call in ms[|ts|].past.trace && call.outcome.Fail?
        && !call.phase.PoolWork? && call.phase != Building(ReconcileSecrets) && !call.phase.Closing?
  {
    FailedHistory(run, ms, ts, |ts|);
  }

  // ---------------------------------------------------------------- the gauge

  datatype Key = Key(cluster: string, environment: string)

  /** The end of one run that registered the closure and was no dry run. */
  datatype Ending = Ending(key: Key, failed: bool)

  class ErrorGauge {
    var values: map<Key, nat>
    ghost var endings: seq<Ending>

    ghost predicate Valid() reads this {
      values == Gauges(endings)
    }

    constructor ()
      ensures Valid() && endings == []
    {
      values, endings := map[], [];
    }

    method Inc(key: Key)
      requires Valid()
      modifies this
      ensures Valid() && endings == old(endings) + [Ending(key, true)]
    {
      endings := endings + [Ending(key, true)];
      values := values[key := (if key in values then values[key] else 0) + 1];
    }

    method SetZero(key: Key)
      requires Valid()
      modifies this
      ensures Valid() && endings == old(endings) + [Ending(key, false)]
    {
      endings := endings + [Ending(key, false)];
      values := values[key := 0];
    }
  }

  function Gauges(endings: seq<Ending>): map<Key, nat> {
    if endings == [] then map[]
    else
      var last := endings[|endings| - 1];
      var before := Gauges(endings[..|endings| - 1]);
      before[last.key := if last.failed then Reading(before, last.key) + 1 else 0]
  }

  function Reading(values: map<Key, nat>, key: Key): nat {
    if key in values then values[key] else 0
  }

  /** The runs of one key, in order; true for an error. */
  function ErrorsOf(endings: seq<Ending>, key: Key): seq<bool> {
    if endings == [] then []
    else if endings[0].key == key then [endings[0].failed] + ErrorsOf(endings[1..], key)
    else ErrorsOf(endings[1..], key)
  }

  /** The last `n` runs returned errors, and the one before, if any, returned none. */
  predicate Streak(errors: seq<bool>, n: nat) {
    && n <= |errors|
    && (forall k :: |errors| - n <= k < |errors| ==> errors[k])
    && (n < |errors| ==> !errors[|errors| - n - 1])
  }

  lemma {:induction false} ErrorsOfConcat(a: seq<Ending>, b: seq<Ending>, key: Key)
    ensures ErrorsOf(a + b, key) == ErrorsOf(a, key) + ErrorsOf(b, key)
  {
    if a == [] {
      assert a + b == b;
    } else {
      assert (a + b)[1..] == a[1..] + b;
      ErrorsOfConcat(a[1..], b, key);
    }
  }

  lemma {:induction false} CountsStreak(endings: seq<Ending>, key: Key)
    ensures Streak(ErrorsOf(endings, key), Reading(Gauges(endings), key))
  {
    if endings != [] {
      var n := |endings| - 1;
      var last, before := endings[n], endings[..n];
      CountsStreak(before, key);
      assert endings == before + [last];
      assert [last][1..] == [];
      ErrorsOfConcat(before, [last], key);
    }
  }

  /** There is only one such number. */
  lemma StreakIsUnique(errors: seq<bool>, m: nat, n: nat)
    requires Streak(errors, m) && m != n
    ensures !Streak(errors, n)
  {
    if n < m {
      assert errors[|errors| - n - 1];
    } else if n <= |errors| {
      assert !errors[|errors| - m - 1];
    }
  }

  /** For every cluster and environment the gauge is the number of error-returning runs since the
      last run that returned no error, and that number alone. */
  lemma GaugeIsStreak(endings: seq<Ending>, key: Key)
    ensures forall n: nat :: Streak(ErrorsOf(endings, key), n) <==> n == Reading(Gauges(endings), key)
  {
    CountsStreak(endings, key);
    forall n: nat | n != Reading(Gauges(endings), key) ensures !Streak(ErrorsOf(endings, key), n) {
      StreakIsUnique(ErrorsOf(endings, key), Reading(Gauges(endings), key), n);
    }
  }
}
