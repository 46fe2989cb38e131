/** The retry loops around terraform in pkg/utils/terraform_utils.go: apply, plan and destroy share
    one loop, init has a second one that may clean the provider cache once. */
module Retry {
  import opened Common
  import opened Text

  /** What the n-th attempt returns: nothing, or an error text. */
  type Answers = nat -> Option<string>

  // ---------------------------------------------------------------- which errors are retried

  const BUSY := "text file busy"
  const CHECKSUMS := "checksums"
  const MISMATCH := "does not match"
  const MISSING := "Required plugins are not installed"
  const CACHED := "cached package for"

  const RETRIABLE := [BUSY, CHECKSUMS, MISMATCH, MISSING, CACHED]

  predicate Mentions(text: string, patterns: seq<string>) {
    exists k :: 0 <= k < |patterns| && Contains(text, patterns[k])
  }

  predicate Retriable(error: Option<string>) {
    error.Some? && Mentions(error.value, RETRIABLE)
  }

  /** An error that points at a damaged provider in the plugin cache. */
  predicate Corruption(text: string) {
    Contains(text, CHECKSUMS) || Contains(text, MISMATCH) || Contains(text, MISSING) || Contains(text, CACHED)
  }

  method IsRetriableError(error: Option<string>) returns (retriable: bool)
    ensures retriable == Retriable(error)
    ensures retriable ==> error.Some?
    ensures error.Some? ==>
      (retriable <==>
         || Contains(error.value, "text file busy") || Contains(error.value, "checksums")
         || Contains(error.value, "does not match") || Contains(error.value, "Required plugins are not installed")
         || Contains(error.value, "cached package for"))
  {
    FivePatterns(error);
    if error.None? {
      return false;
    }
    for i := 0 to |RETRIABLE|
      invariant forall k :: 0 <= k < i ==> !Contains(error.value, RETRIABLE[k])
    {
      if Contains(error.value, RETRIABLE[i]) {
        return true;
      }
    }
    return false;
  }

  lemma FivePatterns(error: Option<string>)
    ensures Retriable(error) <==> error.Some? && (Corruption(error.value) || Contains(error.value, BUSY))
  {
    assert RETRIABLE[0] == BUSY && RETRIABLE[1] == CHECKSUMS && RETRIABLE[2] == MISMATCH;
    assert RETRIABLE[3] == MISSING && RETRIABLE[4] == CACHED;
  }

  /** Whatever makes the init loop clean the cache also makes it try again. */
  lemma CorruptionIsRetriable(text: string)
    ensures Corruption(text) ==> Retriable(Some(text))
    ensures Retriable(Some(text)) <==> Corruption(text) || Contains(text, BUSY)
  {
    FivePatterns(Some(text));
  }

  // ---------------------------------------------------------------- what a retry loop does

  /** The loop may go on after the k-th attempt. */
  predicate GoesOn(answers: Answers, limit: nat, k: nat) {
    Retriable(answers(k)) && k + 1 < limit
  }

  /** The number of attempts: it stops at the first success, at the first error that is not
      retriable and at the limit, whichever comes first. */
  predicate StopsAfter(answers: Answers, limit: nat, attempts: nat) {
    && attempts <= limit
    && (limit > 0 ==> attempts > 0)
    && (forall k :: 0 <= k < attempts - 1 ==> Retriable(answers(k)))
    && (attempts > 0 ==> !GoesOn(answers, limit, attempts - 1))
  }

  /** What is returned: the last answer, or nothing if no attempt was made. */
  function LastAnswer(answers: Answers, attempts: nat): Option<string> {
    if attempts == 0 then None else answers(attempts - 1)
  }

  /** The seconds slept between the attempts when every wait doubles. */
  function Doubled(attempts: nat): nat {
    if attempts == 0 then 0 else Pow2(attempts - 1) - 1
  }

  /** A clean after attempt `k` replaces the wait of that attempt by one second. */
  function Saved(cleaned: Option<nat>): nat {
    match cleaned
    case None => 0
    case Some(k) => Pow2(k) - 1
  }

  /** When the cache is cleaned: after the first corruption error that is followed by another
      attempt. */
  predicate CleansAt(answers: Answers, attempts: nat, cleaned: Option<nat>) {
    match cleaned
    case None => forall k :: 0 <= k < attempts - 1 ==> !Corrupted(answers, k)
    case Some(n) => n < attempts - 1 && Corrupted(answers, n) && forall k :: 0 <= k < n ==> !Corrupted(answers, k)
  }

  predicate Corrupted(answers: Answers, k: nat) {
    answers(k).Some? && Corruption(answers(k).value)
  }

  /** The loop of ApplyTerraform, PlanTerraform and DestroyTerraform. */
  method RunWithRetries(answers: Answers, maxRetries: nat) returns (error: Option<string>, attempts: nat, slept: nat)
    ensures StopsAfter(answers, maxRetries, attempts)
    ensures error == LastAnswer(answers, attempts)
    ensures slept == Doubled(attempts)
  {
    error, attempts, slept := None, 0, 0;
    var i := 0;
    while i < maxRetries
      invariant attempts == i <= maxRetries && (i < maxRetries || maxRetries == 0)
      invariant error == LastAnswer(answers, i)
      invariant forall k :: 0 <= k < i ==> Retriable(answers(k))
      invariant slept == Pow2(i) - 1
    {
      error, attempts := answers(i), attempts + 1;
      if error == None {
        return;
      }
      var retriable := IsRetriableError(error);
      if !retriable {
        break;
      }
      if i >= maxRetries - 1 {
        break;
      }
      slept := slept + Pow2(i);
      i := i + 1;
    }
  }

  /** The loop of initTerraform; `cleaned` is the attempt after which the cache was cleaned. */
  method InitWithRetries(answers: Answers, maxRetries: nat)
    returns (error: Option<string>, attempts: nat, slept: nat, cleaned: Option<nat>)
    ensures StopsAfter(answers, maxRetries, attempts)
    ensures error == LastAnswer(answers, attempts)
    ensures CleansAt(answers, attempts, cleaned)
    ensures slept + Saved(cleaned) == Doubled(attempts)
  {
    error, attempts, slept, cleaned := None, 0, 0, None;
    var cleanedCache := false;
    var i := 0;
    while i < maxRetries
      invariant attempts == i <= maxRetries && (i < maxRetries || maxRetries == 0)
      invariant error == LastAnswer(answers, i)
      invariant forall k :: 0 <= k < i ==> Retriable(answers(k))
      invariant cleanedCache == cleaned.Some?
      invariant CleansAt(answers, i + 1, cleaned)
      invariant slept + Saved(cleaned) == Pow2(i) - 1
    {
      error, attempts := answers(i), attempts + 1;
      if error == None {
        break;
      }
      var retriable := IsRetriableError(error);
      if !retriable {
        break;
      }
      if i >= maxRetries - 1 {
        break;
      }
      if Corruption(error.value) && !cleanedCache {
        cleanedCache, cleaned := true, Some(i);
        slept := slept + 1;
      } else {
        slept := slept + Pow2(i);
      }
      i := i + 1;
    }
  }

  const MAX_RETRIES := 5

  /** ApplyTerraform, PlanTerraform and DestroyTerraform: the command is run only after an init
      that succeeded; `ran` counts its attempts. */
  method Terraform(init: Answers, command: Answers) returns (error: Option<string>, ran: nat, slept: nat)
    ensures exists inits: nat, cleaned: Option<nat> ::
      && StopsAfter(init, MAX_RETRIES, inits) && CleansAt(init, inits, cleaned)
      && if init(inits - 1).Some? then error == init(inits - 1) && ran == 0 && slept + Saved(cleaned) == Doubled(inits)
         else StopsAfter(command, MAX_RETRIES, ran) && error == command(ran - 1)
              && slept + Saved(cleaned) == Doubled(inits) + Doubled(ran)
    ensures ran <= 5 && slept <= 30
  {
    FiveAttempts();
    var inits, cleaned, waited;
    error, inits, slept, cleaned := InitWithRetries(init, MAX_RETRIES);
    SleepIsBounded(init, MAX_RETRIES, inits);
    ran := 0;
    if error.Some? {
      return;
    }
    error, ran, waited := RunWithRetries(command, MAX_RETRIES);
    SleepIsBounded(command, MAX_RETRIES, ran);
    slept := slept + waited;
  }

  // ---------------------------------------------------------------- what follows

  /** How often a command is tried is settled by its answers. */
  lemma AttemptsAreSettled(answers: Answers, limit: nat, m: nat, n: nat)
    requires StopsAfter(answers, limit, m) && m != n
    ensures !StopsAfter(answers, limit, n)
  {
    if 0 < n < m {
      assert GoesOn(answers, limit, n - 1);
    }
    if 0 < m < n <= limit {
      assert !Retriable(answers(m - 1));
    }
  }

  lemma SameAttempts(answers: Answers, limit: nat, m: nat, n: nat)
    requires StopsAfter(answers, limit, m) && StopsAfter(answers, limit, n)
    ensures m == n
  {
    if m != n {
      AttemptsAreSettled(answers, limit, m, n);
    }
  }

  /** Success is returned exactly when some attempt within the limit succeeds and all before it
      fail with retriable errors. */
  lemma SucceedsExactly(answers: Answers, limit: nat, attempts: nat)
    requires limit > 0 && StopsAfter(answers, limit, attempts)
    ensures LastAnswer(answers, attempts) == None
       <==> exists n :: 0 <= n < limit && answers(n) == None && forall k :: 0 <= k < n ==> Retriable(answers(k))
  {
    if n :| 0 <= n < limit && answers(n) == None && forall k :: 0 <= k < n ==> Retriable(answers(k)) {
      assert StopsAfter(answers, limit, n + 1);
      SameAttempts(answers, limit, attempts, n + 1);
    }
  }

  /** The wait after an attempt that is followed by another one, counted from zero. */
  function Wait(k: nat): int {
    Doubled(k + 2) - Doubled(k + 1)
  }

  /** A loop without a second attempt does not wait; the first wait is one second and each further one
      is twice the wait before it. A clean turns the wait in its place into one second. */
  lemma WaitsDouble(k: nat)
    ensures Doubled(0) == Doubled(1) == 0 && Wait(0) == 1
    ensures Wait(k + 1) == 2 * Wait(k)
    ensures Wait(k) - Saved(Some(k)) == 1 && Saved(None) == 0
  {
  }

  lemma FiveAttempts()
    ensures Doubled(5) == 1 + 2 + 4 + 8 && Pow2(MAX_RETRIES - 1) - 1 == 15
  {
    assert Pow2(2) == 4 && Pow2(4) == 16;
  }

  /** However the attempts fail, the waits of one loop add up to at most 2^(limit - 1) - 1 seconds. */
  lemma SleepIsBounded(answers: Answers, limit: nat, attempts: nat)
    requires limit > 0 && StopsAfter(answers, limit, attempts)
    ensures Doubled(attempts) <= Pow2(limit - 1) - 1
  {
    Pow2Grows(attempts - 1, limit - 1);
  }

  /** Cleaning never changes how often init is tried or what it returns; it only shortens one
      wait, so that without a corruption error both loops behave the same. */
  lemma InitBehavesAsApply(answers: Answers, limit: nat, inits: nat, runs: nat, cleaned: Option<nat>)
    requires StopsAfter(answers, limit, inits) && StopsAfter(answers, limit, runs) && CleansAt(answers, inits, cleaned)
    ensures inits == runs && LastAnswer(answers, inits) == LastAnswer(answers, runs)
    ensures Saved(cleaned) <= Doubled(inits)
    ensures (forall k :: 0 <= k < limit ==> !Corrupted(answers, k)) ==> cleaned == None
  {
    SameAttempts(answers, limit, inits, runs);
    if cleaned.Some? {
      Pow2Grows(cleaned.value, inits - 1);
    }
  }

  /** The cache is cleaned at most once, after an attempt that is followed by another one. */
  lemma CleanedOnce(answers: Answers, limit: nat, attempts: nat, m: Option<nat>, n: Option<nat>)
    requires StopsAfter(answers, limit, attempts) && CleansAt(answers, attempts, m) && m != n
    ensures !CleansAt(answers, attempts, n)
    ensures m.Some? ==> Retriable(answers(m.value)) && m.value + 1 < limit
  {
    if m.Some? && n.Some? && n.value < m.value {
      assert !Corrupted(answers, n.value);
    }
  }
}
