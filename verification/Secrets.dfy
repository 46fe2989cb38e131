/** The secret reconciler of pkg/utils/kops_utils.go: a delete pass and a copy pass keep the
    kops secret store and the ownership list `Status.Secrets` in step with a Kubernetes Secret. */
module Secrets {
  import opened Common

  type Bytes = seq<bv8>

  /** What the reconciler works on. `made` is history: the names this controller created in the
      store and has not deleted since. */
  datatype State = State(store: map<string, Bytes>, made: set<string>, listed: seq<string>)

  /** How far a call got: it stopped before entry `next` of the old list, or it finished the
      delete pass and stopped after copying the names in `copied`. */
  datatype Progress = Deleting(next: nat) | Copying(copied: set<string>)

  // ---------------------------------------------------------------- specification

  /** The desired names of a list, in list order. */
  function Keep(names: seq<string>, desired: set<string>): seq<string> {
    if names == [] then []
    else if names[0] in desired then [names[0]] + Keep(names[1..], desired)
    else Keep(names[1..], desired)
  }

  function Undesired(names: seq<string>, desired: set<string>): set<string> {
    set n | n in names && n !in desired
  }

  function RemoveFirst(names: seq<string>, name: string): seq<string> {
    if names == [] then []
    else if names[0] == name then names[1..]
    else [names[0]] + RemoveFirst(names[1..], name)
  }

  /** The state once the first `next` entries of the old list have been handled. */
  function DeletedUpTo(s: State, desired: set<string>, next: nat): State
    requires next <= |s.listed|
  {
    var gone := Undesired(s.listed[..next], desired);
    State(s.store - gone, s.made - gone, Keep(s.listed[..next], desired) + s.listed[next..])
  }

  /** The names in `copied`, and no others, were written and listed; the copy pass walks a Go
      map, so the order of the names it appends is not determined. */
  predicate CopiedUpTo(s: State, t: State, desired: map<string, Bytes>, copied: set<string>) {
    && copied <= desired.Keys
    && t.store == s.store + (map k | k in copied :: desired[k])
    && t.made == s.made + (copied - s.store.Keys)
    && s.listed <= t.listed
    && Distinct(t.listed[|s.listed|..])
    && Elements(t.listed[|s.listed|..]) == copied - Elements(s.listed)
  }

  /** `t` is a state in which a call that started in `s` may return. */
  predicate Reached(s: State, t: State, desired: map<string, Bytes>, p: Progress) {
    match p
    case Deleting(next) =>
      next < |s.listed| && s.listed[next] !in desired.Keys && t == DeletedUpTo(s, desired.Keys, next)
    case Copying(copied) =>
      CopiedUpTo(DeletedUpTo(s, desired.Keys, |s.listed|), t, desired, copied)
  }

  predicate Completed(s: State, t: State, desired: map<string, Bytes>) {
    Reached(s, t, desired, Copying(desired.Keys))
  }

  /** How many calls of the store a list asks for in the delete pass. */
  function Deletions(names: seq<string>, desired: set<string>): nat {
    if names == [] then 0
    else
      var n := |names| - 1;
      Deletions(names[..n], desired) + if names[n] in desired then 0 else 1
  }

  /** The names that are stored with another content. */
  function Outdated(store: map<string, Bytes>, desired: map<string, Bytes>): set<string> {
    set n | n in desired && n in store && store[n] != desired[n]
  }

  /** How many calls of the store copying these names takes: one for each, two for an outdated one. */
  function CopiesOf(names: set<string>, outdated: set<string>): nat {
    |names| + |names * outdated|
  }

  /** Those of the whole copy pass. */
  function Copies(store: map<string, Bytes>, desired: map<string, Bytes>): nat {
    CopiesOf(desired.Keys, Outdated(store, desired))
  }

  /** One of the next `n` calls is the one that fails. */
  predicate FailsWithin(failsAt: Option<nat>, calls: nat, n: nat) {
    failsAt.Some? && calls <= failsAt.value < calls + n
  }

  // ---------------------------------------------------------------- implementation

  /** The kops secret store of one cluster. Every call is atomic; `failsAt` is the number of the call
      that fails, without effect, if one does. A pass stops at its first failure. */
  class SecretStore {
    const failsAt: Option<nat>
    var calls: nat
    var secrets: map<string, Bytes>
    ghost var made: set<string>

    constructor (secrets: map<string, Bytes>, failsAt: Option<nat>)
      ensures this.secrets == secrets && this.failsAt == failsAt && calls == 0 && made == {}
    {
      this.secrets, this.failsAt, calls, made := secrets, failsAt, 0, {};
    }

    method DeleteSecret(name: string) returns (err: bool)
      modifies this
      ensures calls == old(calls) + 1 && (err <==> failsAt == Some(old(calls)))
      ensures err ==> secrets == old(secrets) && made == old(made)
      ensures !err ==> secrets == old(secrets) - {name} && made == old(made) - {name}
    {
      err := failsAt == Some(calls);
      calls := calls + 1;
      if !err {
        secrets := secrets - {name};
        made := made - {name};
      }
    }

    method GetOrCreateSecret(name: string, data: Bytes) returns (found: Bytes, created: bool, err: bool)
      modifies this
      ensures calls == old(calls) + 1 && (err <==> failsAt == Some(old(calls)))
      ensures err ==> secrets == old(secrets) && made == old(made)
      ensures !err ==> created == (name !in old(secrets))
      ensures !err && created ==> secrets == old(secrets)[name := data] && made == old(made) + {name}
      ensures !err && !created ==> secrets == old(secrets) && made == old(made) && found == secrets[name]
    {
      err := failsAt == Some(calls);
      calls := calls + 1;
      found, created := data, false;
      if !err {
        if name in secrets {
          found := secrets[name];
        } else {
          created := true;
          secrets := secrets[name := data];
          made := made + {name};
        }
      }
    }

    method ReplaceSecret(name: string, data: Bytes) returns (err: bool)
      modifies this
      ensures calls == old(calls) + 1 && (err <==> failsAt == Some(old(calls)))
      ensures made == old(made)
      ensures secrets == if err then old(secrets) else old(secrets)[name := data]
    {
      err := failsAt == Some(calls);
      calls := calls + 1;
      if !err {
        secrets := secrets[name := data];
      }
    }
  }

  /** The ownership list of one control plane. */
  class ControlPlaneStatus {
    var secrets: seq<string>

    method RemoveSecret(name: string)
      modifies this
      ensures secrets == RemoveFirst(old(secrets), name)
    {
      var index := 0;
      while index < |secrets|
        invariant 0 <= index <= |secrets|
        invariant secrets == old(secrets)
        invariant RemoveFirst(secrets, name) == secrets[..index] + RemoveFirst(secrets[index..], name)
      {
        if secrets[index] == name {
          secrets := secrets[..index] + secrets[index + 1..];
          return;
        }
        index := index + 1;
      }
    }

    method IsSecretListed(name: string) returns (found: bool)
      ensures found == (name in secrets)
    {
      var index := 0;
      while index < |secrets|
        invariant 0 <= index <= |secrets|
        invariant name !in secrets[..index]
      {
        if secrets[index] == name {
          return true;
        }
        index := index + 1;
      }
      return false;
    }
  }

  ghost function Snapshot(store: SecretStore, status: ControlPlaneStatus): State
    reads store, status
  {
    State(store.secrets, store.made, status.secrets)
  }

  /** Deletes the listed secrets that are no longer desired, walking a copy of the list while
      shrinking the list itself. It stops early exactly if one of the deletions it makes fails. */
  method ReconcileSecretsDelete(store: SecretStore, status: ControlPlaneStatus, desired: map<string, Bytes>)
      returns (err: bool, ghost next: nat)
    modifies store, status
    ensures next <= |old(status.secrets)|
    ensures Snapshot(store, status) == DeletedUpTo(old(Snapshot(store, status)), desired.Keys, next)
    ensures err <==> FailsWithin(store.failsAt, old(store.calls), Deletions(old(status.secrets), desired.Keys))
    ensures err ==> next < |old(status.secrets)| && old(status.secrets)[next] !in desired.Keys
    ensures err ==> store.failsAt == Some(old(store.calls) + Deletions(old(status.secrets)[..next], desired.Keys))
    ensures !err ==> next == |old(status.secrets)|
    ensures !err ==> store.calls == old(store.calls) + Deletions(old(status.secrets), desired.Keys)
  {
    hide DeletedUpTo, RemoveFirst, Deletions;
    ghost var start, calls := Snapshot(store, status), store.calls;
    DeleteNothing(start, desired.Keys);
    NoDeletions(status.secrets, desired.Keys);
    err, next := false, 0;
    if |status.secrets| == 0 {
      return;
    }
    var names := status.secrets;
    var index := 0;
    ghost var now := start;
    while index < |names|
      invariant 0 <= index == next <= |names| && names == start.listed
      invariant now == DeletedUpTo(start, desired.Keys, index)
      invariant Snapshot(store, status) == now
      invariant store.calls == calls + Deletions(names[..index], desired.Keys)
      invariant !FailsWithin(store.failsAt, calls, Deletions(names[..index], desired.Keys))
    {
      var name := names[index];
      now := DeleteStep(start, now, desired.Keys, index);
      DeletionsNext(names, desired.Keys, index);
      if name !in desired {
        err := store.DeleteSecret(name);
        if err {
          return;
        }
        status.RemoveSecret(name);
      }
      index := index + 1;
      next := index;
    }
    assert names[..index] == names;
  }

  /** Copies one secret and lists it; an outdated one takes two calls. */
  method CopySecret(store: SecretStore, status: ControlPlaneStatus, name: string, data: Bytes) returns (err: bool)
    modifies store, status
    ensures var n := if name in old(store.secrets) && old(store.secrets)[name] != data then 2 else 1;
            && (err <==> FailsWithin(store.failsAt, old(store.calls), n))
            && (!err ==> store.calls == old(store.calls) + n)
    ensures err ==> Snapshot(store, status) == old(Snapshot(store, status))
    ensures !err ==>
      && store.secrets == old(store.secrets)[name := data]
      && store.made == (if name in old(store.secrets) then old(store.made) else old(store.made) + {name})
      && status.secrets == old(status.secrets) + if name in old(status.secrets) then [] else [name]
  {
    var found, created;
    found, created, err := store.GetOrCreateSecret(name, data);
    if err {
      return;
    }
    if !created && found != data {
      err := store.ReplaceSecret(name, data);
      if err {
        return;
      }
    }
    var known := status.IsSecretListed(name);
    if !known {
      status.secrets := status.secrets + [name];
    }
  }

  /** Copies every desired secret into the store and lists it, in the order of a map walk. It stops
      early exactly if one of the calls it makes fails, and there are as many of them whatever the
      order. */
  method ReconcileSecretsNormal(store: SecretStore, status: ControlPlaneStatus, desired: map<string, Bytes>)
      returns (err: bool, ghost copied: set<string>)
    modifies store, status
    ensures CopiedUpTo(old(Snapshot(store, status)), Snapshot(store, status), desired, copied)
    ensures err <==> FailsWithin(store.failsAt, old(store.calls), Copies(old(store.secrets), desired))
    ensures err <==> copied != desired.Keys
  {
    hide CopiedUpTo, Outdated, CopiesOf;
    ghost var start, calls := Snapshot(store, status), store.calls;
    CopyNothing(start, desired);
    ghost var outdated := Outdated(store.secrets, desired);
    NothingCopied(outdated);
    err, copied := false, {};
    var todo := desired.Keys;
    while todo != {}
      invariant todo <= desired.Keys && copied == desired.Keys - todo
      invariant CopiedUpTo(start, Snapshot(store, status), desired, copied)
      invariant store.calls == calls + CopiesOf(copied, outdated)
      invariant !FailsWithin(store.failsAt, calls, CopiesOf(copied, outdated))
    {
      ghost var before := Snapshot(store, status);
      var name :| name in todo;
      var data := desired[name];
      NotCopiedYet(start, before, desired, copied, name);
      OneMoreCopied(desired.Keys, outdated, copied, name);
      err := CopySecret(store, status, name, data);
      if err {
        return;
      }
      CopyStep(start, before, Snapshot(store, status), desired, copied, name);
      todo := todo - {name};
      copied := copied + {name};
    }
    assert copied == desired.Keys;
  }

  /** The whole reconciliation. A failed read of the Kubernetes Secret (`source` is None) is the
      only error reported: failures of the two passes are swallowed, and a failed delete pass
      skips the copy pass. How far it gets is settled by which call of the store fails; if none of
      those that it makes does, both passes are complete. */
  method ReconcileSecrets(store: SecretStore, status: ControlPlaneStatus, source: Option<map<string, Bytes>>)
      returns (err: bool, ghost p: Progress)
    modifies store, status
    ensures err == source.None?
    ensures source.None? ==> Snapshot(store, status) == old(Snapshot(store, status))
    ensures source.Some? ==> Reached(old(Snapshot(store, status)), Snapshot(store, status), source.value, p)
    ensures source.Some? ==>
      (p.Deleting? <==>
         FailsWithin(store.failsAt, old(store.calls), Deletions(old(status.secrets), source.value.Keys)))
    ensures source.Some? && p.Deleting? ==>
      store.failsAt == Some(old(store.calls) + Deletions(old(status.secrets)[..p.next], source.value.Keys))
    ensures source.Some? ==>
      (p == Copying(source.value.Keys) <==>
         !FailsWithin(store.failsAt, old(store.calls), AllCalls(old(Snapshot(store, status)), source.value)))
    ensures source.Some? && !FailsWithin(store.failsAt, old(store.calls),
                                         AllCalls(old(Snapshot(store, status)), source.value)) ==>
      Completed(old(Snapshot(store, status)), Snapshot(store, status), source.value)
  {
    p := Deleting(0);
    if source.None? {
      return true, p;
    }
    StillOutdated(Snapshot(store, status), source.value);
    var failed; ghost var next, copied;
    failed, next := ReconcileSecretsDelete(store, status, source.value);
    if failed {
      return false, Deleting(next);
    }
    failed, copied := ReconcileSecretsNormal(store, status, source.value);
    return false, Copying(copied);
  }

  /** The calls of a reconciliation in which none fails. */
  function AllCalls(s: State, desired: map<string, Bytes>): nat {
    Deletions(s.listed, desired.Keys) + Copies(s.store, desired)
  }

  // ---------------------------------------------------------------- counting calls

  lemma NoDeletions(names: seq<string>, desired: set<string>)
    ensures Deletions(names[..0], desired) == 0
  {
  }

  lemma CopyNothing(s: State, desired: map<string, Bytes>)
    ensures CopiedUpTo(s, s, desired, {}) && Outdated(s.store, desired) <= desired.Keys
  {
  }

  lemma {:induction false} DeletionsNext(names: seq<string>, desired: set<string>, i: nat)
    requires i < |names|
    ensures Deletions(names[..i + 1], desired) == Deletions(names[..i], desired) + if names[i] in desired then 0 else 1
    ensures Deletions(names[..i + 1], desired) <= Deletions(names, desired)
    decreases |names|
  {
    assert names[..i + 1][..i] == names[..i];
    if i + 1 < |names| {
      var front := names[..|names| - 1];
      assert front[..i + 1] == names[..i + 1];
      DeletionsNext(front, desired, i);
    } else {
      assert names[..i + 1] == names;
    }
  }

  /** Deleting names that are not desired leaves as many outdated ones. */
  lemma StillOutdated(s: State, desired: map<string, Bytes>)
    ensures Outdated(DeletedUpTo(s, desired.Keys, |s.listed|).store, desired) == Outdated(s.store, desired)
  {
  }

  lemma NotCopiedYet(s: State, t: State, desired: map<string, Bytes>, copied: set<string>, name: string)
    requires CopiedUpTo(s, t, desired, copied) && name in desired && name !in copied
    ensures name in Outdated(s.store, desired) <==> name in t.store && t.store[name] != desired[name]
  {
  }

  lemma SmallerSet<T>(a: set<T>, b: set<T>)
    requires a <= b
    ensures |a| <= |b|
  {
    assert b == a + (b - a);
  }

  lemma OneMoreCopied(names: set<string>, outdated: set<string>, copied: set<string>, name: string)
    requires copied <= names && name in names && name !in copied
    ensures CopiesOf(copied + {name}, outdated) ==
      CopiesOf(copied, outdated) + (if name in outdated then 2 else 1) <= CopiesOf(names, outdated)
  {
    SmallerSet(copied + {name}, names);
    SmallerSet((copied + {name}) * outdated, names * outdated);
    if name in outdated {
      assert (copied + {name}) * outdated == copied * outdated + {name};
    } else {
      assert (copied + {name}) * outdated == copied * outdated;
    }
  }

  lemma NothingCopied(outdated: set<string>)
    ensures CopiesOf({}, outdated) == 0
  {
    assert {} * outdated == {};
  }

  // ---------------------------------------------------------------- one step of each pass

  lemma KeepOfConcat(a: seq<string>, b: seq<string>, desired: set<string>)
    ensures Keep(a + b, desired) == Keep(a, desired) + Keep(b, desired)
  {
    if a == [] {
      assert a + b == b;
    } else {
      assert (a + b)[1..] == a[1..] + b;
    }
  }

  lemma KeepElements(names: seq<string>, desired: set<string>)
    ensures Elements(Keep(names, desired)) == Elements(names) * desired
  {
    if names != [] {
      KeepElements(names[1..], desired);
      assert names == [names[0]] + names[1..];
      ElementsOfConcat([names[0]], names[1..]);
      ElementsOfConcat([names[0]], Keep(names[1..], desired));
    }
  }

  lemma RemoveFirstAfter(a: seq<string>, name: string, b: seq<string>)
    requires name !in a
    ensures RemoveFirst(a + [name] + b, name) == a + b
  {
    if a == [] {
      assert a + [name] + b == [name] + b;
    } else {
      RemoveFirstAfter(a[1..], name, b);
      assert (a + [name] + b)[1..] == a[1..] + [name] + b;
      assert a + b == [a[0]] + (a[1..] + b);
    }
  }

  /** Handling one more entry: a kept name changes nothing, and removing the first occurrence of
      an undesired name removes exactly this entry, however often the name is listed. */
  lemma DeleteStep(s: State, t: State, desired: set<string>, next: nat) returns (u: State)
    requires next < |s.listed| && t == DeletedUpTo(s, desired, next)
    ensures u == DeletedUpTo(s, desired, next + 1)
    ensures u == if s.listed[next] in desired then t
                 else State(t.store - {s.listed[next]}, t.made - {s.listed[next]},
                   RemoveFirst(t.listed, s.listed[next]))
  {
    u := DeletedUpTo(s, desired, next + 1);
    var name, head, tail := s.listed[next], s.listed[..next], s.listed[next + 1..];
    assert s.listed[..next + 1] == head + [name];
    assert s.listed[next..] == [name] + tail;
    KeepOfConcat(head, [name], desired);
    assert Keep(head, desired) + ([name] + tail) == Keep(head, desired) + [name] + tail;
    if name in desired {
      assert Keep([name], desired) == [name];
      assert Undesired(head + [name], desired) == Undesired(head, desired);
    } else {
      assert Undesired(head + [name], desired) == Undesired(head, desired) + {name};
      NotKept(head, name, desired);
      hide Keep, Undesired;
      RemoveFirstAfter(Keep(head, desired), name, tail);
    }
  }

  lemma NotKept(names: seq<string>, name: string, desired: set<string>)
    requires name !in desired
    ensures name !in Keep(names, desired)
  {
    KeepElements(names, desired);
    assert name !in Elements(Keep(names, desired));
  }

  lemma DeleteNothing(s: State, desired: set<string>)
    ensures DeletedUpTo(s, desired, 0) == s
  {
    assert Undesired(s.listed[..0], desired) == {};
    assert s.listed[0..] == s.listed;
  }

  lemma CopyStep(s: State, t: State, u: State, desired: map<string, Bytes>, copied: set<string>, name: string)
    requires CopiedUpTo(s, t, desired, copied)
    requires name in desired && name !in copied
    requires u.store == t.store[name := desired[name]]
    requires u.made == if name in t.store then t.made else t.made + {name}
    requires u.listed == if name in t.listed then t.listed else t.listed + [name]
    ensures CopiedUpTo(s, u, desired, copied + {name})
  {
    StoreOneMore(s.store, desired, copied, name);
    ListOneMore(s.listed, t.listed, copied, name);
    assert name in t.store <==> name in s.store;
    hide Distinct, Elements;
    assert u.made == s.made + (copied + {name} - s.store.Keys);
  }

  lemma StoreOneMore(store: map<string, Bytes>, desired: map<string, Bytes>, copied: set<string>, name: string)
    requires copied <= desired.Keys && name in desired
    ensures store + (map k | k in copied + {name} :: desired[k])
         == (store + map k | k in copied :: desired[k])[name := desired[name]]
  {
  }

  /** Listing one more name, unless it is listed already. */
  lemma ListOneMore(before: seq<string>, now: seq<string>, copied: set<string>, name: string)
    requires before <= now && Distinct(now[|before|..]) && name !in copied
    requires Elements(now[|before|..]) == copied - Elements(before)
    ensures var after := if name in now then now else now + [name];
            && before <= after && Distinct(after[|before|..])
            && Elements(after[|before|..]) == copied + {name} - Elements(before)
  {
    var n := |before|;
    assert now == before + now[n..];
    ElementsOfConcat(before, now[n..]);
    assert name in now <==> name in Elements(before) + Elements(now[n..]);
    assert name in now <==> name in Elements(before);
    if name !in now {
      assert (now + [name])[n..] == now[n..] + [name];
      ElementsOfConcat(now[n..], [name]);
      assert name !in now[n..];
    }
  }

  // ---------------------------------------------------------------- what a call achieves

  /** Exactly the positions of the desired entries. */
  predicate PicksAll(names: seq<string>, at: seq<nat>, desired: set<string>) {
    forall k: nat :: k < |names| ==> (names[k] in desired <==> k in at)
  }

  /** The kept list is the order-preserving filter of the old one: a strictly increasing choice
      of positions, exactly those of the desired entries, duplicates included. */
  lemma {:induction false} KeepIsFilter(names: seq<string>, desired: set<string>) returns (at: seq<nat>)
    ensures Increasing(at) && Picks(names, at, Keep(names, desired)) && PicksAll(names, at, desired)
  {
    at := Positions(names, n => n in desired);
    PositionsAre(names, n => n in desired);
    KeptPositions(names, desired);
  }

  lemma {:induction false} KeptPositions(names: seq<string>, desired: set<string>)
    ensures Picks(names, Positions(names, n => n in desired), Keep(names, desired))
  {
    if names != [] {
      var n := |names| - 1;
      KeptPositions(names[..n], desired);
      KeepOfConcat(names[..n], [names[n]], desired);
      assert names == names[..n] + [names[n]];
      assert [names[n]][1..] == [];
    }
  }

  /** Both passes succeeded: the store is the old store without the listed names that are not
      desired, overridden by the desired map; the listed names are exactly the desired ones, the
      surviving entries first and in their old order. */
  lemma CompletedResult(s: State, t: State, desired: map<string, Bytes>)
    requires Completed(s, t, desired)
    ensures t.store == (s.store - Undesired(s.listed, desired.Keys)) + desired
    ensures Elements(t.listed) == desired.Keys
    ensures Keep(s.listed, desired.Keys) <= t.listed
    ensures Distinct(t.listed[|Keep(s.listed, desired.Keys)|..])
    ensures forall n :: n !in desired && n !in s.listed ==> (n in t.store <==> n in s.store)
    ensures forall n :: n in t.store && n !in desired ==> n in s.store && t.store[n] == s.store[n] && n !in s.listed
  {
    var m := DeletedUpTo(s, desired.Keys, |s.listed|);
    assert s.listed[..|s.listed|] == s.listed;
    assert m.listed == Keep(s.listed, desired.Keys);
    KeepElements(s.listed, desired.Keys);
    assert t.listed == m.listed + t.listed[|m.listed|..];
    ElementsOfConcat(m.listed, t.listed[|m.listed|..]);
    assert (map k | k in desired.Keys :: desired[k]) == desired;
  }

  /** Every secret this controller made and has not deleted is listed. */
  predicate Owned(s: State) {
    s.made <= Elements(s.listed)
  }

  lemma DeletedListing(s: State, desired: set<string>, next: nat)
    requires next <= |s.listed|
    ensures Elements(DeletedUpTo(s, desired, next).listed)
         == (Elements(s.listed) * desired) + Elements(s.listed[next..])
  {
    assert s.listed == s.listed[..next] + s.listed[next..];
    ElementsOfConcat(s.listed[..next], s.listed[next..]);
    KeepElements(s.listed[..next], desired);
    ElementsOfConcat(Keep(s.listed[..next], desired), s.listed[next..]);
  }

  /** What a call leaves behind, said name by name. */
  ghost predicate LeftBehind(s: State, t: State, desired: map<string, Bytes>) {
    && (forall n :: n in s.listed && n in desired ==> n in t.listed)
    && (forall n :: n in s.listed && n !in t.listed ==> n !in t.store && n !in t.made)
    && (forall n :: n in t.listed ==> n in s.listed || n in desired)
    && (forall n :: n in t.store && n !in s.listed && n !in t.listed ==> n in s.store && t.store[n] == s.store[n])
    && (forall n :: n in s.store && n !in s.listed && n !in desired ==> n in t.store && t.store[n] == s.store[n])
    && (forall n :: n in t.made ==> n in s.made || (n in t.listed && (n !in s.listed || n in desired)))
  }

  lemma MembersAreElements(names: seq<string>)
    ensures forall n :: n in names <==> n in Elements(names)
  {
  }

  lemma DeletingLeaves(s: State, desired: map<string, Bytes>, next: nat)
    requires next <= |s.listed|
    ensures LeftBehind(s, DeletedUpTo(s, desired.Keys, next), desired)
  {
    var t := DeletedUpTo(s, desired.Keys, next);
    DeletedListing(s, desired.Keys, next);
    Split(s, next);
    MembersAreElements(t.listed);
    MembersAreElements(s.listed);
    MembersAreElements(s.listed[next..]);
    hide Keep, Elements;
  }

  lemma CopiedNames(m: State, t: State, desired: map<string, Bytes>, copied: set<string>)
    requires CopiedUpTo(m, t, desired, copied)
    ensures forall n :: n in t.listed <==> n in m.listed || n in copied
    ensures forall n :: n in t.made <==> n in m.made || (n in copied && n !in m.store)
    ensures forall n :: n in t.store <==> n in m.store || n in copied
    ensures forall n :: n in m.store && n !in copied ==> n in t.store && t.store[n] == m.store[n]
  {
    assert t.listed == m.listed + t.listed[|m.listed|..];
    ElementsOfConcat(m.listed, t.listed[|m.listed|..]);
    MembersAreElements(t.listed);
    MembersAreElements(m.listed);
    hide Elements, Distinct;
  }

  lemma CopyingLeaves(s: State, m: State, t: State, desired: map<string, Bytes>, copied: set<string>)
    requires LeftBehind(s, m, desired) && CopiedUpTo(m, t, desired, copied)
    ensures LeftBehind(s, t, desired)
  {
    assert copied <= desired.Keys;
    CopiedNames(m, t, desired, copied);
    hide CopiedUpTo;
  }

  /** However it ended. */
  lemma ReachedListing(s: State, t: State, desired: map<string, Bytes>, p: Progress)
    requires Reached(s, t, desired, p)
    ensures LeftBehind(s, t, desired)
  {
    hide LeftBehind, CopiedUpTo, DeletedUpTo;
    match p
    case Deleting(next) => DeletingLeaves(s, desired, next);
    case Copying(copied) =>
      DeletingLeaves(s, desired, |s.listed|);
      CopyingLeaves(s, DeletedUpTo(s, desired.Keys, |s.listed|), t, desired, copied);
  }

  lemma Split(s: State, next: nat)
    requires next <= |s.listed|
    ensures forall n :: n in s.listed <==> n in s.listed[..next] || n in s.listed[next..]
  {
    assert s.listed == s.listed[..next] + s.listed[next..];
  }

  /** Ownership survives every call, wherever it stopped, and no listed name is forgotten while
      its secret still exists. */
  lemma OwnershipKept(s: State, t: State, desired: map<string, Bytes>, p: Progress)
    requires Reached(s, t, desired, p) && Owned(s)
    ensures Owned(t)
    ensures forall n :: n in s.listed && n !in desired && n in t.store ==> n in t.listed
  {
    ReachedListing(s, t, desired, p);
    forall n | n in t.made ensures n in Elements(t.listed) {
      if n in s.made {
        assert n in Elements(s.listed);
      }
    }
  }

  // ---------------------------------------------------------------- sequences of calls

  /** One reconciliation: what was desired and how far the call got. */
  datatype Call = Call(desired: map<string, Bytes>, p: Progress)

  /** `states[i + 1]` is reached from `states[i]` by `calls[i]`. */
  predicate History(states: seq<State>, calls: seq<Call>) {
    && |states| == |calls| + 1
    && forall i :: 0 <= i < |calls| ==> Reached(states[i], states[i + 1], calls[i].desired, calls[i].p)
  }

  lemma HistoryPrefix(states: seq<State>, calls: seq<Call>)
    requires History(states, calls) && calls != []
    ensures History(states[..|calls|], calls[..|calls| - 1])
  {
  }

  lemma {:induction false} OwnershipOverHistory(states: seq<State>, calls: seq<Call>)
    requires History(states, calls) && Owned(states[0])
    ensures Owned(states[|calls|])
    decreases |calls|
  {
    if calls != [] {
      var n := |calls|;
      HistoryPrefix(states, calls);
      OwnershipOverHistory(states[..n], calls[..n - 1]);
      OwnershipKept(states[n - 1], states[n], calls[n - 1].desired, calls[n - 1].p);
    }
  }

  /** The store an uninterrupted call aims at, as a function of where it starts. */
  function Target(s: State, desired: map<string, Bytes>): map<string, Bytes> {
    (s.store - Undesired(s.listed, desired.Keys)) + desired
  }

  lemma TargetWhileDeleting(s: State, desired: map<string, Bytes>, next: nat)
    requires next <= |s.listed|
    ensures Target(DeletedUpTo(s, desired.Keys, next), desired) == Target(s, desired)
  {
    var t := DeletedUpTo(s, desired.Keys, next);
    Split(s, next);
    DeletedListing(s, desired.Keys, next);
    assert forall n :: n in t.listed <==> n in Elements(t.listed);
    assert forall n :: n in s.listed[next..] <==> n in Elements(s.listed[next..]);
  }

  lemma TargetWhileCopying(m: State, t: State, desired: map<string, Bytes>, copied: set<string>)
    requires CopiedUpTo(m, t, desired, copied) && Elements(m.listed) <= desired.Keys
    ensures Target(t, desired) == Target(m, desired)
  {
    assert t.listed == m.listed + t.listed[|m.listed|..];
    ElementsOfConcat(m.listed, t.listed[|m.listed|..]);
    assert forall n :: n in t.listed <==> n in Elements(t.listed);
    assert forall n :: n in m.listed <==> n in Elements(m.listed);
    assert Undesired(t.listed, desired.Keys) == {} == Undesired(m.listed, desired.Keys);
  }

  /** Wherever a call stops, the target has not moved. */
  lemma TargetKept(s: State, t: State, desired: map<string, Bytes>, p: Progress)
    requires Reached(s, t, desired, p)
    ensures Target(t, desired) == Target(s, desired)
  {
    match p
    case Deleting(next) =>
      TargetWhileDeleting(s, desired, next);
    case Copying(copied) =>
      var m := DeletedUpTo(s, desired.Keys, |s.listed|);
      TargetWhileDeleting(s, desired, |s.listed|);
      DeletedListing(s, desired.Keys, |s.listed|);
      assert Elements(s.listed[|s.listed|..]) == {};
      TargetWhileCopying(m, t, desired, copied);
  }

  /** Convergence: after any number of calls for the same desired map, each stopping anywhere,
      one that completes leaves the store of a single uninterrupted call. */
  lemma {:induction false} Convergence(states: seq<State>, calls: seq<Call>, desired: map<string, Bytes>, u: State,
    v: State)
    requires History(states, calls)
    requires forall i :: 0 <= i < |calls| ==> calls[i].desired == desired
    requires Completed(states[|calls|], u, desired) && Completed(states[0], v, desired)
    ensures u.store == v.store && Elements(u.listed) == Elements(v.listed)
  {
    CompletedResult(states[|calls|], u, desired);
    CompletedResult(states[0], v, desired);
    TargetOverHistory(states, calls, desired);
  }

  lemma {:induction false} TargetOverHistory(states: seq<State>, calls: seq<Call>, desired: map<string, Bytes>)
    requires History(states, calls)
    requires forall i :: 0 <= i < |calls| ==> calls[i].desired == desired
    ensures Target(states[|calls|], desired) == Target(states[0], desired)
    decreases |calls|
  {
    if calls != [] {
      var n := |calls|;
      HistoryPrefix(states, calls);
      TargetOverHistory(states[..n], calls[..n - 1], desired);
      TargetKept(states[n - 1], states[n], desired, calls[n - 1].p);
    }
  }

  /** A failure-free call is possible from every state, whatever is desired. */
  lemma SomeCompletion(s: State, desired: map<string, Bytes>) returns (t: State)
    ensures Completed(s, t, desired)
  {
    t := DeletedUpTo(s, desired.Keys, |s.listed|);
    var m := t;
    var todo := desired.Keys;
    while todo != {}
      invariant todo <= desired.Keys && CopiedUpTo(m, t, desired, desired.Keys - todo)
    {
      var name :| name in todo;
      var u := State(t.store[name := desired[name]],
                     if name in t.store then t.made else t.made + {name},
                     if name in t.listed then t.listed else t.listed + [name]);
      CopyStep(m, t, u, desired, desired.Keys - todo, name);
      assert desired.Keys - (todo - {name}) == (desired.Keys - todo) + {name};
      t, todo := u, todo - {name};
    }
    assert desired.Keys - {} == desired.Keys;
  }

  /** A further call for the same desired map changes neither store nor list, even if it stops
      half way. */
  lemma Stable(s: State, t: State, u: State, desired: map<string, Bytes>, p: Progress)
    requires Completed(s, t, desired) && Reached(t, u, desired, p)
    ensures u == t
  {
    CompletedResult(s, t, desired);
    assert forall n :: n in t.listed <==> n in Elements(t.listed);
    if p.Copying? {
      StableDelete(t, desired.Keys);
      StableCopy(t, u, desired, p.copied);
    }
  }

  lemma StableDelete(t: State, desired: set<string>)
    requires forall n :: n in t.listed ==> n in desired
    ensures DeletedUpTo(t, desired, |t.listed|) == t
  {
    assert t.listed[..|t.listed|] == t.listed;
    KeepAll(t.listed, desired);
    assert Undesired(t.listed, desired) == {};
  }

  lemma StableCopy(t: State, u: State, desired: map<string, Bytes>, copied: set<string>)
    requires CopiedUpTo(t, u, desired, copied) && Elements(t.listed) == desired.Keys
    requires forall n :: n in desired ==> n in t.store && t.store[n] == desired[n]
    ensures u == t
  {
    assert u.listed == t.listed + u.listed[|t.listed|..];
    assert copied - Elements(t.listed) == {};
    NoElements(u.listed[|t.listed|..]);
    assert copied - t.store.Keys == {};
  }

  lemma KeepAll(names: seq<string>, desired: set<string>)
    requires forall n :: n in names ==> n in desired
    ensures Keep(names, desired) == names
  {
    if names != [] {
      KeepAll(names[1..], desired);
    }
  }

  lemma NoElements(names: seq<string>)
    ensures Elements(names) == {} <==> names == []
  {
    if names != [] {
      assert names[0] in Elements(names);
    }
  }

  /** `n` was never under this controller's management: it was never listed, and its entry in
      the store is the one found at the start. */
  ghost predicate NeverManaged(states: seq<State>, n: string) {
    && (forall i :: 0 <= i < |states| ==> n !in states[i].listed)
    && (forall i :: 0 <= i < |states| ==> n in states[i].store ==>
          n in states[0].store && states[i].store[n] == states[0].store[n])
  }

  lemma {:induction false} ManagedOrListed(states: seq<State>, calls: seq<Call>, n: string)
    requires History(states, calls)
    ensures NeverManaged(states, n)
         || (n in states[|calls|].store ==> n in states[|calls|].listed)
    decreases |calls|
  {
    hide Reached;
    var k := |calls|;
    if k > 0 {
      HistoryPrefix(states, calls);
      ManagedOrListed(states[..k], calls[..k - 1], n);
      ReachedListing(states[k - 1], states[k], calls[k - 1].desired, calls[k - 1].p);
      if NeverManaged(states[..k], n) {
        assert states[..k][k - 1] == states[k - 1] && states[..k][0] == states[0];
        assert n !in states[k - 1].listed;
        if n !in states[k].listed {
          forall i | 0 <= i < |states|
            ensures n !in states[i].listed
            ensures n in states[i].store ==> n in states[0].store && states[i].store[n] == states[0].store[n]
          {
            if i < k {
              assert states[..k][i] == states[i];
            }
          }
        }
      }
    }
  }

  /** No leaks over any history: whatever maps were desired before and wherever those calls
      stopped, after a call that completes, a stored name that is not desired was never managed
      and still holds its first value. In particular nothing this controller made is left. */
  lemma NoLeaks(states: seq<State>, calls: seq<Call>, n: string)
    requires History(states, calls) && calls != []
    requires calls[|calls| - 1].p == Copying(calls[|calls| - 1].desired.Keys)
    requires n in states[|calls|].store && n !in calls[|calls| - 1].desired
    ensures NeverManaged(states, n)
    ensures Owned(states[0]) ==> n !in states[|calls|].made
  {
    var k := |calls|;
    var d := calls[k - 1].desired;
    HistoryPrefix(states, calls);
    ManagedOrListed(states[..k], calls[..k - 1], n);
    CompletedResult(states[k - 1], states[k], d);
    assert n !in Elements(states[k].listed);
    ManagedOrListed(states, calls, n);
    if Owned(states[0]) {
      OwnershipOverHistory(states, calls);
    }
  }

  // ---------------------------------------------------------------- a lost list

  /** Names that a call writes and that are neither stored nor listed beforehand. */
  function New(s: State, copied: set<string>): set<string> {
    set n | n in copied && n !in s.store && n !in s.listed
  }

  /** What a call that got as far as `p` has copied. */
  function CopiedBy(p: Progress): set<string> {
    match p
    case Deleting(_) => {}
    case Copying(copied) => copied
  }

  lemma MadeNow(s: State, t: State, desired: map<string, Bytes>, p: Progress)
    requires Reached(s, t, desired, p)
    ensures forall n :: n in t.made ==> n in s.made || (n in CopiedBy(p) && n !in s.store)
    ensures forall n :: n in CopiedBy(p) && n !in s.store ==> n in t.made
    ensures forall n :: n in s.made && n !in s.listed ==> n in t.made
  {
  }

  /** Ownership rests on the list being saved. If the list is lost when a call ends, wherever it
      stopped, ownership survives exactly if the call had nothing new to write: every name it copied
      was stored or listed before. */
  lemma LostListExactly(s: State, t: State, desired: map<string, Bytes>, p: Progress)
    requires Owned(s) && Reached(s, t, desired, p)
    ensures Owned(t.(listed := s.listed)) <==> New(s, CopiedBy(p)) == {}
  {
    MadeNow(s, t, desired, p);
    var lost := t.(listed := s.listed);
    if Owned(lost) {
      forall n | n in CopiedBy(p) && n !in s.store ensures n in s.listed {
        assert n in t.made && n in Elements(s.listed);
      }
    } else {
      var n :| n in t.made && n !in Elements(s.listed);
      assert n !in s.made;
      assert n in New(s, CopiedBy(p));
    }
  }

  /** For a call that completes this can be read off before the call: every desired name has to be
      stored or listed already. */
  lemma LostListOfCompleted(s: State, t: State, desired: map<string, Bytes>)
    requires Owned(s) && Completed(s, t, desired)
    ensures Owned(t.(listed := s.listed)) <==> forall n :: n in desired ==> n in s.store || n in s.listed
  {
    LostListExactly(s, t, desired, Copying(desired.Keys));
    if New(s, desired.Keys) == {} {
      forall n | n in desired ensures n in s.store || n in s.listed {
        assert n !in New(s, desired.Keys);
      }
    }
  }

  predicate NeverDesired(calls: seq<Call>, n: string) {
    forall i :: 0 <= i < |calls| ==> n !in calls[i].desired
  }

  /** What is stored but not listed is out of reach: as long as nobody desires it, it keeps its value
      and stays unlisted, over any number of calls and wherever they stop. */
  lemma {:induction false} UnlistedStays(states: seq<State>, calls: seq<Call>, n: string)
    requires History(states, calls) && NeverDesired(calls, n)
    requires n in states[0].store && n !in states[0].listed
    ensures n in states[|calls|].store && states[|calls|].store[n] == states[0].store[n]
    ensures n !in states[|calls|].listed
    ensures n in states[0].made ==> n in states[|calls|].made
    decreases |calls|
  {
    hide Reached;
    if calls != [] {
      var k := |calls|;
      HistoryPrefix(states, calls);
      UnlistedStays(states[..k], calls[..k - 1], n);
      UnlistedKept(states[k - 1], states[k], calls[k - 1].desired, calls[k - 1].p, n);
    }
  }

  lemma UnlistedKept(s: State, t: State, desired: map<string, Bytes>, p: Progress, n: string)
    requires Reached(s, t, desired, p) && n in s.store && n !in s.listed && n !in desired
    ensures n in t.store && t.store[n] == s.store[n] && n !in t.listed && (n in s.made ==> n in t.made)
  {
    hide Reached;
    ReachedListing(s, t, desired, p);
    MadeNow(s, t, desired, p);
  }

  /** A lost list leaks for good: a new secret that a call wrote before its list was lost stays in the
      store with its value, made by this controller and owned by nobody, through all later calls that
      do not desire it, complete ones included. */
  lemma LostListLeaks(s: State, t: State, desired: map<string, Bytes>, p: Progress, n: string, states: seq<State>,
    calls: seq<Call>)
    requires Reached(s, t, desired, p) && n in New(s, CopiedBy(p))
    requires History(states, calls) && states[0] == t.(listed := s.listed) && NeverDesired(calls, n)
    ensures var last := states[|calls|];
            && n in last.store && last.store[n] == desired[n]
            && n !in last.listed && n in last.made && !Owned(last)
  {
    MadeNow(s, t, desired, p);
    CopiedStored(s, t, desired, p, n);
    UnlistedStays(states, calls, n);
    assert n !in Elements(states[|calls|].listed);
  }

  lemma CopiedStored(s: State, t: State, desired: map<string, Bytes>, p: Progress, n: string)
    requires Reached(s, t, desired, p) && n in CopiedBy(p)
    ensures n in desired && n in t.store && t.store[n] == desired[n]
  {
  }

  /** An input on which this happens: a first token is written, the list is lost, and a complete call
      that desires nothing leaves the token behind. */
  lemma LostListExample()
    ensures exists a: State, b: State, c: State, d: map<string, Bytes> ::
      && Owned(a) && Completed(a, b, d)
      && Completed(b.(listed := a.listed), c, map[])
      && !Owned(c) && c.made != {}
  {
    var d: map<string, Bytes> := map["token" := [1]];
    var a := State(map[], {}, []);
    var b := State(d, {"token"}, ["token"]);
    assert Elements(b.listed) == {"token"};
    assert DeletedUpTo(a, d.Keys, 0) == a;
    assert b.listed[0..] == ["token"];
    assert d.Keys == {"token"};
    assert (map k | k in d.Keys :: d[k]) == d;
    assert {"token"} - a.store.Keys == {"token"};
    assert CopiedUpTo(a, b, d, d.Keys);
    assert Completed(a, b, d);
    var c := b.(listed := []);
    var none: map<string, Bytes> := map[];
    assert DeletedUpTo(c, none.Keys, 0) == c;
    assert CopiedUpTo(c, c, none, {});
    assert Completed(b.(listed := a.listed), c, none);
    assert "token" in c.made && Elements(c.listed) == {};
    assert !Owned(c);
  }
}
