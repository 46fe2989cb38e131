/** The terraform dependency lock file that all clusters share, kept under the lock of the plugin
    cache: initTerraform, copyFileIfMissing and CleanupTerraformDirectory of
    pkg/utils/terraform_utils.go. */
module LockFile {
  import opened Common

  // ---------------------------------------------------------------- files

  datatype FileError = ReadFailed | WriteFailed | RemoveFailed

  /** The names in the directory that a cleanup leaves alone. */
  const KEPT_PREFIX := ".terraform"
  const LOCK_FILE := ".terraform.lock.hcl"

  predicate HasPrefix(name: string, prefix: string) {
    prefix <= name
  }

  function Kept(files: map<string, string>): map<string, string> {
    map name | name in files && HasPrefix(name, KEPT_PREFIX) :: files[name]
  }

  /** A file after its text was written, if at all. */
  function Overwritten(files: map<string, string>, name: string, text: Option<string>): map<string, string> {
    match text
    case Some(x) => files[name := x]
    case None => files
  }

  /** A place for files; `readable`, `wrote` and `stuck` say how calls on it end. */
  class FileSystem {
    var files: map<string, string>

    /** A write that fails may leave the target with the beginning of the text; it exists from then
        on, so that no later call writes it again. */
    method CopyFileIfMissing(src: string, dst: string, readable: bool, wrote: Written)
      returns (error: Option<FileError>)
      modifies this
      ensures dst in old(files) || (readable && src !in old(files)) ==> files == old(files) && error == None
      ensures dst !in old(files) && !readable ==> files == old(files) && error == Some(ReadFailed)
      ensures dst !in old(files) && readable && src in old(files) ==>
        && files == Overwritten(old(files), dst, WrittenText(old(files)[src], wrote))
        && error == if wrote.Complete? then None else Some(WriteFailed)
    {
      if dst in files {
        return None;
      }
      if !readable {
        return Some(ReadFailed);
      }
      if src !in files {
        return None;
      }
      var data := files[src];
      var text := WrittenText(data, wrote);
      if text.Some? {
        files := files[dst := text.value];
      }
      return if wrote.Complete? then None else Some(WriteFailed);
    }

    /** `names` is the directory as it is read, in any order; the removal of a name in `stuck`
        fails and ends the cleanup. */
    method CleanupTerraformDirectory(names: seq<string>, stuck: set<string>) returns (error: Option<FileError>)
      requires forall name :: name in names <==> name in files
      modifies this
      ensures Kept(files) == Kept(old(files))
      ensures error == None <==> forall name :: name in old(files) && !HasPrefix(name, KEPT_PREFIX) ==> name !in stuck
      ensures error == None ==> files == Kept(old(files))
      ensures LOCK_FILE in old(files) ==> LOCK_FILE in files && files[LOCK_FILE] == old(files)[LOCK_FILE]
    {
      ghost var before := files;
      var i := 0;
      while i < |names|
        invariant 0 <= i <= |names|
        invariant files.Keys <= before.Keys && forall name :: name in files ==> files[name] == before[name]
        invariant forall name :: name in before && HasPrefix(name, KEPT_PREFIX) ==> name in files
        invariant forall k :: 0 <= k < i ==>
          HasPrefix(names[k], KEPT_PREFIX) || (names[k] !in files && names[k] !in stuck)
      {
        if !HasPrefix(names[i], KEPT_PREFIX) {
          if names[i] in stuck {
            return Some(RemoveFailed);
          }
          files := files - {names[i]};
        }
        i := i + 1;
      }
      assert forall name :: name in before ==> HasPrefix(name, KEPT_PREFIX) || (name !in files && name !in stuck);
      return None;
    }
  }

  // ---------------------------------------------------------------- many workers

  /** Where a worker is in initTerraform. Looking whether the target exists, reading the source and
      writing the target are separate steps of each copy. */
  datatype Stage =
    | Outside
    | CheckOwn | ReadShared | WriteOwn(data: string)
    | Init
    | CheckShared | ReadOwn | WriteShared(data: string)
    | Release

  /** `locked` is the lock of the plugin cache; `own` holds the lock files in the clusters'
      directories; `approved` collects the contents that a successful init has left. */
  datatype World = World(
    locked: bool, shared: Option<string>, own: map<string, string>, at: map<string, Stage>, approved: set<string>)

  /** An attempt of init may leave any lock file in the directory of the cluster, or none; while no
      worker is at work there, the directory may lose its file. */
  datatype Event =
    | Enter(worker: string)
    | Advance(worker: string, readable: bool, wrote: Written)
    | TryInit(worker: string, ok: bool, again: bool, left: Option<string>)
    | Lose(worker: string)

  function At(w: World, d: string): Stage {
    if d in w.at then w.at[d] else Outside
  }

  predicate Enabled(w: World, e: Event) {
    match e
    case Enter(d) => At(w, d).Outside? && !w.locked
    case Advance(d, _, _) => !At(w, d).Outside? && !At(w, d).Init?
    case TryInit(d, _, _, _) => At(w, d).Init?
    case Lose(d) => At(w, d).Outside?
  }

  function SetOwn(own: map<string, string>, d: string, content: Option<string>): map<string, string> {
    match content
    case Some(x) => own[d := x]
    case None => own - {d}
  }

  /** The next stage of a worker that is not running init. A copy that fails is only logged. */
  function NextStage(w: World, d: string, readable: bool, wrote: Written): Stage {
    match At(w, d)
    case CheckOwn => if d in w.own then Init else ReadShared
    case ReadShared => if readable && w.shared.Some? then WriteOwn(w.shared.value) else Init
    case WriteOwn(_) => Init
    case CheckShared => if w.shared.Some? then Release else ReadOwn
    case ReadOwn => if readable && d in w.own then WriteShared(w.own[d]) else Release
    case WriteShared(_) => Release
    case Release => Outside
    case other => other
  }

  function Next(w: World, e: Event): World
    requires Enabled(w, e)
  {
    match e
    case Enter(d) => w.(locked := true, at := w.at[d := CheckOwn])
    case Advance(d, readable, wrote) =>
      var s := At(w, d);
      World(
        w.locked && !s.Release?,
        if s.WriteShared? && !wrote.Untouched? then WrittenText(s.data, wrote) else w.shared,
        if s.WriteOwn? then Overwritten(w.own, d, WrittenText(s.data, wrote)) else w.own,
        w.at[d := NextStage(w, d, readable, wrote)],
        w.approved)
    case TryInit(d, ok, again, left) =>
      World(
        w.locked, w.shared, SetOwn(w.own, d, left),
        w.at[d := if ok then CheckShared else if again then Init else Release],
        if ok && left.Some? then w.approved + {left.value} else w.approved)
    case Lose(d) => w.(own := w.own - {d})
  }

  predicate Legal(w: World, es: seq<Event>)
    decreases |es|
  {
    es == [] || (Enabled(w, es[0]) && Legal(Next(w, es[0]), es[1..]))
  }

  function Exec(w: World, es: seq<Event>): World
    requires Legal(w, es)
    decreases |es|
  {
    if es == [] then w else Exec(Next(w, es[0]), es[1..])
  }

  /** What is shared, if anything, is what a successful init left, or the beginning of it. */
  predicate FromInit(w: World) {
    w.shared.Some? ==> exists x :: x in w.approved && w.shared.value <= x
  }

  predicate Whole(w: World) {
    w.shared.Some? ==> w.shared.value in w.approved
  }

  /** Nobody is in initTerraform yet. */
  predicate Quiet(w: World) {
    !w.locked && (forall d :: d in w.at ==> w.at[d].Outside?) && FromInit(w)
  }

  // ---------------------------------------------------------------- what every step keeps

  /** What a worker inside knows. */
  predicate StageInv(w: World, d: string) {
    match At(w, d)
    case ReadShared => d !in w.own
    case WriteOwn(data) => d !in w.own && w.shared == Some(data)
    case CheckShared => d in w.own ==> w.own[d] in w.approved
    case ReadOwn => (d in w.own ==> w.own[d] in w.approved) && w.shared == None
    case WriteShared(data) => data in w.approved && w.shared == None
    case _ => true
  }

  predicate Inside(w: World, d: string) {
    d in w.at && !w.at[d].Outside?
  }

  predicate LockInv(w: World) {
    && (forall c, d :: c in w.at && d in w.at && Inside(w, c) && Inside(w, d) ==> c == d)
    && (w.locked <==> exists d :: d in w.at && Inside(w, d))
  }

  predicate Inv(w: World) {
    && LockInv(w)
    && (forall d :: d in w.at ==> StageInv(w, d))
    && FromInit(w)
  }

  lemma LockKept(w: World, e: Event)
    requires LockInv(w) && Enabled(w, e)
    ensures LockInv(Next(w, e))
  {
    var d, v := e.worker, Next(w, e);
    assert forall c :: c != d ==> (Inside(v, c) <==> Inside(w, c));
    if w.locked {
      var c :| c in w.at && Inside(w, c);
      if Inside(w, d) {
        assert c == d;
      } else {
        assert Inside(v, c);
      }
    }
    if v.locked && Inside(v, d) {
      assert d in v.at;
    }
  }

  lemma StepKeeps(w: World, e: Event)
    requires Inv(w) && Enabled(w, e)
    ensures Inv(Next(w, e))
    ensures w.shared.Some? ==> Next(w, e).shared == w.shared
  {
    var d, v := e.worker, Next(w, e);
    LockKept(w, e);
    assert forall c :: c != d ==> At(v, c) == At(w, c) && (Inside(v, c) <==> Inside(w, c));
    assert e.Enter? || e.Lose? || Inside(w, d);
    forall c | c in v.at ensures StageInv(v, c) {
      if c != d {
        assert StageInv(w, c);
        assert e.Lose? || !Inside(w, c);
      } else if d in w.at {
        assert StageInv(w, d);
      }
    }
    if w.shared.Some? {
      var x :| x in w.approved && w.shared.value <= x;
      assert x in v.approved;
    } else if v.shared.Some? {
      assert StageInv(w, d);
      assert v.shared.value <= At(w, d).data;
    }
  }

  /** The shared file is written, and the write is cut short. */
  predicate Cuts(w: World, e: Event) {
    e.Advance? && At(w, e.worker).WriteShared? && e.wrote.CutShort? && e.wrote.length < |At(w, e.worker).data|
  }

  predicate NeverCut(w: World, es: seq<Event>)
    requires Legal(w, es)
    decreases |es|
  {
    es == [] || (!Cuts(w, es[0]) && NeverCut(Next(w, es[0]), es[1..]))
  }

  lemma StepWhole(w: World, e: Event)
    requires Inv(w) && Enabled(w, e) && Whole(w) && !Cuts(w, e)
    ensures Whole(Next(w, e))
  {
    if e.Advance? {
      assert Inside(w, e.worker) && StageInv(w, e.worker);
    }
  }

  lemma {:induction false} ExecKeeps(w: World, es: seq<Event>)
    requires Inv(w) && Legal(w, es)
    ensures Inv(Exec(w, es))
    ensures w.shared.Some? ==> Exec(w, es).shared == w.shared
    ensures Whole(w) && NeverCut(w, es) ==> Whole(Exec(w, es))
    decreases |es|
  {
    hide Inv, Cuts, Whole;
    if es != [] {
      StepKeeps(w, es[0]);
      ExecKeeps(Next(w, es[0]), es[1..]);
      if Whole(w) && !Cuts(w, es[0]) {
        StepWhole(w, es[0]);
      }
    }
  }

  lemma {:induction false} LegalSplit(w: World, a: seq<Event>, b: seq<Event>)
    requires Legal(w, a + b)
    ensures Legal(w, a) && Legal(Exec(w, a), b) && Exec(w, a + b) == Exec(Exec(w, a), b)
    decreases |a|
  {
    if a == [] {
      assert a + b == b;
    } else {
      assert (a + b)[1..] == a[1..] + b;
      LegalSplit(Next(w, a[0]), a[1..], b);
    }
  }

  /** Written once: over any interleaving of any number of workers, once the shared lock file
      exists it never changes, and its content is one that a successful init left, or the beginning
      of one; it is all of it as long as no write of the shared file is cut short. */
  lemma SharedIsWrittenOnce(w: World, a: seq<Event>, b: seq<Event>)
    requires Quiet(w) && Legal(w, a + b)
    ensures Legal(w, a)
    ensures Exec(w, a).shared.Some? ==> Exec(w, a + b).shared == Exec(w, a).shared
    ensures FromInit(Exec(w, a)) && (Whole(w) && NeverCut(w, a) ==> Whole(Exec(w, a)))
  {
    LegalSplit(w, a, b);
    ExecKeeps(w, a);
    ExecKeeps(Exec(w, a), b);
  }

  /** A write of the shared file that is cut short is never repaired: the file exists from then on,
      and every later worker starts from what there is of it. */
  lemma TornForGood(w: World, a: seq<Event>, e: Event, b: seq<Event>)
    requires Quiet(w) && Legal(w, a) && Enabled(Exec(w, a), e) && Cuts(Exec(w, a), e) && Legal(Next(Exec(w, a), e), b)
    ensures Exec(Next(Exec(w, a), e), b).shared == Some(At(Exec(w, a), e.worker).data[..e.wrote.length])
  {
    hide Quiet, Legal, Exec, Inv, Cuts, NeverCut, Whole;
    NobodyYet(w);
    ExecKeeps(w, a);
    StepKeeps(Exec(w, a), e);
    TornNow(Exec(w, a), e);
    ExecKeeps(Next(Exec(w, a), e), b);
  }

  lemma NobodyYet(w: World)
    requires Quiet(w)
    ensures Inv(w)
  {
  }

  lemma TornNow(w: World, e: Event)
    requires Enabled(w, e) && Cuts(w, e)
    ensures Next(w, e).shared == Some(At(w, e.worker).data[..e.wrote.length])
  {
  }

  /** What the first write of the shared file that is cut short leaves, if there is one. */
  function CutLeft(w: World, es: seq<Event>): Option<string>
    requires Legal(w, es)
    decreases |es|
  {
    if es == [] then None
    else if Cuts(w, es[0]) then Some(At(w, es[0].worker).data[..es[0].wrote.length])
    else CutLeft(Next(w, es[0]), es[1..])
  }

  lemma {:induction false} CutIsShared(w: World, es: seq<Event>)
    requires Inv(w) && Legal(w, es)
    ensures CutLeft(w, es).None? <==> NeverCut(w, es)
    ensures CutLeft(w, es).Some? ==> Exec(w, es).shared == CutLeft(w, es)
    decreases |es|
  {
    hide Inv, Cuts, Whole;
    if es != [] {
      StepKeeps(w, es[0]);
      if Cuts(w, es[0]) {
        TornNow(w, es[0]);
        ExecKeeps(Next(w, es[0]), es[1..]);
      } else {
        CutIsShared(Next(w, es[0]), es[1..]);
      }
    }
  }

  /** Exactly when the shared lock file is what a successful init left: when no write of it has been
      cut short, or when a successful init left just the text that the cut write got to. */
  lemma WholeExactly(w: World, es: seq<Event>)
    requires Quiet(w) && Whole(w) && Legal(w, es)
    ensures var left := CutLeft(w, es);
            Whole(Exec(w, es)) <==> (left.Some? ==> left.value in Exec(w, es).approved)
  {
    hide Inv, Exec, Legal, CutLeft, NeverCut;
    NobodyYet(w);
    ExecKeeps(w, es);
    CutIsShared(w, es);
  }

  /** Nothing is shared yet, and nobody has a lock file. */
  const EMPTY := World(false, None, map[], map[], {})

  /** A worker without a lock file goes through initTerraform; the write of the shared file is the
      one that ends as given. */
  function FirstWorker(d: string, left: string, wrote: Written): seq<Event> {
    [Enter(d), Advance(d, true, Complete), Advance(d, true, Complete), TryInit(d, true, false, Some(left)),
     Advance(d, true, Complete), Advance(d, true, Complete), Advance(d, true, wrote)]
  }

  lemma Through(w: World, e: Event, es: seq<Event>)
    requires Enabled(w, e) && Legal(Next(w, e), es)
    ensures Legal(w, [e] + es) && Exec(w, [e] + es) == Exec(Next(w, e), es)
  {
    assert ([e] + es)[1..] == es;
  }

  /** The stages of the first worker, up to writing the shared file. */
  lemma FirstWrites(d: string, left: string) returns (w: World)
    ensures At(w, d) == WriteShared(left) && w.shared == None && w.approved == {left}
    ensures forall wrote :: Legal(EMPTY, FirstWorker(d, left, wrote))
                         && Exec(EMPTY, FirstWorker(d, left, wrote)) == Next(w, Advance(d, true, wrote))
  {
    var go := Advance(d, true, Complete);
    var w0 := Next(EMPTY, Enter(d));
    var w1 := Next(w0, go);
    var w2 := Next(w1, go);
    var w3 := Next(w2, TryInit(d, true, false, Some(left)));
    var w4 := Next(w3, go);
    w := Next(w4, go);
    forall wrote
      ensures Legal(EMPTY, FirstWorker(d, left, wrote))
           && Exec(EMPTY, FirstWorker(d, left, wrote)) == Next(w, Advance(d, true, wrote))
    {
      var last := Advance(d, true, wrote);
      Through(w, last, []);
      Through(w4, go, [last]);
      Through(w3, go, [go, last]);
      Through(w2, TryInit(d, true, false, Some(left)), [go, go, last]);
      Through(w1, go, [TryInit(d, true, false, Some(left)), go, go, last]);
      Through(w0, go, [go, TryInit(d, true, false, Some(left)), go, go, last]);
      Through(EMPTY, Enter(d), [go, go, TryInit(d, true, false, Some(left)), go, go, last]);
    }
  }

  /** It happens: the first worker ever saves what its init has left and is cut short, and from then
      on, whatever any worker does, the shared file is only the beginning of it. */
  lemma TornExample(d: string, left: string, n: nat)
    requires n < |left|
    ensures Quiet(EMPTY) && Legal(EMPTY, FirstWorker(d, left, CutShort(n)))
    ensures var v := Exec(EMPTY, FirstWorker(d, left, CutShort(n)));
            && v.shared == Some(left[..n]) && v.approved == {left} && !Whole(v)
            && forall b :: Legal(v, b) ==> Exec(v, b).shared == Some(left[..n])
  {
    hide Legal, Exec, Inv;
    var w := FirstWrites(d, left);
    var v := Next(w, Advance(d, true, CutShort(n)));
    assert |left[..n]| != |left|;
    NobodyYet(EMPTY);
    ExecKeeps(EMPTY, FirstWorker(d, left, CutShort(n)));
    forall b | Legal(v, b) ensures Exec(v, b).shared == Some(left[..n]) {
      ExecKeeps(v, b);
    }
  }

  // ---------------------------------------------------------------- what a worker starts from

  /** The events of one worker. */
  function Of(es: seq<Event>, d: string): seq<Event> {
    if es == [] then []
    else
      var n := |es| - 1;
      Of(es[..n], d) + if es[n].worker == d then [es[n]] else []
  }

  /** The worker goes from step to step and does not run init. */
  predicate OnlyAdvances(es: seq<Event>) {
    forall k :: 0 <= k < |es| ==> es[k].Advance?
  }

  function Own(w: World, d: string): Option<string> {
    if d in w.own then Some(w.own[d]) else None
  }

  /** How copying a file ends where there is none: `steps` are the look at the target, the read of
      the source and, if it was read and is there, the write. */
  predicate Copied(source: Option<string>, steps: seq<Event>, copy: Option<string>)
    requires OnlyAdvances(steps)
  {
    && |steps| >= 2
    && if source.Some? && steps[1].readable then |steps| == 3 && copy == WrittenText(source.value, steps[2].wrote)
       else copy == None
  }

  /** While a worker is inside nobody else changes what it works on. */
  lemma OthersWait(w: World, e: Event, d: string)
    requires Inv(w) && Enabled(w, e) && Inside(w, d) && e.worker != d
    ensures var v := Next(w, e);
            v.shared == w.shared && At(v, d) == At(w, d) && Own(v, d) == Own(w, d) && Inside(v, d)
  {
  }

  lemma OfNext(es: seq<Event>, d: string)
    requires es != []
    ensures var n := |es| - 1;
            Of(es, d) == Of(es[..n], d) + if es[n].worker == d then [es[n]] else []
    ensures OnlyAdvances(Of(es, d)) ==> OnlyAdvances(Of(es[..|es| - 1], d))
  {
    var n := |es| - 1;
    if OnlyAdvances(Of(es, d)) {
      forall k | 0 <= k < |Of(es[..n], d)| ensures Of(es[..n], d)[k].Advance? {
        assert Of(es, d)[k] == Of(es[..n], d)[k];
      }
    }
  }

  /** On the way from entering to init. */
  predicate Arriving(u: World, v: World, d: string, steps: seq<Event>)
    requires OnlyAdvances(steps)
  {
    && Inside(v, d) && v.shared == u.shared
    && match At(v, d)
       case CheckOwn => steps == [] && Own(v, d) == Own(u, d)
       case ReadShared => |steps| == 1 && Own(u, d) == None == Own(v, d)
       case WriteOwn(x) =>
         |steps| == 2 && Own(u, d) == None == Own(v, d) && steps[1].readable && u.shared == Some(x)
       case Init => if Own(u, d).Some? then Own(v, d) == Own(u, d) else Copied(u.shared, steps, Own(v, d))
       case _ => false
  }

  lemma ArrivesFurther(u: World, v: World, d: string, steps: seq<Event>, e: Event)
    requires OnlyAdvances(steps) && Inv(v) && Arriving(u, v, d, steps)
    requires Enabled(v, e) && e.worker == d && e.Advance?
    ensures OnlyAdvances(steps + [e]) && Arriving(u, Next(v, e), d, steps + [e])
  {
  }

  lemma {:induction false} Arrives(u: World, d: string, b: seq<Event>)
    requires Inv(u) && Enabled(u, Enter(d)) && Legal(Next(u, Enter(d)), b) && OnlyAdvances(Of(b, d))
    ensures Inv(Exec(Next(u, Enter(d)), b)) && Arriving(u, Exec(Next(u, Enter(d)), b), d, Of(b, d))
    decreases |b|
  {
    hide Inv, Enabled, Of, OnlyAdvances;
    var w := Next(u, Enter(d));
    StepKeeps(u, Enter(d));
    if b == [] {
      JustEntered(u, d);
    } else {
      var n := |b| - 1;
      var v := BeforeLast(w, b);
      OfNext(b, d);
      Arrives(u, d, b[..n]);
      StepKeeps(v, b[n]);
      ArrivesStep(u, v, d, b);
    }
  }

  lemma JustEntered(u: World, d: string)
    requires Enabled(u, Enter(d))
    ensures Of([], d) == [] && Arriving(u, Next(u, Enter(d)), d, [])
  {
  }

  /** The history but for its last event. */
  lemma BeforeLast(w: World, b: seq<Event>) returns (v: World)
    requires b != [] && Legal(w, b)
    ensures var n := |b| - 1;
            Legal(w, b[..n]) && v == Exec(w, b[..n]) && Enabled(v, b[n]) && Exec(w, b) == Next(v, b[n])
  {
    var n := |b| - 1;
    assert b == b[..n] + [b[n]];
    LegalSplit(w, b[..n], [b[n]]);
    v := Exec(w, b[..n]);
    assert [b[n]][1..] == [];
  }

  lemma ArrivesStep(u: World, v: World, d: string, b: seq<Event>)
    requires b != [] && Inv(v) && Enabled(v, b[|b| - 1])
    requires OnlyAdvances(Of(b, d)) && OnlyAdvances(Of(b[..|b| - 1], d)) && Arriving(u, v, d, Of(b[..|b| - 1], d))
    ensures Arriving(u, Next(v, b[|b| - 1]), d, Of(b, d))
  {
    var n := |b| - 1;
    OfNext(b, d);
    if b[n].worker == d {
      assert Of(b, d)[|Of(b, d)| - 1] == b[n];
      ArrivesFurther(u, v, d, Of(b[..n], d), b[n]);
    } else {
      OthersWait(v, b[n], d);
    }
  }

  /** What a worker starts its first init from, in any history: its own lock file if it came with
      one; if it came without one, the shared file as far as the read and the write of the copy
      went, and nothing if there was no shared file. */
  lemma StartsFromShared(w: World, a: seq<Event>, d: string, b: seq<Event>)
    requires Quiet(w) && Legal(w, a + ([Enter(d)] + b)) && OnlyAdvances(Of(b, d))
    requires At(Exec(w, a + ([Enter(d)] + b)), d).Init?
    ensures Legal(w, a)
    ensures var u, v := Exec(w, a), Exec(w, a + ([Enter(d)] + b));
            && v.shared == u.shared
            && (Own(u, d).Some? ==> Own(v, d) == Own(u, d))
            && (Own(u, d).None? ==> Copied(u.shared, Of(b, d), Own(v, d)))
  {
    hide Inv, Enabled, Of, OnlyAdvances, Quiet, Copied;
    NobodyYet(w);
    LegalSplit(w, a, [Enter(d)] + b);
    var u := Exec(w, a);
    ExecKeeps(w, a);
    assert ([Enter(d)] + b)[1..] == b;
    Arrives(u, d, b);
  }

  /** If nothing fails it starts from the shared file itself, or from none if there is none. */
  lemma StartsFromWhole(w: World, a: seq<Event>, d: string, b: seq<Event>)
    requires Quiet(w) && Legal(w, a + ([Enter(d)] + b)) && OnlyAdvances(Of(b, d))
    requires At(Exec(w, a + ([Enter(d)] + b)), d).Init?
    requires forall k :: 0 <= k < |Of(b, d)| ==> Of(b, d)[k].readable && Of(b, d)[k].wrote.Complete?
    ensures Legal(w, a)
    ensures var u, v := Exec(w, a), Exec(w, a + ([Enter(d)] + b));
            Own(u, d).None? ==> Own(v, d) == v.shared == u.shared
  {
    StartsFromShared(w, a, d, b);
  }

  /** Whenever nobody is inside, a worker gets from entering to init by steps of its own. */
  lemma CanArrive(w: World, d: string) returns (b: seq<Event>)
    requires Enabled(w, Enter(d))
    ensures Legal(w, [Enter(d)] + b) && At(Exec(w, [Enter(d)] + b), d).Init?
    ensures OnlyAdvances(b) && forall k :: 0 <= k < |b| ==> b[k] == Advance(d, true, Complete)
  {
    var go := Advance(d, true, Complete);
    var w0 := Next(w, Enter(d));
    var w1 := Next(w0, go);
    b := [go];
    Through(w0, go, []);
    if At(w1, d).ReadShared? {
      var w2 := Next(w1, go);
      b := [go, go];
      Through(w1, go, []);
      if At(w2, d).WriteOwn? {
        b := [go, go, go];
        Through(w2, go, []);
        Through(w1, go, [go]);
        Through(w0, go, [go, go]);
      } else {
        Through(w0, go, [go]);
      }
    }
    Through(w, Enter(d), b);
  }

  // ---------------------------------------------------------------- what a worker leaves

  /** On the way from a successful init, which left `left`, to giving the lock back. */
  predicate Saving(u: World, v: World, d: string, left: Option<string>, steps: seq<Event>)
    requires OnlyAdvances(steps)
  {
    && Inside(v, d) && Own(v, d) == left
    && match At(v, d)
       case CheckShared => steps == [] && v.shared == u.shared
       case ReadOwn => |steps| == 1 && u.shared == None == v.shared
       case WriteShared(x) =>
         |steps| == 2 && u.shared == None == v.shared && steps[1].readable && left == Some(x)
       case Release => if u.shared.Some? then v.shared == u.shared else Copied(left, steps, v.shared)
       case _ => false
  }

  lemma SavesFurther(u: World, v: World, d: string, left: Option<string>, steps: seq<Event>, e: Event)
    requires OnlyAdvances(steps) && Inv(v) && Saving(u, v, d, left, steps)
    requires Enabled(v, e) && e.worker == d && e.Advance? && !At(v, d).Release?
    ensures OnlyAdvances(steps + [e]) && Saving(u, Next(v, e), d, left, steps + [e])
  {
  }

  lemma SavesStep(u: World, v: World, d: string, left: Option<string>, b: seq<Event>)
    requires b != [] && Inv(v) && Enabled(v, b[|b| - 1]) && Inside(Next(v, b[|b| - 1]), d)
    requires OnlyAdvances(Of(b, d)) && OnlyAdvances(Of(b[..|b| - 1], d))
    requires Saving(u, v, d, left, Of(b[..|b| - 1], d))
    ensures Saving(u, Next(v, b[|b| - 1]), d, left, Of(b, d))
  {
    var n := |b| - 1;
    OfNext(b, d);
    if b[n].worker == d {
      assert Of(b, d)[|Of(b, d)| - 1] == b[n];
      SavesFurther(u, v, d, left, Of(b[..n], d), b[n]);
    } else {
      OthersWait(v, b[n], d);
    }
  }

  /** Who is inside and has only advanced was inside before. */
  lemma WasInside(v: World, e: Event, d: string)
    requires Enabled(v, e) && Inside(Next(v, e), d) && (e.worker == d ==> e.Advance?)
    ensures Inside(v, d)
  {
  }

  lemma JustTried(u: World, e: Event)
    requires Enabled(u, e) && e.TryInit? && e.ok
    ensures Of([], e.worker) == [] && Saving(u, Next(u, e), e.worker, e.left, [])
  {
  }

  lemma {:induction false} Saves(u: World, e: Event, b: seq<Event>)
    requires Inv(u) && Enabled(u, e) && e.TryInit? && e.ok
    requires Legal(Next(u, e), b) && OnlyAdvances(Of(b, e.worker)) && Inside(Exec(Next(u, e), b), e.worker)
    ensures Inv(Exec(Next(u, e), b))
    ensures Saving(u, Exec(Next(u, e), b), e.worker, e.left, Of(b, e.worker))
    decreases |b|
  {
    hide Inv, Enabled, Of, OnlyAdvances, Inside, Saving;
    var w := Next(u, e);
    StepKeeps(u, e);
    if b == [] {
      JustTried(u, e);
    } else {
      var n := |b| - 1;
      var v := BeforeLast(w, b);
      OfNext(b, e.worker);
      if b[n].worker == e.worker {
        LastOf(b, e.worker);
      }
      WasInside(v, b[n], e.worker);
      Saves(u, e, b[..n]);
      StepKeeps(v, b[n]);
      SavesStep(u, v, e.worker, e.left, b);
    }
  }

  lemma LastOf(b: seq<Event>, d: string)
    requires b != [] && OnlyAdvances(Of(b, d)) && b[|b| - 1].worker == d
    ensures b[|b| - 1].Advance?
  {
    assert Of(b, d)[|Of(b, d)| - 1] == b[|b| - 1];
  }

  /** What a worker has saved when it gives the lock back after a successful init, in any history: if
      there was a shared file, that is what there is; otherwise it is what the init left, as far as
      the read and the write of the copy went, and nothing if it left nothing. */
  lemma SavesWhatInitLeft(w: World, a: seq<Event>, e: Event, b: seq<Event>)
    requires Quiet(w) && Legal(w, a + ([e] + b)) && e.TryInit? && e.ok && OnlyAdvances(Of(b, e.worker))
    requires At(Exec(w, a + ([e] + b)), e.worker).Release?
    ensures Legal(w, a)
    ensures var u, v := Exec(w, a), Exec(w, a + ([e] + b));
            && Own(v, e.worker) == e.left
            && (u.shared.Some? ==> v.shared == u.shared)
            && (u.shared.None? ==> Copied(e.left, Of(b, e.worker), v.shared))
  {
    hide Inv, Enabled, Of, OnlyAdvances, Quiet, Copied;
    NobodyYet(w);
    LegalSplit(w, a, [e] + b);
    var u := Exec(w, a);
    ExecKeeps(w, a);
    assert ([e] + b)[1..] == b;
    Saves(u, e, b);
  }

  /** One worker at a time looks at the cache, and the lock is held exactly while one does. */
  lemma OneWorkerInside(w: World, es: seq<Event>, c: string, d: string)
    requires Quiet(w) && Legal(w, es)
    ensures Inside(Exec(w, es), c) && Inside(Exec(w, es), d) ==> c == d
    ensures Exec(w, es).locked <==> exists e :: Inside(Exec(w, es), e)
  {
    ExecKeeps(w, es);
  }
}
