/** One run of KopsControlPlaneReconciler.Reconcile
    (controllers/controlplane/kopscontrolplane_controller.go) as a machine that steps through
    numbered points of the code. Every call to the outside succeeds or fails as it likes; the
    machine says what the run does next, what it remembers and what it changes. */
module Phases {
  import opened Common
  import opened Pools
  import opened FeatureFlags
  import Validation

  // ---------------------------------------------------------------- what a run sees and changes

  datatype Credentials = Credentials(key: string, secret: string)

  /** The two process-global AWS variables. */
  datatype Env = Env(key: Option<string>, secret: Option<string>)

  /** A result of the kops library, represented by everything the library reads to make it: the
      specification, the cloud connection, the AWS variables and its feature flags. */
  datatype Built = Built(spec: string, cloud: Option<Env>, env: Env, flags: FlagView)

  /** Everything that belongs to one cluster: its objects in the API server, its kops state, its
      rendered terraform files and what terraform applied; then the cloud connection and the
      populated specification that the current run carries, and the connection with which kops
      last deleted the cluster's resources. */
  datatype Cluster = Cluster(
    pools: seq<Pool>, finalizer: bool, deleting: bool,
    groups: set<string>, spec: Option<Built>, sshKey: bool, addons: Option<string>,
    rendered: Option<Built>,
    applied: Option<(Built, Credentials)>,
    cloud: Option<Env>, populated: Option<Built>, wipedWith: Option<Env>)

  /** What the run is started with: the control plane object, its owner and the settings of the
      process, as they are read once at the start. */
  datatype Input = Input(
    dryRun: bool, sameClass: bool, selected: bool, hasOwner: bool, paused: bool,
    deleting: bool, finalizer: bool, protected: bool, wasReady: bool,
    credentials: Credentials, needsRange: bool, spec: string, addons: string,
    karpenter: bool, spot: SpotInst, spotToken: bool, spotAccount: bool,
    hasSecret: bool, pinned: bool, report: Validation.Report, environment: string)

  predicate ShouldDeleteCluster(run: Input) {
    !run.dryRun && run.deleting && !run.protected
  }

  /** Reading what is to be done; nothing is changed. */
  datatype OpeningPoint =
    | Fetch | CheckClass | CheckSelected | FindOwner | CheckPaused | ReadCredentials | ServiceRange | Decide

  /** Up to the lock. A deletion lists its pools and destroys first. */
  datatype ApproachPoint = ListToDelete | PrepareTeardown | WriteProvider | Destroy | AddFinalizer | TakeLock

  /** The critical section, as far as both paths share it. */
  datatype SectionPoint =
    | RaiseFlag | ListPools | MakeClient | UnsetKey | UnsetSecret | SetKey | SetSecret
    | BuildCloud | KopsDelete | ReleaseLock

  /** The loop over the machine pools, inside the critical section. */
  datatype PoolPoint = NextPool | IgDelete | PoolOwners | IgGet | IgCreate | IgUpdate

  /** Saving and rendering the cluster, inside the critical section. */
  datatype BuildPoint =
    | Addons | KarpenterFlag | SpotinstFlags | Populate
    | GetCluster | CreateCluster | AddSshKey | ClusterStatus | UpdateCluster | ReconcileSecrets
    | PrepareKops | PrepareCustom | PinProvider | Plan | ReadKubeconfig | SaveKubeconfig

  /** Deleting the Kubernetes objects, after the critical section. */
  datatype TeardownPoint = NextTeardown | TeardownOwners | Refetch | ControlPlaneOwners | DropFinalizer

  /** Applying and judging, after the critical section. */
  datatype ApplyPoint = Apply | ProviderIds | ListGroups | Validate | SetReady

  /** The deferred closure. */
  datatype ClosingPoint = SafetyUnlock | UpdatePools | UpdateControlPlane | Metric

  datatype Phase =
    | Opening(opening: OpeningPoint)
    | Approach(approach: ApproachPoint)
    | Section(section: SectionPoint)
    | PoolWork(pool: PoolPoint)
    | Building(build: BuildPoint)
    | LowerFlag
    | Teardown(teardown: TeardownPoint)
    | Applying(apply: ApplyPoint)
    | Closing(closing: ClosingPoint)
    | Done

  datatype Outcome = Ok | NotFound | Fail

  datatype Call = Call(phase: Phase, outcome: Outcome)

  datatype Milestone =
    | Destroyed | KopsDeleted
    | PoolOwnersDeleted(pool: nat) | PoolReleased(pool: nat)
    | ControlPlaneOwnersDeleted | ControlPlaneReleased

  /** Where a run is. `shouldUnlock`, `pools`, `finalizer`, `ready` and `failed` are variables of
      the code; `teardown` is the branch taken; `hasList` says that `pools` was read; `holds`
      records that the run has locked the mutex and not unlocked it since. */
  datatype Run = Run(
    phase: Phase, teardown: bool, i: nat,
    pools: seq<Pool>, hasList: bool, finalizer: bool, ready: bool,
    shouldUnlock: bool, holds: bool, failed: bool)

  function Start(run: Input): Run {
    Run(Opening(Fetch), false, 0, [], false, run.finalizer, run.wasReady, false, false, false)
  }

  /** What has happened in a run so far: the pools as listed, how many of them a teardown has
      released, its milestones, and every call with its outcome. */
  datatype Past = Past(listed: seq<Pool>, released: nat, log: seq<Milestone>, trace: seq<Call>)

  const NOTHING := Past([], 0, [], [])

  // ---------------------------------------------------------------- which outcomes are possible

  /** Points where nothing outside is asked. */
  predicate Internal(p: Phase) {
    match p
    case Opening(q) => q.CheckClass? || q.CheckSelected? || q.CheckPaused? || q.Decide?
    case Approach(q) => q.AddFinalizer? || q.TakeLock?
    case Section(q) => q.RaiseFlag? || q.ReleaseLock?
    case PoolWork(q) => q.NextPool?
    case Building(q) => q.KarpenterFlag?
    case LowerFlag => true
    case Teardown(q) => q.NextTeardown? || q.DropFinalizer?
    case Applying(q) => q.SetReady?
    case Closing(q) => q.SafetyUnlock? || q.Metric?
    case Done => true
  }

  /** Calls whose caller tells a missing object from an error. */
  predicate TellsNotFound(p: Phase) {
    p == Opening(Fetch) || p == Opening(FindOwner) || p == PoolWork(IgGet) || p == Building(GetCluster)
    || p == Applying(ProviderIds)
  }

  predicate HasKey(pools: seq<Pool>, p: Pool) {
    exists k :: 0 <= k < |pools| && SameKey(pools[k], p)
  }

  /** What a call made at a point can come back with, the loop being at the given pool, if any. */
  predicate Answers(run: Input, at: Phase, pool: Option<Pool>, o: Outcome, c: Cluster) {
    && at != Done
    && (Internal(at) ==> o.Ok?)
    && (o.NotFound? ==> TellsNotFound(at))
    && (at == Building(SpotinstFlags) ==> (o.Ok? <==> !CredentialsMissing(run.spot, run.spotToken, run.spotAccount)))
    && (at == PoolWork(IgGet) && pool.Some? ==>
          (o.Ok? ==> pool.value.name in c.groups) && (o.NotFound? ==> pool.value.name !in c.groups))
    && (at == Building(GetCluster) ==> (o.Ok? ==> c.spec.Some?) && (o.NotFound? ==> c.spec.None?))
    && (at == Applying(ListGroups) && o.Ok? ==> c.groups != {})
    && (at == Teardown(Refetch) && o.Ok? && pool.Some? ==> HasKey(c.pools, pool.value))
    && (at == Closing(UpdatePools) && pool.None? ==> o.Ok?)
    && (at == Closing(UpdatePools) && pool.Some? && o.Ok? ==> HasKey(c.pools, pool.value))
  }

  /** The pool at which the loop is. */
  function PoolAt(st: Run): Option<Pool> {
    if st.i < |st.pools| then Some(st.pools[st.i]) else None
  }

  predicate Possible(run: Input, st: Run, o: Outcome, c: Cluster) {
    Answers(run, st.phase, PoolAt(st), o, c)
  }

  // ---------------------------------------------------------------- what a run does next

  /** A return statement inside the body of Reconcile: the deferred closure runs next. */
  const RETURN := Closing(SafetyUnlock)

  function OrReturn(o: Outcome, p: Phase): Phase {
    if o.Ok? then p else RETURN
  }

  function AfterSecrets(run: Input): Phase {
    Building(if run.hasSecret then ReconcileSecrets else PrepareKops)
  }

  function AfterCustom(run: Input): Phase {
    Building(if run.dryRun then Plan else ReadKubeconfig)
  }

  /** Before the deferred closure is registered, a return ends the run. */
  function NextOpening(run: Input, p: OpeningPoint, o: Outcome): Phase {
    match p
    case Fetch => if o.Ok? then Opening(CheckClass) else Done
    case CheckClass => if run.sameClass then Opening(CheckSelected) else Done
    case CheckSelected => if run.selected then Opening(FindOwner) else Done
    case FindOwner => if o.Ok? && run.hasOwner then Opening(CheckPaused) else Done
    case CheckPaused => if run.paused then RETURN else Opening(ReadCredentials)
    case ReadCredentials => OrReturn(o, Opening(if run.needsRange then ServiceRange else Decide))
    case ServiceRange => OrReturn(o, Opening(Decide))
    case Decide => Approach(if ShouldDeleteCluster(run) then ListToDelete else AddFinalizer)
  }

  function NextApproach(p: ApproachPoint, o: Outcome): Phase {
    match p
    case ListToDelete => OrReturn(o, Approach(PrepareTeardown))
    case PrepareTeardown => OrReturn(o, Approach(WriteProvider))
    case WriteProvider => OrReturn(o, Approach(Destroy))
    case Destroy => OrReturn(o, Approach(TakeLock))
    case AddFinalizer => Approach(TakeLock)
    case TakeLock => Section(RaiseFlag)
  }

  function NextSection(teardown: bool, p: SectionPoint, o: Outcome): Phase {
    match p
    case RaiseFlag => Section(if teardown then MakeClient else ListPools)
    case ListPools => OrReturn(o, Section(MakeClient))
    case MakeClient => OrReturn(o, Section(UnsetKey))
    case UnsetKey => OrReturn(o, Section(UnsetSecret))
    case UnsetSecret => OrReturn(o, Section(SetKey))
    case SetKey => OrReturn(o, Section(SetSecret))
    case SetSecret => OrReturn(o, if teardown then Section(BuildCloud) else PoolWork(NextPool))
    case BuildCloud => OrReturn(o, if teardown then Section(KopsDelete) else Building(Populate))
    case KopsDelete => OrReturn(o, Section(ReleaseLock))
    case ReleaseLock => LowerFlag
  }

  /** A failure of one pool ends the work on that pool only. */
  function NextPoolWork(run: Input, st: Run, p: PoolPoint, o: Outcome): Phase {
    match p
    case NextPool =>
      if st.i >= |st.pools| then Building(Addons)
      else if run.dryRun then PoolWork(NextPool)
      else if st.pools[st.i].deleting then PoolWork(IgDelete)
      else PoolWork(IgGet)
    case IgDelete => PoolWork(if o.Ok? then PoolOwners else NextPool)
    case PoolOwners => PoolWork(NextPool)
    case IgGet => PoolWork(match o case Ok => IgUpdate case NotFound => IgCreate case Fail => NextPool)
    case IgCreate => PoolWork(NextPool)
    case IgUpdate => PoolWork(NextPool)
  }

  /** The secrets step is the one whose failure does not end the run. */
  function NextBuilding(run: Input, p: BuildPoint, o: Outcome): Phase {
    match p
    case Addons => OrReturn(o, Building(KarpenterFlag))
    case KarpenterFlag => Building(SpotinstFlags)
    case SpotinstFlags => OrReturn(o, Section(BuildCloud))
    case Populate => OrReturn(o, Building(if run.dryRun then PrepareKops else GetCluster))
    case GetCluster =>
      (match o case Ok => Building(ClusterStatus) case NotFound => Building(CreateCluster) case Fail => RETURN)
    case CreateCluster => OrReturn(o, Building(AddSshKey))
    case AddSshKey => OrReturn(o, AfterSecrets(run))
    case ClusterStatus => OrReturn(o, Building(UpdateCluster))
    case UpdateCluster => OrReturn(o, AfterSecrets(run))
    case ReconcileSecrets => Building(PrepareKops)
    case PrepareKops => OrReturn(o, Building(PrepareCustom))
    case PrepareCustom => OrReturn(o, if run.pinned then Building(PinProvider) else AfterCustom(run))
    case PinProvider => OrReturn(o, AfterCustom(run))
    case Plan => OrReturn(o, Section(ReleaseLock))
    case ReadKubeconfig => OrReturn(o, Building(SaveKubeconfig))
    case SaveKubeconfig => OrReturn(o, Section(ReleaseLock))
  }

  function NextTeardownPhase(st: Run, p: TeardownPoint, o: Outcome): Phase {
    match p
    case NextTeardown => Teardown(if st.i < |st.pools| then TeardownOwners else ControlPlaneOwners)
    case TeardownOwners => OrReturn(o, Teardown(Refetch))
    case Refetch => OrReturn(o, Teardown(NextTeardown))
    case ControlPlaneOwners => OrReturn(o, Teardown(DropFinalizer))
    case DropFinalizer => RETURN
  }

  function NextApplying(p: ApplyPoint, o: Outcome): Phase {
    match p
    case Apply => OrReturn(o, Applying(ProviderIds))
    case ProviderIds => OrReturn(o, Applying(ListGroups))
    case ListGroups => OrReturn(o, Applying(Validate))
    case Validate => OrReturn(o, Applying(SetReady))
    case SetReady => RETURN
  }

  function NextClosing(run: Input, st: Run, p: ClosingPoint): Phase {
    match p
    case SafetyUnlock => if run.dryRun then Done else Closing(UpdatePools)
    case UpdatePools => Closing(if st.i < |st.pools| then UpdatePools else UpdateControlPlane)
    case UpdateControlPlane => Closing(Metric)
    case Metric => Done
  }

  function NextPhase(run: Input, st: Run, o: Outcome): Phase {
    match st.phase
    case Opening(p) => NextOpening(run, p, o)
    case Approach(p) => NextApproach(p, o)
    case Section(p) => NextSection(st.teardown, p, o)
    case PoolWork(p) => NextPoolWork(run, st, p, o)
    case Building(p) => NextBuilding(run, p, o)
    case LowerFlag =>
      if st.teardown then Teardown(NextTeardown) else if run.dryRun then RETURN else Applying(Apply)
    case Teardown(p) => NextTeardownPhase(st, p, o)
    case Applying(p) => NextApplying(p, o)
    case Closing(p) => NextClosing(run, st, p)
    case Done => Done
  }

  // ---------------------------------------------------------------- what a run remembers

  /** The loops over the pools share one index; every loop starts it afresh. */
  function IndexAfter(run: Input, st: Run, o: Outcome): nat {
    match st.phase
    case Section(p) => if p.SetSecret? then 0 else st.i
    case LowerFlag => 0
    case PoolWork(p) => if NextPoolWork(run, st, p, o) == PoolWork(NextPool) then st.i + 1 else st.i
    case Teardown(p) => if p.Refetch? && o.Ok? then st.i + 1 else st.i
    case Closing(p) =>
      if p.SafetyUnlock? then 0 else if p.UpdatePools? && st.i < |st.pools| then st.i + 1 else st.i
    case _ => st.i
  }

  predicate ReadsList(st: Run, o: Outcome) {
    o.Ok? && (st.phase == Approach(ListToDelete) || st.phase == Section(ListPools))
  }

  /** The object with the key of `p`, or `p` itself when there is none. */
  function Lookup(pools: seq<Pool>, p: Pool): Pool {
    if pools == [] then p else if SameKey(pools[0], p) then pools[0] else Lookup(pools[1..], p)
  }

  /** The pool in the hands of the loop, as this step leaves it, if the step touches it. */
  function PoolAfter(run: Input, st: Run, o: Outcome, c: Cluster, p: Pool): Option<Pool> {
    if st.phase == PoolWork(NextPool) && !run.dryRun && !p.deleting then Some(p.(finalizer := true))
    else if st.phase == PoolWork(PoolOwners) && o.Ok? then Some(p.(finalizer := false))
    else if st.phase == Teardown(Refetch) && o.Ok? then Some(Lookup(c.pools, p).(finalizer := false))
    else None
  }

  function PoolsAfter(run: Input, st: Run, o: Outcome, c: Cluster): seq<Pool> {
    if ReadsList(st, o) then Sort(c.pools)
    else if st.i >= |st.pools| then st.pools
    else match PoolAfter(run, st, o, c, st.pools[st.i])
      case Some(p) => st.pools[st.i := p]
      case None => st.pools
  }

  function ReadyAfter(run: Input, st: Run): bool {
    if st.phase == Opening(CheckPaused) && !run.paused then false
    else if st.phase == Applying(SetReady) then Validation.Healthy(run.report)
    else st.ready
  }

  predicate Unlocks(st: Run) {
    st.phase == Section(ReleaseLock) || (st.phase == Closing(SafetyUnlock) && st.shouldUnlock)
  }

  /** A missing object is reported as an error only where it is not expected, and there the
      outcome NotFound does not occur. */
  predicate Returns(run: Input, st: Run, o: Outcome) {
    NextPhase(run, st, o) == RETURN || (st.phase.Opening? && NextPhase(run, st, o) == Done)
  }

  function Step(run: Input, st: Run, o: Outcome, c: Cluster): Run {
    Run(
      NextPhase(run, st, o),
      st.teardown || (st.phase == Opening(Decide) && ShouldDeleteCluster(run)),
      IndexAfter(run, st, o),
      PoolsAfter(run, st, o, c),
      st.hasList || ReadsList(st, o),
      st.phase == Approach(AddFinalizer) || (st.finalizer && st.phase != Teardown(DropFinalizer)),
      ReadyAfter(run, st),
      st.phase == Section(RaiseFlag) || (st.shouldUnlock && st.phase != LowerFlag),
      st.phase == Approach(TakeLock) || (st.holds && !Unlocks(st)),
      if Returns(run, st, o) then o.Fail? else st.failed)
  }

  /** The milestones a step passes, if it succeeds. */
  function MilestoneOf(st: Run, o: Outcome): seq<Milestone> {
    if !o.Ok? then []
    else match st.phase
      case Approach(p) => if p.Destroy? then [Destroyed] else []
      case Section(p) => if p.KopsDelete? then [KopsDeleted] else []
      case Teardown(p) =>
        (match p
         case TeardownOwners => [PoolOwnersDeleted(st.i)]
         case Refetch => [PoolReleased(st.i)]
         case ControlPlaneOwners => [ControlPlaneOwnersDeleted]
         case DropFinalizer => [ControlPlaneReleased]
         case NextTeardown => [])
      case _ => []
  }

  function Remember(past: Past, st: Run, o: Outcome, c: Cluster): Past {
    Past(
      if ReadsList(st, o) then Sort(c.pools) else past.listed,
      if o.Ok? && st.phase == Teardown(Refetch) then st.i + 1 else past.released,
      past.log + MilestoneOf(st, o),
      past.trace + [Call(st.phase, o)])
  }

  // ---------------------------------------------------------------- what a step changes outside

  function LockAfter(st: Run, locked: bool): bool {
    if st.phase == Approach(TakeLock) then true else if Unlocks(st) then false else locked
  }

  function EnvAfter(run: Input, st: Run, o: Outcome, env: Env): Env {
    if !o.Ok? || !st.phase.Section? then env
    else match st.phase.section
      case UnsetKey => env.(key := None)
      case UnsetSecret => env.(secret := None)
      case SetKey => env.(key := Some(run.credentials.key))
      case SetSecret => env.(secret := Some(run.credentials.secret))
      case _ => env
  }

  /** Resetting the Spotinst flags happens even when the credentials turn out to be missing. */
  function FlagsAfter(run: Input, st: Run, flags: FlagTable): FlagTable {
    if !st.phase.Building? then flags
    else match st.phase.build
      case KarpenterFlag => KarpenterFlagAfter(flags, run.karpenter)
      case SpotinstFlags => SpotinstFlagsAfter(flags, run.spot, run.spotToken, run.spotAccount)
      case _ => flags
  }

  /** Saving a pool: the server takes its finalizer, and an object marked for deletion goes away
      with its last finalizer. */
  function SavePool(pools: seq<Pool>, p: Pool): seq<Pool> {
    if pools == [] then []
    else if !SameKey(pools[0], p) then [pools[0]] + SavePool(pools[1..], p)
    else if pools[0].deleting && !p.finalizer then SavePool(pools[1..], p)
    else [pools[0].(finalizer := p.finalizer)] + SavePool(pools[1..], p)
  }

  function PoolName(st: Run): string {
    if st.i < |st.pools| then st.pools[st.i].name else []
  }

  predicate Succeeds(st: Run, o: Outcome, p: Phase) {
    o.Ok? && st.phase == p
  }

  function PoolsSaved(st: Run, o: Outcome, pools: seq<Pool>): seq<Pool> {
    if Succeeds(st, o, Closing(UpdatePools)) && st.i < |st.pools| then SavePool(pools, st.pools[st.i]) else pools
  }

  function GroupsAfter(st: Run, o: Outcome, groups: set<string>): set<string> {
    if Succeeds(st, o, PoolWork(IgDelete)) then groups - {PoolName(st)}
    else if Succeeds(st, o, PoolWork(IgCreate)) then groups + {PoolName(st)}
    else if Succeeds(st, o, Section(KopsDelete)) then {}
    else groups
  }

  function SpecAfter(st: Run, o: Outcome, c: Cluster): Option<Built> {
    if Succeeds(st, o, Building(CreateCluster)) || Succeeds(st, o, Building(UpdateCluster)) then c.populated
    else if Succeeds(st, o, Section(KopsDelete)) then None
    else c.spec
  }

  /** Whether the kops state has the SSH key of the cluster. */
  predicate KeyAfter(st: Run, o: Outcome, sshKey: bool) {
    Succeeds(st, o, Building(AddSshKey)) || (sshKey && !Succeeds(st, o, Section(KopsDelete)))
  }

  /** What the kops library makes at this moment, from the variables and flags as they are. */
  function BuildNow(run: Input, c: Cluster, env: Env, flags: FlagTable): Built {
    Built(run.spec, c.cloud, env, View(flags))
  }

  function PopulatedAfter(st: Run, o: Outcome, populated: Option<Built>, made: Built): Option<Built> {
    if Succeeds(st, o, Building(Populate)) then Some(made) else populated
  }

  function RenderedAfter(st: Run, o: Outcome, rendered: Option<Built>, made: Built): Option<Built> {
    if Succeeds(st, o, Building(PrepareKops)) then Some(made) else rendered
  }

  function AppliedAfter(run: Input, st: Run, o: Outcome, c: Cluster): Option<(Built, Credentials)> {
    if Succeeds(st, o, Applying(Apply)) && c.rendered.Some? then Some((c.rendered.value, run.credentials))
    else if Succeeds(st, o, Approach(Destroy)) then None
    else c.applied
  }

  /** What a successful call does to its cluster; a failed one does nothing. */
  function ClusterAfter(run: Input, st: Run, o: Outcome, c: Cluster, env: Env, flags: FlagTable): Cluster {
    var wiped := Succeeds(st, o, Section(KopsDelete));
    Cluster(
      PoolsSaved(st, o, c.pools),
      if Succeeds(st, o, Closing(UpdateControlPlane)) then st.finalizer else c.finalizer,
      c.deleting,
      GroupsAfter(st, o, c.groups),
      SpecAfter(st, o, c),
      KeyAfter(st, o, c.sshKey),
      if Succeeds(st, o, Building(Addons)) then Some(run.addons) else if wiped then None else c.addons,
      RenderedAfter(st, o, c.rendered, BuildNow(run, c, env, flags)),
      AppliedAfter(run, st, o, c),
      if Succeeds(st, o, Section(BuildCloud)) then Some(env) else c.cloud,
      PopulatedAfter(st, o, c.populated, BuildNow(run, c, env, flags)),
      if wiped then c.cloud else c.wipedWith)
  }
}
