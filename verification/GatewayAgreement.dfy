/**
  The configuration protocol between the database and the Gateway: provider and proxy edits
  push a candidate snapshot before they commit, and compensate from committed state when
  anything raises.  A run interleaves one locked transaction at a time with unlocked creation
  of direct providers, subprocesses that exit, late watchers, preflights and recovery.
*/
module GatewayAgreement {
  import opened Common
  import opened GatewayRuntime
  import Text

  datatype Model = Model(id: string, enabled: bool)

  /** A provider row; `note` stands for every column the snapshot does not depend on. */
  datatype Provider = Provider(
    gateway: bool, responses: bool, baseUrl: string, apiKey: string,
    models: seq<Model>, defaultModel: string, headers: string, proxyId: Option<int>, note: string)

  /** A proxy row; `url` is what `resolve_proxy_url` builds from it, or nothing when it refuses. */
  datatype Proxy = Proxy(url: Option<string>, note: string)

  datatype Db = Db(providers: map<int, Provider>, proxies: map<int, Proxy>)

  // ---- the projection: `_provider_dtos` and `_build_snapshot` ----

  /** `enabled_model_ids` */
  function EnabledIds(ms: seq<Model>): seq<string> {
    if ms == [] then []
    else
      var before := EnabledIds(ms[..|ms| - 1]);
      var m := ms[|ms| - 1];
      var id := Text.Strip(m.id);
      if m.enabled && id != "" && id !in before then before + [id] else before
  }

  function RoutedModels(p: Provider): seq<string> {
    var enabled := EnabledIds(p.models);
    if enabled != [] then enabled else if p.defaultModel != "" then [p.defaultModel] else []
  }

  predicate ProxyResolves(db: Db, p: Provider) {
    p.proxyId.Some? ==> p.proxyId.value in db.proxies && db.proxies[p.proxyId.value].url.Some?
  }

  predicate Complete(p: Provider) {
    p.responses && p.baseUrl != "" && p.apiKey != ""
  }

  function RouteOf(db: Db, p: Provider): Route
    requires ProxyResolves(db, p)
  {
    Route(p.baseUrl, p.apiKey, RoutedModels(p),
          if p.proxyId.Some? then db.proxies[p.proxyId.value].url.value else "", p.headers)
  }

  function GatewayIds(db: Db): set<int> {
    set id | id in db.providers && db.providers[id].gateway
  }

  /** `BadProxy`: reading the rows raises before the manager is called. */
  datatype Projection = BadProxy | Wants(desired: Desired)

  predicate AllResolve(db: Db) {
    forall id | id in GatewayIds(db) :: ProxyResolves(db, db.providers[id])
  }

  predicate AllComplete(db: Db) {
    forall id | id in GatewayIds(db) :: Complete(db.providers[id])
  }

  function Routes(db: Db): Snapshot
    requires AllResolve(db)
  {
    map id | id in GatewayIds(db) :: RouteOf(db, db.providers[id])
  }

  function Project(db: Db): Projection {
    if !AllResolve(db) then BadProxy
    else if GatewayIds(db) == {} then Wants(Nothing)
    else if !AllComplete(db) then Wants(Unbuildable)
    else Wants(Buildable(Routes(db)))
  }

  /** The socket path serves the committed configuration, or nothing at all. */
  ghost predicate Agrees(r: Runtime, db: Db) {
    r.Serving() == None || Project(db) == Wants(Buildable(r.Serving().value))
  }

  // ---- edits ----

  datatype Edit =
    | CreateGateway(id: int, provider: Provider)
    | UpdateProvider(id: int, provider: Provider)
    | DeleteProvider(id: int)
    | SetModels(id: int, models: seq<Model>)
    | PatchProxy(id: int, proxy: Proxy)
    | DeleteProxy(id: int)

  /** The checks under the lock: the row exists, and a proxy in use is not deleted. */
  predicate Accepted(db: Db, e: Edit) {
    match e
    case CreateGateway(id, p) => id !in db.providers && p.gateway
    case UpdateProvider(id, _) => id in db.providers
    case DeleteProvider(id) => id in db.providers
    case SetModels(id, _) => id in db.providers
    case PatchProxy(id, _) => id in db.proxies
    case DeleteProxy(id) => id in db.proxies && forall k | k in db.providers :: db.providers[k].proxyId != Some(id)
  }

  function Apply(db: Db, e: Edit): Db {
    match e
    case CreateGateway(id, p) => db.(providers := db.providers[id := p])
    case UpdateProvider(id, p) => db.(providers := db.providers[id := p])
    case DeleteProvider(id) => db.(providers := db.providers - {id})
    case SetModels(id, ms) =>
      if id in db.providers then db.(providers := db.providers[id := db.providers[id].(models := ms)]) else db
    case PatchProxy(id, x) => db.(proxies := db.proxies[id := x])
    case DeleteProxy(id) => db.(proxies := db.proxies - {id})
  }

  /** The handlers' `gateway_changed` flag. */
  predicate GatewayChanged(db: Db, e: Edit) {
    match e
    case CreateGateway(_, _) => true
    case UpdateProvider(id, p) => p.gateway || (id in db.providers && db.providers[id].gateway)
    case DeleteProvider(id) => id in db.providers && db.providers[id].gateway
    case SetModels(id, _) => id in db.providers && db.providers[id].gateway
    case PatchProxy(id, _) => exists k | k in GatewayIds(db) :: db.providers[k].proxyId == Some(id)
    case DeleteProxy(_) => false
  }

  /** The provider row an edit writes, if it writes one. */
  function Target(e: Edit): Option<int> {
    match e
    case PatchProxy(_, _) => None
    case DeleteProxy(_) => None
    case _ => Some(e.id)
  }

  predicate SameRoute(a: Db, b: Db, id: int)
    requires id in a.providers && id in b.providers
  {
    var p := a.providers[id];
    && p == b.providers[id]
    && ProxyResolves(a, p) == ProxyResolves(b, p)
    && (ProxyResolves(a, p) ==> RouteOf(a, p) == RouteOf(b, p))
  }

  predicate SameGatewayView(a: Db, b: Db) {
    GatewayIds(a) == GatewayIds(b) && forall id | id in GatewayIds(a) :: SameRoute(a, b, id)
  }

  lemma {:induction false} SameRoutes(a: Db, b: Db)
    requires SameGatewayView(a, b) && AllResolve(a) && AllResolve(b)
    ensures Routes(a) == Routes(b)
  {
    forall id | id in GatewayIds(a) ensures Routes(a)[id] == Routes(b)[id] {
      assert SameRoute(a, b, id);
    }
  }

  /** The projection sees Gateway providers and the proxies they use, and nothing else. */
  lemma {:induction false} ProjectionSees(a: Db, b: Db)
    requires SameGatewayView(a, b)
    ensures Project(a) == Project(b)
  {
    forall id | id in GatewayIds(a)
      ensures ProxyResolves(a, a.providers[id]) == ProxyResolves(b, b.providers[id])
      ensures Complete(a.providers[id]) == Complete(b.providers[id])
    {
      assert SameRoute(a, b, id);
    }
    assert AllResolve(a) == AllResolve(b) && AllComplete(a) == AllComplete(b);
    if AllResolve(a) {
      SameRoutes(a, b);
    }
  }

  /** The frame: an accepted edit that leaves `gateway_changed` false cannot change the projection. */
  lemma {:induction false} UnchangedFlagFrame(db: Db, e: Edit)
    requires Accepted(db, e) && !GatewayChanged(db, e)
    ensures Project(Apply(db, e)) == Project(db)
  {
    var db' := Apply(db, e);
    assert GatewayIds(db') == GatewayIds(db);
    forall id | id in GatewayIds(db)
      ensures SameRoute(db, db', id)
    {
      if e.PatchProxy? {
        assert db.providers[id].proxyId != Some(e.id);
      }
    }
    ProjectionSees(db, db');
  }

  function AddProvider(db: Db, id: int, p: Provider): Db {
    db.(providers := db.providers[id := p])
  }

  lemma {:induction false} DirectProviderInvisible(db: Db, id: int, p: Provider)
    requires id !in db.providers && !p.gateway
    ensures Project(AddProvider(db, id, p)) == Project(db)
  {
    var db' := AddProvider(db, id, p);
    assert GatewayIds(db') == GatewayIds(db);
    ProjectionSees(db, db');
  }

  lemma {:induction false} DirectProviderCommutes(db: Db, e: Edit, id: int, p: Provider)
    requires id !in db.providers && !p.gateway && Target(e) != Some(id)
    ensures Project(Apply(AddProvider(db, id, p), e)) == Project(Apply(db, e))
  {
    assert Apply(AddProvider(db, id, p), e) == AddProvider(Apply(db, e), id, p);
    DirectProviderInvisible(Apply(db, e), id, p);
  }

  // ---- the protocol ----

  datatype Phase =
    | Free                                  // the configuration lock is free
    | Open(edit: Edit, changed: bool)       // locked; the session holds the edit
    | Pushed(edit: Edit)                    // locked; the Gateway accepted the candidate
    | Trial(route: Route)                   // locked by `temporary_gateway_provider`
    | Restoring                             // locked; compensating from committed state

  datatype State = State(db: Db, runtime: Runtime, phase: Phase)

  datatype Event =
    | Begin(edit: Edit)
    | BeginTrial(route: Route)
    | Push(faults: Faults)
    | Commit(lands: bool, raises: bool)     // `lands && raises`: committed, but the caller sees an error
    | Abort                                 // an exception or cancellation anywhere else under the lock
    | Restore(readOk: bool, faults: Faults)
    | Recover(faults: Faults)
    | RecoveryFails                         // reading the rows, or the commit after the reconcile, raised
    | MarkDown                              // the start-up reconcile raised: `mark_control_plane_degraded`
    | CreateDirect(id: int, provider: Provider)
    | Exit(process: nat)
    | Notice(process: nat)                  // the watcher of an exited process gets the manager's lock
    | Bind(process: nat)
    | PreflightEvent(fault: StartFault)

  const TRIAL_ID := 9_000_000_000_000_000_001

  function AddRoute(d: Desired, r: Route): Desired {
    match d
    case Nothing => Buildable(map[TRIAL_ID := r])
    case Buildable(snapshot) => Buildable(snapshot[TRIAL_ID := r])
    case Unbuildable => Unbuildable
  }

  /** What a push sends, when reading the rows does not raise. */
  function Candidate(s: State): Projection
    requires s.phase.Open? || s.phase.Trial?
  {
    match s.phase
    case Open(e, _) => Project(Apply(s.db, e))
    case Trial(r) => (match Project(s.db) case BadProxy => BadProxy case Wants(d) => Wants(AddRoute(d, r)))
  }

  predicate Enabled(s: State, ev: Event) {
    match ev
    case Begin(e) => s.phase == Free && Accepted(s.db, e)
    case BeginTrial(_) => s.phase == Free
    case Push(_) => (s.phase.Open? && s.phase.changed) || s.phase.Trial?
    case Commit(lands, raises) => ((s.phase.Open? && !s.phase.changed) || s.phase.Pushed?) && (lands || raises)
    case Abort => s.phase.Open? || s.phase.Pushed? || s.phase.Trial?
    case Restore(_, _) => s.phase == Restoring
    case Recover(_) => s.phase == Free
    case RecoveryFails => true
    case MarkDown => true
    case CreateDirect(id, p) =>
      id !in s.db.providers && !p.gateway
      && (s.phase.Open? || s.phase.Pushed? ==> Target(s.phase.edit) != Some(id))
    case Exit(p) => p in s.runtime.live
    case Notice(p) => CanNotice(s.runtime, p)
    case Bind(p) => p in s.runtime.live && p in s.runtime.unbound
    case PreflightEvent(_) => true
  }

  /** `restore_committed_gateway_snapshot`, and `mark_control_plane_degraded` when it raises. */
  function Restored(db: Db, r: Runtime, readOk: bool, f: Faults): Runtime {
    if !readOk || Project(db) == BadProxy then MarkDegraded(r)
    else
      var (r', out) := Reconciled(r, Project(db).desired, f);
      if out == Cancelled then MarkDegraded(r') else r'
  }

  function Step(s: State, ev: Event): State
    requires Enabled(s, ev)
  {
    match ev
    case Begin(e) => s.(phase := Open(e, GatewayChanged(s.db, e)))
    case BeginTrial(route) => s.(phase := Trial(route))
    case Push(f) =>
      (match Candidate(s)
       case BadProxy => s.(phase := if s.phase.Trial? then Free else Restoring)
       case Wants(d) =>
         var (r, out) := Reconciled(s.runtime, d, f);
         var accepted := out.Returned? && out.mode != Degraded && s.phase.Open?;
         s.(runtime := r, phase := if accepted then Pushed(s.phase.edit) else Restoring))
    case Commit(lands, raises) =>
      var db := if lands then Apply(s.db, s.phase.edit) else s.db;
      s.(db := db, phase := if raises && s.phase.Pushed? then Restoring else Free)
    case Abort => s.(phase := if s.phase.Pushed? || (s.phase.Open? && s.phase.changed) then Restoring else Free)
    case Restore(readOk, f) => s.(runtime := Restored(s.db, s.runtime, readOk, f), phase := Free)
    case Recover(f) =>
      (match Project(s.db)
       case BadProxy => s.(runtime := s.runtime.(mode := Degraded))
       case Wants(d) => s.(runtime := Reconciled(s.runtime, d, f).0))
    case RecoveryFails => s.(runtime := s.runtime.(mode := Degraded))
    case MarkDown => s.(runtime := MarkDegraded(s.runtime))
    case CreateDirect(id, p) => s.(db := AddProvider(s.db, id, p))
    case Exit(p) => s.(runtime := Exited(s.runtime, p))
    case Notice(p) => s.(runtime := Noticed(s.runtime, p))
    case Bind(p) => s.(runtime := Bound(s.runtime, p))
    case PreflightEvent(f) => s.(runtime := Preflight(s.runtime, f))
  }

  /** This push is cut off after the subprocess has taken a snapshot the manager has not recorded. */
  predicate CutOff(s: State, ev: Event) {
    && ev.Push? && Enabled(s, ev)
    && Candidate(s).Wants?
    && LosesTrack(s.runtime, Candidate(s).desired, ev.faults)
  }

  /** This late watcher drops the handle of a running process. */
  predicate Orphans(s: State, ev: Event) {
    ev.Notice? && Enabled(s, ev) && DropsHandle(s.runtime)
  }

  /** The two windows in which the manager loses track of what is served. */
  predicate Window(s: State, ev: Event) {
    CutOff(s, ev) || Orphans(s, ev)
  }

  ghost predicate Inv(s: State) {
    && Sound(s.runtime)
    && match s.phase
       case Free => Agrees(s.runtime, s.db)
       case Open(e, changed) =>
         && Agrees(s.runtime, s.db)
         && (!changed ==> Project(Apply(s.db, e)) == Project(s.db))
       case Pushed(e) => Agrees(s.runtime, Apply(s.db, e))
       case Trial(_) => Agrees(s.runtime, s.db)
       case Restoring => true
  }

  /** A push keeps the invariant if and only if it is not cut off. */
  lemma {:induction false} PushInv(s: State, f: Faults)
    requires Inv(s) && Enabled(s, Push(f))
    ensures Inv(Step(s, Push(f))) <==> !CutOff(s, Push(f))
    ensures Contained(Step(s, Push(f)).runtime)
  {
    if Candidate(s).Wants? {
      ReconcileSound(s.runtime, Candidate(s).desired, f);
      SuccessServes(s.runtime, Candidate(s).desired, f);
    }
  }

  /** A reconcile with committed state that returns ends in agreement. */
  lemma {:induction false} CommittedReconcileServes(r: Runtime, db: Db, f: Faults)
    requires Sound(r) && Project(db).Wants?
    ensures Reconciled(r, Project(db).desired, f).1.Returned? ==> Agrees(Reconciled(r, Project(db).desired, f).0, db)
  {
    SuccessServes(r, Project(db).desired, f);
  }

  /** A manager that agrees with the committed state does not lose track over it. */
  lemma {:induction false} CommittedReconcileSound(r: Runtime, db: Db, f: Faults)
    requires Sound(r) && Project(db).Wants? && Agrees(r, db)
    ensures Sound(Reconciled(r, Project(db).desired, f).0)
  {
    assert !LosesTrack(r, Project(db).desired, f);
    ReconcileSound(r, Project(db).desired, f);
  }

  /** Reconciling with committed state always ends in agreement: nothing is lost on that path. */
  lemma {:induction false} CommittedReconcileAgrees(r: Runtime, db: Db, f: Faults)
    requires Sound(r) && Project(db).Wants? && Agrees(r, db)
    ensures Agrees(Reconciled(r, Project(db).desired, f).0, db)
    ensures Sound(Reconciled(r, Project(db).desired, f).0)
  {
    FreshIdIsNew(r);
    ServesOneOf(r, Project(db).desired, f);
    CommittedReconcileSound(r, db, f);
  }

  lemma FreshIdIsNew(r: Runtime)
    requires Contained(r)
    ensures r.next !in r.live
  {
  }

  /** Compensation always ends in agreement when the manager has not lost track, whatever fails inside it. */
  lemma {:induction false} RestoreInv(s: State, readOk: bool, f: Faults)
    requires Inv(s) && s.phase == Restoring
    ensures Inv(Step(s, Restore(readOk, f)))
  {
    MarkDegradedStops(s.runtime);
    if readOk && Project(s.db).Wants? {
      var d := Project(s.db).desired;
      CommittedReconcileServes(s.runtime, s.db, f);
      ReconcileSound(s.runtime, d, f);
      MarkDegradedStops(Reconciled(s.runtime, d, f).0);
    }
  }

  lemma {:induction false} CreateDirectInv(s: State, id: int, p: Provider)
    requires Inv(s) && Enabled(s, CreateDirect(id, p))
    ensures Inv(Step(s, CreateDirect(id, p)))
  {
    DirectProviderInvisible(s.db, id, p);
    if s.phase.Open? || s.phase.Pushed? {
      DirectProviderCommutes(s.db, s.phase.edit, id, p);
    }
  }

  /** A late watcher keeps the invariant if and only if it does not drop a running process. */
  lemma {:induction false} NoticeInv(s: State, p: nat)
    requires Inv(s) && Enabled(s, Notice(p))
    ensures Inv(Step(s, Notice(p))) <==> !Orphans(s, Notice(p))
  {
    NoticeSound(s.runtime, p);
  }

  lemma {:induction false} ProcessInv(s: State, ev: Event)
    requires Inv(s) && Enabled(s, ev) && (ev.Exit? || ev.Bind? || ev.PreflightEvent?)
    ensures Inv(Step(s, ev))
  {
    match ev
    case Exit(p) => ProcessStepsSound(s.runtime, p, NoBinary);
    case Bind(p) => ProcessStepsSound(s.runtime, p, NoBinary);
    case PreflightEvent(f) => ProcessStepsSound(s.runtime, 0, f);
  }

  /** Every step keeps the invariant if and only if it falls into neither window. */
  lemma {:induction false} StepInv(s: State, ev: Event)
    requires Inv(s) && Enabled(s, ev)
    ensures Inv(Step(s, ev)) <==> !Window(s, ev)
  {
    match ev
    case Begin(e) => if !GatewayChanged(s.db, e) { UnchangedFlagFrame(s.db, e); }
    case BeginTrial(_) =>
    case Push(f) => PushInv(s, f);
    case Commit(_, _) =>
    case Abort =>
    case Restore(readOk, f) => RestoreInv(s, readOk, f);
    case Recover(f) => if Project(s.db).Wants? { CommittedReconcileAgrees(s.runtime, s.db, f); }
    case RecoveryFails =>
    case MarkDown => MarkDegradedStops(s.runtime);
    case CreateDirect(id, p) => CreateDirectInv(s, id, p);
    case Notice(p) => NoticeInv(s, p);
    case Exit(_) => ProcessInv(s, ev);
    case Bind(_) => ProcessInv(s, ev);
    case PreflightEvent(_) => ProcessInv(s, ev);
  }

  ghost predicate Runs(s: State, evs: seq<Event>)
    decreases |evs|
  {
    evs == [] || (Enabled(s, evs[0]) && Runs(Step(s, evs[0]), evs[1..]))
  }

  ghost function After(s: State, evs: seq<Event>): State
    requires Runs(s, evs)
    decreases |evs|
  {
    if evs == [] then s else After(Step(s, evs[0]), evs[1..])
  }

  /** No step of the run falls into one of the windows. */
  ghost predicate NeverLost(s: State, evs: seq<Event>)
    requires Runs(s, evs)
    decreases |evs|
  {
    evs != [] ==> !Window(s, evs[0]) && NeverLost(Step(s, evs[0]), evs[1..])
  }

  /** The invariant holds all along a run if and only if the run stays out of both windows. */
  ghost predicate AlwaysInv(s: State, evs: seq<Event>)
    requires Runs(s, evs)
    decreases |evs|
  {
    Inv(s) && (evs != [] ==> AlwaysInv(Step(s, evs[0]), evs[1..]))
  }

  lemma {:induction false} RunInv(s: State, evs: seq<Event>)
    requires Inv(s) && Runs(s, evs)
    ensures AlwaysInv(s, evs) <==> NeverLost(s, evs)
    ensures NeverLost(s, evs) ==> Inv(After(s, evs))
    decreases |evs|
  {
    if evs != [] {
      StepInv(s, evs[0]);
      if !Window(s, evs[0]) {
        RunInv(Step(s, evs[0]), evs[1..]);
      }
    }
  }

  /**
    Over every run from a fresh process on any database: exceptions, cancellations, exits, late
    watchers and failed commits wherever they strike, whenever the configuration lock is free the
    Gateway serves the committed configuration or nothing, unless some push was cut off or some
    late watcher dropped a running process.
  */
  lemma {:induction false} AgreementOverRuns(db: Db, evs: seq<Event>)
    requires Runs(State(db, FRESH, Free), evs) && NeverLost(State(db, FRESH, Free), evs)
    ensures var s := After(State(db, FRESH, Free), evs);
            s.phase == Free ==> Agrees(s.runtime, s.db)
  {
    RunInv(State(db, FRESH, Free), evs);
  }

  // ---- the first window, exactly ----

  /**
    A push that is cut off always ends in disagreement once compensation has read the committed
    rows: compensation compares fingerprints, finds the committed one, and sends nothing.
    Compensation restores agreement if and only if the push was not cut off or it could not read.
  */
  lemma {:induction false} CutOffExactly(s: State, f: Faults, readOk: bool, g: Faults)
    requires Inv(s) && Enabled(s, Push(f)) && Step(s, Push(f)).phase == Restoring
    ensures var s' := Step(Step(s, Push(f)), Restore(readOk, g));
            && s'.phase == Free
            && (Agrees(s'.runtime, s'.db) <==> !CutOff(s, Push(f)) || !readOk)
  {
    PushInv(s, f);
    var s1 := Step(s, Push(f));
    if CutOff(s, Push(f)) {
      CutOffState(s, f);
      MarkDegradedStops(s1.runtime);
    } else {
      RestoreInv(s1, readOk, g);
    }
  }

  /** What a cut-off push leaves: the candidate is served, the manager believes in the committed one. */
  lemma {:induction false} CutOffState(s: State, f: Faults)
    requires Inv(s) && CutOff(s, Push(f))
    ensures var r := Step(s, Push(f)).runtime;
      && r.Alive() && r.mode == Ready && r.fingerprint == s.runtime.fingerprint
      && r.fingerprint.Some? && Project(s.db) == Wants(Buildable(r.fingerprint.value))
      && r.Serving() == Some(Candidate(s).desired.snapshot) && r.Serving() != r.fingerprint
  {
    var d := Candidate(s).desired;
    var sent := s.runtime.(wanted := true, revision := s.runtime.revision + 1);
    assert Contained(sent) && sent.Answers();
    TakenContained(sent, d.snapshot);
    assert Step(s, Push(f)).runtime == Taken(sent, d.snapshot);
  }

  /** What recovery after a lost track consists of. */
  predicate Recoveries(evs: seq<Event>) {
    forall i :: 0 <= i < |evs| ==> evs[i].Recover? || evs[i].RecoveryFails?
  }

  /**
    Some recovery sends the committed snapshot and it, or the stop after it, gets through.  While
    the manager trusts its fingerprint no recovery sends anything; it stops trusting it when one
    fails.
  */
  predicate Repairs(evs: seq<Event>, trusted: bool) {
    && evs != []
    && (if evs[0].RecoveryFails? then Repairs(evs[1..], false)
        else (evs[0].Recover? && !trusted && evs[0].faults.put != PutCancelled(false))
             || Repairs(evs[1..], trusted))
  }

  /** The manager holds the committed fingerprint while its process serves something else. */
  ghost predicate Misled(s: State) {
    && s.phase == Free && Contained(s.runtime) && s.runtime.Alive() && s.runtime.Answers()
    && s.runtime.fingerprint.Some? && Project(s.db) == Wants(Buildable(s.runtime.fingerprint.value))
    && s.runtime.Serving().Some? && s.runtime.Serving() != s.runtime.fingerprint
  }

  /** One recovery of a misled manager. */
  lemma {:induction false} MisledRecovers(s: State, f: Faults)
    requires Misled(s)
    ensures var s' := Step(s, Recover(f));
      if s.runtime.mode == Ready || f.put == PutCancelled(false)
      then Misled(s') && s'.runtime.mode == s.runtime.mode
      else Inv(s') && s'.phase == Free
  {
    var asked := s.runtime.(wanted := true);
    var sent := asked.(revision := asked.revision + 1);
    var snapshot := s.runtime.fingerprint.value;
    if s.runtime.mode == Ready {
      assert Step(s, Recover(f)).runtime == asked;
    } else {
      assert Step(s, Recover(f)).runtime == Sent(sent, snapshot, f).0;
      MisledSends(s, sent, snapshot, f);
    }
  }

  lemma {:induction false} MisledSends(s: State, sent: Runtime, snapshot: Snapshot, f: Faults)
    requires Contained(sent) && sent.Alive() && sent.Answers() && sent.wanted && sent.mode != Ready
    requires Project(s.db) == Wants(Buildable(snapshot))
    ensures var r := Sent(sent, snapshot, f).0;
      if f.put == PutCancelled(false) then r == sent else Sound(r) && Agrees(r, s.db)
  {
    TakenContained(sent, snapshot);
    match f.put
    case PutOk => AcceptedPut(sent, snapshot);
    case PutFails(applied) => DegradeContained(if applied then Taken(sent, snapshot) else sent, f);
    case PutCancelled(applied) =>
  }

  /** Recovery never ends agreement. */
  lemma {:induction false} RecoveriesKeepInv(s: State, evs: seq<Event>)
    requires Inv(s) && s.phase == Free && Runs(s, evs) && Recoveries(evs)
    ensures Inv(After(s, evs)) && After(s, evs).phase == Free
    decreases |evs|
  {
    if evs != [] {
      StepInv(s, evs[0]);
      RecoveriesKeepInv(Step(s, evs[0]), evs[1..]);
    }
  }

  /**
    Recovery from committed state repairs a cut-off push if and only if some recovery fails first
    and a later one's PUT is not cut off before it gets through.
  */
  lemma {:induction false} RecoveryRepairsExactly(s: State, evs: seq<Event>)
    requires Misled(s) && Runs(s, evs) && Recoveries(evs)
    ensures After(s, evs).phase == Free
    ensures Agrees(After(s, evs).runtime, After(s, evs).db) <==> Repairs(evs, s.runtime.mode == Ready)
    decreases |evs|
  {
    if evs != [] {
      var s' := Step(s, evs[0]);
      if evs[0].Recover? {
        MisledRecovers(s, evs[0].faults);
        if s.runtime.mode == Ready || evs[0].faults.put == PutCancelled(false) {
          RecoveryRepairsExactly(s', evs[1..]);
        } else {
          RecoveriesKeepInv(s', evs[1..]);
        }
      } else {
        RecoveryRepairsExactly(s', evs[1..]);
      }
    }
  }

  lemma {:induction false} TrustedNeverRepairs(evs: seq<Event>)
    requires forall i :: 0 <= i < |evs| ==> evs[i].Recover?
    ensures !Repairs(evs, true)
  {
    if evs != [] {
      TrustedNeverRepairs(evs[1..]);
    }
  }

  /** So recoveries that succeed never repair it, however many there are. */
  lemma {:induction false} CutOffPersists(s: State, evs: seq<Event>)
    requires Misled(s) && s.runtime.mode == Ready && Runs(s, evs)
    requires forall i :: 0 <= i < |evs| ==> evs[i].Recover?
    ensures !Agrees(After(s, evs).runtime, After(s, evs).db)
  {
    RecoveryRepairsExactly(s, evs);
    TrustedNeverRepairs(evs);
  }

  /** A cut-off push and the compensation after it leave a misled manager. */
  lemma {:induction false} CutOffMisleads(s: State, f: Faults, g: Faults)
    requires Inv(s) && CutOff(s, Push(f)) && Step(s, Push(f)).phase == Restoring
    ensures var s' := Step(Step(s, Push(f)), Restore(true, g)); Misled(s') && s'.runtime.mode == Ready
  {
    CutOffState(s, f);
    PushInv(s, f);
    var s1 := Step(s, Push(f));
    assert Step(s1, Restore(true, g)).runtime == s1.runtime.(wanted := true);
  }

  // ---- the second window, exactly ----

  /** Compensation gets a new process onto the socket path, or its PUT reaches the one there. */
  predicate TakesOver(db: Db, readOk: bool, g: Faults) {
    && readOk && Project(db).Wants? && Project(db).desired != Nothing
    && match g.start
       case NoBinary => false
       case StartFails(bound) => bound
       case StartCancelled(spawned, bound) => spawned && bound
       case StartOk(bound) =>
         bound || (Project(db).desired.Buildable? && (g.put.PutOk? || g.put.applied))
  }

  /** A process nobody holds the handle of, on the socket path, serving `snapshot`. */
  predicate Orphaned(r: Runtime, snapshot: Snapshot) {
    && r.handle == None && r.Answers() && r.Serving() == Some(snapshot) && r.next !in r.live
  }

  lemma {:induction false} OrphanStays(r: Runtime, snapshot: Snapshot, cancelled: bool)
    requires Orphaned(r, snapshot)
    ensures Stop(r, cancelled).0.Serving() == Some(snapshot) && !Stop(r, cancelled).1
    ensures MarkDegraded(r).Serving() == Some(snapshot)
    ensures forall f :: Reconciled(r, Nothing, f).0.Serving() == Some(snapshot)
  {
  }

  /** Stopping a new process leaves whatever another one serves on the socket path. */
  lemma {:induction false} StopOther(r: Runtime, cancelled: bool)
    ensures Stop(r, cancelled).0.Serving() == if r.handle.Some? && r.front == r.handle then None else r.Serving()
  {
  }

  /** A start beside an orphan: who answers on the path afterwards, and what. */
  lemma {:induction false} StartBesideOrphan(r: Runtime, snapshot: Snapshot, bound: bool)
    requires Orphaned(r, snapshot)
    ensures var s := Started(r, bound);
      && s.Alive() && s.Answers() && s.mode == Starting
      && (if bound then s.front == s.handle && s.Serving() == None
          else s.front != s.handle && s.Serving() == Some(snapshot))
  {
  }

  /** How a send ends once a cancellation has been answered by marking the control plane degraded. */
  function Settled(result: (Runtime, Outcome)): Runtime {
    if result.1 == Cancelled then MarkDegraded(result.0) else result.0
  }

  lemma {:induction false} DegradeBeside(r: Runtime, f: Faults)
    ensures Settled(Degrade(r, f)).Serving()
         == if r.handle.Some? && r.front == r.handle then None else r.Serving()
  {
    var stopped := Stop(r.(mode := Degraded), f.stopCancelled).0;
    StopOther(r.(mode := Degraded), f.stopCancelled);
    StopOther(stopped.(mode := Degraded), false);
  }

  lemma {:induction false} TakenBeside(r: Runtime, snapshot: Snapshot)
    requires r.Answers()
    ensures var taken := Taken(r, snapshot);
      taken.Serving() == Some(snapshot) && taken.front == r.front && taken.handle == r.handle
  {
  }

  /** A PUT that raises ends in a stop: the orphan goes on serving what it has by then. */
  lemma {:induction false} FailedPutBeside(r: Runtime, snapshot: Snapshot, applied: bool, f: Faults)
    requires r.Answers() && f.put == PutFails(applied)
    requires r.front == r.handle ==> r.Serving() == None
    ensures var end := Settled(Sent(r, snapshot, f)).Serving();
            if applied then end in {Some(snapshot), None}
            else end == r.Serving()
  {
    TakenBeside(r, snapshot);
    DegradeBeside(if applied then Taken(r, snapshot) else r, f);
  }

  lemma {:induction false} CutPutBeside(r: Runtime, snapshot: Snapshot, applied: bool, f: Faults)
    requires r.Answers() && f.put == PutCancelled(applied)
    requires r.front == r.handle ==> r.Serving() == None
    ensures var end := Settled(Sent(r, snapshot, f)).Serving();
            if applied then end in {Some(snapshot), None}
            else end == r.Serving()
  {
    TakenBeside(r, snapshot);
    StopOther((if applied then Taken(r, snapshot) else r).(mode := Degraded), false);
  }

  /** Sending the committed snapshot from there ends with it, with nothing, or with what was served. */
  lemma {:induction false} SendBesideOrphan(r: Runtime, snapshot: Snapshot, f: Faults)
    requires r.Answers()
    requires r.front == r.handle ==> r.Serving() == None
    ensures var end := Settled(Sent(r, snapshot, f)).Serving();
            if f.put.PutOk? || f.put.applied then end in {Some(snapshot), None}
            else end == r.Serving()
  {
    match f.put
    case PutOk => TakenBeside(r, snapshot);
    case PutFails(applied) => FailedPutBeside(r, snapshot, applied, f);
    case PutCancelled(applied) => CutPutBeside(r, snapshot, applied, f);
  }

  lemma {:induction false} SyncBesideOrphan(r: Runtime, d: Desired, f: Faults)
    requires r.Alive() && r.Answers() && r.mode == Starting && d != Nothing
    requires r.front == r.handle ==> r.Serving() == None
    ensures var end := Settled(Synced(r, d, f)).Serving();
            if d.Buildable? && (f.put.PutOk? || f.put.applied) then end in {Some(d.snapshot), None}
            else end == r.Serving()
  {
    if d.Unbuildable? {
      DegradeBeside(r, f);
    } else {
      var sent := r.(revision := r.revision + 1);
      SendBesideOrphan(sent, d.snapshot, f);
      assert Synced(r, d, f) == Sent(sent, d.snapshot, f);
    }
  }

  /** Whatever a reconcile does, it leaves what was served, the snapshot asked for, or nothing. */
  lemma {:induction false} ServesOneOf(r0: Runtime, d: Desired, f: Faults)
    requires r0.next !in r0.live
    ensures var served := Reconciled(r0, d, f).0.Serving();
      || served in {r0.Serving(), None}
      || (d.Buildable? && served == Some(d.snapshot))
  {
    var r := r0.(wanted := d != Nothing);
    if d == Nothing {
      StopOther(r, f.stopCancelled);
    } else if r.Alive() {
      SyncServesOneOf(r, d, f);
    } else if f.start.StartOk? {
      SyncServesOneOf(Started(r, f.start.bound), d, f);
    }
  }

  lemma {:induction false} SyncServesOneOf(r: Runtime, d: Desired, f: Faults)
    requires d != Nothing
    ensures var served := Synced(r, d, f).0.Serving();
      || served in {r.Serving(), None}
      || (d.Buildable? && served == Some(d.snapshot))
  {
    if d.Unbuildable? {
      StopOther(r.(mode := Degraded), f.stopCancelled);
    } else if !(r.fingerprint == Some(d.snapshot) && r.mode == Ready) {
      NewSnapshotServesOneOf(r, d.snapshot, f);
    }
  }

  lemma {:induction false} NewSnapshotServesOneOf(r: Runtime, snapshot: Snapshot, f: Faults)
    requires !(r.fingerprint == Some(snapshot) && r.mode == Ready)
    ensures Synced(r, Buildable(snapshot), f).0.Serving() in {r.Serving(), None, Some(snapshot)}
  {
    var sent := r.(revision := r.revision + 1);
    SentServesOneOf(sent, snapshot, f);
    assert Synced(r, Buildable(snapshot), f) == Sent(sent, snapshot, f);
  }

  lemma {:induction false} SentServesOneOf(r: Runtime, snapshot: Snapshot, f: Faults)
    ensures Sent(r, snapshot, f).0.Serving() in {r.Serving(), None, Some(snapshot)}
  {
    var taken := Taken(r, snapshot);
    assert taken.Serving() == if r.Answers() then Some(snapshot) else None;
    StopOther(r.(mode := Degraded), f.stopCancelled);
    StopOther(taken.(mode := Degraded), f.stopCancelled);
  }

  /** Compensation never ends agreement, whatever the manager knows. */
  lemma {:induction false} RestoreKeepsAgreement(r: Runtime, db: Db, readOk: bool, g: Faults)
    requires Agrees(r, db) && r.next !in r.live
    ensures Agrees(Restored(db, r, readOk, g), db)
  {
    StopOther(r.(mode := Degraded), false);
    if readOk && Project(db).Wants? {
      var r' := Reconciled(r, Project(db).desired, g).0;
      ServesOneOf(r, Project(db).desired, g);
      StopOther(r'.(mode := Degraded), false);
    }
  }

  lemma {:induction false} RestoreBesideOrphan(r: Runtime, db: Db, snapshot: Snapshot, readOk: bool, g: Faults)
    requires Orphaned(r, snapshot) && !Agrees(r, db)
    ensures Agrees(Restored(db, r, readOk, g), db) <==> TakesOver(db, readOk, g)
  {
    OrphanStays(r, snapshot, false);
    if readOk && Project(db).Wants? && Project(db).desired != Nothing {
      var d := Project(db).desired;
      var asked := r.(wanted := true);
      OrphanStays(asked, snapshot, g.stopCancelled);
      match g.start
      case NoBinary =>
      case StartFails(bound) =>
      case StartCancelled(spawned, bound) =>
        StopOther(CutStart(asked, spawned, bound).(mode := Degraded), false);
      case StartOk(bound) =>
        StartBesideOrphan(asked, snapshot, bound);
        SyncBesideOrphan(Started(asked, bound), d, g);
    }
  }

  /**
    A commit that fails after a late watcher has dropped the Gateway process: compensation
    restores agreement if and only if the watcher dropped nothing that runs, or the candidate was
    the committed configuration after all, or compensation takes the socket path over.  With no
    Gateway provider committed it never does.
  */
  lemma {:induction false} OrphanedExactly(s: State, p: nat, readOk: bool, g: Faults)
    requires Inv(s) && s.phase.Pushed? && Enabled(s, Notice(p))
    ensures var s1 := Step(s, Notice(p));
            var s2 := Step(s1, Commit(false, true));
            var s3 := Step(s2, Restore(readOk, g));
            && s3.phase == Free && s3.db == s.db
            && (Agrees(s3.runtime, s3.db) <==>
                  !Orphans(s, Notice(p)) || Agrees(s.runtime, s.db) || TakesOver(s.db, readOk, g))
  {
    var s1 := Step(s, Notice(p));
    var s2 := Step(s1, Commit(false, true));
    NoticeSound(s.runtime, p);
    if Agrees(s.runtime, s.db) {
      RestoreKeepsAgreement(s2.runtime, s.db, readOk, g);
    } else if Orphans(s, Notice(p)) {
      RestoreBesideOrphan(s2.runtime, s.db, s.runtime.Serving().value, readOk, g);
    } else {
      RestoreInv(s2, readOk, g);
    }
  }

  /** While no Gateway provider is committed, no number of recoveries, failed or not, stops the orphan. */
  lemma {:induction false} OrphanPersists(s: State, snapshot: Snapshot, evs: seq<Event>)
    requires s.phase == Free && Project(s.db) == Wants(Nothing) && Orphaned(s.runtime, snapshot)
    requires Runs(s, evs) && Recoveries(evs)
    ensures After(s, evs).runtime.Serving() == Some(snapshot)
    decreases |evs|
  {
    if evs != [] {
      if evs[0].Recover? {
        OrphanStays(s.runtime, snapshot, evs[0].faults.stopCancelled);
      }
      OrphanPersists(Step(s, evs[0]), snapshot, evs[1..]);
    }
  }

  /** The edit goes through: pushed if it concerns the Gateway, and committed. */
  function Committed(s: State, e: Edit, f: Faults): State
    requires s.phase == Free && Accepted(s.db, e)
    requires GatewayChanged(s.db, e) ==> Step(Step(s, Begin(e)), Push(f)).phase.Pushed?
  {
    var open := Step(s, Begin(e));
    Step(if GatewayChanged(s.db, e) then Step(open, Push(f)) else open, Commit(true, false))
  }

  /**
    An edit that succeeds after a process has been dropped.  If it concerns the Gateway, its push
    puts the new configuration on the socket path, through a new process or through the dropped
    one, except when no Gateway provider is left: then nothing is sent and nothing stopped.  So it
    ends in agreement if and only if some Gateway provider is left.  If it does not concern the
    Gateway, agreement is what it was.
  */
  lemma {:induction false} OrphanedEditExactly(s: State, snapshot: Snapshot, e: Edit, f: Faults)
    requires s.phase == Free && Orphaned(s.runtime, snapshot) && Accepted(s.db, e)
    requires GatewayChanged(s.db, e) ==> Step(Step(s, Begin(e)), Push(f)).phase.Pushed?
    ensures var s' := Committed(s, e, f);
      && s'.phase == Free && s'.db == Apply(s.db, e)
      && (Agrees(s'.runtime, s'.db) <==>
            if GatewayChanged(s.db, e) then Project(s'.db) != Wants(Nothing) else Agrees(s.runtime, s.db))
      && (Project(s'.db) == Wants(Nothing) ==> s'.runtime.Serving() == Some(snapshot))
  {
    if !GatewayChanged(s.db, e) {
      UnchangedFlagFrame(s.db, e);
    } else if Project(Apply(s.db, e)) == Wants(Nothing) {
      OrphanStays(s.runtime, snapshot, f.stopCancelled);
    } else {
      PushBesideOrphan(s.runtime, snapshot, Project(Apply(s.db, e)).desired, f);
    }
  }

  /** A reconcile that reports success beside an orphan has put the snapshot asked for on the path. */
  lemma {:induction false} PushBesideOrphan(r: Runtime, snapshot: Snapshot, d: Desired, f: Faults)
    requires Orphaned(r, snapshot) && d != Nothing
    ensures var (r', out) := Reconciled(r, d, f);
      out.Returned? && out.mode != Degraded ==> d.Buildable? && r'.Serving() == Some(d.snapshot)
  {
    if f.start.StartOk? {
      var started := Started(r.(wanted := true), f.start.bound);
      StartBesideOrphan(r.(wanted := true), snapshot, f.start.bound);
      if d.Buildable? {
        TakenBeside(started.(revision := started.revision + 1), d.snapshot);
      }
    }
  }

  // ---- concrete runs into both windows ----

  /** A run and then one more step. */
  lemma {:induction false} RunSnoc(s: State, evs: seq<Event>, ev: Event)
    requires Runs(s, evs) && Enabled(After(s, evs), ev)
    ensures Runs(s, evs + [ev]) && After(s, evs + [ev]) == Step(After(s, evs), ev)
    decreases |evs|
  {
    if evs == [] {
      assert [] + [ev] == [ev];
      assert Runs(Step(s, ev), []);
      RunCons(s, ev, []);
      assert [ev] + [] == [ev];
    } else {
      RunSnoc(Step(s, evs[0]), evs[1..], ev);
      RunCons(s, evs[0], evs[1..] + [ev]);
      assert [evs[0]] + (evs[1..] + [ev]) == evs + [ev];
    }
  }

  /** The first provider is being created when the process its preflight started exits. */
  lemma {:induction false} ExitBeforePush(p: Provider) returns (s: State, evs: seq<Event>)
    requires p.gateway
    ensures Runs(s, evs) && s == State(Db(map[], map[]), FRESH, Free) && (forall ev :: ev in evs ==> !ev.Push?)
    ensures var r := After(s, evs).runtime;
      && After(s, evs).phase == Open(CreateGateway(1, p), true) && After(s, evs).db == s.db
      && r.handle == Some(0) == r.front && r.live == map[] && r.next == 1 && 0 in r.watchers && r.mode == Starting
  {
    s := State(Db(map[], map[]), FRESH, Free);
    evs := [];
    RunSnoc(s, evs, Begin(CreateGateway(1, p)));
    evs := evs + [Begin(CreateGateway(1, p))];
    RunSnoc(s, evs, PreflightEvent(StartOk(true)));
    evs := evs + [PreflightEvent(StartOk(true))];
    RunSnoc(s, evs, Exit(0));
    evs := evs + [Exit(0)];
  }

  /** The push starts a second process and succeeds: the candidate is served, uncommitted. */
  lemma {:induction false} RestartedPush() returns (s: State, evs: seq<Event>, p: Provider)
    ensures Runs(s, evs) && s == State(Db(map[], map[]), FRESH, Free)
    ensures forall ev :: ev in evs && ev.Push? ==> ev.faults.put == PutOk
    ensures var r := After(s, evs).runtime;
      && After(s, evs).phase == Pushed(CreateGateway(1, p)) && After(s, evs).db == s.db
      && r.handle == Some(1) == r.front && r.live.Keys == {1} && r.Serving().Some? && r.next == 2 && 0 in r.watchers
  {
    var fine := Faults(StartOk(true), PutOk, false);
    p := Provider(true, true, "https://upstream.example/v1", "key", [], "m", "", None, "");
    s, evs := ExitBeforePush(p);
    WitnessProjection(Apply(s.db, CreateGateway(1, p)), p);
    RunSnoc(s, evs, Push(fine));
    evs := evs + [Push(fine)];
  }

  /** Then the late watcher reports, the commit fails, and the key stays served for good. */
  lemma {:induction false} OrphanWitness() returns (s: State, evs: seq<Event>)
    ensures Runs(s, evs) && s == State(Db(map[], map[]), FRESH, Free)
    ensures forall ev :: ev in evs && ev.Push? ==> ev.faults.put == PutOk
    ensures After(s, evs).phase == Free && After(s, evs).db == s.db
    ensures !Agrees(After(s, evs).runtime, After(s, evs).db)
  {
    var fine := Faults(StartOk(true), PutOk, false);
    var p;
    s, evs, p := RestartedPush();
    assert GatewayIds(s.db) == {} && Project(s.db) == Wants(Nothing);
    var snapshot := After(s, evs).runtime.Serving().value;
    RunSnoc(s, evs, Notice(0));
    evs := evs + [Notice(0)];
    assert Orphaned(After(s, evs).runtime, snapshot);
    RunSnoc(s, evs, Commit(false, true));
    evs := evs + [Commit(false, true)];
    OrphanStays(After(s, evs).runtime, snapshot, false);
    RunSnoc(s, evs, Restore(true, fine));
    evs := evs + [Restore(true, fine)];
  }

  const FINE := Faults(StartOk(true), PutOk, false)

  function WithKey(key: string): Provider {
    Provider(true, true, "https://upstream.example/v1", key, [], "m", "", None, "")
  }

  /** One committed provider, and its Gateway process started by a recovery. */
  lemma {:induction false} ServedFromStart(p: Provider) returns (s: State, evs: seq<Event>)
    requires p.gateway && Complete(p) && p.proxyId == None
    ensures s == State(Db(map[1 := p], map[]), FRESH, Free) && Runs(s, evs) && evs == [Recover(FINE)]
    ensures var r := After(s, evs).runtime;
      && After(s, evs).phase == Free && After(s, evs).db == s.db && Inv(After(s, evs))
      && r.handle == Some(0) == r.front && r.live.Keys == {0} && r.next == 1 && r.watchers == {0}
      && r.mode == Ready && r.fingerprint == Some(Routes(s.db)) == r.Serving()
  {
    s := State(Db(map[1 := p], map[]), FRESH, Free);
    WitnessProjection(s.db, p);
    evs := [];
    RunSnoc(s, evs, Recover(FINE));
    evs := evs + [Recover(FINE)];
    StepInv(s, Recover(FINE));
  }

  /** A concrete run that ends with the Gateway serving a key the database never committed. */
  lemma {:induction false} CutOffWitness() returns (s: State, evs: seq<Event>)
    ensures Runs(s, evs) && s.runtime == FRESH && s.phase == Free
    ensures After(s, evs).phase == Free && After(s, evs).db == s.db
    ensures !Agrees(After(s, evs).runtime, After(s, evs).db)
  {
    var edit, cut := UpdateProvider(1, WithKey("new-key")), Faults(StartOk(true), PutCancelled(true), false);
    s, evs := ServedFromStart(WithKey("old-key"));
    WitnessProjection(s.db, WithKey("old-key"));
    WitnessProjection(Apply(s.db, edit), WithKey("new-key"));
    assert Routes(s.db)[1].apiKey != Routes(Apply(s.db, edit))[1].apiKey;
    RunSnoc(s, evs, Begin(edit));
    evs := evs + [Begin(edit)];
    var open := After(s, evs);
    CutOffExactly(open, cut, true, FINE);
    RunSnoc(s, evs, Push(cut));
    evs := evs + [Push(cut)];
    RunSnoc(s, evs, Restore(true, FINE));
    evs := evs + [Restore(true, FINE)];
  }

  /** Nothing the manager or the database is asked for goes wrong at this step. */
  predicate Faultless(ev: Event) {
    match ev
    case Recover(f) => f == FINE
    case Push(f) => f == FINE
    case Commit(lands, raises) => lands && !raises
    case _ => ev.Begin? || ev.Exit? || ev.Notice?
  }

  /** The process exits. */
  lemma {:induction false} ServedAndExited() returns (s: State, evs: seq<Event>)
    ensures s == State(Db(map[1 := WithKey("key")], map[]), FRESH, Free) && Runs(s, evs)
    ensures forall ev :: ev in evs ==> Faultless(ev)
    ensures var r := After(s, evs).runtime;
      && After(s, evs).phase == Free && After(s, evs).db == s.db
      && !r.Alive() && r.live == map[] && r.next == 1 && r.watchers == {0}
  {
    s, evs := ServedFromStart(WithKey("key"));
    RunSnoc(s, evs, Exit(0));
    evs := evs + [Exit(0)];
  }

  /** A recovery starts a second one; the first one's watcher has yet to report. */
  lemma {:induction false} RestartedByRecovery() returns (s: State, evs: seq<Event>)
    ensures s == State(Db(map[1 := WithKey("key")], map[]), FRESH, Free) && Runs(s, evs)
    ensures forall ev :: ev in evs ==> Faultless(ev)
    ensures var r := After(s, evs).runtime;
      && After(s, evs).phase == Free && After(s, evs).db == s.db
      && r.front == Some(1) && r.live == map[1 := Some(Routes(s.db))] && r.next == 2 && 0 in r.watchers
  {
    s, evs := ServedAndExited();
    WitnessProjection(s.db, WithKey("key"));
    RunSnoc(s, evs, Recover(FINE));
    evs := evs + [Recover(FINE)];
  }

  /** Then it does, and drops the second one. */
  lemma {:induction false} DroppedAfterRecovery() returns (s: State, evs: seq<Event>)
    ensures s == State(Db(map[1 := WithKey("key")], map[]), FRESH, Free) && Runs(s, evs)
    ensures forall ev :: ev in evs ==> Faultless(ev)
    ensures After(s, evs).phase == Free && After(s, evs).db == s.db
    ensures Orphaned(After(s, evs).runtime, Routes(s.db))
  {
    s, evs := RestartedByRecovery();
    RunSnoc(s, evs, Notice(0));
    evs := evs + [Notice(0)];
  }

  /** A run and then a whole successful edit that concerns the Gateway. */
  lemma {:induction false} RunEdit(s: State, evs: seq<Event>, e: Edit, f: Faults)
    requires Runs(s, evs) && After(s, evs).phase == Free
    requires Accepted(After(s, evs).db, e) && GatewayChanged(After(s, evs).db, e)
    requires Step(Step(After(s, evs), Begin(e)), Push(f)).phase.Pushed?
    ensures var more := evs + [Begin(e)] + [Push(f)] + [Commit(true, false)];
      Runs(s, more) && After(s, more) == Committed(After(s, evs), e, f)
  {
    RunSnoc(s, evs, Begin(e));
    RunSnoc(s, evs + [Begin(e)], Push(f));
    RunSnoc(s, evs + [Begin(e)] + [Push(f)], Commit(true, false));
  }

  /** Deleting the last provider is pushed without a fault: there is nothing to send. */
  lemma {:induction false} LastDeletionPushes(s: State, snapshot: Snapshot, p: Provider)
    requires s.phase == Free && Orphaned(s.runtime, snapshot) && s.db == Db(map[1 := p], map[]) && p.gateway
    ensures var e := DeleteProvider(1);
      && Accepted(s.db, e) && GatewayChanged(s.db, e)
      && Step(Step(s, Begin(e)), Push(FINE)).phase.Pushed?
      && Apply(s.db, e).providers == map[] && Project(Apply(s.db, e)) == Wants(Nothing)
  {
    var e := DeleteProvider(1);
    assert GatewayIds(Apply(s.db, e)) == {};
    assert Project(Apply(s.db, e)) == Wants(Nothing);
    OrphanStays(s.runtime, snapshot, false);
  }

  /**
    No step fails: the last provider is deleted after its process has been dropped, the deletion is
    committed, and its key is still served.
  */
  lemma {:induction false} DeletedKeyWitness() returns (s: State, evs: seq<Event>)
    ensures s == State(Db(map[1 := WithKey("key")], map[]), FRESH, Free) && Runs(s, evs)
    ensures forall ev :: ev in evs ==> Faultless(ev)
    ensures After(s, evs).phase == Free && After(s, evs).db.providers == map[]
    ensures After(s, evs).runtime.Serving() == Some(Routes(s.db)) && !Agrees(After(s, evs).runtime, After(s, evs).db)
  {
    s, evs := DroppedAfterRecovery();
    var edit := DeleteProvider(1);
    LastDeletionPushes(After(s, evs), Routes(s.db), WithKey("key"));
    RunEdit(s, evs, edit, FINE);
    OrphanedEditExactly(After(s, evs), Routes(s.db), edit, FINE);
    evs := evs + [Begin(edit)] + [Push(FINE)] + [Commit(true, false)];
  }

  lemma {:induction false} RunCons(s: State, ev: Event, rest: seq<Event>)
    requires Enabled(s, ev) && Runs(Step(s, ev), rest)
    ensures Runs(s, [ev] + rest) && After(s, [ev] + rest) == After(Step(s, ev), rest)
  {
    assert ([ev] + rest)[1..] == rest;
  }

  lemma {:induction false} WitnessProjection(db: Db, p: Provider)
    requires db.providers == map[1 := p] && p.gateway && Complete(p) && p.proxyId == None
    ensures AllResolve(db) && Project(db) == Wants(Buildable(Routes(db)))
    ensures Routes(db).Keys == {1} && Routes(db)[1] == RouteOf(db, p)
  {
    assert GatewayIds(db) == {1};
  }
}
