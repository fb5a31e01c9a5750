/**
  What the Gateway's manager and the edits around it achieve: exactly when a reconcile succeeds,
  what each outcome leaves behind, and that an edit nothing disturbs is committed and served.
*/
module GatewayProgress {
  import opened Common
  import opened GatewayRuntime
  import opened GatewayAgreement

  /** The snapshot is the one the manager has had acknowledged, and it is ready. */
  predicate Current(r: Runtime, snapshot: Snapshot) {
    r.Alive() && r.mode == Ready && r.fingerprint == Some(snapshot)
  }

  /** A subprocess takes the PUT: the one at hand answers, or a new one starts. */
  predicate Takes(r: Runtime, f: Faults) {
    (if r.Alive() then r.Answers() else f.start.StartOk?) && f.put.PutOk?
  }

  // ---- one reconcile ----

  lemma {:induction false} NewProcessAnswers(r: Runtime, bound: bool)
    requires Contained(r) && !r.Alive()
    ensures var s := Started(r, bound);
      && s.Alive() && s.Answers() && s.handle == Some(r.next) && s.front == s.handle
      && s.watched == s.handle && r.next in s.watchers && s.live.Keys == {r.next}
      && s.mode == Starting && s.fingerprint == r.fingerprint && s.revision == r.revision
  {
    StartContained(r, bound, false);
  }

  /** A reconcile ends ready exactly if it has a snapshot that is current, or that a subprocess takes. */
  lemma {:induction false} ReadyExactly(r: Runtime, d: Desired, f: Faults)
    requires Sound(r)
    ensures Reconciled(r, d, f).1 == Returned(Ready) <==>
            d.Buildable? && (Current(r, d.snapshot) || Takes(r, f))
  {
    var asked := r.(wanted := d != Nothing);
    assert asked.Alive() == r.Alive() && asked.Answers() == r.Answers();
    if d != Nothing && !r.Alive() && f.start.StartOk? {
      NewProcessAnswers(asked, f.start.bound);
    }
  }

  /** What striking where cancels a reconcile: the start, a PUT that is needed, or the stop of a process. */
  predicate Interrupted(r: Runtime, d: Desired, f: Faults) {
    if d == Nothing then r.Alive() && f.stopCancelled
    else if !r.Alive() && !f.start.StartOk? then f.start.StartCancelled?
    else if d.Buildable? && Current(r, d.snapshot) then false
    else if d.Buildable? && f.put.PutCancelled? then true
    else !(d.Buildable? && Takes(r, f)) && f.stopCancelled
  }

  lemma {:induction false} CancelledExactly(r: Runtime, d: Desired, f: Faults)
    requires Sound(r)
    ensures Reconciled(r, d, f).1 == Cancelled <==> Interrupted(r, d, f)
    ensures Reconciled(r, d, f).1 == Returned(NotRequired) <==> d == Nothing && !Interrupted(r, d, f)
  {
    var asked := r.(wanted := d != Nothing);
    assert asked.Alive() == r.Alive() && asked.Answers() == r.Answers();
    if d != Nothing && !r.Alive() && f.start.StartOk? {
      NewProcessAnswers(asked, f.start.bound);
    }
  }

  /**
    After a reconcile that ends ready: the manager holds the process that serves, remembers the
    snapshot, and counts one revision for the PUT, none if the snapshot was current.  A process
    that was running is kept, with its watcher; a new one is watched.
  */
  lemma {:induction false} ReadyMeans(r: Runtime, d: Desired, f: Faults)
    requires Sound(r) && Reconciled(r, d, f).1 == Returned(Ready)
    ensures var after := Reconciled(r, d, f).0;
      && d.Buildable? && after.mode == Ready && after.wanted && after.fingerprint == Some(d.snapshot)
      && after.Alive() && after.Serving() == Some(d.snapshot)
      && after.revision == r.revision + (if Current(r, d.snapshot) then 0 else 1)
      && (r.Alive() ==> after.handle == r.handle && after.watched == r.watched && after.watchers == r.watchers)
      && (!r.Alive() ==> after.handle == after.watched == Some(r.next) && r.next in after.watchers)
  {
    ReadyExactly(r, d, f);
    SuccessServes(r, d, f);
    var asked := r.(wanted := d != Nothing);
    assert asked.Alive() == r.Alive() && asked.Answers() == r.Answers();
    if !r.Alive() {
      NewProcessAnswers(asked, f.start.bound);
    }
  }

  lemma {:induction false} StopMeans(r: Runtime, cancelled: bool)
    requires Contained(r)
    ensures var (after, raised) := Stop(r, cancelled);
      && (raised <==> r.Alive() && cancelled)
      && after.live == map[] && after.handle == None && after.mode == r.mode && after.revision == r.revision
      && after.wanted == r.wanted
      && (r.watched.Some? ==> r.watched.value !in after.watchers)
      && (!raised ==> after.fingerprint == None)
  {
  }

  /**
    After one that returns without being ready: nothing runs, no handle is held, and the watcher
    of the process that was stopped reports nothing any more.
  */
  lemma {:induction false} NotReadyMeans(r: Runtime, d: Desired, f: Faults)
    requires Sound(r) && Reconciled(r, d, f).1.Returned? && Reconciled(r, d, f).1 != Returned(Ready)
    ensures var (after, out) := Reconciled(r, d, f);
      && out.mode == after.mode == (if d == Nothing then NotRequired else Degraded)
      && after.wanted == (d != Nothing) && after.live == map[] && !after.Alive()
      && (r.Alive() ==> after.handle == None && after.fingerprint == None)
      && (r.Alive() && r.watched.Some? ==> !CanNotice(after, r.watched.value))
  {
    var asked := r.(wanted := d != Nothing);
    assert asked.Alive() == r.Alive() && asked.Answers() == r.Answers();
    if r.Alive() {
      StopsWhatRuns(r, d, f);
    } else if d != Nothing && f.start.StartOk? {
      NewProcessAnswers(asked, f.start.bound);
    }
  }

  lemma {:induction false} StopsWhatRuns(r: Runtime, d: Desired, f: Faults)
    requires Sound(r) && r.Alive()
    requires Reconciled(r, d, f).1.Returned? && Reconciled(r, d, f).1 != Returned(Ready)
    ensures var (after, out) := Reconciled(r, d, f);
      && out.mode == after.mode == (if d == Nothing then NotRequired else Degraded)
      && after.wanted == (d != Nothing) && after.live == map[]
      && after.handle == None && after.fingerprint == None
      && (r.watched.Some? ==> r.watched.value !in after.watchers)
  {
  }

  /** A start that is cancelled: nothing has been started, or a process that is held but not watched. */
  lemma {:induction false} CutStartMeans(r: Runtime, d: Desired, spawned: bool, bound: bool, f: Faults)
    requires Sound(r) && !r.Alive() && d != Nothing && f.start == StartCancelled(spawned, bound)
    ensures var (after, out) := Reconciled(r, d, f);
      && out == Cancelled && after.mode == Starting && after.wanted && after.Serving() == None
      && after.watchers == r.watchers && after.fingerprint == r.fingerprint
      && (if spawned then after.handle == Some(r.next) && after.live == map[r.next := None]
          else after.handle == r.handle && after.live == map[])
      && (spawned ==> (after.front == Some(r.next) <==> bound) && (r.next in after.unbound <==> !bound))
      && (spawned && bound ==> after.Answers())
  {
    assert forall p :: p !in r.live;
    assert r.live == map[];
  }

  /** A start that fails: the process is gone again, and holds the socket path if it had bound it. */
  lemma {:induction false} FailedStartMeans(r: Runtime, d: Desired, bound: bool, f: Faults)
    requires Sound(r) && !r.Alive() && d != Nothing && f.start == StartFails(bound)
    ensures var (after, out) := Reconciled(r, d, f);
      && out == Returned(Degraded) && after.mode == Degraded && after.wanted && after.handle == None
      && after.live == map[] && after.watchers == r.watchers && after.fingerprint == r.fingerprint
      && after.front == (if bound then Some(r.next) else r.front) && after.next == r.next + 1
  {
    assert forall p :: p !in r.live;
  }

  // ---- the other calls ----

  /** `preflight` ends with a subprocess running exactly if one ran, started, or was cut off after its start. */
  lemma {:induction false} PreflightMeans(r: Runtime, f: StartFault)
    requires Sound(r)
    ensures var after := Preflight(r, f);
      && (after.Alive() <==> r.Alive() || f.StartOk? || (f.StartCancelled? && f.spawned))
      && (r.Alive() ==> after == r)
      && (!r.Alive() && f.StartOk? ==>
            after.handle == after.watched == Some(r.next) && r.next in after.watchers && after.mode == Starting)
      && (!r.Alive() && (f.NoBinary? || f.StartFails?) ==> after.mode == Degraded)
      && after.fingerprint == r.fingerprint && after.wanted == r.wanted
  {
    if !r.Alive() && f.StartOk? {
      NewProcessAnswers(r, f.bound);
    }
  }

  /** Marking degraded stops the subprocess exactly if a provider is wanted. */
  lemma {:induction false} MarkDegradedMeans(r: Runtime)
    requires Contained(r)
    ensures var after := MarkDegraded(r);
      && after.mode == Degraded && after.wanted == r.wanted
      && after.live == (if r.wanted then map[] else r.live)
      && after.handle == (if r.wanted then None else r.handle)
      && after.fingerprint == (if r.wanted then None else r.fingerprint)
  {
    if r.wanted {
      StopMeans(r.(mode := Degraded), false);
    }
  }

  /** A watcher's report leaves no handle and no fingerprint, and is made once. */
  lemma {:induction false} NoticeMeans(r: Runtime, p: nat)
    requires CanNotice(r, p)
    ensures var after := Noticed(r, p);
      && after.mode == Degraded && after.handle == None && after.fingerprint == None
      && !CanNotice(after, p) && after.live == r.live
      && forall q :: q != p ==> (CanNotice(after, q) <==> CanNotice(r, q))
  {
  }

  /** Beside a process that answers, a new one serves nobody until it binds the path, and then nobody is served. */
  lemma {:induction false} StartBeside(r: Runtime, bound: bool)
    requires r.Answers() && r.next !in r.live
    ensures var after := Started(r, bound);
      && after.Serving() == (if bound then None else r.Serving())
      && (r.next in after.unbound <==> !bound)
      && var late := Bound(after, r.next);
         late.Serving() == None && late.front == Some(r.next) && r.next !in late.unbound
  {
  }

  // ---- what edits are accepted, and what they write ----

  /** The row an edit is about: there is none yet for a creation, and there must be one otherwise. */
  predicate RowFits(db: Db, e: Edit) {
    match Target(e)
    case Some(id) => e.CreateGateway? <==> id !in db.providers
    case None => e.id in db.proxies
  }

  /** An edit is refused exactly if its row does not fit, it creates a direct provider, or it deletes a proxy in use. */
  lemma {:induction false} RefusedExactly(db: Db, e: Edit)
    ensures !Accepted(db, e) <==>
      || !RowFits(db, e)
      || (e.CreateGateway? && !e.provider.gateway)
      || (e.DeleteProxy? && exists id :: id in db.providers && db.providers[id].proxyId == Some(e.id))
  {
  }

  /** The row an edit is about afterwards. */
  ghost predicate Written(before: Db, e: Edit, after: Db) {
    match e
    case CreateGateway(id, p) => id in after.providers && after.providers[id] == p
    case UpdateProvider(id, p) => id in after.providers && after.providers[id] == p
    case DeleteProvider(id) => id !in after.providers
    case SetModels(id, ms) =>
      && id in before.providers && id in after.providers
      && after.providers[id].models == ms
      && after.providers[id] == before.providers[id].(models := ms)
    case PatchProxy(k, x) => k in after.proxies && after.proxies[k] == x
    case DeleteProxy(k) => k !in after.proxies
  }

  /** An accepted edit writes its own row and no other. */
  lemma {:induction false} EditWrites(db: Db, e: Edit)
    requires Accepted(db, e)
    ensures var after := Apply(db, e);
      && Written(db, e, after)
      && (forall id :: Target(e) != Some(id) ==>
            && (id in after.providers <==> id in db.providers)
            && (id in db.providers ==> after.providers[id] == db.providers[id]))
      && (forall k :: Target(e).Some? || k != e.id ==>
            && (k in after.proxies <==> k in db.proxies)
            && (k in db.proxies ==> after.proxies[k] == db.proxies[k]))
  {
  }

  /** The subprocess is told of an edit exactly if a Gateway row is written, or uses the proxy written. */
  lemma {:induction false} ConcernsGateway(db: Db, e: Edit)
    requires Accepted(db, e)
    ensures GatewayChanged(db, e) <==>
      match Target(e)
      case Some(id) =>
        || (id in db.providers && db.providers[id].gateway)
        || (id in Apply(db, e).providers && Apply(db, e).providers[id].gateway)
      case None =>
        && e.PatchProxy?
        && exists id :: id in db.providers && db.providers[id].gateway && db.providers[id].proxyId == Some(e.id)
  {
    if e.PatchProxy? {
      forall id | id in db.providers && db.providers[id].gateway
        ensures id in GatewayIds(db)
      {
      }
    }
  }

  /** A direct provider is added without the lock, whatever is going on, and nothing else changes. */
  lemma {:induction false} DirectProviderAdded(s: State, id: int, p: Provider)
    requires id !in s.db.providers && !p.gateway
    requires s.phase.Open? || s.phase.Pushed? ==> Target(s.phase.edit) != Some(id)
    ensures Enabled(s, CreateDirect(id, p))
    ensures var after := Step(s, CreateDirect(id, p));
      && after.runtime == s.runtime && after.phase == s.phase && after.db.proxies == s.db.proxies
      && after.db.providers == s.db.providers[id := p]
  {
  }

  /** What may happen around the transactions, and when; none of it touches the rows or the lock. */
  ghost predicate Around(s: State, ev: Event) {
    match ev
    case RecoveryFails => true
    case MarkDown => true
    case PreflightEvent(_) => true
    case Recover(_) => s.phase == Free
    case Exit(p) => p in s.runtime.live
    case Bind(p) => p in s.runtime.live && p in s.runtime.unbound
    case Notice(p) => p in s.runtime.watchers && p !in s.runtime.live
    case _ => false
  }

  lemma {:induction false} AroundMeans(s: State, ev: Event)
    requires Around(s, ev)
    ensures Enabled(s, ev) && Step(s, ev).db == s.db && Step(s, ev).phase == s.phase
    ensures ev.RecoveryFails? ==> Step(s, ev).runtime == s.runtime.(mode := Degraded)
    ensures ev.Exit? ==> Step(s, ev).runtime == s.runtime.(live := s.runtime.live - {ev.process})
    ensures ev.Recover? && Project(s.db) == BadProxy ==> Step(s, ev).runtime == s.runtime.(mode := Degraded)
    ensures ev.Bind? ==> Step(s, ev).runtime.front == Some(ev.process) && Step(s, ev).runtime.live == s.runtime.live
    ensures ev.Notice? ==> Step(s, ev).runtime.handle == None && Step(s, ev).runtime.live == s.runtime.live
    ensures ev.MarkDown? && Contained(s.runtime) ==>
      Step(s, ev).runtime.mode == Degraded && (s.runtime.wanted ==> Step(s, ev).runtime.live == map[])
  {
    if ev.MarkDown? && Contained(s.runtime) {
      MarkDegradedMeans(s.runtime);
    }
  }

  // ---- edits nothing disturbs ----

  const SMOOTH := Faults(StartOk(true), PutOk, false)

  /** The process at hand, if any, has bound the socket path. */
  predicate Reachable(r: Runtime) {
    r.Alive() ==> r.Answers()
  }

  /** A reconcile that nothing disturbs serves what it is asked for, or nothing if that cannot be built. */
  lemma {:induction false} SmoothReconcile(r: Runtime, d: Desired)
    requires Sound(r) && Reachable(r)
    ensures var (after, out) := Reconciled(r, d, SMOOTH);
      && out == Returned(match d case Nothing => NotRequired case Buildable(_) => Ready case Unbuildable => Degraded)
      && after.Serving() == (match d case Buildable(snapshot) => Some(snapshot) case _ => None)
      && Sound(after)
  {
    ReadyExactly(r, d, SMOOTH);
    CancelledExactly(r, d, SMOOTH);
    SuccessServes(r, d, SMOOTH);
    ReconcileSound(r, d, SMOOTH);
    if d.Unbuildable? {
      NotReadyMeans(r, d, SMOOTH);
    }
  }

  /** The candidate can be pushed: every proxy it names is there, and every Gateway row is complete. */
  predicate CanBePushed(db: Db) {
    Project(db).Wants? && !Project(db).desired.Unbuildable?
  }

  /** What the socket path serves for a configuration that can be pushed. */
  function Serves(db: Db): Option<Snapshot>
    requires CanBePushed(db)
  {
    match Project(db).desired
    case Buildable(snapshot) => Some(snapshot)
    case _ => None
  }

  function EditEvents(db: Db, e: Edit): seq<Event> {
    [Begin(e)] + ((if GatewayChanged(db, e) then [Push(SMOOTH)] else []) + ([Commit(true, false)] + []))
  }

  lemma {:induction false} PushSucceeds(s: State, e: Edit)
    requires Inv(s) && Reachable(s.runtime) && s.phase == Open(e, true) && CanBePushed(Apply(s.db, e))
    ensures var after := Step(s, Push(SMOOTH));
      && after.db == s.db && after.phase == Pushed(e) && after.runtime.Serving() == Serves(Apply(s.db, e))
  {
    SmoothReconcile(s.runtime, Project(Apply(s.db, e)).desired);
  }

  lemma {:induction false} RunOneMore(s: State, ev: Event, rest: seq<Event>)
    requires Enabled(s, ev) && Runs(Step(s, ev), rest)
    ensures Runs(s, [ev] + rest) && After(s, [ev] + rest) == After(Step(s, ev), rest)
  {
    assert ([ev] + rest)[1..] == rest;
  }

  /**
    An accepted edit that nothing disturbs is committed.  If it concerns the Gateway, the path then
    serves the configuration just committed; if not, the subprocess is left alone.
  */
  lemma {:induction false} EditGoesThrough(s: State, e: Edit)
    requires Inv(s) && s.phase == Free && Reachable(s.runtime) && Accepted(s.db, e)
    requires GatewayChanged(s.db, e) ==> CanBePushed(Apply(s.db, e))
    ensures Runs(s, EditEvents(s.db, e))
    ensures var after := After(s, EditEvents(s.db, e));
      && after.db == Apply(s.db, e) && after.phase == Free
      && (if GatewayChanged(s.db, e) then after.runtime.Serving() == Serves(after.db) else after.runtime == s.runtime)
  {
    var open := Step(s, Begin(e));
    var commit := [Commit(true, false)] + [];
    StepInv(s, Begin(e));
    if GatewayChanged(s.db, e) {
      PushSucceeds(open, e);
      RunOneMore(Step(open, Push(SMOOTH)), Commit(true, false), []);
      RunOneMore(open, Push(SMOOTH), commit);
      RunOneMore(s, Begin(e), [Push(SMOOTH)] + commit);
    } else {
      assert [] + commit == commit;
      RunOneMore(open, Commit(true, false), []);
      RunOneMore(s, Begin(e), commit);
    }
  }

  /** An edit whose candidate cannot be pushed is never committed: its push leads to compensation. */
  lemma {:induction false} BadEditIsRefused(s: State, e: Edit, f: Faults)
    requires Inv(s) && s.phase == Open(e, true) && !CanBePushed(Apply(s.db, e))
    ensures var after := Step(s, Push(f));
      && after.db == s.db && after.phase == Restoring
      && !Enabled(s, Commit(true, false)) && !Enabled(after, Commit(true, false))
  {
    if Project(Apply(s.db, e)).Wants? {
      SuccessServes(s.runtime, Unbuildable, f);
    }
  }

  /** A recovery that nothing disturbs serves the committed configuration. */
  lemma {:induction false} RecoveryServes(s: State)
    requires Inv(s) && s.phase == Free && Reachable(s.runtime) && CanBePushed(s.db)
    ensures Step(s, Recover(SMOOTH)).runtime.Serving() == Serves(s.db)
    ensures Step(s, Recover(SMOOTH)).db == s.db && Step(s, Recover(SMOOTH)).phase == Free
  {
    SmoothReconcile(s.runtime, Project(s.db).desired);
  }

  /** Compensation that nothing disturbs serves the committed configuration and frees the lock. */
  lemma {:induction false} RestoreServes(s: State)
    requires Inv(s) && s.phase == Restoring && Reachable(s.runtime) && CanBePushed(s.db)
    ensures var after := Step(s, Restore(true, SMOOTH));
      after.runtime.Serving() == Serves(s.db) && after.db == s.db && after.phase == Free
  {
    SmoothReconcile(s.runtime, Project(s.db).desired);
  }

  /** The temporary provider of a test is served beside the committed ones, and gone after compensation. */
  lemma {:induction false} TrialIsTemporary(s: State, route: Route)
    requires Inv(s) && s.phase == Free && Reachable(s.runtime) && CanBePushed(s.db)
    ensures var trial := Step(Step(s, BeginTrial(route)), Push(SMOOTH));
      && trial.db == s.db && trial.phase == Restoring
      && trial.runtime.Serving() ==
           Some((if Project(s.db).desired.Buildable? then Project(s.db).desired.snapshot else map[])[TRIAL_ID := route])
      && (Reachable(trial.runtime) ==> Step(trial, Restore(true, SMOOTH)).runtime.Serving() == Serves(s.db))
  {
    var open := Step(s, BeginTrial(route));
    SmoothReconcile(s.runtime, Candidate(open).desired);
    var trial := Step(open, Push(SMOOTH));
    if Reachable(trial.runtime) {
      RestoreServes(trial);
    }
  }

  /**
    How a transaction ends.  The rows are written exactly if the commit lands.  It compensates
    exactly if the subprocess may have seen a candidate: after a push, or, of an edit that
    concerns the Gateway, after anything that raises before it; a trial whose rows cannot be read
    has sent nothing and compensates nothing.
  */
  lemma {:induction false} TransactionEnds(s: State, e: Edit, lands: bool, raises: bool)
    requires s.phase.Open? || s.phase.Pushed? ==> s.phase.edit == e
    ensures Enabled(s, Commit(lands, raises)) ==>
      var after := Step(s, Commit(lands, raises));
      && after.db == (if lands then Apply(s.db, e) else s.db) && after.runtime == s.runtime
      && (after.phase == Restoring <==> raises && s.phase == Pushed(e))
      && (after.phase == Free <==> !raises || s.phase == Open(e, false))
    ensures Enabled(s, Abort) ==>
      var after := Step(s, Abort);
      && after.db == s.db && after.runtime == s.runtime
      && (after.phase == Restoring <==> s.phase == Pushed(e) || s.phase == Open(e, true))
      && (after.phase == Free <==> s.phase.Trial? || s.phase == Open(e, false))
    ensures s.phase.Trial? && Project(s.db) == BadProxy ==>
      Step(s, Push(SMOOTH)) == s.(phase := Free)
  {
  }
}
