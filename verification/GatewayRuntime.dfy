/**
  The process-wide manager of the Gateway subprocess, and the subprocesses themselves.  The
  manager holds one handle (`_process`) and one watcher (`_watch_task`); the operating system
  knows which processes run and which of them bound the socket path last.  A process that exits
  and the watcher that reports it are two steps: a reconcile may come in between.  Cancellation
  can strike at each await: while the subprocess starts, while it is told to stop, and during
  the configuration PUT.
*/
module GatewayRuntime {
  import opened Common

  datatype Route = Route(baseUrl: string, apiKey: string, models: seq<string>, proxyUrl: string, headers: string)

  /** A configuration snapshot: the routes by provider id. */
  type Snapshot = map<int, Route>

  /** What `reconcile` is asked for: no Gateway provider, a snapshot, or one `_build_snapshot` rejects. */
  datatype Desired = Nothing | Buildable(snapshot: Snapshot) | Unbuildable

  datatype Mode = NotRequired | Starting | Ready | Degraded

  /**
    How a start goes.  `bound`: the new process has bound the socket path by then; while another
    process answers on the path, a start can succeed before that.
  */
  datatype StartFault =
    | StartOk(bound: bool)
    | NoBinary
    | StartFails(bound: bool)
    | StartCancelled(spawned: bool, bound: bool)

  /** `applied`: the process behind the socket path had taken the snapshot all the same. */
  datatype PutFault = PutOk | PutFails(applied: bool) | PutCancelled(applied: bool)

  datatype Faults = Faults(start: StartFault, put: PutFault, stopCancelled: bool)

  datatype Outcome = Returned(mode: Mode) | Cancelled

  datatype Runtime = Runtime(
    handle: Option<nat>,                  // `_process`
    watched: Option<nat>,                 // the process of `_watch_task`
    mode: Mode,
    fingerprint: Option<Snapshot>,        // the snapshot the manager last saw acknowledged
    revision: nat,
    wanted: bool,                         // the last reconcile asked for at least one provider
    live: map<nat, Option<Snapshot>>,     // the running processes, each with its snapshot
    watchers: set<nat>,                   // the processes some watcher will still report
    front: Option<nat>,                   // the process that bound the socket path last
    unbound: set<nat>,                    // processes that have yet to bind it
    next: nat)
  {
    /** The process behind the handle runs. */
    predicate Alive() { handle.Some? && handle.value in live }

    /** Somebody answers on the socket path. */
    predicate Answers() { front.Some? && front.value in live }

    /** What a client that connects to the socket path gets. */
    function Serving(): Option<Snapshot> {
      if Answers() then live[front.value] else None
    }
  }

  const FRESH := Runtime(None, None, NotRequired, None, 0, false, map[], {}, None, {}, 0)

  /** The manager knows every process that runs, and one serves only if somebody asked for it. */
  ghost predicate Contained(r: Runtime) {
    && r.live.Keys <= (if r.handle.Some? then {r.handle.value} else {})
    && (r.handle.Some? ==> r.handle.value < r.next)
    && (r.front.Some? ==> r.front.value < r.next)
    && (r.Alive() && r.handle.value in r.unbound ==> r.live[r.handle.value] == None && r.front != r.handle)
    && (r.Alive() && r.live[r.handle.value].Some? ==> r.wanted)
  }

  /** The manager's belief is right whenever it would act on it. */
  ghost predicate Sound(r: Runtime) {
    && Contained(r)
    && (r.Alive() && r.mode == Ready ==> r.fingerprint.Some? && r.Answers() && r.Serving() == r.fingerprint)
  }

  /** `_stop_locked`; the handle is dropped before the first await. */
  function Stop(r: Runtime, cancelled: bool): (Runtime, bool) {
    var gone := r.(handle := None,
                   live := if r.handle.Some? then r.live - {r.handle.value} else r.live,
                   watchers := if r.watched.Some? then r.watchers - {r.watched.value} else r.watchers);
    if r.Alive() && cancelled then (gone, true) else (gone.(watched := None, fingerprint := None), false)
  }

  /** A new process; it takes the socket path over once it binds it. */
  function Spawned(r: Runtime, bound: bool): Runtime {
    var p := r.next;
    var takes := bound || !r.Answers();
    r.(handle := Some(p), mode := Starting, live := r.live[p := None], next := p + 1,
       front := if takes then Some(p) else r.front,
       unbound := if takes then r.unbound - {p} else r.unbound + {p})
  }

  /** `_start_locked` when it returns true: the new process is also watched. */
  function Started(r: Runtime, bound: bool): Runtime {
    Spawned(r, bound).(watched := Some(r.next), watchers := r.watchers + {r.next})
  }

  /** A process that was spawned, did not pass its checks, and is terminated again. */
  function FailedStart(r: Runtime, bound: bool): Runtime {
    r.(handle := None, mode := Degraded, next := r.next + 1, front := if bound then Some(r.next) else r.front)
  }

  /** A start that is cancelled leaves either nothing, or a process nobody watches. */
  function CutStart(r: Runtime, spawned: bool, bound: bool): Runtime {
    if !spawned then r.(mode := Starting)
    else
      var p := r.next;
      r.(handle := Some(p), mode := Starting, live := r.live[p := None], next := p + 1,
         front := if bound then Some(p) else r.front,
         unbound := if bound then r.unbound - {p} else r.unbound + {p})
  }

  function Degrade(r: Runtime, f: Faults): (Runtime, Outcome) {
    var (stopped, cancelled) := Stop(r.(mode := Degraded), f.stopCancelled);
    (stopped, if cancelled then Cancelled else Returned(Degraded))
  }

  /** The process behind the socket path takes a snapshot. */
  function Taken(r: Runtime, snapshot: Snapshot): Runtime {
    if r.Answers() then r.(live := r.live[r.front.value := Some(snapshot)]) else r
  }

  /** The PUT of a snapshot, to whoever answers on the socket path. */
  function Sent(r: Runtime, snapshot: Snapshot, f: Faults): (Runtime, Outcome) {
    match f.put
    case PutOk =>
      if r.Answers() then (Taken(r, snapshot).(fingerprint := Some(snapshot), mode := Ready), Returned(Ready))
      else Degrade(r, f)
    case PutFails(applied) => Degrade(if applied then Taken(r, snapshot) else r, f)
    case PutCancelled(applied) => (if applied then Taken(r, snapshot) else r, Cancelled)
  }

  function Synced(r: Runtime, d: Desired, f: Faults): (Runtime, Outcome)
    requires d != Nothing
  {
    if d.Unbuildable? then Degrade(r, f)
    else if r.fingerprint == Some(d.snapshot) && r.mode == Ready then (r, Returned(Ready))
    else Sent(r.(revision := r.revision + 1), d.snapshot, f)
  }

  /** `GatewayRuntimeManager.reconcile`, once it holds the manager's own lock. */
  function Reconciled(r0: Runtime, d: Desired, f: Faults): (Runtime, Outcome) {
    var r := r0.(wanted := d != Nothing);
    if d == Nothing then
      var (stopped, cancelled) := Stop(r, f.stopCancelled);
      if cancelled then (stopped, Cancelled) else (stopped.(mode := NotRequired), Returned(NotRequired))
    else if r.Alive() then Synced(r, d, f)
    else match f.start
      case NoBinary => (r.(mode := Degraded), Returned(Degraded))
      case StartFails(bound) => (FailedStart(r, bound), Returned(Degraded))
      case StartCancelled(spawned, bound) => (CutStart(r, spawned, bound), Cancelled)
      case StartOk(bound) => Synced(Started(r, bound), d, f)
  }

  /** `mark_control_plane_degraded` */
  function MarkDegraded(r: Runtime): Runtime {
    if r.wanted then Stop(r.(mode := Degraded), false).0 else r.(mode := Degraded)
  }

  /** A process ends by itself; nobody has been told yet. */
  function Exited(r: Runtime, p: nat): Runtime {
    r.(live := r.live - {p})
  }

  /** `_watch_process` of an ended process gets the manager's lock.  It does not look at the handle. */
  function Noticed(r: Runtime, p: nat): Runtime {
    r.(handle := None, mode := Degraded, fingerprint := None, watchers := r.watchers - {p})
  }

  predicate CanNotice(r: Runtime, p: nat) {
    p in r.watchers && p !in r.live
  }

  /** A process that was started binds the socket path. */
  function Bound(r: Runtime, p: nat): Runtime {
    r.(front := Some(p), unbound := r.unbound - {p})
  }

  /** `preflight`: starts the subprocess without giving it a configuration. */
  function Preflight(r: Runtime, f: StartFault): Runtime {
    if r.Alive() then r
    else match f
      case StartOk(bound) => Started(r, bound)
      case NoBinary => r.(mode := Degraded)
      case StartFails(bound) => FailedStart(r, bound)
      case StartCancelled(spawned, bound) => CutStart(r, spawned, bound)
  }

  // ---- when the manager loses track ----

  /**
    The first window: the manager is ready, the snapshot is new, and the caller is cancelled
    during the PUT after the subprocess has taken the snapshot.
  */
  predicate LosesTrack(r: Runtime, d: Desired, f: Faults) {
    && r.Alive() && r.mode == Ready
    && d.Buildable? && r.fingerprint != Some(d.snapshot)
    && f.put == PutCancelled(true)
  }

  /** The second: a watcher reports an earlier process when the handle is already a running one's. */
  predicate DropsHandle(r: Runtime) {
    r.Alive()
  }

  lemma {:induction false} StopContained(r: Runtime, cancelled: bool)
    requires Contained(r)
    ensures var s := Stop(r, cancelled).0; Sound(s) && s.live == map[] && s.Serving() == None
  {
  }

  lemma {:induction false} StartContained(r: Runtime, bound: bool, spawned: bool)
    requires Contained(r) && !r.Alive()
    ensures r.live == map[]
    ensures var s := Started(r, bound); Sound(s) && s.Alive() && s.front == s.handle && s.Serving() == None
    ensures Sound(FailedStart(r, bound)) && FailedStart(r, bound).Serving() == None
    ensures Sound(CutStart(r, spawned, bound)) && CutStart(r, spawned, bound).Serving() == None
  {
    assert forall p :: p !in r.live;
  }

  lemma {:induction false} DegradeContained(r: Runtime, f: Faults)
    requires Contained(r)
    ensures var (r', out) := Degrade(r, f); Sound(r') && r'.live == map[] && r'.Serving() == None
  {
    StopContained(r.(mode := Degraded), f.stopCancelled);
  }

  lemma {:induction false} TakenContained(r: Runtime, snapshot: Snapshot)
    requires Contained(r) && r.wanted
    ensures var t := Taken(r, snapshot);
            && Contained(t) && t.Answers() == r.Answers() && t.Alive() == r.Alive()
            && t.Serving() == (if r.Answers() then Some(snapshot) else None)
  {
  }

  /** The PUT is cancelled: what the manager believes is still right unless the snapshot got through. */
  lemma {:induction false} CancelledPut(r: Runtime, snapshot: Snapshot, applied: bool)
    requires Sound(r) && r.Alive() && r.wanted
    requires !(r.mode == Ready && r.fingerprint == Some(snapshot))
    ensures Contained(if applied then Taken(r, snapshot) else r)
    ensures Sound(if applied then Taken(r, snapshot) else r) <==> !(r.mode == Ready && applied)
  {
    TakenContained(r, snapshot);
  }

  lemma {:induction false} AcceptedPut(r: Runtime, snapshot: Snapshot)
    requires Contained(r) && r.wanted && r.Answers()
    ensures Sound(Taken(r, snapshot).(fingerprint := Some(snapshot), mode := Ready))
  {
    TakenContained(r, snapshot);
  }

  lemma {:induction false} SentSound(r: Runtime, snapshot: Snapshot, f: Faults)
    requires Sound(r) && r.Alive() && r.wanted
    requires !(r.mode == Ready && r.fingerprint == Some(snapshot))
    ensures Contained(Sent(r, snapshot, f).0)
    ensures Sound(Sent(r, snapshot, f).0) <==> !(r.mode == Ready && f.put == PutCancelled(true))
  {
    match f.put
    case PutOk =>
      if r.Answers() {
        AcceptedPut(r, snapshot);
      } else {
        DegradeContained(r, f);
      }
    case PutFails(applied) =>
      TakenContained(r, snapshot);
      DegradeContained(if applied then Taken(r, snapshot) else r, f);
    case PutCancelled(applied) =>
      CancelledPut(r, snapshot, applied);
  }

  lemma {:induction false} SyncSound(r: Runtime, d: Desired, f: Faults)
    requires Sound(r) && r.Alive() && r.wanted && d != Nothing
    ensures Contained(Synced(r, d, f).0)
    ensures Sound(Synced(r, d, f).0) <==> !LosesTrack(r, d, f)
  {
    if d.Unbuildable? {
      DegradeContained(r, f);
    } else if !(r.fingerprint == Some(d.snapshot) && r.mode == Ready) {
      NewSnapshotSound(r, d.snapshot, f);
    }
  }

  lemma {:induction false} NewSnapshotSound(r: Runtime, snapshot: Snapshot, f: Faults)
    requires Sound(r) && r.Alive() && r.wanted
    requires !(r.mode == Ready && r.fingerprint == Some(snapshot))
    ensures var r' := Synced(r, Buildable(snapshot), f).0;
      && Contained(r')
      && (Sound(r') <==> !(r.mode == Ready && f.put == PutCancelled(true)))
  {
    var sent := r.(revision := r.revision + 1);
    assert Sound(sent) && sent.Alive();
    SentSound(sent, snapshot, f);
    assert Synced(r, Buildable(snapshot), f) == Sent(sent, snapshot, f);
  }

  lemma {:induction false} StartSound(r: Runtime, d: Desired, f: Faults)
    requires Sound(r) && !r.Alive() && r.wanted && d != Nothing
    ensures Sound(Reconciled(r, d, f).0)
  {
    match f.start
    case NoBinary =>
    case StartFails(bound) => StartContained(r, bound, false);
    case StartCancelled(spawned, bound) => StartContained(r, bound, spawned);
    case StartOk(bound) =>
      StartContained(r, bound, true);
      SyncSound(Started(r, bound), d, f);
  }

  /** `reconcile` keeps the manager's belief right except, exactly, in the first window. */
  lemma {:induction false} ReconcileSound(r: Runtime, d: Desired, f: Faults)
    requires Sound(r)
    ensures Contained(Reconciled(r, d, f).0)
    ensures Sound(Reconciled(r, d, f).0) <==> !LosesTrack(r, d, f)
  {
    var asked := r.(wanted := d != Nothing);
    if d == Nothing {
      NothingStops(r, f);
    } else if r.Alive() {
      SyncSound(asked, d, f);
    } else {
      StartSound(asked, d, f);
      assert Reconciled(r, d, f) == Reconciled(asked, d, f);
    }
  }

  lemma {:induction false} NothingStops(r: Runtime, f: Faults)
    requires Contained(r)
    ensures var (r', out) := Reconciled(r, Nothing, f); Sound(r') && r'.Serving() == None
  {
    StopContained(r, f.stopCancelled);
    assert r.(wanted := false).handle == r.handle;
  }

  /** A reconcile that reports success leaves the socket path serving what was asked for. */
  lemma {:induction false} SuccessServes(r: Runtime, d: Desired, f: Faults)
    requires Sound(r)
    ensures var (r', out) := Reconciled(r, d, f);
            && (out.Returned? && out.mode != Degraded ==>
                  !d.Unbuildable? && r'.Serving() == (if d == Nothing then None else Some(d.snapshot)))
            && (out == Returned(Degraded) ==> r'.live == map[] && r'.Serving() == None)
            && out != Returned(Starting)
  {
    var asked := r.(wanted := d != Nothing);
    if d == Nothing {
      NothingStops(r, f);
    } else if r.Alive() {
      SyncServes(asked, d, f);
    } else {
      match f.start
      case NoBinary => assert forall p :: p !in r.live;
      case StartFails(bound) => StartContained(asked, bound, false);
      case StartCancelled(spawned, bound) =>
      case StartOk(bound) =>
        StartContained(asked, bound, true);
        SyncServes(Started(asked, bound), d, f);
    }
  }

  lemma {:induction false} SentServes(r: Runtime, snapshot: Snapshot, f: Faults)
    requires Sound(r) && r.wanted
    ensures var (r', out) := Sent(r, snapshot, f);
            && (out.Returned? && out.mode != Degraded ==> out.mode == Ready && r'.Serving() == Some(snapshot))
            && (out == Returned(Degraded) ==> r'.live == map[] && r'.Serving() == None)
  {
    TakenContained(r, snapshot);
    DegradeContained(r, f);
    DegradeContained(Taken(r, snapshot), f);
  }

  lemma {:induction false} SyncServes(r: Runtime, d: Desired, f: Faults)
    requires Sound(r) && r.Alive() && r.wanted && d != Nothing
    ensures var (r', out) := Synced(r, d, f);
            && (out.Returned? && out.mode != Degraded ==>
                  out.mode == Ready && d.Buildable? && r'.Serving() == Some(d.snapshot))
            && (out == Returned(Degraded) ==> r'.live == map[] && r'.Serving() == None)
  {
    if d.Unbuildable? {
      DegradeContained(r, f);
    } else if !(r.fingerprint == Some(d.snapshot) && r.mode == Ready) {
      SentServes(r.(revision := r.revision + 1), d.snapshot, f);
    }
  }

  /** Marking the control plane degraded stops every process, as long as the manager knows them all. */
  lemma {:induction false} MarkDegradedStops(r: Runtime)
    requires Contained(r)
    ensures Sound(MarkDegraded(r)) && MarkDegraded(r).Serving() == None
  {
    if r.wanted {
      StopContained(r.(mode := Degraded), false);
    }
  }

  /** An exit, a bind and a preflight keep the belief right and put nothing new on the socket path. */
  lemma {:induction false} ProcessStepsSound(r: Runtime, p: nat, f: StartFault)
    requires Sound(r)
    ensures Sound(Exited(r, p)) && (Exited(r, p).Serving() in {r.Serving(), None})
    ensures p in r.live && p in r.unbound ==> Sound(Bound(r, p)) && Bound(r, p).Serving() == None
    ensures Sound(Preflight(r, f)) && (Preflight(r, f).Serving() in {r.Serving(), None})
  {
    if !r.Alive() {
      match f
      case NoBinary =>
      case StartOk(bound) => StartContained(r, bound, true);
      case StartFails(bound) => StartContained(r, bound, false);
      case StartCancelled(spawned, bound) => StartContained(r, bound, spawned);
    }
  }

  /**
    A late watcher keeps the belief right except, exactly, in the second window: then a process
    goes on serving that the manager will never stop.
  */
  lemma {:induction false} NoticeSound(r: Runtime, p: nat)
    requires Sound(r) && CanNotice(r, p)
    ensures Sound(Noticed(r, p)) <==> !DropsHandle(r)
    ensures Noticed(r, p).Serving() == r.Serving()
    ensures DropsHandle(r) ==> !Noticed(r, p).Alive() && forall c :: Stop(Noticed(r, p), c).0.Serving() == r.Serving()
  {
    if r.Alive() {
      assert r.handle.value in Noticed(r, p).live;
    }
  }

  /** The manager object itself and the processes around it, in the shape of the source. */
  class GatewayRuntimeManager {
    var handle: Option<nat>
    var watched: Option<nat>
    var mode: Mode
    var fingerprint: Option<Snapshot>
    var revision: nat
    var wanted: bool
    var live: map<nat, Option<Snapshot>>
    var watchers: set<nat>
    var front: Option<nat>
    var unbound: set<nat>
    var next: nat

    function Value(): Runtime
      reads this
    {
      Runtime(handle, watched, mode, fingerprint, revision, wanted, live, watchers, front, unbound, next)
    }

    constructor ()
      ensures Value() == FRESH && Sound(Value())
      ensures handle == None && mode == NotRequired && !wanted && revision == 0 && live == map[]
    {
      handle, watched, mode, fingerprint, revision, wanted := None, None, NotRequired, None, 0, false;
      live, watchers, front, unbound, next := map[], {}, None, {}, 0;
    }

    method StopLocked(cancelled: bool) returns (raised: bool)
      modifies this
      ensures (Value(), raised) == Stop(old(Value()), cancelled)
    {
      if watched.Some? {
        watchers := watchers - {watched.value};
      }
      raised := Value().Alive() && cancelled;
      if handle.Some? {
        live := live - {handle.value};
        handle := None;
      }
      if !raised {
        watched, fingerprint := None, None;
      }
    }

    /**
      `create_subprocess_exec`.  A new process that takes the socket path answers there with no
      snapshot; one that does not leaves the path to whoever has it.
    */
    method Spawn(takes: bool)
      modifies this`handle, this`live, this`next, this`front, this`unbound
      ensures handle == Some(old(next)) && next == old(next) + 1 && Value().Alive()
      ensures live == old(live)[old(next) := None]
      ensures front == (if takes then handle else old(front))
      ensures unbound == (if takes then old(unbound) - {old(next)} else old(unbound) + {old(next)})
      ensures old(next) !in old(live) ==>
        Value().Serving() == if takes then None else old(Value()).Serving()
    {
      handle, live := Some(next), live[next := None];
      if takes {
        front, unbound := Some(next), unbound - {next};
      } else {
        unbound := unbound + {next};
      }
      next := next + 1;
    }

    method StartLocked(f: StartFault) returns (started: bool, raised: bool)
      modifies this
      ensures started <==> f.StartOk?
      ensures raised <==> f.StartCancelled?
      ensures Value() == match f
                         case NoBinary => old(Value()).(mode := Degraded)
                         case StartOk(bound) => Started(old(Value()), bound)
                         case StartFails(bound) => FailedStart(old(Value()), bound)
                         case StartCancelled(spawned, bound) => CutStart(old(Value()), spawned, bound)
    {
      started, raised := false, false;
      if f.NoBinary? {
        mode := Degraded;
        return;
      }
      mode := Starting;
      match f
      case StartOk(bound) =>
        var p := next;
        Spawn(bound || !Value().Answers());
        watched, watchers := Some(p), watchers + {p};
        started := true;
      case StartFails(bound) =>
        // Spawned, refused by its checks, and terminated; it may have taken the path before.
        if bound {
          front := Some(next);
        }
        next, handle, mode := next + 1, None, Degraded;
      case StartCancelled(spawned, bound) =>
        if spawned {
          Spawn(bound);
        }
        raised := true;
    }

    /** Returns whether the synchronisation raised, and whether what it raised was a cancellation. */
    method SyncLocked(d: Desired, f: Faults) returns (failed: bool, cancelled: bool)
      requires d != Nothing
      modifies this
      ensures cancelled ==> failed
      ensures Synced(old(Value()), d, f) ==
              if !failed then (Value(), Returned(Ready))
              else if cancelled then (Value(), Cancelled)
              else Degrade(Value(), f)
    {
      failed, cancelled := false, false;
      if d.Unbuildable? {
        failed := true;
        return;
      }
      if fingerprint == Some(d.snapshot) && mode == Ready {
        return;
      }
      revision := revision + 1;
      var answered := Value().Answers();
      if answered && (f.put.PutOk? || f.put.applied) {
        live := live[front.value := Some(d.snapshot)];
      }
      if f.put.PutCancelled? {
        failed, cancelled := true, true;
      } else if f.put.PutFails? || !answered {
        failed := true;
      } else {
        fingerprint := Some(d.snapshot);
        mode := Ready;
      }
    }

    method Reconcile(d: Desired, f: Faults) returns (out: Outcome)
      modifies this
      ensures (Value(), out) == Reconciled(old(Value()), d, f)
    {
      wanted := d != Nothing;
      if d == Nothing {
        var raised := StopLocked(f.stopCancelled);
        if raised {
          return Cancelled;
        }
        mode := NotRequired;
        return Returned(mode);
      }
      if !Value().Alive() {
        var started, raised := StartLocked(f.start);
        if raised {
          return Cancelled;
        }
        if !started {
          return Returned(mode);
        }
      }
      var failed, cancelled := SyncLocked(d, f);
      if cancelled {
        return Cancelled;
      }
      if failed {
        mode := Degraded;
        var raised := StopLocked(f.stopCancelled);
        if raised {
          return Cancelled;
        }
      }
      return Returned(mode);
    }

    /** The part of `_watch_process` under the manager's lock. */
    method WatchProcess(p: nat)
      requires CanNotice(Value(), p)
      modifies this
      ensures Value() == Noticed(old(Value()), p)
    {
      mode, handle, fingerprint := Degraded, None, None;
      watchers := watchers - {p};
    }
  }
}
