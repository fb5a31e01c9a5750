/**
  Any number of updater job threads in any interleaving, each running `_run_apply_job` under the
  non-blocking apply lock.  Every call on the job table is one step; exceptions may strike at
  every step of the work.
*/
module UpdaterThreads {
  import opened Common
  import opened UpdaterJob

  datatype Pc =
    | Begin        // the job is queued, its thread started
    | Rejected     // the lock was taken
    | Held         // lock acquired, not yet marked running
    | Working      // marked running
    | Finished     // closing call made, lock still held
    | Exited

  datatype State = State(
    threads: map<string, Pc>,
    lock: Option<string>,
    history: map<string, seq<Entry>>,
    clock: real)

  datatype Action =
    | Create(id: string, update: Update, now: real)
    | TryLock(id: string)
    | Refuse(id: string, update: Update, now: real)     // status failed, phase untouched
    | Start(id: string, update: Update, now: real)      // status running
    | Progress(id: string, update: Update, now: real)
    | Say(id: string, text: string)
    | Close(id: string, update: Update, now: real)      // succeeded, failed, or the exception handler
    | Release(id: string)

  const INIT := State(map[], None, map[], 0.0)

  predicate Owns(pc: Pc) {
    pc == Held || pc == Working || pc == Finished
  }

  /** The call's arguments are the ones the source makes at that point, and time has not run back. */
  predicate CallOk(s: State, u: Update, now: real) {
    now >= s.clock && now > 0.0 && NamesPhase(u)
  }

  predicate Enabled(s: State, a: Action) {
    match a
    case Create(id, u, now) =>
      id !in s.threads && id !in s.history && CallOk(s, u, now) && IsCreation(Call(u, now))
    case TryLock(id) => id in s.threads && s.threads[id] == Begin
    case Refuse(id, u, now) =>
      id in s.threads && s.threads[id] == Rejected && CallOk(s, u, now) && u.status == Some(Failed) && u.phase == None
    case Start(id, u, now) =>
      id in s.threads && s.threads[id] == Held && CallOk(s, u, now) && u.status == Some(Running) && u.phase.Some?
    case Progress(id, u, now) =>
      id in s.threads && s.threads[id] == Working && CallOk(s, u, now) && u.status == None
    case Say(id, _) => id in s.threads && s.threads[id] == Working
    case Close(id, u, now) =>
      id in s.threads && CallOk(s, u, now) && u.phase.Some?
      && (|| (s.threads[id] == Working && (u.status == Some(Succeeded) || u.status == Some(Failed)))
          || (s.threads[id] == Held && u.status == Some(Failed)))
    case Release(id) => id in s.threads && s.threads[id] == Finished
  }

  function Record(s: State, id: string, e: Entry): State {
    var h := if id in s.history then s.history[id] else [];
    s.(history := s.history[id := h + [e]], clock := if e.Call? then e.now else s.clock)
  }

  function Step(s: State, a: Action): State
    requires Enabled(s, a)
  {
    match a
    case Create(id, u, now) => Record(s, id, Call(u, now)).(threads := s.threads[id := Begin])
    case TryLock(id) =>
      if s.lock == None then s.(lock := Some(id), threads := s.threads[id := Held])
      else s.(threads := s.threads[id := Rejected])
    case Refuse(id, u, now) => Record(s, id, Call(u, now)).(threads := s.threads[id := Exited])
    case Start(id, u, now) => Record(s, id, Call(u, now)).(threads := s.threads[id := Working])
    case Progress(id, u, now) => Record(s, id, Call(u, now))
    case Say(id, text) => Record(s, id, Line(text))
    case Close(id, u, now) => Record(s, id, Call(u, now)).(threads := s.threads[id := Finished])
    case Release(id) => s.(lock := None, threads := s.threads[id := Exited])
  }

  ghost predicate Runs(s: State, acts: seq<Action>)
    decreases |acts|
  {
    acts == [] || (Enabled(s, acts[0]) && Runs(Step(s, acts[0]), acts[1..]))
  }

  ghost function After(s: State, acts: seq<Action>): State
    requires Runs(s, acts)
    decreases |acts|
  {
    if acts == [] then s else After(Step(s, acts[0]), acts[1..])
  }

  /** The job as anyone reading the table sees it. */
  function JobOf(s: State, id: string): Job
    requires id in s.history
  {
    Replay(STORED, s.history[id])
  }

  /** The status the last call of a history to name one has named. */
  function LastStatus(h: seq<Entry>): Status {
    if h == [] then Unset
    else
      var e := h[|h| - 1];
      if e.Call? && e.update.status.Some? then e.update.status.value else LastStatus(h[..|h| - 1])
  }

  /** That is the job's status, in the stored job as in the full one. */
  lemma {:induction false} StatusIsLast(c: Caps, h: seq<Entry>)
    ensures Replay(c, h).status == LastStatus(h)
  {
    if h != [] {
      StatusIsLast(c, h[..|h| - 1]);
      AppliedMembers(c, Replay(c, h[..|h| - 1]), h[|h| - 1]);
    }
  }

  predicate StatusFits(pc: Pc, status: Status) {
    match pc
    case Begin => status == Queued
    case Rejected => status == Queued
    case Held => status == Queued
    case Working => status == Running
    case Finished => Closed(status)
    case Exited => Closed(status)
  }

  ghost predicate ThreadInv(s: State, id: string)
    requires id in s.threads && id in s.history
  {
    var pc, h := s.threads[id], s.history[id];
    && StatusFits(pc, LastStatus(h))
    && (Owns(pc) <==> s.lock == Some(id))
    && (if pc == Finished || pc == Exited then ClosedHistory(h) else OpenHistory(h) && Clock(h) <= s.clock)
  }

  ghost predicate Inv(s: State) {
    && s.threads.Keys == s.history.Keys
    && (forall id | id in s.threads :: ThreadInv(s, id))
    && (s.lock.Some? ==> s.lock.value in s.threads)
  }

  lemma {:induction false} OpenAppend(h: seq<Entry>, e: Entry)
    requires OpenHistory(h) && (e.Call? ==> e.now >= Clock(h))
    ensures IsProgress(e) ==> OpenHistory(h + [e]) && Clock(h + [e]) == if e.Call? then e.now else Clock(h)
    ensures IsClosing(e) ==> ClosedHistory(h + [e])
  {
    assert (h + [e])[..|h|] == h;
  }

  lemma {:induction false} OthersKept(s: State, s': State, id: string)
    requires Inv(s) && id in s.threads && id in s'.threads && id in s'.history
    requires s'.threads[id] == s.threads[id] && s'.history[id] == s.history[id] && s.clock <= s'.clock
    requires s'.lock == Some(id) <==> s.lock == Some(id)
    ensures ThreadInv(s', id)
  {
    assert ThreadInv(s, id);
  }

  /** One more entry: the status it leaves and the shape of the longer history. */
  lemma {:induction false} EntryAdded(h: seq<Entry>, e: Entry)
    requires OpenHistory(h) && (e.Call? ==> e.now >= Clock(h))
    ensures LastStatus(h + [e]) ==
            if e.Call? && e.update.status.Some? then e.update.status.value else LastStatus(h)
    ensures IsProgress(e) ==> OpenHistory(h + [e]) && Clock(h + [e]) == if e.Call? then e.now else Clock(h)
    ensures IsClosing(e) ==> ClosedHistory(h + [e])
  {
    OpenAppend(h, e);
    assert (h + [e])[..|h|] == h;
  }

  predicate Final(pc: Pc) {
    pc == Finished || pc == Exited
  }

  lemma PcMoved(s: State, s': State, id: string)
    requires id in s.threads && id in s.history && ThreadInv(s, id)
    requires id in s'.threads && id in s'.history && s'.history[id] == s.history[id] && s'.clock == s.clock
    requires Final(s.threads[id]) == Final(s'.threads[id])
    requires forall st :: StatusFits(s.threads[id], st) ==> StatusFits(s'.threads[id], st)
    requires Owns(s'.threads[id]) <==> s'.lock == Some(id)
    ensures ThreadInv(s', id)
  {
  }

  /** The entry a thread's own action adds to its job, if it adds one. */
  function EntryOf(a: Action): Option<Entry> {
    match a
    case TryLock(_) => None
    case Release(_) => None
    case Say(_, text) => Some(Line(text))
    case _ => Some(Call(a.update, a.now))
  }

  /** A step of thread `a.id` keeps that thread's own invariant. */
  lemma {:induction false} CallerKept(s: State, a: Action)
    requires Inv(s) && Enabled(s, a) && !a.Create?
    ensures ThreadInv(Step(s, a), a.id)
  {
    assert ThreadInv(s, a.id);
    if EntryOf(a).None? {
      PcMoved(s, Step(s, a), a.id);
    } else {
      EntryAdded(s.history[a.id], EntryOf(a).value);
    }
  }

  /** The history of a job that has just been created. */
  lemma {:induction false} NewHistory(e: Entry)
    requires IsCreation(e)
    ensures OpenHistory([e]) && Clock([e]) == e.now && LastStatus([e]) == Queued
  {
  }

  lemma {:induction false} CreatedKept(s: State, a: Action)
    requires Inv(s) && Enabled(s, a) && a.Create?
    ensures ThreadInv(Step(s, a), a.id)
  {
    var e := Call(a.update, a.now);
    NewHistory(e);
    assert Step(s, a).history[a.id] == [e] by {
      assert [] + [e] == [e];
    }
  }

  lemma {:induction false} BystanderKept(s: State, a: Action, id: string)
    requires Inv(s) && Enabled(s, a) && id in s.threads && id != a.id
    ensures ThreadInv(Step(s, a), id)
  {
    assert ThreadInv(s, id);
    assert !a.Create? ==> ThreadInv(s, a.id);
    OthersKept(s, Step(s, a), id);
  }

  lemma TablesKept(s: State, a: Action)
    requires Inv(s) && Enabled(s, a)
    ensures Step(s, a).threads.Keys == Step(s, a).history.Keys == s.threads.Keys + {a.id}
  {
  }

  lemma HolderKept(s: State, a: Action)
    requires Inv(s) && Enabled(s, a)
    ensures Step(s, a).lock.Some? ==> Step(s, a).lock.value in Step(s, a).threads
  {
  }

  lemma {:induction false} StepInv(s: State, a: Action)
    requires Inv(s) && Enabled(s, a)
    ensures Inv(Step(s, a))
  {
    var s' := Step(s, a);
    TablesKept(s, a);
    HolderKept(s, a);
    forall id | id in s'.threads ensures ThreadInv(s', id) {
      if id != a.id {
        BystanderKept(s, a, id);
      } else if a.Create? {
        CreatedKept(s, a);
      } else {
        CallerKept(s, a);
      }
    }
  }

  lemma {:induction false} RunInv(s: State, acts: seq<Action>)
    requires Inv(s) && Runs(s, acts)
    ensures Inv(After(s, acts))
    decreases |acts|
  {
    if acts != [] {
      StepInv(s, acts[0]);
      RunInv(Step(s, acts[0]), acts[1..]);
    }
  }

  // ---- what holds in every interleaving ----

  /**
    A job is running only while its thread holds the apply lock, so at most one job runs; and the
    lock is held only by a thread that has yet to release it.
  */
  lemma {:induction false} RunningHoldsLock(acts: seq<Action>)
    requires Runs(INIT, acts)
    ensures var s := After(INIT, acts);
            && (forall id | id in s.history && JobOf(s, id).status == Running :: s.lock == Some(id))
            && (forall id, id' | id in s.history && id' in s.history
                  && JobOf(s, id).status == Running && JobOf(s, id').status == Running :: id == id')
            && (s.lock.Some? ==> s.lock.value in s.threads && s.threads[s.lock.value] != Exited)
  {
    RunInv(INIT, acts);
    var s := After(INIT, acts);
    forall id | id in s.history && JobOf(s, id).status == Running ensures s.lock == Some(id) {
      assert ThreadInv(s, id);
      StatusIsLast(STORED, s.history[id]);
    }
    if s.lock.Some? {
      assert ThreadInv(s, s.lock.value);
    }
  }

  /** When every thread has exited, the lock is free and every job is closed. */
  lemma {:induction false} NoLockLeft(acts: seq<Action>)
    requires Runs(INIT, acts)
    requires forall id | id in After(INIT, acts).threads :: After(INIT, acts).threads[id] == Exited
    ensures After(INIT, acts).lock == None
    ensures forall id | id in After(INIT, acts).history :: Closed(JobOf(After(INIT, acts), id).status)
  {
    RunInv(INIT, acts);
    var s := After(INIT, acts);
    assert s.lock.Some? ==> ThreadInv(s, s.lock.value);
    forall id | id in s.history ensures Closed(JobOf(s, id).status) {
      assert ThreadInv(s, id);
      StatusIsLast(STORED, s.history[id]);
    }
  }

  /** A held lock changes hands only by its own holder's release; a refused thread never frees it. */
  lemma {:induction false} OnlyHolderReleases(s: State, a: Action)
    requires Inv(s) && Enabled(s, a) && s.lock.Some? && Step(s, a).lock != s.lock
    ensures a == Release(s.lock.value) && Step(s, a).lock == None
  {
    if a.Release? {
      assert ThreadInv(s, a.id);
    }
  }

  predicate LegalMove(before: Status, after: Status) {
    || before == after
    || (before == Queued && (after == Running || after == Failed))
    || (before == Running && Closed(after))
  }

  /** A call or a line of its own thread moves a job along, and comes only while the job is open. */
  lemma {:induction false} WriterMoves(s: State, a: Action)
    requires Inv(s) && Enabled(s, a) && a.id in s.history && !a.TryLock? && !a.Release?
    ensures a.id in Step(s, a).history
    ensures LegalMove(JobOf(s, a.id).status, JobOf(Step(s, a), a.id).status)
    ensures !Closed(JobOf(s, a.id).status)
  {
    assert ThreadInv(s, a.id);
    var h, more := s.history[a.id], Step(s, a).history[a.id];
    assert more[..|h|] == h;
    StatusIsLast(STORED, h);
    StatusIsLast(STORED, more);
  }

  /** Every step moves every job along queued → failed or queued → running → succeeded / failed, or not at all. */
  lemma {:induction false} StatusMoves(s: State, a: Action, id: string)
    requires Inv(s) && Enabled(s, a) && id in s.history
    ensures id in Step(s, a).history
    ensures LegalMove(JobOf(s, id).status, JobOf(Step(s, a), id).status)
    ensures Closed(JobOf(s, id).status) ==> JobOf(Step(s, a), id) == JobOf(s, id)
  {
    if a.id == id && !a.TryLock? && !a.Release? {
      WriterMoves(s, a);
    } else {
      assert Step(s, a).history[id] == s.history[id];
    }
  }

  /**
    In every interleaving a closed job has been closed by exactly one call, the last of its
    history, and what is stored of it accounts for its time: the stored steps and log lines are
    the tails of lists whose durations sum to the job's life time, short by less than a
    millisecond a step.
  */
  lemma {:induction false} ClosedJobsAccount(acts: seq<Action>, id: string)
    requires Runs(INIT, acts) && id in After(INIT, acts).history
    requires Closed(JobOf(After(INIT, acts), id).status)
    ensures var h := After(INIT, acts).history[id];
            var full := Replay(Unbounded, h);
            && ClosedHistory(h)
            && TailOf(JobOf(After(INIT, acts), id), full)
            && full.steps != [] && Accounts(full.steps, h[0].now, h[|h| - 1].now)
            && AdjacentDiffer(full.steps)
            && full.steps[|full.steps| - 1].phase == full.phase
  {
    RunInv(INIT, acts);
    var s := After(INIT, acts);
    assert ThreadInv(s, id);
    StatusIsLast(STORED, s.history[id]);
    StoredIsTail(s.history[id]);
    TimingsAccountForRun(s.history[id]);
  }
}
