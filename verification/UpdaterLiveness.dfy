/**
  What the apply lock grants: who gets it, what a refusal means, and that no interleaving ever
  leaves a job that could not still be brought to its end.
*/
module UpdaterLiveness {
  import opened Common
  import J = UpdaterJob
  import opened UpdaterThreads

  lemma {:induction false} RunsAppend(s: State, first: seq<Action>, rest: seq<Action>)
    ensures Runs(s, first + rest) <==> Runs(s, first) && Runs(After(s, first), rest)
    ensures Runs(s, first + rest) ==> After(s, first + rest) == After(After(s, first), rest)
    decreases |first|
  {
    if first == [] {
      assert first + rest == rest;
    } else {
      assert (first + rest)[1..] == first[1..] + rest;
      if Enabled(s, first[0]) {
        RunsAppend(Step(s, first[0]), first[1..], rest);
      }
    }
  }

  lemma {:induction false} ReachedInv(acts: seq<Action>)
    requires Runs(INIT, acts)
    ensures Inv(After(INIT, acts))
  {
    RunInv(INIT, acts);
  }

  // ---- who gets the lock ----

  /** Thread `id` is between acquiring the lock and releasing it. */
  predicate Inside(s: State, id: string) {
    id in s.threads && s.threads[id] in {Held, Working, Finished}
  }

  /**
    In every reachable state a thread that tries the lock gets it exactly if no thread is inside,
    and is refused exactly if another one is; nothing else changes.
  */
  lemma {:induction false} LockGranted(acts: seq<Action>, id: string)
    requires Runs(INIT, acts) && Enabled(After(INIT, acts), TryLock(id))
    ensures var s := After(INIT, acts);
            var after := Step(s, TryLock(id));
            && after.threads.Keys == s.threads.Keys
            && (after.threads[id] == Held <==> forall other :: !Inside(s, other))
            && (after.threads[id] == Rejected <==> exists other :: other != id && Inside(s, other))
            && (after.threads[id] == Held ==> after.lock == Some(id))
            && (after.threads[id] == Rejected ==> after.lock == s.lock)
            && after.history == s.history && after.clock == s.clock
            && forall other | other in s.threads && other != id :: after.threads[other] == s.threads[other]
  {
    ReachedInv(acts);
    var s := After(INIT, acts);
    forall other | Inside(s, other) ensures s.lock == Some(other) && other != id {
      assert ThreadInv(s, other);
    }
    if s.lock.Some? {
      assert ThreadInv(s, s.lock.value);
      assert Inside(s, s.lock.value);
    }
  }

  /** A thread of the run has tried the lock while another one was inside. */
  ghost predicate MetLock(acts: seq<Action>, id: string)
    requires Runs(INIT, acts)
  {
    exists j, other ::
      && 0 <= j < |acts| && acts[j] == TryLock(id)
      && Runs(INIT, acts[..j]) && other != id && Inside(After(INIT, acts[..j]), other)
  }

  lemma {:induction false} RejectedMetLock(acts: seq<Action>, id: string)
    requires Runs(INIT, acts) && id in After(INIT, acts).threads && After(INIT, acts).threads[id] == Rejected
    ensures MetLock(acts, id)
    decreases |acts|
  {
    if acts != [] {
      var n := |acts| - 1;
      var front, last := acts[..n], acts[n];
      assert acts == front + [last];
      RunsAppend(INIT, front, [last]);
      var before := After(INIT, front);
      if id in before.threads && before.threads[id] == Rejected {
        RejectedMetLock(front, id);
        var j, other :| 0 <= j < n && front[j] == TryLock(id) && Runs(INIT, front[..j])
                        && other != id && Inside(After(INIT, front[..j]), other);
        assert acts[..j] == front[..j] && acts[j] == front[j];
      } else {
        assert last == TryLock(id);
        LockGranted(front, id);
        var other :| other != id && Inside(before, other);
        assert acts[..n] == front && acts[n] == last;
      }
    }
  }

  /** Every refusal in a run goes back to an attempt made while another job was inside. */
  lemma {:induction false} RefusedMetLock(acts: seq<Action>, k: nat)
    requires Runs(INIT, acts) && k < |acts| && acts[k].Refuse?
    ensures Runs(INIT, acts[..k]) && MetLock(acts[..k], acts[k].id)
  {
    assert acts == acts[..k] + acts[k..];
    RunsAppend(INIT, acts[..k], acts[k..]);
    RejectedMetLock(acts[..k], acts[k].id);
  }

  // ---- every job can be brought to its end ----

  /** A time no earlier than any the job table has seen. */
  function Later(s: State): real {
    if s.clock > 1.0 then s.clock else 1.0
  }

  function Says(status: J.Status, phase: string): J.Update {
    J.Update(Some(status), Some(phase), None, None, false)
  }

  /** What thread `id` still has to do if nothing goes wrong, all of it at time `now`. */
  function FromWorking(id: string, now: real): seq<Action> {
    [Close(id, Says(J.Succeeded, "更新完成"), now), Release(id)]
  }

  function FromHeld(id: string, now: real): seq<Action> {
    [Start(id, Says(J.Running, "检查远端"), now)] + FromWorking(id, now)
  }

  function FromBegin(id: string, now: real): seq<Action> {
    [TryLock(id)] + FromHeld(id, now)
  }

  function Remaining(pc: Pc, id: string, now: real): seq<Action> {
    match pc
    case Begin => FromBegin(id, now)
    case Rejected => [Refuse(id, J.Update(Some(J.Failed), None, None, None, false), now)]
    case Held => FromHeld(id, now)
    case Working => FromWorking(id, now)
    case Finished => [Release(id)]
    case Exited => []
  }

  /** The states differ at most in what concerns thread `id`. */
  ghost predicate OnlyOf(id: string, before: State, after: State) {
    && id in before.threads
    && after.threads.Keys == before.threads.Keys
    && forall other | other in before.threads && other != id :: after.threads[other] == before.threads[other]
  }

  /** The actions can be taken, and leave job `id` with `status`. */
  ghost predicate Leaves(s: State, acts: seq<Action>, id: string, status: J.Status) {
    Runs(s, acts) && id in After(s, acts).history && JobOf(After(s, acts), id).status == status
  }

  /** The actions take thread `id` to its exit with the lock free; the other threads are where they were. */
  ghost predicate Ends(s: State, acts: seq<Action>, id: string) {
    && Runs(s, acts)
    && var after := After(s, acts);
       OnlyOf(id, s, after) && after.lock == None && after.threads[id] == Exited
  }

  lemma {:induction false} OthersStay(s: State, a: Action)
    requires Enabled(s, a) && !a.Create?
    ensures OnlyOf(a.id, s, Step(s, a))
  {
  }

  lemma {:induction false} StatusSet(s: State, a: Action)
    requires Inv(s) && Enabled(s, a) && (a.Start? || a.Close? || a.Refuse?)
    ensures Leaves(s, [a], a.id, a.update.status.value)
  {
    StatusIsLast(J.STORED, Step(s, a).history[a.id]);
    RunOfOne(s, a);
  }

  lemma {:induction false} RunOfOne(s: State, a: Action)
    requires Enabled(s, a)
    ensures Runs(s, [a]) && After(s, [a]) == Step(s, a)
  {
    assert [a][1..] == [];
  }

  lemma {:induction false} RunOneMore(s: State, a: Action, rest: seq<Action>)
    requires Enabled(s, a) && Runs(Step(s, a), rest)
    ensures Runs(s, [a] + rest) && After(s, [a] + rest) == After(Step(s, a), rest)
  {
    assert ([a] + rest)[1..] == rest;
  }

  lemma {:induction false} EndsEarlier(s: State, a: Action, rest: seq<Action>)
    requires Enabled(s, a) && !a.Create? && Ends(Step(s, a), rest, a.id)
    ensures Ends(s, [a] + rest, a.id)
  {
    OthersStay(s, a);
    RunOneMore(s, a, rest);
  }

  lemma {:induction false} LeavesEarlier(s: State, a: Action, rest: seq<Action>, status: J.Status)
    requires Enabled(s, a) && Leaves(Step(s, a), rest, a.id, status)
    ensures Leaves(s, [a] + rest, a.id, status)
  {
    RunOneMore(s, a, rest);
  }

  lemma {:induction false} ReleaseEnds(s: State, id: string)
    requires Inv(s) && id in s.threads && s.threads[id] == Finished
    ensures Ends(s, [Release(id)], id) && id in s.history && Leaves(s, [Release(id)], id, JobOf(s, id).status)
  {
    StepInv(s, Release(id));
    OthersStay(s, Release(id));
    RunOfOne(s, Release(id));
  }

  lemma {:induction false} RefusedEnds(s: State, a: Action)
    requires Inv(s) && Enabled(s, a) && a.Refuse? && s.lock == None
    ensures Ends(s, [a], a.id)
  {
    StepInv(s, a);
    OthersStay(s, a);
    RunOfOne(s, a);
  }

  lemma {:induction false} WorkerEnds(s: State, id: string, now: real)
    requires Inv(s) && id in s.threads && s.threads[id] == Working && now >= s.clock && now > 0.0
    ensures Ends(s, FromWorking(id, now), id) && Leaves(s, FromWorking(id, now), id, J.Succeeded)
  {
    var a := Close(id, Says(J.Succeeded, "更新完成"), now);
    StepInv(s, a);
    StatusSet(s, a);
    RunOfOne(s, a);
    ReleaseEnds(Step(s, a), id);
    EndsEarlier(s, a, [Release(id)]);
    LeavesEarlier(s, a, [Release(id)], J.Succeeded);
    assert FromWorking(id, now) == [a] + [Release(id)];
  }

  lemma {:induction false} HolderEnds(s: State, id: string, now: real)
    requires Inv(s) && id in s.threads && s.threads[id] == Held && now >= s.clock && now > 0.0
    ensures Ends(s, FromHeld(id, now), id) && Leaves(s, FromHeld(id, now), id, J.Succeeded)
    ensures Leaves(s, [FromHeld(id, now)[0]], id, J.Running)
  {
    var a := Start(id, Says(J.Running, "检查远端"), now);
    StepInv(s, a);
    StatusSet(s, a);
    WorkerEnds(Step(s, a), id, now);
    EndsEarlier(s, a, FromWorking(id, now));
    LeavesEarlier(s, a, FromWorking(id, now), J.Succeeded);
  }

  lemma {:induction false} BeginnerEnds(s: State, id: string, now: real)
    requires Inv(s) && s.lock == None && id in s.threads && s.threads[id] == Begin && now >= s.clock && now > 0.0
    ensures Ends(s, FromBegin(id, now), id) && Leaves(s, FromBegin(id, now), id, J.Succeeded)
    ensures Leaves(s, [TryLock(id), FromHeld(id, now)[0]], id, J.Running)
  {
    var a, rest := TryLock(id), FromHeld(id, now);
    StepInv(s, a);
    HolderEnds(Step(s, a), id, now);
    EndsEarlier(s, a, rest);
    LeavesEarlier(s, a, rest, J.Succeeded);
    LeavesEarlier(s, a, [rest[0]], J.Running);
    assert [a, rest[0]] == [a] + [rest[0]];
  }

  lemma {:induction false} QueuedEnds(s: State, id: string) returns (first: seq<Action>, rest: seq<Action>)
    requires Inv(s) && s.lock == None && id in s.threads && s.threads[id] == Begin
    ensures (forall a | a in first :: a.id == id) && forall a | a in rest :: a.id == id
    ensures Leaves(s, first, id, J.Running) && Leaves(s, first + rest, id, J.Succeeded)
  {
    var now := Later(s);
    BeginnerEnds(s, id, now);
    first, rest := [TryLock(id), FromHeld(id, now)[0]], FromWorking(id, now);
    assert FromBegin(id, now) == first + rest;
  }

  lemma {:induction false} LeavesLater(acts: seq<Action>, more: seq<Action>, id: string, status: J.Status)
    requires Runs(INIT, acts) && Leaves(After(INIT, acts), more, id, status)
    ensures Leaves(INIT, acts + more, id, status)
  {
    RunsAppend(INIT, acts, more);
  }

  /**
    From every reachable state with a free lock, a queued job can become running and then
    succeeded, by steps of its own thread only.
  */
  lemma {:induction false} QueuedCanSucceed(acts: seq<Action>, id: string)
    returns (first: seq<Action>, rest: seq<Action>)
    requires Runs(INIT, acts) && After(INIT, acts).lock == None
    requires id in After(INIT, acts).threads && After(INIT, acts).threads[id] == Begin
    ensures (forall a | a in first :: a.id == id) && forall a | a in rest :: a.id == id
    ensures Leaves(INIT, acts + first, id, J.Running)
    ensures Leaves(INIT, acts + (first + rest), id, J.Succeeded)
  {
    ReachedInv(acts);
    first, rest := QueuedEnds(After(INIT, acts), id);
    LeavesLater(acts, first, id, J.Running);
    LeavesLater(acts, first + rest, id, J.Succeeded);
  }

  lemma {:induction false} ThreadEnds(s: State, id: string, now: real)
    requires Inv(s) && id in s.threads && s.threads[id] != Exited && (s.lock == None || s.lock == Some(id))
    requires now >= s.clock && now > 0.0
    ensures Ends(s, Remaining(s.threads[id], id, now), id)
    ensures s.threads[id] in {Begin, Held, Working} ==>
              Leaves(s, Remaining(s.threads[id], id, now), id, J.Succeeded)
  {
    assert ThreadInv(s, id);
    match s.threads[id]
    case Begin => BeginnerEnds(s, id, now);
    case Held => HolderEnds(s, id, now);
    case Working => WorkerEnds(s, id, now);
    case Rejected => RefusedEnds(s, Refuse(id, J.Update(Some(J.Failed), None, None, None, false), now));
    case Finished => ReleaseEnds(s, id);
  }

  ghost function Active(s: State): set<string> {
    set id | id in s.threads && s.threads[id] != Exited
  }

  /** All threads have exited, and every job that had a chance at the lock has succeeded. */
  ghost predicate AllDone(before: State, after: State) {
    && after.threads.Keys == after.history.Keys == before.threads.Keys
    && after.lock == None
    && forall id | id in before.threads ::
         && after.threads[id] == Exited
         && (before.threads[id] in {Begin, Held, Working} ==> JobOf(after, id).status == J.Succeeded)
  }

  lemma {:induction false} OneFewer(id: string, s: State, after: State)
    requires OnlyOf(id, s, after) && after.threads[id] == Exited && id in Active(s)
    ensures |Active(after)| < |Active(s)|
  {
    assert Active(after) == Active(s) - {id};
  }

  /** One thread that can move ends. */
  lemma {:induction false} OneEnds(s: State) returns (id: string, own: seq<Action>)
    requires Inv(s) && Active(s) != {}
    ensures id in Active(s) && Ends(s, own, id)
    ensures s.threads[id] in {Begin, Held, Working} ==> Leaves(s, own, id, J.Succeeded)
  {
    SomeoneCanMove(s);
    id :| id in Active(s) && (s.lock == None || s.lock == Some(id));
    own := Remaining(s.threads[id], id, Later(s));
    ThreadEnds(s, id, Later(s));
  }

  lemma {:induction false} CanFinish(s: State) returns (rest: seq<Action>)
    requires Inv(s)
    ensures Runs(s, rest) && AllDone(s, After(s, rest))
    decreases |Active(s)|
  {
    if Active(s) == {} {
      rest := [];
      NoneActive(s);
    } else {
      var id, own := OneEnds(s);
      RunInv(s, own);
      OneFewer(id, s, After(s, own));
      var others := CanFinish(After(s, own));
      Chained(s, own, others, id);
      rest := own + others;
    }
  }

  /** If one thread ends first and all others after it, all end. */
  lemma {:induction false} Chained(s: State, own: seq<Action>, others: seq<Action>, id: string)
    requires Ends(s, own, id) && Inv(After(s, own))
    requires s.threads[id] in {Begin, Held, Working} ==> Leaves(s, own, id, J.Succeeded)
    requires Runs(After(s, own), others) && AllDone(After(s, own), After(After(s, own), others))
    ensures Runs(s, own + others) && AllDone(s, After(s, own + others))
  {
    RunsAppend(s, own, others);
    StaysClosed(After(s, own), others, id);
    DoneEarlier(s, After(s, own), After(s, own + others), id);
  }

  lemma {:induction false} NoneActive(s: State)
    requires Inv(s) && Active(s) == {}
    ensures AllDone(s, s)
  {
    HolderIsActive(s);
    forall id | id in s.threads ensures s.threads[id] == Exited {
      assert id !in Active(s);
    }
  }

  /** If one thread has ended and all others have since, all have. */
  lemma {:induction false} DoneEarlier(s: State, next: State, end: State, id: string)
    requires OnlyOf(id, s, next) && AllDone(next, end)
    requires id in next.history && end.history[id] == next.history[id]
    requires s.threads[id] in {Begin, Held, Working} ==> JobOf(next, id).status == J.Succeeded
    ensures AllDone(s, end)
  {
  }

  lemma {:induction false} HolderIsActive(s: State)
    requires Inv(s)
    ensures s.lock.Some? ==> s.lock.value in Active(s)
  {
    if s.lock.Some? {
      assert ThreadInv(s, s.lock.value);
    }
  }

  lemma {:induction false} SomeoneCanMove(s: State)
    requires Inv(s) && Active(s) != {}
    ensures exists id :: id in Active(s) && (s.lock == None || s.lock == Some(id))
  {
    HolderIsActive(s);
    if s.lock == None {
      var id :| id in Active(s);
    }
  }

  /** The job of a thread that has exited is never touched again. */
  lemma {:induction false} StaysClosed(s: State, acts: seq<Action>, id: string)
    requires Inv(s) && Runs(s, acts) && id in s.threads && s.threads[id] == Exited
    ensures id in After(s, acts).history && id in s.history && After(s, acts).history[id] == s.history[id]
    decreases |acts|
  {
    if acts != [] {
      StepInv(s, acts[0]);
      StaysClosed(Step(s, acts[0]), acts[1..], id);
    }
  }

  /**
    No interleaving is a dead end: from every reachable state a run exists after which every
    thread has exited, the lock is free, and each job that was queued, holding or running has
    succeeded.
  */
  lemma {:induction false} NoDeadEnd(acts: seq<Action>) returns (rest: seq<Action>)
    requires Runs(INIT, acts)
    ensures Runs(INIT, acts + rest) && AllDone(After(INIT, acts), After(INIT, acts + rest))
  {
    ReachedInv(acts);
    rest := CanFinish(After(INIT, acts));
    RunsAppend(INIT, acts, rest);
  }

  // ---- what a thread may do on the way ----

  /** A job with a new id can always be created; it waits, and nothing else changes. */
  lemma {:induction false} NewJobWaits(acts: seq<Action>, id: string, phase: string) returns (a: Action)
    requires Runs(INIT, acts) && id !in After(INIT, acts).history && phase != ""
    ensures a.Create? && a.id == id && a.update.phase == Some(phase) && Enabled(After(INIT, acts), a)
    ensures var s := After(INIT, acts);
            var after := Step(s, a);
            && after.threads == s.threads[id := Begin] && after.lock == s.lock
            && after.history.Keys == s.history.Keys + {id} && JobOf(after, id).status == J.Queued
            && forall other | other in s.history :: after.history[other] == s.history[other]
  {
    ReachedInv(acts);
    var s := After(INIT, acts);
    a := Create(id, J.Update(Some(J.Queued), Some(phase), None, None, true), Later(s));
    StatusIsLast(J.STORED, Step(s, a).history[id]);
  }

  lemma {:induction false} FailureEnds(s: State, id: string, a: Action)
    requires Inv(s) && id in s.threads && s.threads[id] in {Held, Working}
    requires a.Close? && a.id == id && Enabled(s, a) && a.update.status == Some(J.Failed)
    ensures Ends(s, [a] + [Release(id)], id) && Leaves(s, [a] + [Release(id)], id, J.Failed)
  {
    StepInv(s, a);
    StatusSet(s, a);
    RunOfOne(s, a);
    ReleaseEnds(Step(s, a), id);
    LeavesEarlier(s, a, [Release(id)], J.Failed);
    EndsEarlier(s, a, [Release(id)]);
  }

  /** Work that raises, at any moment inside the lock, closes its job as failed and gives the lock back. */
  lemma {:induction false} WorkCanFail(acts: seq<Action>, id: string, phase: string) returns (a: Action)
    requires Runs(INIT, acts) && Inside(After(INIT, acts), id) && phase != ""
    requires After(INIT, acts).threads[id] != Finished
    ensures a.Close? && a.id == id && a.update.phase == Some(phase)
    ensures Leaves(INIT, acts + ([a] + [Release(id)]), id, J.Failed)
    ensures After(INIT, acts + ([a] + [Release(id)])).lock == None
  {
    ReachedInv(acts);
    var s := After(INIT, acts);
    a := Close(id, Says(J.Failed, phase), Later(s));
    FailureEnds(s, id, a);
    LeavesLater(acts, [a] + [Release(id)], id, J.Failed);
    RunsAppend(INIT, acts, [a] + [Release(id)]);
  }

  /** A running job takes lines and progress at any time, and goes on running. */
  lemma {:induction false} WorkIsReported(acts: seq<Action>, id: string, text: string, phase: string, detail: string)
    returns (a: Action)
    requires Runs(INIT, acts) && id in After(INIT, acts).threads && After(INIT, acts).threads[id] == Working
    requires phase != ""
    ensures Enabled(After(INIT, acts), Say(id, text)) && Step(After(INIT, acts), Say(id, text)).threads[id] == Working
    ensures a.Progress? && a.id == id && Enabled(After(INIT, acts), a)
    ensures var s := After(INIT, acts);
            var after := Step(s, a);
            && after.threads == s.threads && after.lock == s.lock && id in after.history
            && JobOf(after, id).phase == phase && JobOf(after, id).detail == detail
            && JobOf(after, id).status == J.Running
  {
    ReachedInv(acts);
    var s := After(INIT, acts);
    assert ThreadInv(s, id);
    StatusIsLast(J.STORED, s.history[id]);
    a := Progress(id, J.Update(None, Some(phase), Some(detail), None, false), Later(s));
    assert Step(s, a).history[id][..|s.history[id]|] == s.history[id];
    J.AppliedMembers(J.STORED, JobOf(s, id), J.Call(a.update, a.now));
  }
}
