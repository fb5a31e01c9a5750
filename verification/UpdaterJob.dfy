/**
  The updater's job record: every update and log line a job receives, the step timings derived
  from its phase changes, and the bounded lists that are kept of them.
*/
module UpdaterJob {
  import opened Common
  import Text

  datatype Status = Unset | Queued | Running | Succeeded | Failed

  predicate Closed(s: Status) {
    s == Succeeded || s == Failed
  }

  datatype Step = Step(phase: string, durationMs: nat, detail: string)

  /** A job; an empty phase, a zero time and an empty list stand for missing members. */
  datatype Job = Job(
    status: Status, phase: string, detail: string,
    phaseStartedAt: real, startedAt: int,
    steps: seq<Step>, logs: seq<string>)

  const FRESH := Job(Unset, "", "", 0.0, 0, [], [])

  /** The keyword arguments of one `_set_job` call, as far as status and timings depend on them. */
  datatype Update = Update(
    status: Option<Status>, phase: Option<string>, detail: Option<string>,
    startedAt: Option<int>, clearLogs: bool)

  /** How many steps and log lines are kept; `Unbounded` keeps the full history. */
  datatype Caps = Unbounded | Bounded(steps: nat, logs: nat)

  const STORED := Bounded(40, 240)

  function KeepSteps(c: Caps, s: seq<Step>): seq<Step> {
    if c.Unbounded? then s else Last(s, c.steps)
  }

  function KeepLogs(c: Caps, s: seq<string>): seq<string> {
    if c.Unbounded? then s else Last(s, c.logs)
  }

  /** `_append_job_log_unlocked` */
  function Logged(c: Caps, j: Job, line: string): Job {
    j.(logs := KeepLogs(c, j.logs + [Text.StripRight(line)]))
  }

  /** `max(0, int((now - since) * 1000))` */
  function Millis(since: real, now: real): nat {
    var ms := ((now - since) * 1000.0).Floor;
    if ms > 0 then ms else 0
  }

  function PhaseStart(j: Job, now: real): real {
    if j.phaseStartedAt != 0.0 then j.phaseStartedAt
    else if j.startedAt != 0 then j.startedAt as real
    else now
  }

  /** Records the job's present phase as a finished step and logs it. */
  function Recorded(c: Caps, j: Job, now: real): Job {
    var step := Step(j.phase, Millis(PhaseStart(j, now), now), j.detail);
    Logged(c, j.(steps := KeepSteps(c, j.steps + [step])),
           "[step] " + step.phase + " 用时 " + Text.Decimal(step.durationMs) + "ms")
  }

  predicate ChangesPhase(j: Job, u: Update) {
    u.phase.Some? && u.phase.value != j.phase
  }

  /** The first half of `_set_job`: leaving a phase records it and restarts the phase clock. */
  function PhaseLeft(c: Caps, j: Job, u: Update, now: real): Job {
    if !ChangesPhase(j, u) then j
    else (if j.phase != "" then Recorded(c, j, now) else j).(phaseStartedAt := now)
  }

  /** `job.update(updates)` */
  function Merged(j: Job, u: Update): Job {
    j.(status := if u.status.Some? then u.status.value else j.status,
       phase := if u.phase.Some? then u.phase.value else j.phase,
       detail := if u.detail.Some? then u.detail.value else j.detail,
       startedAt := if u.startedAt.Some? then u.startedAt.value else j.startedAt,
       logs := if u.clearLogs then [] else j.logs)
  }

  predicate NeedsClosingStep(j: Job, u: Update) {
    && u.status.Some? && Closed(u.status.value)
    && j.phase != ""
    && (j.steps == [] || j.steps[|j.steps| - 1].phase != j.phase)
  }

  /** `_set_job` on one job, with the clock reading `now`. */
  function SetJob(c: Caps, j: Job, u: Update, now: real): Job {
    var merged := Merged(PhaseLeft(c, j, u, now), u);
    if NeedsClosingStep(merged, u) then Recorded(c, merged, now) else merged
  }

  // ---- the shared dictionary, in place ----

  class JobTable {
    var jobs: map<string, Job>

    constructor ()
      ensures jobs == map[]
    {
      jobs := map[];
    }

    function Get(id: string): Job
      reads this
    {
      if id in jobs then jobs[id] else FRESH
    }

    /** Appends the job's present phase to its timings and logs it. */
    static method RecordPhase(job: Job, now: real) returns (j: Job)
      ensures j == Recorded(STORED, job, now)
    {
      var step := Step(job.phase, Millis(PhaseStart(job, now), now), job.detail);
      j := job.(steps := Last(job.steps + [step], STORED.steps));
      j := Logged(STORED, j, "[step] " + step.phase + " 用时 " + Text.Decimal(step.durationMs) + "ms");
    }

    /** A phase change records the phase that ends and restarts the phase clock. */
    static method LeavePhase(job: Job, u: Update, now: real) returns (j: Job)
      ensures j == PhaseLeft(STORED, job, u, now)
    {
      j := job;
      if u.phase.Some? && u.phase.value != j.phase {
        if j.phase != "" {
          j := RecordPhase(j, now);
        }
        j := j.(phaseStartedAt := now);
      }
    }

    /** The closing call records its own phase, unless that is the last one recorded. */
    static method ClosePhase(job: Job, u: Update, now: real) returns (j: Job)
      ensures j == if NeedsClosingStep(job, u) then Recorded(STORED, job, now) else job
    {
      j := job;
      if u.status.Some? && Closed(u.status.value) && j.phase != "" {
        if j.steps == [] || j.steps[|j.steps| - 1].phase != j.phase {
          j := RecordPhase(j, now);
        }
      }
    }

    /** `_set_job`, under the table's lock; the other jobs are untouched. */
    method Set(id: string, u: Update, now: real)
      modifies this
      ensures jobs == old(jobs)[id := SetJob(STORED, old(if id in jobs then jobs[id] else FRESH), u, now)]
    {
      var j := LeavePhase(Get(id), u, now);
      j := Merged(j, u);
      j := ClosePhase(j, u, now);
      jobs := jobs[id := j];
    }

    /** `_append_job_log` */
    method AppendLog(id: string, line: string)
      modifies this
      ensures jobs == old(jobs)[id := Logged(STORED, old(if id in jobs then jobs[id] else FRESH), line)]
    {
      var logs := Get(id).logs + [Text.StripRight(line)];
      jobs := jobs[id := Get(id).(logs := Last(logs, STORED.logs))];
    }
  }

  // ---- histories ----

  datatype Entry = Call(update: Update, now: real) | Line(text: string)

  function Applied(c: Caps, j: Job, e: Entry): Job {
    match e
    case Call(u, now) => SetJob(c, j, u, now)
    case Line(text) => Logged(c, j, text)
  }

  function Replay(c: Caps, h: seq<Entry>): Job {
    if h == [] then FRESH else Applied(c, Replay(c, h[..|h| - 1]), h[|h| - 1])
  }

  // ---- the stored lists are the tail of the full history ----

  lemma LastOfLast<T>(s: seq<T>, x: T, n: nat)
    ensures Last(Last(s, n) + [x], n) == Last(s + [x], n)
  {
  }

  /** The stored job: all members of the full one, the lists cut to their last entries. */
  ghost predicate TailOf(stored: Job, full: Job) {
    && stored.steps == Last(full.steps, 40)
    && stored.logs == Last(full.logs, 240)
    && stored == full.(steps := stored.steps, logs := stored.logs)
  }

  lemma {:induction false} RecordedTail(stored: Job, full: Job, now: real)
    requires TailOf(stored, full)
    ensures TailOf(Recorded(STORED, stored, now), Recorded(Unbounded, full, now))
  {
    var step := Step(full.phase, Millis(PhaseStart(full, now), now), full.detail);
    LastOfLast(full.steps, step, STORED.steps);
    var line := Text.StripRight("[step] " + step.phase + " 用时 " + Text.Decimal(step.durationMs) + "ms");
    LastOfLast(full.logs, line, STORED.logs);
  }

  lemma {:induction false} PhaseLeftTail(stored: Job, full: Job, u: Update, now: real)
    requires TailOf(stored, full)
    ensures TailOf(PhaseLeft(STORED, stored, u, now), PhaseLeft(Unbounded, full, u, now))
  {
    RecordedTail(stored, full, now);
  }

  lemma MergedTail(stored: Job, full: Job, u: Update)
    requires TailOf(stored, full)
    ensures TailOf(Merged(stored, u), Merged(full, u))
    ensures NeedsClosingStep(Merged(stored, u), u) == NeedsClosingStep(Merged(full, u), u)
  {
  }

  lemma {:induction false} SetJobTail(stored: Job, full: Job, u: Update, now: real)
    requires TailOf(stored, full)
    ensures TailOf(SetJob(STORED, stored, u, now), SetJob(Unbounded, full, u, now))
  {
    var s1, f1 := PhaseLeft(STORED, stored, u, now), PhaseLeft(Unbounded, full, u, now);
    PhaseLeftTail(stored, full, u, now);
    MergedTail(s1, f1, u);
    RecordedTail(Merged(s1, u), Merged(f1, u), now);
  }

  /**
    Over any history the stored job is the unbounded one with its lists cut to the last 40 steps
    and the last 240 log lines: forgetting old entries never influences a later decision.
  */
  lemma {:induction false} StoredIsTail(h: seq<Entry>)
    ensures TailOf(Replay(STORED, h), Replay(Unbounded, h))
  {
    if h != [] {
      var front := h[..|h| - 1];
      StoredIsTail(front);
      match h[|h| - 1]
      case Call(u, now) => SetJobTail(Replay(STORED, front), Replay(Unbounded, front), u, now);
      case Line(text) => LastOfLast(Replay(Unbounded, front).logs, Text.StripRight(text), STORED.logs);
    }
  }

  // ---- what the plain members hold ----

  function NamedStatus(e: Entry): Option<Status> { if e.Call? then e.update.status else None }
  function NamedPhase(e: Entry): Option<string> { if e.Call? then e.update.phase else None }
  function NamedDetail(e: Entry): Option<string> { if e.Call? then e.update.detail else None }
  function NamedStart(e: Entry): Option<int> { if e.Call? then e.update.startedAt else None }

  /** `value` is what the last entry to name a member has named, or `first` if none has. */
  ghost predicate LastNamed<T(!new)>(h: seq<Entry>, named: Entry -> Option<T>, first: T, value: T) {
    || (value == first && forall i | 0 <= i < |h| :: named(h[i]).None?)
    || (exists i :: && 0 <= i < |h| && named(h[i]) == Some(value)
                    && forall j | i < j < |h| :: named(h[j]).None?)
  }

  function Else<T>(named: Option<T>, value: T): T {
    if named.Some? then named.value else value
  }

  lemma {:induction false} LastNamedAppend<T(!new)>(h: seq<Entry>, e: Entry, named: Entry -> Option<T>,
                                                    first: T, value: T)
    requires LastNamed(h, named, first, value)
    ensures LastNamed(h + [e], named, first, Else(named(e), value))
  {
    var more := h + [e];
    assert more[|h|] == e;
    if named(e).None? && exists i :: 0 <= i < |h| && named(h[i]) == Some(value)
                                     && forall j | i < j < |h| :: named(h[j]).None? {
      var i :| 0 <= i < |h| && named(h[i]) == Some(value) && forall j | i < j < |h| :: named(h[j]).None?;
      assert named(more[i]) == Some(value);
      assert forall j | i < j < |more| :: named(more[j]).None?;
    }
  }

  lemma {:induction false} AppliedMembers(c: Caps, j: Job, e: Entry)
    ensures var after := Applied(c, j, e);
            && after.status == Else(NamedStatus(e), j.status) && after.phase == Else(NamedPhase(e), j.phase)
            && after.detail == Else(NamedDetail(e), j.detail)
            && after.startedAt == Else(NamedStart(e), j.startedAt)
  {
  }

  /**
    After any history a job's status, phase, detail and start time are those of the last calls
    that named them, in the stored job as in the full one.
  */
  lemma {:induction false} MembersAreLastNamed(c: Caps, h: seq<Entry>)
    ensures var j := Replay(c, h);
            && LastNamed(h, NamedStatus, Unset, j.status)
            && LastNamed(h, NamedPhase, "", j.phase)
            && LastNamed(h, NamedDetail, "", j.detail)
            && LastNamed(h, NamedStart, 0, j.startedAt)
  {
    if h != [] {
      var front, e := h[..|h| - 1], h[|h| - 1];
      assert h == front + [e];
      MembersAreLastNamed(c, front);
      var j := Replay(c, front);
      AppliedMembers(c, j, e);
      LastNamedAppend(front, e, NamedStatus, Unset, j.status);
      LastNamedAppend(front, e, NamedPhase, "", j.phase);
      LastNamedAppend(front, e, NamedDetail, "", j.detail);
      LastNamedAppend(front, e, NamedStart, 0, j.startedAt);
    }
  }

  // ---- the accounting of time ----

  function Total(steps: seq<Step>): nat {
    if steps == [] then 0 else Total(steps[..|steps| - 1]) + steps[|steps| - 1].durationMs
  }

  lemma {:induction false} TotalAppend(steps: seq<Step>, s: Step)
    ensures Total(steps + [s]) == Total(steps) + s.durationMs
  {
    assert (steps + [s])[..|steps|] == steps;
  }

  predicate IsCreation(e: Entry) {
    && e.Call? && e.now > 0.0
    && e.update.status == Some(Queued) && e.update.phase.Some? && e.update.phase.value != ""
    && e.update.clearLogs && e.update.startedAt == None
  }

  predicate NamesPhase(u: Update) {
    u.phase.Some? ==> u.phase.value != ""
  }

  predicate IsProgress(e: Entry) {
    e.Line? || (NamesPhase(e.update) && !(e.update.status.Some? && Closed(e.update.status.value)))
  }

  predicate IsClosing(e: Entry) {
    e.Call? && NamesPhase(e.update) && e.update.status.Some? && Closed(e.update.status.value)
  }

  /** When the last call before position `n` was made. */
  function Clock(h: seq<Entry>): real
    requires h != [] && h[0].Call?
  {
    if h[|h| - 1].Call? || |h| == 1 then h[|h| - 1].now else Clock(h[..|h| - 1])
  }

  /** An open job's history: created, then progress, with a clock that never runs backwards. */
  predicate OpenHistory(h: seq<Entry>) {
    && h != []
    && IsCreation(h[0])
    && (|h| > 1 ==>
          && OpenHistory(h[..|h| - 1])
          && IsProgress(h[|h| - 1])
          && (h[|h| - 1].Call? ==> h[|h| - 1].now >= Clock(h[..|h| - 1])))
  }

  /** An open history followed by the one closing call. */
  predicate ClosedHistory(h: seq<Entry>) {
    && |h| > 1
    && OpenHistory(h[..|h| - 1])
    && IsClosing(h[|h| - 1])
    && h[|h| - 1].now >= Clock(h[..|h| - 1])
  }

  /**
    `steps` account for the time from `start` to `now`: each duration is rounded down, so their
    sum falls short by less than one millisecond a step.
  */
  ghost predicate Accounts(steps: seq<Step>, start: real, now: real) {
    && Total(steps) as real <= (now - start) * 1000.0 <= Total(steps) as real + |steps| as real
    && (steps != [] ==> (now - start) * 1000.0 < Total(steps) as real + |steps| as real)
  }

  ghost predicate AdjacentDiffer(steps: seq<Step>) {
    forall i | 0 <= i < |steps| - 1 :: steps[i].phase != steps[i + 1].phase
  }

  lemma {:induction false} AccountsAppend(steps: seq<Step>, s: Step, start: real, since: real, now: real)
    requires Accounts(steps, start, since) && since <= now && s.durationMs == Millis(since, now)
    ensures Accounts(steps + [s], start, now)
  {
    TotalAppend(steps, s);
    var ms := (now - since) * 1000.0;
    assert ms >= 0.0;
    assert ms.Floor as real <= ms < ms.Floor as real + 1.0;
    assert s.durationMs == ms.Floor;
  }

  ghost predicate OpenJob(j: Job, start: real, now: real) {
    && j.phase != ""
    && 0.0 < start <= j.phaseStartedAt <= now
    && Accounts(j.steps, start, j.phaseStartedAt)
    && AdjacentDiffer(j.steps)
    && (j.steps != [] ==> j.steps[|j.steps| - 1].phase != j.phase)
  }

  lemma {:induction false} RecordedAccounts(j: Job, start: real, before: real, now: real)
    requires OpenJob(j, start, before) && before <= now
    ensures var r := Recorded(Unbounded, j, now);
            && Accounts(r.steps, start, now) && AdjacentDiffer(r.steps)
            && r.steps == j.steps + [r.steps[|j.steps|]] && r.steps[|j.steps|].phase == j.phase
            && r == j.(steps := r.steps, logs := r.logs)
  {
    var step := Step(j.phase, Millis(PhaseStart(j, now), now), j.detail);
    AccountsAppend(j.steps, step, start, j.phaseStartedAt, now);
  }

  lemma {:induction false} OpenAfterCall(j: Job, u: Update, start: real, before: real, now: real)
    requires OpenJob(j, start, before) && before <= now && NamesPhase(u)
    ensures OpenJob(Merged(PhaseLeft(Unbounded, j, u, now), u), start, now)
  {
    RecordedAccounts(j, start, before, now);
  }

  /** While a job is open its recorded steps account for the time up to its present phase. */
  lemma {:induction false} OpenHistoryAccounts(h: seq<Entry>)
    requires OpenHistory(h)
    ensures OpenJob(Replay(Unbounded, h), h[0].now, Clock(h))
    ensures !Closed(Replay(Unbounded, h).status)
  {
    if |h| == 1 {
      assert h[..0] == [];
      assert Replay(Unbounded, []) == FRESH;
    } else {
      var front, e := h[..|h| - 1], h[|h| - 1];
      OpenHistoryAccounts(front);
      if e.Call? {
        OpenAfterCall(Replay(Unbounded, front), e.update, h[0].now, Clock(front), e.now);
      }
    }
  }

  /**
    The full story of a finished job.  Its steps, kept in full, account for the whole time from
    creation to the closing call (short by less than a millisecond a step); neighbouring steps
    name different phases; the closing call adds its own phase exactly once, as the last step.
  */
  lemma {:induction false} TimingsAccountForRun(h: seq<Entry>)
    requires ClosedHistory(h)
    ensures var j, open := Replay(Unbounded, h), Replay(Unbounded, h[..|h| - 1]);
            && Closed(j.status)
            && j.steps != [] && Accounts(j.steps, h[0].now, h[|h| - 1].now)
            && AdjacentDiffer(j.steps)
            && j.steps[|j.steps| - 1].phase == j.phase
            && |j.steps| == |open.steps| + (if ChangesPhase(open, h[|h| - 1].update) then 2 else 1)
            && open.steps <= j.steps
  {
    var front, e := h[..|h| - 1], h[|h| - 1];
    OpenHistoryAccounts(front);
    var open := Replay(Unbounded, front);
    RecordedAccounts(open, h[0].now, Clock(front), e.now);
    OpenAfterCall(open, e.update, h[0].now, Clock(front), e.now);
    var merged := Merged(PhaseLeft(Unbounded, open, e.update, e.now), e.update);
    RecordedAccounts(merged, h[0].now, e.now, e.now);
  }

  // ---- progress lines ----

  const PROGRESS_PREFIX := "@@TELEPILOT_PROGRESS@@"

  /** Position of the first bar, or the length of the text. */
  function Bar(s: string): (k: nat)
    ensures k <= |s| && (k < |s| ==> s[k] == '|') && forall i | 0 <= i < k :: s[i] != '|'
  {
    if s == "" || s[0] == '|' then 0 else 1 + Bar(s[1..])
  }

  function DropLineEnd(s: string): string {
    if s != "" && s[|s| - 1] in {'\r', '\n'} then DropLineEnd(s[..|s| - 1]) else s
  }

  datatype Progress = Progress(percent: int, phase: string, detail: string)

  /** `_parse_progress`; `toInt` is Python's `int` on text, which may raise. */
  function ParseProgress(toInt: string -> Option<int>, line: string): (r: Option<Progress>)
    ensures r.Some? ==> 0 <= r.value.percent <= 100 && r.value.phase != ""
  {
    if !(PROGRESS_PREFIX <= line) then None
    else
      var body := DropLineEnd(line[|PROGRESS_PREFIX|..]);
      var a := Bar(body);
      if a == |body| then None
      else
        var rest := body[a + 1..];
        var b := Bar(rest);
        if b == |rest| then None
        else match toInt(body[..a])
          case None => None
          case Some(n) =>
            Some(Progress(if n < 0 then 0 else if n > 100 then 100 else n,
                          if b == 0 then "更新中" else rest[..b],
                          rest[b + 1..]))
  }
}
