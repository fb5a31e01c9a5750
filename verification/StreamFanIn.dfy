/**
  The streaming endpoint's fan-in: one producer task per model, a bounded FIFO queue, a
  process-wide diagnostic semaphore, and one consumer that counts terminal events down.
  Every interleaving is a run of `Apply` steps.  Producers emit the scripts that
  `ChatTest.RunOne` produces: recording usage swallows its own failures, so every producer gets
  to its terminal.  Other requests share the semaphore: `Borrow` and `Return`.
*/
module StreamFanIn {
  import opened ChatTest

  datatype Tagged = Tagged(task: nat, event: Event)

  datatype Config = Config(scripts: seq<seq<Event>>, queueCapacity: nat, slots: nat)

  /** `sent` counts the events a task has put on the queue. */
  datatype Producer =
    | Waiting                  // for a diagnostic slot
    | Computing(sent: nat)     // holds a slot, talks to the upstream
    | Putting(sent: nat)       // holds a slot, suspended in `queue.put`
    | Exited(sent: nat)        // slot given back
  {
    predicate Holds() { Computing? || Putting? }
    function Sent(): nat { if Waiting? then 0 else sent }
  }

  datatype State = State(
    producers: seq<Producer>,
    queue: seq<Tagged>,
    output: seq<Tagged>,
    remaining: int,
    others: nat)               // slots held by other requests

  datatype Action =
    | Acquire(i: nat) | Ready(i: nat) | Put(i: nat) | Exit(i: nat) | Take
    | Borrow | Return

  predicate Own(a: Action) {
    !a.Borrow? && !a.Return?
  }

  ghost predicate ValidConfig(c: Config) {
    && c.queueCapacity >= 1
    && c.slots >= 1
    && forall i | 0 <= i < |c.scripts| :: IsScript(c.scripts[i])
  }

  function Init(c: Config, others: nat): State {
    State(seq(|c.scripts|, _ => Waiting), [], [], |c.scripts|, others)
  }

  function Holders(ps: seq<Producer>): nat {
    if ps == [] then 0 else (if ps[0].Holds() then 1 else 0) + Holders(ps[1..])
  }

  function FreeSlots(c: Config, s: State): int {
    c.slots - Holders(s.producers) - s.others
  }

  predicate Enabled(c: Config, s: State, a: Action)
    requires |s.producers| == |c.scripts|
  {
    match a
    case Acquire(i) => i < |s.producers| && s.producers[i].Waiting? && FreeSlots(c, s) > 0
    case Ready(i) => i < |s.producers| && s.producers[i].Computing? && s.producers[i].sent < |c.scripts[i]|
    case Put(i) => i < |s.producers| && s.producers[i].Putting? && s.producers[i].sent < |c.scripts[i]|
                   && |s.queue| < c.queueCapacity
    case Exit(i) => i < |s.producers| && s.producers[i].Computing? && s.producers[i].sent == |c.scripts[i]|
    case Take => s.remaining != 0 && s.queue != []
    case Borrow => FreeSlots(c, s) > 0
    case Return => s.others > 0
  }

  function Apply(c: Config, s: State, a: Action): (s': State)
    requires |s.producers| == |c.scripts| && Enabled(c, s, a)
    ensures |s'.producers| == |c.scripts|
  {
    match a
    case Acquire(i) => s.(producers := s.producers[i := Computing(0)])
    case Ready(i) => s.(producers := s.producers[i := Putting(s.producers[i].sent)])
    case Put(i) =>
      var sent := s.producers[i].sent;
      s.(producers := s.producers[i := Computing(sent + 1)], queue := s.queue + [Tagged(i, c.scripts[i][sent])])
    case Exit(i) => s.(producers := s.producers[i := Exited(s.producers[i].sent)])
    case Take =>
      s.(queue := s.queue[1..],
         output := s.output + [s.queue[0]],
         remaining := s.remaining - (if Terminal(s.queue[0].event) then 1 else 0))
    case Borrow => s.(others := s.others + 1)
    case Return => s.(others := s.others - 1)
  }

  /** `acts` can be taken one after the other from `s`. */
  ghost predicate Runs(c: Config, s: State, acts: seq<Action>)
    requires |s.producers| == |c.scripts|
    decreases |acts|
  {
    acts == [] || (Enabled(c, s, acts[0]) && Runs(c, Apply(c, s, acts[0]), acts[1..]))
  }

  ghost function After(c: Config, s: State, acts: seq<Action>): (s': State)
    requires |s.producers| == |c.scripts| && Runs(c, s, acts)
    ensures |s'.producers| == |c.scripts|
    decreases |acts|
  {
    if acts == [] then s else After(c, Apply(c, s, acts[0]), acts[1..])
  }

  /** The events of task `i` in a stretch of the stream. */
  function Project(es: seq<Tagged>, i: nat): seq<Event> {
    if es == [] then []
    else (if es[0].task == i then [es[0].event] else []) + Project(es[1..], i)
  }

  /** The tasks whose terminal the consumer has not taken yet. */
  ghost function Unfinished(c: Config, output: seq<Tagged>): set<nat> {
    set i: nat | i < |c.scripts| && Project(output, i) != c.scripts[i]
  }

  ghost predicate InRange(c: Config, es: seq<Tagged>) {
    forall k | 0 <= k < |es| :: es[k].task < |c.scripts|
  }

  ghost predicate TaskInv(c: Config, s: State, i: nat)
    requires |s.producers| == |c.scripts| && i < |c.scripts|
  {
    var p := s.producers[i];
    && p.Sent() <= |c.scripts[i]|
    && (p.Putting? ==> p.sent < |c.scripts[i]|)
    && (p.Exited? ==> p.sent == |c.scripts[i]|)
    && Project(s.output, i) + Project(s.queue, i) == c.scripts[i][..p.Sent()]
  }

  ghost predicate Inv(c: Config, s: State) {
    && |s.producers| == |c.scripts|
    && (forall i: nat | i < |c.scripts| :: TaskInv(c, s, i))
    && InRange(c, s.output) && InRange(c, s.queue)
    && s.remaining == |Unfinished(c, s.output)|
    && |s.queue| <= c.queueCapacity
    && FreeSlots(c, s) >= 0
  }

  // ---- small facts about projections and counts ----

  lemma {:induction false} ProjectAppend(es: seq<Tagged>, e: Tagged, i: nat)
    ensures Project(es + [e], i) == Project(es, i) + (if e.task == i then [e.event] else [])
  {
    if es != [] {
      ProjectAppend(es[1..], e, i);
      assert (es + [e])[1..] == es[1..] + [e];
    }
  }

  lemma ProjectFirst(es: seq<Tagged>)
    requires es != []
    ensures Project(es, es[0].task) != []
  {
  }

  lemma {:induction false} HoldersUpdate(ps: seq<Producer>, i: nat, p: Producer)
    requires i < |ps|
    ensures Holders(ps[i := p]) ==
            Holders(ps) - (if ps[i].Holds() then 1 else 0) + (if p.Holds() then 1 else 0)
  {
    if i > 0 {
      HoldersUpdate(ps[1..], i - 1, p);
      assert ps[i := p][1..] == ps[1..][i - 1 := p];
    } else {
      assert ps[i := p][1..] == ps[1..];
    }
  }

  lemma {:induction false} NoHolders(ps: seq<Producer>)
    requires forall i | 0 <= i < |ps| :: !ps[i].Holds()
    ensures Holders(ps) == 0
  {
    if ps != [] {
      NoHolders(ps[1..]);
    }
  }

  /** A proper prefix of a script holds no terminal. */
  lemma TerminalEndsScript(es: seq<Event>, k: nat)
    requires IsScript(es) && k < |es|
    ensures Terminal(es[k]) <==> k == |es| - 1
  {
  }

  /** Moving the first queued event to the output moves nothing else between them. */
  lemma {:induction false} TakeMoves(s: State, i: nat)
    requires s.queue != []
    ensures var e := s.queue[0];
            && Project(s.output + [e], i) == Project(s.output, i) + (if e.task == i then [e.event] else [])
            && Project(s.output + [e], i) + Project(s.queue[1..], i) == Project(s.output, i) + Project(s.queue, i)
  {
    ProjectAppend(s.output, s.queue[0], i);
  }

  /** The event taken next is the next one of its task's script. */
  lemma {:induction false} TakeFollowsScript(c: Config, s: State)
    requires Inv(c, s) && s.queue != []
    ensures var e, k := s.queue[0], |Project(s.output, s.queue[0].task)|;
            && k < |c.scripts[e.task]| && c.scripts[e.task][k] == e.event
            && Project(s.output, e.task) == c.scripts[e.task][..k]
            && Project(s.output + [e], e.task) == c.scripts[e.task][..k + 1]
  {
    var e := s.queue[0];
    var done, waiting := Project(s.output, e.task), Project(s.queue, e.task);
    assert TaskInv(c, s, e.task);
    var whole := done + waiting;
    assert waiting[0] == e.event && whole[|done|] == e.event;
    assert done == whole[..|done|];
    TakeMoves(s, e.task);
  }

  /** Taking one event finishes its task exactly when the event is a terminal. */
  lemma {:induction false} TakeCounts(c: Config, s: State)
    requires ValidConfig(c) && Inv(c, s) && s.queue != []
    ensures var e := s.queue[0];
            |Unfinished(c, s.output + [e])| == |Unfinished(c, s.output)| - (if Terminal(e.event) then 1 else 0)
  {
    var e := s.queue[0];
    var t, out', script := e.task, s.output + [e], c.scripts[e.task];
    var k := |Project(s.output, t)|;
    TakeFollowsScript(c, s);
    TerminalEndsScript(script, k);
    forall i: nat | i < |c.scripts| && i != t
      ensures Project(out', i) == Project(s.output, i)
    {
      TakeMoves(s, i);
    }
    assert t in Unfinished(c, s.output);
    if Terminal(e.event) {
      assert Project(out', t) == script;
      assert Unfinished(c, out') == Unfinished(c, s.output) - {t};
    } else {
      assert Project(out', t) != script;
      assert Unfinished(c, out') == Unfinished(c, s.output);
    }
  }

  // ---- the invariant over every run ----

  lemma {:induction false} InitInv(c: Config, others: nat)
    requires ValidConfig(c) && others <= c.slots
    ensures Inv(c, Init(c, others))
  {
    NoHolders(Init(c, others).producers);
    assert Unfinished(c, []) == Below(|c.scripts|);
  }

  ghost function Below(n: nat): (r: set<nat>)
    ensures |r| == n && forall i: nat :: i in r <==> i < n
  {
    if n == 0 then {} else Below(n - 1) + {n - 1}
  }

  lemma {:induction false} TakeInv(c: Config, s: State)
    requires ValidConfig(c) && Inv(c, s) && Enabled(c, s, Take)
    ensures Inv(c, Apply(c, s, Take))
  {
    TakeCounts(c, s);
    forall i: nat | i < |c.scripts| ensures TaskInv(c, Apply(c, s, Take), i) {
      assert TaskInv(c, s, i);
      TakeMoves(s, i);
    }
  }

  lemma {:induction false} PutInv(c: Config, s: State, i: nat)
    requires Inv(c, s) && Enabled(c, s, Put(i))
    ensures Inv(c, Apply(c, s, Put(i)))
  {
    var s' := Apply(c, s, Put(i));
    var e := Tagged(i, c.scripts[i][s.producers[i].sent]);
    HoldersUpdate(s.producers, i, s'.producers[i]);
    forall j: nat | j < |c.scripts| ensures TaskInv(c, s', j) {
      assert TaskInv(c, s, j);
      ProjectAppend(s.queue, e, j);
      if j == i {
        assert c.scripts[i][..s'.producers[i].Sent()] == c.scripts[i][..s.producers[i].sent] + [e.event];
      }
    }
  }

  lemma {:induction false} StepInv(c: Config, s: State, a: Action)
    requires ValidConfig(c) && Inv(c, s) && Enabled(c, s, a)
    ensures Inv(c, Apply(c, s, a))
  {
    var s' := Apply(c, s, a);
    match a
    case Take => TakeInv(c, s);
    case Put(i) => PutInv(c, s, i);
    case Borrow =>
      forall j: nat | j < |c.scripts| ensures TaskInv(c, s', j) { assert TaskInv(c, s, j); }
    case Return =>
      forall j: nat | j < |c.scripts| ensures TaskInv(c, s', j) { assert TaskInv(c, s, j); }
    case _ =>
      HoldersUpdate(s.producers, a.i, s'.producers[a.i]);
      forall j: nat | j < |c.scripts| ensures TaskInv(c, s', j) { assert TaskInv(c, s, j); }
  }

  lemma {:induction false} RunInv(c: Config, s: State, acts: seq<Action>)
    requires ValidConfig(c) && Inv(c, s) && Runs(c, s, acts)
    ensures Inv(c, After(c, s, acts))
    decreases |acts|
  {
    if acts != [] {
      StepInv(c, s, acts[0]);
      RunInv(c, Apply(c, s, acts[0]), acts[1..]);
    }
  }

  // ---- what the invariant gives ----

  /**
    When the consumer's loop exits normally, every task's lines on the wire are its whole script
    (start, deltas, one terminal) in order, nothing is left in the queue, and no producer is
    suspended in a put.
  */
  lemma {:induction false} ExitIsComplete(c: Config, others: nat, acts: seq<Action>)
    requires ValidConfig(c) && others <= c.slots
    requires Runs(c, Init(c, others), acts)
    requires After(c, Init(c, others), acts).remaining == 0
    ensures var s := After(c, Init(c, others), acts);
            && (forall i: nat | i < |c.scripts| :: Project(s.output, i) == c.scripts[i])
            && s.queue == []
            && (forall i: nat | i < |c.scripts| ::
                  !s.producers[i].Putting? && s.producers[i].Sent() == |c.scripts[i]|)
  {
    InitInv(c, others);
    RunInv(c, Init(c, others), acts);
    var s := After(c, Init(c, others), acts);
    assert Unfinished(c, s.output) == {};
    forall i: nat | i < |c.scripts|
      ensures Project(s.output, i) == c.scripts[i] && Project(s.queue, i) == []
      ensures !s.producers[i].Putting? && s.producers[i].Sent() == |c.scripts[i]|
    {
      assert i !in Unfinished(c, s.output);
      assert TaskInv(c, s, i);
      assert |Project(s.output, i)| + |Project(s.queue, i)| == |c.scripts[i][..s.producers[i].Sent()]|;
    }
    if s.queue != [] {
      ProjectFirst(s.queue);
      assert false;
    }
  }

  /** The tasks that talk to the upstream or are suspended in a put. */
  ghost function Busy(s: State): set<nat> {
    set i: nat | i < |s.producers| && (s.producers[i].Computing? || s.producers[i].Putting?)
  }

  ghost function BusyFrom(ps: seq<Producer>, k: nat): set<nat> {
    set i: nat | k <= i < |ps| && (ps[i].Computing? || ps[i].Putting?)
  }

  lemma {:induction false} HoldersAreBusy(ps: seq<Producer>, k: nat)
    requires k <= |ps|
    ensures Holders(ps[k..]) == |BusyFrom(ps, k)|
    decreases |ps| - k
  {
    if k == |ps| {
      assert BusyFrom(ps, k) == {};
    } else {
      HoldersAreBusy(ps, k + 1);
      assert ps[k..][1..] == ps[k + 1..];
      var busy := ps[k].Computing? || ps[k].Putting?;
      assert BusyFrom(ps, k) == BusyFrom(ps, k + 1) + if busy then {k} else {};
    }
  }

  /**
    In every run the tasks at work and the other requests together keep within the diagnostic
    slots, and the queue within its capacity; and a waiting task gets a slot exactly if one is left.
  */
  lemma {:induction false} SlotsAreKept(c: Config, others: nat, acts: seq<Action>)
    requires ValidConfig(c) && others <= c.slots
    requires Runs(c, Init(c, others), acts)
    ensures var s := After(c, Init(c, others), acts);
            && |Busy(s)| + s.others <= c.slots
            && |s.queue| <= c.queueCapacity
            && forall i: nat | i < |s.producers| && s.producers[i].Waiting? ::
                 Enabled(c, s, Acquire(i)) <==> |Busy(s)| + s.others < c.slots
  {
    InitInv(c, others);
    RunInv(c, Init(c, others), acts);
    var s := After(c, Init(c, others), acts);
    HoldersAreBusy(s.producers, 0);
    assert s.producers[0..] == s.producers && BusyFrom(s.producers, 0) == Busy(s);
  }

  /** At any moment what a client has seen of a task is a prefix of its script. */
  lemma {:induction false} OutputIsPrefix(c: Config, others: nat, acts: seq<Action>, i: nat)
    requires ValidConfig(c) && others <= c.slots && i < |c.scripts|
    requires Runs(c, Init(c, others), acts)
    ensures Project(After(c, Init(c, others), acts).output, i) <= c.scripts[i]
  {
    InitInv(c, others);
    RunInv(c, Init(c, others), acts);
    var s := After(c, Init(c, others), acts);
    assert TaskInv(c, s, i);
    assert Project(s.output, i) == (Project(s.output, i) + Project(s.queue, i))[..|Project(s.output, i)|];
  }

  ghost predicate HasTerminal(es: seq<Event>) {
    exists k: nat | k < |es| :: Terminal(es[k])
  }

  /** The tasks of which the client has seen no terminal. */
  ghost function Open(c: Config, output: seq<Tagged>): set<nat> {
    set i: nat | i < |c.scripts| && !HasTerminal(Project(output, i))
  }

  /** `remaining` is the number of tasks whose terminal has not been taken, in every run. */
  lemma {:induction false} RemainingCountsOpenTasks(c: Config, others: nat, acts: seq<Action>)
    requires ValidConfig(c) && others <= c.slots
    requires Runs(c, Init(c, others), acts)
    ensures var s := After(c, Init(c, others), acts);
            s.remaining == |Open(c, s.output)|
  {
    InitInv(c, others);
    RunInv(c, Init(c, others), acts);
    var s := After(c, Init(c, others), acts);
    forall i: nat | i < |c.scripts|
      ensures HasTerminal(Project(s.output, i)) <==> Project(s.output, i) == c.scripts[i]
    {
      OutputIsPrefix(c, others, acts, i);
      var seen, script := Project(s.output, i), c.scripts[i];
      if seen == script {
        assert Terminal(seen[|seen| - 1]);
      } else {
        assert seen == script[..|seen|];
        assert |seen| < |script|;
        forall k: nat | k < |seen| ensures !Terminal(seen[k]) {
          assert seen[k] == script[k];
          TerminalEndsScript(script, k);
        }
      }
    }
    assert Unfinished(c, s.output) == Open(c, s.output);
  }

  // ---- no deadlock, and an end ----

  /** No step of this request is possible. */
  ghost predicate Stuck(c: Config, s: State)
    requires |s.producers| == |c.scripts|
  {
    forall a | Own(a) :: !Enabled(c, s, a)
  }

  /** A task of a stuck request has not begun or has emitted everything. */
  lemma {:induction false} StuckTask(c: Config, s: State, i: nat)
    requires ValidConfig(c) && Inv(c, s) && Stuck(c, s) && s.queue == [] && i < |c.scripts|
    ensures s.producers[i].Waiting? || s.producers[i].Exited?
    ensures s.producers[i].Waiting? <==> Project(s.output, i) != c.scripts[i]
  {
    assert !Enabled(c, s, Ready(i)) && !Enabled(c, s, Put(i)) && !Enabled(c, s, Exit(i));
    assert TaskInv(c, s, i);
    assert |Project(s.output, i)| == s.producers[i].Sent();
  }

  /**
    For any queue and semaphore capacity of at least one: a request that still waits for a
    terminal can only be out of steps because other requests hold every slot, and then all it
    waits for are tasks that have not got one yet.
  */
  lemma {:induction false} StuckMeansWaiting(c: Config, s: State)
    requires ValidConfig(c) && Inv(c, s) && Stuck(c, s) && s.remaining != 0
    ensures s.others == c.slots && s.queue == []
    ensures forall i: nat | i < |c.scripts| :: s.producers[i].Waiting? || s.producers[i].Exited?
    ensures forall i: nat | i < |c.scripts| :: s.producers[i].Waiting? <==> i in Unfinished(c, s.output)
  {
    assert !Enabled(c, s, Take);
    forall i: nat | i < |c.scripts|
      ensures s.producers[i].Waiting? || s.producers[i].Exited?
      ensures s.producers[i].Waiting? <==> i in Unfinished(c, s.output)
    {
      StuckTask(c, s, i);
    }
    NoHolders(s.producers);
    assert Unfinished(c, s.output) != {};
    var i: nat :| i in Unfinished(c, s.output);
    assert !Enabled(c, s, Acquire(i));
  }

  /** While the consumer waits and not every slot is held by other requests, someone can step. */
  lemma {:induction false} NoDeadlock(c: Config, s: State) returns (a: Action)
    requires ValidConfig(c) && Inv(c, s) && s.remaining != 0 && s.others < c.slots
    ensures Own(a) && Enabled(c, s, a)
  {
    if Stuck(c, s) {
      StuckMeansWaiting(c, s);
      assert false;
    }
    a :| Own(a) && Enabled(c, s, a);
  }

  function Potential(p: Producer, len: nat): int {
    match p
    case Waiting => 3 * len + 2
    case Computing(sent) => 3 * (len - sent) + 1
    case Putting(sent) => 3 * (len - sent)
    case Exited(_) => 0
  }

  function Potentials(ps: seq<Producer>, scripts: seq<seq<Event>>): int
    requires |ps| == |scripts|
  {
    if ps == [] then 0
    else Potential(ps[0], |scripts[0]|) + Potentials(ps[1..], scripts[1..])
  }

  /** Work left: what producers still have to do plus what the consumer still has to take. */
  function Measure(c: Config, s: State): int
    requires |s.producers| == |c.scripts|
  {
    Potentials(s.producers, c.scripts) + |s.queue|
  }

  lemma {:induction false} PotentialsUpdate(ps: seq<Producer>, scripts: seq<seq<Event>>, i: nat, p: Producer)
    requires |ps| == |scripts| && i < |ps|
    ensures Potentials(ps[i := p], scripts) ==
            Potentials(ps, scripts) - Potential(ps[i], |scripts[i]|) + Potential(p, |scripts[i]|)
  {
    if i > 0 {
      PotentialsUpdate(ps[1..], scripts[1..], i - 1, p);
      assert ps[i := p][1..] == ps[1..][i - 1 := p];
    } else {
      assert ps[i := p][1..] == ps[1..];
    }
  }

  lemma {:induction false} PotentialsNonNegative(ps: seq<Producer>, scripts: seq<seq<Event>>)
    requires |ps| == |scripts|
    requires forall i | 0 <= i < |ps| :: ps[i].Sent() <= |scripts[i]|
    ensures Potentials(ps, scripts) >= 0
  {
    if ps != [] {
      PotentialsNonNegative(ps[1..], scripts[1..]);
    }
  }

  /** Every step of the request uses up work; the other requests' steps leave it alone. */
  lemma {:induction false} StepDecreases(c: Config, s: State, a: Action)
    requires Inv(c, s) && Enabled(c, s, a)
    ensures Own(a) ==> Measure(c, Apply(c, s, a)) < Measure(c, s)
    ensures !Own(a) ==> Measure(c, Apply(c, s, a)) == Measure(c, s)
  {
    if !(a.Take? || a.Borrow? || a.Return?) {
      assert TaskInv(c, s, a.i);
      PotentialsUpdate(s.producers, c.scripts, a.i, Apply(c, s, a).producers[a.i]);
    }
  }

  function OwnSteps(acts: seq<Action>): nat {
    if acts == [] then 0 else (if Own(acts[0]) then 1 else 0) + OwnSteps(acts[1..])
  }

  /** A run has no more steps than work: the request cannot go on for ever. */
  lemma {:induction false} RunIsBounded(c: Config, s: State, acts: seq<Action>)
    requires ValidConfig(c) && Inv(c, s) && Runs(c, s, acts)
    ensures OwnSteps(acts) <= Measure(c, s)
    decreases |acts|
  {
    if acts == [] {
      forall i | 0 <= i < |s.producers| ensures s.producers[i].Sent() <= |c.scripts[i]| {
        assert TaskInv(c, s, i);
      }
      PotentialsNonNegative(s.producers, c.scripts);
    } else {
      StepInv(c, s, acts[0]);
      StepDecreases(c, s, acts[0]);
      RunIsBounded(c, Apply(c, s, acts[0]), acts[1..]);
    }
  }

  function TotalEvents(scripts: seq<seq<Event>>): nat {
    if scripts == [] then 0 else |scripts[0]| + TotalEvents(scripts[1..])
  }

  lemma {:induction false} InitialWork(scripts: seq<seq<Event>>)
    ensures Potentials(seq(|scripts|, _ => Waiting), scripts) == 3 * TotalEvents(scripts) + 2 * |scripts|
  {
    if scripts != [] {
      InitialWork(scripts[1..]);
      assert seq<Producer>(|scripts|, _ => Waiting)[1..] == seq<Producer>(|scripts| - 1, _ => Waiting);
    }
  }

  /**
    The whole story of a request: in any interleaving it takes at most three steps an event and
    two a task, and once it is out of steps its loop has ended normally, with every task's whole
    script sent, unless other requests hold every slot just then.
  */
  lemma {:induction false} EveryRequestEnds(c: Config, others: nat, acts: seq<Action>)
    requires ValidConfig(c) && others <= c.slots
    requires Runs(c, Init(c, others), acts)
    ensures OwnSteps(acts) <= 3 * TotalEvents(c.scripts) + 2 * |c.scripts|
    ensures var s := After(c, Init(c, others), acts);
            Stuck(c, s) && s.others < c.slots ==>
              && s.remaining == 0
              && forall i: nat | i < |c.scripts| :: Project(s.output, i) == c.scripts[i]
  {
    InitInv(c, others);
    RunInv(c, Init(c, others), acts);
    RunIsBounded(c, Init(c, others), acts);
    InitialWork(c.scripts);
    var s := After(c, Init(c, others), acts);
    if Stuck(c, s) && s.others < c.slots {
      if s.remaining != 0 {
        StuckMeansWaiting(c, s);
        assert false;
      }
      ExitIsComplete(c, others, acts);
    }
  }

  // ---- other requests ----

  /** Another request gets a slot exactly if one is left, and a slot given back is free again. */
  lemma {:induction false} OthersBorrow(c: Config, others: nat, acts: seq<Action>)
    requires ValidConfig(c) && others <= c.slots
    requires Runs(c, Init(c, others), acts)
    ensures var s := After(c, Init(c, others), acts);
            && (Enabled(c, s, Borrow) <==> |Busy(s)| + s.others < c.slots)
            && (Enabled(c, s, Borrow) ==> Apply(c, s, Borrow) == s.(others := s.others + 1))
            && (Enabled(c, s, Return) <==> s.others >= 1)
            && (Enabled(c, s, Return) ==> Apply(c, s, Return) == s.(others := s.others - 1))
  {
    SlotsAreKept(c, others, acts);
    var s := After(c, Init(c, others), acts);
    HoldersAreBusy(s.producers, 0);
    assert s.producers[0..] == s.producers && BusyFrom(s.producers, 0) == Busy(s);
  }

  lemma {:induction false} MeasureNonNegative(c: Config, s: State)
    requires ValidConfig(c) && Inv(c, s)
    ensures Measure(c, s) >= 0
  {
    RunIsBounded(c, s, []);
  }

  /** The next step towards the end: the request's own, or another request giving a slot back. */
  lemma {:induction false} NextStep(c: Config, s: State) returns (a: Action)
    requires ValidConfig(c) && Inv(c, s) && s.remaining != 0
    ensures Enabled(c, s, a) && !a.Borrow? && Inv(c, Apply(c, s, a))
    ensures Measure(c, Apply(c, s, a)) < Measure(c, s)
            || (Measure(c, Apply(c, s, a)) == Measure(c, s) && Apply(c, s, a).others < s.others)
  {
    if s.others < c.slots {
      a := NoDeadlock(c, s);
    } else {
      a := Return;
    }
    StepInv(c, s, a);
    StepDecreases(c, s, a);
  }

  lemma {:induction false} Finishes(c: Config, s: State) returns (acts: seq<Action>)
    requires ValidConfig(c) && Inv(c, s)
    ensures Runs(c, s, acts) && After(c, s, acts).remaining == 0
    ensures Borrow !in acts
    decreases Measure(c, s), s.others
  {
    if s.remaining == 0 {
      acts := [];
    } else {
      var a := NextStep(c, s);
      MeasureNonNegative(c, Apply(c, s, a));
      var rest := Finishes(c, Apply(c, s, a));
      acts := [a] + rest;
      assert acts[1..] == rest;
    }
  }

  lemma {:induction false} RunsAppend(c: Config, s: State, first: seq<Action>, rest: seq<Action>)
    requires |s.producers| == |c.scripts|
    requires Runs(c, s, first) && Runs(c, After(c, s, first), rest)
    ensures Runs(c, s, first + rest) && After(c, s, first + rest) == After(c, After(c, s, first), rest)
    decreases |first|
  {
    if first == [] {
      assert first + rest == rest;
    } else {
      assert (first + rest)[1..] == first[1..] + rest;
      RunsAppend(c, Apply(c, s, first[0]), first[1..], rest);
    }
  }

  /**
    No interleaving is a dead end: from every reachable state the request can still be brought to
    its end, with every script sent whole, if only the other requests give their slots back.
  */
  lemma {:induction false} NoDeadEnd(c: Config, others: nat, acts: seq<Action>) returns (rest: seq<Action>)
    requires ValidConfig(c) && others <= c.slots
    requires Runs(c, Init(c, others), acts)
    ensures Borrow !in rest && Runs(c, Init(c, others), acts + rest)
    ensures forall i: nat | i < |c.scripts| ::
              Project(After(c, Init(c, others), acts + rest).output, i) == c.scripts[i]
  {
    InitInv(c, others);
    RunInv(c, Init(c, others), acts);
    rest := Finishes(c, After(c, Init(c, others), acts));
    RunsAppend(c, Init(c, others), acts, rest);
    ExitIsComplete(c, others, acts + rest);
  }
}
