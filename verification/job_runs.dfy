/** Every interleaving of job tasks with submissions, cancellations and subscriptions. */
module JobRuns {
  import opened Types
  import opened Job

  // ----- the task of one job -----

  /** The phases after the machine is made: 1 bootstrap, 2 connect and upload, 3 analysis. */
  type Phase = n: int | 1 <= n <= 3 witness 1

  function StatusOf(n: Phase): JobStatus {
    if n == 1 then Bootstrapping else if n == 2 then Uploading else Analyzing
  }

  /** Where the task is in its code. Each step is one call on the tracker, or one phase coming to its end. */
  datatype Pc =
    | Begin                              // about to announce the machine
    | Creating                           // making the machine
    | Checking(n: Phase)                 // about to look whether the job still exists, before phase n
    | Entering(n: Phase)                 // about to announce phase n
    | Working(n: Phase)                  // in phase n
    | Succeeding(result: AnalysisResult) // about to record the result
    | Failing(msg: string)               // about to announce the failure
    | Reporting(msg: string)             // about to send the error
    | Finished(result: AnalysisResult)
    | GaveUp(msg: string)
    | Crashed                            // the task panicked while making the machine

  /** `entered` counts the phases the task has started, making the machine included. */
  datatype Task = Task(pc: Pc, entered: nat)

  /** How the phase that is ending turned out. */
  datatype Turn = Good(result: AnalysisResult) | Bad(msg: string) | Panic

  const CANCELLED := "job cancelled"

  /** The next place of the task, given whether its job is still in the table. */
  function NextTask(t: Task, has: bool, turn: Turn): Task {
    match t.pc
    case Begin => Task(Creating, t.entered + 1)
    case Creating =>
      (match turn
       case Good(_) => t.(pc := Checking(1))
       case Bad(m) => t.(pc := Failing(m))
       case Panic => t.(pc := Crashed))
    case Checking(n) => if has then t.(pc := Entering(n)) else t.(pc := Failing(CANCELLED))
    case Entering(n) => Task(Working(n), t.entered + 1)
    case Working(n) =>
      (match turn
       case Good(r) => t.(pc := if n < 3 then Checking(n + 1) else Succeeding(r))
       case Bad(m) => t.(pc := Failing(m))
       case Panic => t)
    case Succeeding(r) => t.(pc := Finished(r))
    case Failing(m) => t.(pc := Reporting(m))
    case Reporting(m) => t.(pc := GaveUp(m))
    case Finished(_) => t
    case GaveUp(_) => t
    case Crashed => t
  }

  /** The tracker call of the step, if it is one. */
  function NextState(s: State, id: Id, pc: Pc): State {
    match pc
    case Begin => StatusSet(s, id, SpawningVm)
    case Entering(n) => StatusSet(s, id, StatusOf(n))
    case Succeeding(r) => ResultSet(s, id, r)
    case Failing(_) => StatusSet(s, id, Failed)
    case Reporting(m) => ErrorEmitted(s, id, m)
    case _ => s
  }

  // ----- the system -----

  /** A subscriber: the status and the log position when it subscribed, and what it has received since. */
  datatype Subscriber = Subscriber(
    id: Id, since: nat, status: JobStatus, got: seq<JobEvent>, lagged: bool, closed: bool)

  datatype World = World(tracker: State, tasks: map<Id, Task>, subscribers: seq<Subscriber>)

  datatype Action =
    | Submit(id: Id, name: string)
    | Cancel(id: Id)
    | Subscribe(id: Id)
    | Receive(k: nat)
    | Advance(id: Id, turn: Turn)

  const EMPTY := World(State(map[], map[]), map[], [])

  const CAPACITY: nat := 64

  predicate ChannelOpen(s: State, id: Id) {
    id in s.jobs && s.jobs[id].open
  }

  /** One receive of `job_events` on a broadcast channel that keeps the last `CAPACITY` events: a receiver further
      behind is told so and skips ahead, a receiver at the end waits, or ends when no sender is left. */
  function Received(u: Subscriber, log: seq<JobEvent>, open: bool): Subscriber {
    var next := u.since + |u.got|;
    if u.closed || next > |log| then u
    else if next + CAPACITY < |log| then u.(lagged := true, since := |log| - CAPACITY, got := [])
    else if next < |log| then u.(got := u.got + [log[next]])
    else if open then u
    else u.(closed := true)
  }

  /** Ids are fresh: submitting an id that was submitted before is no step of the system. */
  function Step(w: World, a: Action): World {
    match a
    case Submit(id, name) =>
      if id in w.tasks then w
      else w.(tracker := Submitted(w.tracker, id, name), tasks := w.tasks[id := Task(Begin, 0)])
    case Cancel(id) => w.(tracker := Cancelled(w.tracker, id))
    case Subscribe(id) =>
      if ChannelOpen(w.tracker, id) && id in w.tracker.logs
      then w.(subscribers := w.subscribers
                             + [Subscriber(id, |w.tracker.logs[id]|, w.tracker.jobs[id].status, [], false, false)])
      else w
    case Receive(k) =>
      if k < |w.subscribers| && w.subscribers[k].id in w.tracker.logs
      then
        var u := w.subscribers[k];
        w.(subscribers := w.subscribers[k := Received(u, w.tracker.logs[u.id], ChannelOpen(w.tracker, u.id))])
      else w
    case Advance(id, turn) =>
      if id in w.tasks
      then w.(tracker := NextState(w.tracker, id, w.tasks[id].pc),
              tasks := w.tasks[id := NextTask(w.tasks[id], id in w.tracker.jobs, turn)])
      else w
  }

  function Run(w: World, actions: seq<Action>): World
    decreases |actions|
  {
    if actions == [] then w else Run(Step(w, actions[0]), actions[1..])
  }

  // ----- the event grammar -----

  function Announcement(s: JobStatus): JobEvent {
    StatusChanged(StatusName(s))
  }

  const PHASES := [Announcement(SpawningVm), Announcement(Bootstrapping),
                   Announcement(Uploading), Announcement(Analyzing)]

  const FAILED_EVENT := Announcement(Failed)

  ghost predicate GrammaticalFrom(log: seq<JobEvent>, k: nat)
    requires k <= 4
  {
    || log == PHASES[..k]
    || (k == 4 && exists e, ms :: log == PHASES + [CompletedEvent(e, ms)])
    || (k > 0 && log == PHASES[..k] + [FAILED_EVENT])
    || (k > 0 && exists m :: log == PHASES[..k] + [FAILED_EVENT, ErrorEvent(m)])
  }

  /** A log: some of the four statuses in order, then nothing, or after all four a completion, or after at least
      one the failure, or the failure and an error. */
  ghost predicate Grammatical(log: seq<JobEvent>) {
    exists k: nat :: k <= 4 && GrammaticalFrom(log, k)
  }

  /** What the log of a job still in the table says past the announced phases. */
  function Ending(pc: Pc): seq<JobEvent> {
    match pc
    case Reporting(_) => [FAILED_EVENT]
    case Finished(r) => [CompletedEvent(r.exitCode, r.runtimeMs)]
    case GaveUp(m) => [FAILED_EVENT, ErrorEvent(m)]
    case _ => []
  }

  function PhaseStatus(entered: nat): JobStatus {
    if entered == 0 then Queued else if entered == 1 then SpawningVm else if entered == 2 then Bootstrapping
    else if entered == 3 then Uploading else Analyzing
  }

  /** How many phases a task at `pc` can have started. */
  predicate Counted(t: Task) {
    match t.pc
    case Begin => t.entered == 0
    case Creating => t.entered == 1
    case Crashed => t.entered == 1
    case Checking(n) => t.entered == n
    case Entering(n) => t.entered == n
    case Working(n) => t.entered == n + 1
    case Succeeding(_) => t.entered == 4
    case Finished(_) => t.entered == 4
    case _ => 1 <= t.entered <= 4
  }

  /** A job in the table mirrors its task exactly, log included. */
  ghost predicate Mirrors(j: Job, log: seq<JobEvent>, t: Task)
    requires t.entered <= 4
  {
    && log == PHASES[..t.entered] + Ending(t.pc)
    && j.status == (match t.pc
                    case Reporting(_) => Failed
                    case GaveUp(_) => Failed
                    case Finished(_) => Completed
                    case _ => PhaseStatus(t.entered))
    && j.result == (match t.pc case Finished(r) => Some(r) case _ => None)
    && j.open == (!t.pc.Finished? && !t.pc.GaveUp?)
  }

  ghost predicate JobInv(s: State, id: Id, t: Task)
    requires id in s.logs
  {
    Counted(t) && Grammatical(s.logs[id]) && (id in s.jobs ==> Mirrors(s.jobs[id], s.logs[id], t))
  }

  ghost predicate JobsInv(w: World) {
    && w.tracker.logs.Keys == w.tasks.Keys
    && w.tracker.jobs.Keys <= w.tasks.Keys
    && forall id | id in w.tasks :: JobInv(w.tracker, id, w.tasks[id])
  }

  lemma MirrorIsGrammatical(j: Job, log: seq<JobEvent>, t: Task)
    requires Counted(t) && Mirrors(j, log, t)
    ensures Grammatical(log)
  {
    assert PHASES[..4] == PHASES;
    assert PHASES[..t.entered] + [] == PHASES[..t.entered];
    assert GrammaticalFrom(log, t.entered);
  }

  lemma OthersUntouched(s: State, id: Id, pc: Pc)
    requires id in s.jobs && id in s.logs
    ensures var v := NextState(s, id, pc);
            v.jobs.Keys == s.jobs.Keys && v.logs.Keys == s.logs.Keys
            && (forall i | i in s.logs && i != id :: v.logs[i] == s.logs[i])
            && (forall i | i in s.jobs && i != id :: v.jobs[i] == s.jobs[i])
  {
    var v := NextState(s, id, pc);
    assert v.jobs.Keys == s.jobs.Keys && v.logs.Keys == s.logs.Keys;
  }

  lemma NextCounted(t: Task, has: bool, turn: Turn)
    requires Counted(t)
    ensures Counted(NextTask(t, has, turn))
  {
  }

  /** The steps that call the tracker. */
  predicate Tells(pc: Pc) {
    pc.Begin? || pc.Entering? || pc.Succeeding? || pc.Failing? || pc.Reporting?
  }

  lemma TellingMirrors(s: State, id: Id, t: Task, turn: Turn)
    requires id in s.jobs && id in s.logs && Counted(t) && Mirrors(s.jobs[id], s.logs[id], t) && Tells(t.pc)
    ensures var v, u := NextState(s, id, t.pc), NextTask(t, true, turn);
            id in v.jobs && id in v.logs && u.entered <= 4 && Mirrors(v.jobs[id], v.logs[id], u)
  {
    var log := PHASES[..t.entered];
    assert log + [] == log;
    match t.pc {
      case Begin => assert PHASES[..1] == log + [PHASES[0]];
      case Entering(n) => assert PHASES[..n + 1] == log + [PHASES[n]];
      case _ =>
    }
  }

  lemma QuietMirrors(j: Job, log: seq<JobEvent>, t: Task, turn: Turn)
    requires Counted(t) && Mirrors(j, log, t) && !Tells(t.pc)
    ensures var u := NextTask(t, true, turn);
            u.entered <= 4 && Mirrors(j, log, u)
  {
  }

  /** One step of a task keeps a job that is in the table in step with it. */
  lemma AdvanceMirrors(s: State, id: Id, t: Task, turn: Turn)
    requires id in s.jobs && id in s.logs && Counted(t) && Mirrors(s.jobs[id], s.logs[id], t)
    ensures var v, u := NextState(s, id, t.pc), NextTask(t, true, turn);
            id in v.jobs && id in v.logs && Counted(u) && Mirrors(v.jobs[id], v.logs[id], u)
  {
    NextCounted(t, true, turn);
    if Tells(t.pc) {
      TellingMirrors(s, id, t, turn);
    } else {
      QuietMirrors(s.jobs[id], s.logs[id], t, turn);
    }
  }

  /** A task whose job is gone changes nothing in the tracker. */
  lemma GoneChangesNothing(s: State, id: Id, t: Task, turn: Turn)
    requires id !in s.jobs && Counted(t)
    ensures NextState(s, id, t.pc) == s && Counted(NextTask(t, false, turn))
  {
  }

  /** What a step leaves alone about one id. */
  ghost predicate SameJob(w: World, v: World, id: Id) {
    && (id in v.tasks <==> id in w.tasks) && (id in w.tasks ==> v.tasks[id] == w.tasks[id])
    && (id in v.tracker.logs <==> id in w.tracker.logs)
    && (id in w.tracker.logs ==> v.tracker.logs[id] == w.tracker.logs[id])
    && (id in v.tracker.jobs ==> id in w.tracker.jobs && v.tracker.jobs[id] == w.tracker.jobs[id])
  }

  /** The only steps that touch an id are its submission and those of its task; cancelling drops its entry. */
  predicate Touches(w: World, a: Action, id: Id) {
    (a.Advance? && a.id == id && id in w.tasks) || (a.Submit? && a.id == id && id !in w.tasks)
  }

  lemma StepLocality(w: World, a: Action, id: Id)
    requires JobsInv(w) && !Touches(w, a, id)
    ensures SameJob(w, Step(w, a), id)
    ensures id in w.tracker.jobs && a != Cancel(id) ==> id in Step(w, a).tracker.jobs
  {
    if a.Advance? && a.id in w.tasks {
      if a.id in w.tracker.jobs {
        OthersUntouched(w.tracker, a.id, w.tasks[a.id].pc);
      } else {
        assert JobInv(w.tracker, a.id, w.tasks[a.id]);
        GoneChangesNothing(w.tracker, a.id, w.tasks[a.id], a.turn);
      }
    }
  }

  lemma AdvanceKeepsEntry(s: State, id: Id, t: Task, turn: Turn)
    requires id in s.logs && JobInv(s, id, t)
    ensures var v := NextState(s, id, t.pc);
            v.logs.Keys == s.logs.Keys && v.jobs.Keys == s.jobs.Keys
            && JobInv(v, id, NextTask(t, id in s.jobs, turn))
  {
    if id in s.jobs {
      OthersUntouched(s, id, t.pc);
      AdvanceMirrors(s, id, t, turn);
      var v := NextState(s, id, t.pc);
      MirrorIsGrammatical(v.jobs[id], v.logs[id], NextTask(t, true, turn));
    } else {
      GoneChangesNothing(s, id, t, turn);
    }
  }

  lemma AdvanceKeepsJob(w: World, id: Id, turn: Turn)
    requires JobsInv(w) && id in w.tasks
    ensures var v := Step(w, Advance(id, turn));
            && v.tracker.logs.Keys == w.tracker.logs.Keys && v.tracker.jobs.Keys == w.tracker.jobs.Keys
            && v.tasks.Keys == w.tasks.Keys && JobInv(v.tracker, id, v.tasks[id])
  {
    assert JobInv(w.tracker, id, w.tasks[id]);
    AdvanceKeepsEntry(w.tracker, id, w.tasks[id], turn);
  }

  lemma JobsStep(w: World, a: Action)
    requires JobsInv(w)
    ensures JobsInv(Step(w, a))
  {
    var v := Step(w, a);
    if a.Advance? && a.id in w.tasks {
      AdvanceKeepsJob(w, a.id, a.turn);
    }
    forall id | id in v.tasks && !Touches(w, a, id) ensures JobInv(v.tracker, id, v.tasks[id]) {
      StepLocality(w, a, id);
      assert JobInv(w.tracker, id, w.tasks[id]);
    }
    if a.Submit? && a.id !in w.tasks {
      assert GrammaticalFrom([], 0) && Grammatical([]);
    }
  }

  lemma {:induction false} JobsReachable(w: World, actions: seq<Action>)
    requires JobsInv(w)
    ensures JobsInv(Run(w, actions))
    decreases |actions|
  {
    if actions != [] {
      JobsStep(w, actions[0]);
      JobsReachable(Step(w, actions[0]), actions[1..]);
    }
  }

  function IsTerminal(s: JobStatus): bool {
    s.Completed? || s.Failed?
  }

  ghost predicate TerminalEvent(e: JobEvent) {
    e.ErrorEvent? || e.CompletedEvent?
  }

  lemma PhasesAreNotTerminal(log: seq<JobEvent>, k: nat, tail: seq<JobEvent>, i: nat)
    requires k <= 4 && log == PHASES[..k] + tail && i < |log|
    ensures if i < k then !TerminalEvent(log[i]) else log[i] == tail[i - k]
  {
    if i < k {
      assert log[i] == PHASES[i];
    }
  }

  lemma TerminalEventIsLast(log: seq<JobEvent>, i: nat)
    requires Grammatical(log) && i < |log| && TerminalEvent(log[i])
    ensures i == |log| - 1
  {
    var k: nat :| k <= 4 && GrammaticalFrom(log, k);
    var tail := log[k..];
    assert PHASES[..4] == PHASES;
    assert log == PHASES[..k] + tail;
    PhasesAreNotTerminal(log, k, tail, i);
  }

  lemma GrammaticalIsShort(log: seq<JobEvent>)
    requires Grammatical(log)
    ensures |log| <= 6
  {
    var k: nat :| k <= 4 && GrammaticalFrom(log, k);
  }

  /** A job in the table has a result exactly when it is completed, and then its log tells the same result;
      and it has no sender only when its status is terminal. */
  ghost predicate Consistent(j: Job, log: seq<JobEvent>) {
    && (j.result.Some? <==> j.status == Completed)
    && (j.result.Some? ==> log == PHASES + [CompletedEvent(j.result.value.exitCode, j.result.value.runtimeMs)])
    && (!j.open ==> IsTerminal(j.status))
  }

  /** In every run every channel's log is grammatical and every job in the table consistent. */
  lemma EveryRunIsOrderly(actions: seq<Action>, id: Id)
    ensures var s := Run(EMPTY, actions).tracker;
            (id in s.logs ==> Grammatical(s.logs[id]))
            && (id in s.jobs ==> id in s.logs && Consistent(s.jobs[id], s.logs[id]))
  {
    JobsReachable(EMPTY, actions);
    var w := Run(EMPTY, actions);
    if id in w.tasks {
      assert JobInv(w.tracker, id, w.tasks[id]);
      assert PHASES[..4] == PHASES;
    }
  }

  // ----- statuses only move forward; cancelling -----

  function Rank(s: JobStatus): nat {
    match s
    case Queued => 0 case SpawningVm => 1 case Bootstrapping => 2 case Uploading => 3 case Analyzing => 4
    case Completed => 5 case Failed => 5
  }

  ghost predicate JobForward(j: Job, l: Job) {
    && Rank(j.status) <= Rank(l.status) && (IsTerminal(j.status) ==> l.status == j.status)
    && (j.result.Some? ==> l.result == j.result) && (l.open ==> j.open)
  }

  /** From one moment to a later one: a job that is still there has moved forward or stands where it was, for good
      once it is terminal; logs only grow. */
  ghost predicate Forward(s: State, v: State, id: Id)
    requires id in s.jobs && id in s.logs
  {
    && id in v.logs && s.logs[id] <= v.logs[id]
    && (id in v.jobs ==> JobForward(s.jobs[id], v.jobs[id]))
  }

  lemma LogGrows(s: State, id: Id, pc: Pc)
    requires id in s.jobs && id in s.logs
    ensures var v := NextState(s, id, pc);
            id in v.jobs && id in v.logs && s.logs[id] <= v.logs[id]
  {
  }

  lemma AdvanceForward(s: State, id: Id, t: Task)
    requires id in s.jobs && id in s.logs && Counted(t) && Mirrors(s.jobs[id], s.logs[id], t)
    ensures Forward(s, NextState(s, id, t.pc), id)
  {
    LogGrows(s, id, t.pc);
    var j, l := s.jobs[id], NextState(s, id, t.pc).jobs[id];
    if t.pc.Begin? || t.pc.Entering? || t.pc.Failing? {
      assert l.result == j.result && l.open == j.open && j.result.None?;
    }
    assert JobForward(j, l);
  }

  lemma StepForward(w: World, a: Action, id: Id)
    requires JobsInv(w) && id in w.tracker.jobs
    ensures Forward(w.tracker, Step(w, a).tracker, id)
  {
    if Touches(w, a, id) {
      assert JobInv(w.tracker, id, w.tasks[id]);
      AdvanceForward(w.tracker, id, w.tasks[id]);
    } else {
      StepLocality(w, a, id);
    }
  }

  function Pending(pc: Pc): nat {
    if pc.Begin? || pc.Entering? then 1 else 0
  }

  /** What a cancelled job keeps: it stays out of the table, its channel gets no further event, and the task starts
      at most the phases it was about to announce. */
  ghost predicate Winding(w: World, v: World, id: Id)
    requires id in w.tasks && id in w.tracker.logs
  {
    && id in v.tasks && id in v.tracker.logs && id !in v.tracker.jobs
    && v.tracker.logs[id] == w.tracker.logs[id]
    && v.tasks[id].entered + Pending(v.tasks[id].pc) <= w.tasks[id].entered + Pending(w.tasks[id].pc)
  }

  lemma StepWinds(w: World, a: Action, id: Id)
    requires JobsInv(w) && id in w.tasks && id !in w.tracker.jobs
    ensures Winding(w, Step(w, a), id)
  {
    if Touches(w, a, id) {
      assert JobInv(w.tracker, id, w.tasks[id]);
      GoneChangesNothing(w.tracker, id, w.tasks[id], a.turn);
    } else {
      StepLocality(w, a, id);
    }
  }

  /** Once cancelled, a job never reappears, its channel gets no further event, and its task starts at most one more
      phase, whatever happens next. */
  lemma {:induction false} CancelledWindsDown(w: World, actions: seq<Action>, id: Id)
    requires JobsInv(w) && id in w.tasks && id !in w.tracker.jobs
    ensures Winding(w, Run(w, actions), id)
    ensures Run(w, actions).tasks[id].entered <= w.tasks[id].entered + 1
    decreases |actions|
  {
    if actions != [] {
      JobsStep(w, actions[0]);
      StepWinds(w, actions[0], id);
      CancelledWindsDown(Step(w, actions[0]), actions[1..], id);
    }
  }

  /** Over any stretch of a run a job's status moves only forward, and a terminal one is final. */
  lemma {:induction false} RunsForward(w: World, actions: seq<Action>, id: Id)
    requires JobsInv(w) && id in w.tracker.jobs
    ensures Forward(w.tracker, Run(w, actions).tracker, id)
    decreases |actions|
  {
    if actions != [] {
      var v := Step(w, actions[0]);
      JobsStep(w, actions[0]);
      StepForward(w, actions[0], id);
      if id in v.tracker.jobs {
        RunsForward(v, actions[1..], id);
      } else {
        CancelledWindsDown(v, actions[1..], id);
      }
    }
  }

  function StepsLeft(pc: Pc): nat {
    match pc
    case Begin => 14 case Creating => 13
    case Checking(n) => 15 - 3 * n case Entering(n) => 14 - 3 * n case Working(n) => 13 - 3 * n
    case Succeeding(_) => 1 case Failing(_) => 2 case Reporting(_) => 1
    case Finished(_) => 0 case GaveUp(_) => 0 case Crashed => 0
  }

  predicate Moved(w: World, v: World, id: Id) {
    id in w.tasks && id in v.tasks && v.tasks[id].pc != w.tasks[id].pc
  }

  /** How often a run moves the task of `id`. */
  function Moves(w: World, actions: seq<Action>, id: Id): nat
    decreases |actions|
  {
    if actions == [] then 0
    else (if Moved(w, Step(w, actions[0]), id) then 1 else 0) + Moves(Step(w, actions[0]), actions[1..], id)
  }

  lemma NextIsNearer(t: Task, has: bool, turn: Turn)
    ensures var u := NextTask(t, has, turn);
            u.pc == t.pc || StepsLeft(u.pc) < StepsLeft(t.pc)
  {
  }

  lemma MoveApproachesEnd(w: World, a: Action, id: Id)
    requires JobsInv(w) && id in w.tasks
    ensures var v := Step(w, a);
            id in v.tasks && StepsLeft(v.tasks[id].pc) <= StepsLeft(w.tasks[id].pc)
            && (Moved(w, v, id) ==> StepsLeft(v.tasks[id].pc) < StepsLeft(w.tasks[id].pc))
  {
    if Touches(w, a, id) {
      NextIsNearer(w.tasks[id], id in w.tracker.jobs, a.turn);
    } else {
      StepLocality(w, a, id);
    }
  }

  /** No run moves a task more than fourteen times: each move brings it closer to its end. */
  lemma {:induction false} TaskMovesBounded(w: World, actions: seq<Action>, id: Id)
    requires JobsInv(w) && id in w.tasks
    ensures id in Run(w, actions).tasks
    ensures Moves(w, actions, id) + StepsLeft(Run(w, actions).tasks[id].pc) <= StepsLeft(w.tasks[id].pc) <= 14
    decreases |actions|
  {
    if actions != [] {
      JobsStep(w, actions[0]);
      MoveApproachesEnd(w, actions[0], id);
      TaskMovesBounded(Step(w, actions[0]), actions[1..], id);
    }
  }

  // ----- subscribers -----

  function StatusNamed(name: string): Option<JobStatus> {
    if name == "queued" then Some(Queued) else if name == "spawningvm" then Some(SpawningVm)
    else if name == "bootstrapping" then Some(Bootstrapping) else if name == "uploading" then Some(Uploading)
    else if name == "analyzing" then Some(Analyzing) else if name == "completed" then Some(Completed)
    else if name == "failed" then Some(Failed) else None
  }

  /** A client that starts from `status` and follows the events. */
  function Replay(status: JobStatus, events: seq<JobEvent>): JobStatus {
    if events == [] then status
    else
      var s := Replay(status, events[..|events| - 1]);
      match events[|events| - 1]
      case StatusChanged(name) => if StatusNamed(name).Some? then StatusNamed(name).value else s
      case CompletedEvent(_, _) => Completed
      case ErrorEvent(_) => s
  }

  lemma {:induction false} ReplayConcat(status: JobStatus, a: seq<JobEvent>, b: seq<JobEvent>)
    ensures Replay(status, a + b) == Replay(Replay(status, a), b)
  {
    if b == [] {
      assert a + b == a;
    } else {
      var n := |b| - 1;
      ReplayConcat(status, a, b[..n]);
      assert (a + b)[..|a + b| - 1] == a + b[..n];
    }
  }

  lemma NamesReadBack(s: JobStatus)
    ensures StatusNamed(StatusName(s)) == Some(s)
  {
  }

  lemma {:induction false} ReplayPhases(k: nat)
    requires k <= 4
    ensures Replay(Queued, PHASES[..k]) == PhaseStatus(k)
  {
    if k > 0 {
      ReplayPhases(k - 1);
      NamesReadBack(PhaseStatus(k));
      assert PHASES[..k][..k - 1] == PHASES[..k - 1];
    }
  }

  /** Replaying the whole log of a job in the table gives the job's status. */
  lemma LogReplaysStatus(j: Job, log: seq<JobEvent>, t: Task)
    requires Counted(t) && Mirrors(j, log, t)
    ensures Replay(Queued, log) == j.status
  {
    ReplayPhases(t.entered);
    NamesReadBack(Failed);
    ReplayConcat(Queued, PHASES[..t.entered], Ending(t.pc));
    match t.pc {
      case GaveUp(m) => assert [FAILED_EVENT, ErrorEvent(m)][..1] == [FAILED_EVENT] && [FAILED_EVENT][..0] == [];
      case Reporting(m) => assert [FAILED_EVENT][..0] == [];
      case Finished(r) => assert Ending(t.pc)[..0] == [];
      case _ =>
    }
  }

  /** A subscriber has received, in order and without a gap, what was sent since it subscribed. */
  ghost predicate Following(u: Subscriber, s: State) {
    && u.id in s.logs && !u.lagged
    && u.since + |u.got| <= |s.logs[u.id]|
    && u.got == s.logs[u.id][u.since..u.since + |u.got|]
    && u.status == Replay(Queued, s.logs[u.id][..u.since])
    && (u.closed ==> !ChannelOpen(s, u.id) && u.since + |u.got| == |s.logs[u.id]|)
  }

  ghost predicate SubscribersInv(w: World) {
    forall k | 0 <= k < |w.subscribers| :: Following(w.subscribers[k], w.tracker)
  }

  /** Events arrive only on open channels, and a closed channel stays closed. */
  lemma LogsGrow(w: World, a: Action, id: Id)
    requires JobsInv(w) && id in w.tracker.logs
    ensures var v := Step(w, a);
            && id in v.tracker.logs && w.tracker.logs[id] <= v.tracker.logs[id]
            && (!ChannelOpen(w.tracker, id) ==>
                  !ChannelOpen(v.tracker, id) && v.tracker.logs[id] == w.tracker.logs[id])
  {
    assert JobInv(w.tracker, id, w.tasks[id]);
    if Touches(w, a, id) {
      AdvanceKeepsJob(w, id, a.turn);
      if id in w.tracker.jobs {
        StepForward(w, a, id);
      }
    } else {
      StepLocality(w, a, id);
    }
  }

  lemma StillFollowing(u: Subscriber, s: State, v: State)
    requires Following(u, s) && u.id in v.logs && s.logs[u.id] <= v.logs[u.id]
    requires !ChannelOpen(s, u.id) ==> !ChannelOpen(v, u.id) && v.logs[u.id] == s.logs[u.id]
    ensures Following(u, v)
  {
    var a, b := s.logs[u.id], v.logs[u.id];
    var next := u.since + |u.got|;
    assert b[u.since..next] == a[u.since..next] && b[..u.since] == a[..u.since];
  }

  lemma ReceiveFollows(u: Subscriber, s: State)
    requires Following(u, s) && |s.logs[u.id]| <= CAPACITY
    ensures Following(Received(u, s.logs[u.id], ChannelOpen(s, u.id)), s)
  {
    var log, next := s.logs[u.id], u.since + |u.got|;
    if next < |log| {
      assert log[u.since..next + 1] == log[u.since..next] + [log[next]];
    }
  }

  lemma SubscribeFollows(w: World, id: Id)
    requires JobsInv(w) && ChannelOpen(w.tracker, id)
    ensures Following(Subscriber(id, |w.tracker.logs[id]|, w.tracker.jobs[id].status, [], false, false), w.tracker)
  {
    var log := w.tracker.logs[id];
    assert JobInv(w.tracker, id, w.tasks[id]);
    LogReplaysStatus(w.tracker.jobs[id], log, w.tasks[id]);
    assert log[..|log|] == log && log[|log|..|log|] == [];
  }

  lemma SubscribersStep(w: World, a: Action)
    requires JobsInv(w) && SubscribersInv(w)
    ensures SubscribersInv(Step(w, a))
  {
    var v := Step(w, a);
    forall k | 0 <= k < |v.subscribers| ensures Following(v.subscribers[k], v.tracker) {
      if k >= |w.subscribers| {
        SubscribeFollows(w, a.id);
      } else if a == Receive(k) {
        var u := w.subscribers[k];
        assert Following(u, w.tracker) && JobInv(w.tracker, u.id, w.tasks[u.id]);
        GrammaticalIsShort(w.tracker.logs[u.id]);
        ReceiveFollows(u, w.tracker);
      } else {
        LogsGrow(w, a, w.subscribers[k].id);
        StillFollowing(w.subscribers[k], w.tracker, v.tracker);
      }
    }
  }

  lemma {:induction false} SubscribersReachable(w: World, actions: seq<Action>)
    requires JobsInv(w) && SubscribersInv(w)
    ensures SubscribersInv(Run(w, actions)) && JobsInv(Run(w, actions))
    decreases |actions|
  {
    if actions != [] {
      JobsStep(w, actions[0]);
      SubscribersStep(w, actions[0]);
      SubscribersReachable(Step(w, actions[0]), actions[1..]);
    }
  }

  /** What a subscriber knows and will know. It has not lagged; it has received a gapless stretch of the log from its
      subscription on, and all of it once it is told the channel closed; and replaying all that was sent since then
      on the status it subscribed at gives the status of the job. */
  ghost predicate Replays(u: Subscriber, s: State) {
    && u.id in s.logs && u.since <= |s.logs[u.id]|
    && !u.lagged && u.got <= s.logs[u.id][u.since..]
    && (u.closed ==> !ChannelOpen(s, u.id) && u.got == s.logs[u.id][u.since..])
    && (u.id in s.jobs ==> Replay(u.status, s.logs[u.id][u.since..]) == s.jobs[u.id].status)
  }

  lemma FollowingReplays(u: Subscriber, w: World)
    requires JobsInv(w) && Following(u, w.tracker)
    ensures Replays(u, w.tracker)
  {
    var log := w.tracker.logs[u.id];
    assert log == log[..u.since] + log[u.since..];
    assert log[u.since..][..|u.got|] == log[u.since..u.since + |u.got|];
    if u.id in w.tracker.jobs {
      assert JobInv(w.tracker, u.id, w.tasks[u.id]);
      LogReplaysStatus(w.tracker.jobs[u.id], log, w.tasks[u.id]);
      ReplayConcat(Queued, log[..u.since], log[u.since..]);
    }
  }

  /** In every run every subscriber's replay is right. */
  lemma SubscribersReplay(actions: seq<Action>, k: nat)
    requires k < |Run(EMPTY, actions).subscribers|
    ensures Replays(Run(EMPTY, actions).subscribers[k], Run(EMPTY, actions).tracker)
  {
    SubscribersReachable(EMPTY, actions);
    var w := Run(EMPTY, actions);
    assert Following(w.subscribers[k], w.tracker);
    FollowingReplays(w.subscribers[k], w);
  }

  function ReceiveTimes(u: Subscriber, log: seq<JobEvent>, n: nat): Subscriber
    decreases n
  {
    if n == 0 then u else ReceiveTimes(Received(u, log, false), log, n - 1)
  }

  lemma OneMoreEvent(u: Subscriber, log: seq<JobEvent>)
    requires !u.closed && u.since + |u.got| < |log| <= CAPACITY
    requires u.got == log[u.since..u.since + |u.got|]
    ensures var v := Received(u, log, false);
            v == u.(got := v.got) && v.got == log[u.since..u.since + |v.got|] && |v.got| == |u.got| + 1
  {
    var next := u.since + |u.got|;
    assert log[u.since..next + 1] == log[u.since..next] + [log[next]];
  }

  /** A subscriber of a closed channel that keeps receiving gets the rest of the events and then the end. */
  lemma {:induction false} ClosedChannelDrains(u: Subscriber, log: seq<JobEvent>, n: nat)
    requires !u.lagged && !u.closed && u.since + |u.got| + n == |log| <= CAPACITY
    requires u.got == log[u.since..u.since + |u.got|]
    ensures ReceiveTimes(u, log, n + 1) == u.(got := log[u.since..], closed := true)
    decreases n
  {
    var v := Received(u, log, false);
    if n > 0 {
      OneMoreEvent(u, log);
      ClosedChannelDrains(v, log, n - 1);
    } else {
      assert log[u.since..u.since + |u.got|] == log[u.since..];
      assert ReceiveTimes(v, log, 0) == v;
    }
  }

  // ----- the routes -----

  /** A route's call on the tracker is the step of the system: submitting under a fresh id, cancelling, subscribing. */
  method Route(tracker: JobTracker, w: World, a: Action) returns (v: World)
    requires tracker.Value() == w.tracker && JobsInv(w)
    requires (a.Submit? && a.id !in w.tasks) || a.Cancel? || a.Subscribe?
    modifies tracker
    ensures v == Step(w, a) && tracker.Value() == v.tracker
  {
    match a {
      case Submit(id, name) =>
        tracker.Submit(id, name);
        return World(tracker.Value(), w.tasks[id := Task(Begin, 0)], w.subscribers);
      case Cancel(id) =>
        var was := tracker.Cancel(id);
        return World(tracker.Value(), w.tasks, w.subscribers);
      case Subscribe(id) =>
        var since := tracker.Subscribe(id);
        var info := tracker.Get(id);
        if since.None? {
          return w;
        }
        var u := Subscriber(id, since.value, info.value.status, [], false, false);
        return World(tracker.Value(), w.tasks, w.subscribers + [u]);
    }
  }
}
