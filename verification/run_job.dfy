/** The code of one job, from its first status to its last event, against the step machine of all jobs. Between any two
    of its shared operations all other jobs, the routes and the subscribers may do anything. */
module RunJob {
  import opened Types
  import opened Job
  import opened JobRuns
  import opened Vm
  import opened VmLedger

  /** The tracker and the host are where the step machine is. */
  ghost predicate Synced(c: Cloud, tracker: JobTracker, vm: VmManager)
    reads tracker, vm
  {
    tracker.Value() == c.world.tracker && vm.Host() == c.ledger.host
  }

  /** One job: its id, the uuid drawn for its machine, how the calls that make and remove the machine turn out, and how
      the three phases end. */
  datatype Plan = Plan(id: Id, uuid: Uuid, creation: Calls, removal: Calls, turns: seq<Turn>)

  predicate PlanFit(j: Plan) {
    |j.turns| == 3 && forall k | 0 <= k < 3 :: !j.turns[k].Panic?
  }

  predicate Done(pc: Pc) {
    pc.Finished? || pc.GaveUp? || pc.Crashed?
  }

  predicate At(c: Cloud, j: Plan, pc: Pc) {
    j.id in c.world.tasks && c.world.tasks[j.id].pc == pc
  }

  predicate Present(c: Cloud, j: Plan) {
    j.id in c.world.tracker.jobs
  }

  /** The step of the job's task at `pc`. */
  function OwnEvent(j: Plan, pc: Pc): Event
    requires PlanFit(j)
  {
    Event(Advance(j.id, if pc.Working? then j.turns[pc.n - 1] else Panic),
          if pc.Creating? then j.uuid else 0,
          if pc.Creating? then j.creation else j.removal)
  }

  /** The steps of the whole system, in order, from `c` on, while the job's code runs: before each shared operation of
      its own the others' next stretch of `env`, until the task is at its end. A job seen to be cancelled has its
      machine torn down one operation later. */
  function Script(c: Cloud, j: Plan, env: seq<seq<Event>>): seq<Event>
    requires PlanFit(j)
    decreases |env|
  {
    if j.id !in c.world.tasks || Done(c.world.tasks[j.id].pc) || env == [] then []
    else
      var pc := c.world.tasks[j.id].pc;
      var v, e := CloudRun(c, env[0]), OwnEvent(j, pc);
      if !pc.Checking? || Present(v, j) then env[0] + [e] + Script(CloudStep(v, e), j, env[1..])
      else if |env| == 1 then env[0]
      else env[0] + env[1] + [e] + Script(CloudStep(CloudRun(c, env[0] + env[1]), e), j, env[2..])
  }

  /** Events that are not steps of the job's task and do not use its machine's uuid. */
  predicate Others(events: seq<Event>, j: Plan) {
    forall k | 0 <= k < |events| ::
      events[k].uuid != j.uuid && !(events[k].action.Advance? && events[k].action.id == j.id)
  }

  predicate AllOthers(env: seq<seq<Event>>, j: Plan) {
    forall k | 0 <= k < |env| :: Others(env[k], j)
  }

  /** Nobody cancels the job. */
  predicate Calm(events: seq<Event>, j: Plan) {
    forall k | 0 <= k < |events| :: events[k].action != Cancel(j.id)
  }

  /** The job is in the table and nobody is going to cancel it. */
  predicate Steady(c: Cloud, j: Plan, env: seq<seq<Event>>) {
    Present(c, j) && forall k | 0 <= k < |env| :: Calm(env[k], j)
  }

  /** What the task needs to move: a new uuid until its machine is made, and its machine while it holds it. */
  predicate Ready(c: Cloud, j: Plan) {
    && j.id in c.world.tasks
    && (c.world.tasks[j.id].pc.Begin? || c.world.tasks[j.id].pc.Creating? ==> j.uuid !in c.ledger.uuids)
    && (Holding(c.world.tasks[j.id].pc) ==> j.id in c.ledger.owner && c.ledger.owner[j.id] == j.uuid)
  }

  /** What others leave alone. */
  ghost predicate LeftAlone(c: Cloud, d: Cloud, j: Plan) {
    && j.id in d.world.tasks && j.id in c.world.tasks && d.world.tasks[j.id] == c.world.tasks[j.id]
    && (Ready(c, j) ==> Ready(d, j))
    && (!Present(c, j) ==> !Present(d, j))
    && (New(c.ledger.host, j.uuid) ==> New(d.ledger.host, j.uuid))
  }

  lemma OtherMachineNew(c: Cloud, e: Event, j: Plan)
    requires e.uuid != j.uuid
    ensures New(c.ledger.host, j.uuid) ==> New(CloudStep(c, e).ledger.host, j.uuid)
  {
  }

  lemma OtherKeepsTask(c: Cloud, e: Event, j: Plan)
    requires e.uuid != j.uuid && !(e.action.Advance? && e.action.id == j.id) && j.id in c.world.tasks
    ensures var d := CloudStep(c, e);
            && j.id in d.world.tasks && d.world.tasks[j.id] == c.world.tasks[j.id]
            && (!Present(c, j) ==> !Present(d, j))
            && (e.action != Cancel(j.id) && Present(c, j) ==> Present(d, j))
  {
  }

  lemma OtherKeeps(c: Cloud, e: Event, j: Plan)
    requires e.uuid != j.uuid && !(e.action.Advance? && e.action.id == j.id) && j.id in c.world.tasks
    ensures LeftAlone(c, CloudStep(c, e), j)
    ensures e.action != Cancel(j.id) && Present(c, j) ==> Present(CloudStep(c, e), j)
  {
    OtherMachineNew(c, e, j);
    OtherKeepsTask(c, e, j);
  }

  /** Others leave the task where it is and its machine its own; a job that is gone stays gone; the uuid stays free. A
      job that nobody cancels stays. */
  lemma {:induction false} OthersKeep(c: Cloud, events: seq<Event>, j: Plan)
    requires Others(events, j) && j.id in c.world.tasks
    ensures LeftAlone(c, CloudRun(c, events), j)
    ensures Calm(events, j) && Present(c, j) ==> Present(CloudRun(c, events), j)
    decreases |events|
  {
    if events != [] {
      OtherKeeps(c, events[0], j);
      assert forall k | 0 <= k < |events[1..]| :: events[1..][k] == events[k + 1];
      OthersKeep(CloudStep(c, events[0]), events[1..], j);
    }
  }

  /** How many stretches of the others the job may still see. */
  function StretchesLeft(pc: Pc): nat {
    match pc
    case Begin => 13
    case Creating => 12
    case Checking(n) => 14 - 3 * n
    case Entering(n) => 13 - 3 * n
    case Working(n) => 12 - 3 * n
    case Failing(_) => 2
    case Succeeding(_) => 1
    case Reporting(_) => 1
    case _ => 0
  }

  /** The task's own step brings it closer to its end, and keeps its job in the table if it is there. */
  lemma OwnStep(c: Cloud, j: Plan)
    requires Ready(c, j) && PlanFit(j) && !Done(c.world.tasks[j.id].pc)
    ensures var pc := c.world.tasks[j.id].pc;
            var d := CloudStep(c, OwnEvent(j, pc));
            && Ready(d, j) && (Present(c, j) ==> Present(d, j))
            && StretchesLeft(d.world.tasks[j.id].pc) + (if pc.Checking? && !Present(c, j) then 2 else 1)
               <= StretchesLeft(pc)
  {
  }

  /** A run that is being played: where it starts, all of its steps, and those already made. */
  datatype Course = Course(start: Cloud, whole: seq<Event>, made: seq<Event>)

  /** The system is at `c`, and what follows is the script of the job. */
  ghost predicate OnScript(c: Cloud, j: Plan, env: seq<seq<Event>>, k: Course) {
    && PlanFit(j) && AllOthers(env, j) && Ready(c, j) && |env| >= StretchesLeft(c.world.tasks[j.id].pc)
    && c == CloudRun(k.start, k.made) && k.whole == k.made + Script(c, j, env)
  }

  lemma CourseOver(c: Cloud, j: Plan, env: seq<seq<Event>>, k: Course)
    requires OnScript(c, j, env, k) && Done(c.world.tasks[j.id].pc)
    ensures c == CloudRun(k.start, k.whole)
  {
    assert Script(c, j, env) == [];
    assert k.made + [] == k.made;
  }

  /** From `c` to `d` along the same course; nobody has cancelled the job if nobody was going to. */
  ghost predicate Onward(c: Cloud, env: seq<seq<Event>>, k: Course, d: Cloud, rest: seq<seq<Event>>, l: Course, j: Plan)
  {
    && OnScript(d, j, rest, l) && l.start == k.start && l.whole == k.whole
    && (Steady(c, j, env) ==> Steady(d, j, rest))
  }

  lemma Regroup(a: seq<Event>, b: seq<Event>, c: Event, d: seq<Event>)
    ensures a + (b + [c] + d) == a + b + [c] + d
  {
  }

  lemma Behind(start: Cloud, made: seq<Event>, others: seq<Event>, e: Event)
    ensures CloudRun(start, made + others + [e]) == CloudStep(CloudRun(CloudRun(start, made), others), e)
  {
    CloudRunJoin(start, made, others);
    CloudRunJoin(start, made + others, [e]);
    OneEvent(CloudRun(start, made + others), e);
  }

  lemma OthersLater(env: seq<seq<Event>>, n: nat, c: Cloud, d: Cloud, j: Plan)
    requires AllOthers(env, j) && n <= |env|
    ensures AllOthers(env[n..], j)
    ensures Steady(c, j, env) && Present(d, j) ==> Steady(d, j, env[n..])
  {
    assert forall i | 0 <= i < |env[n..]| :: env[n..][i] == env[i + n];
  }

  /** The others have had their turn and the task has made its step. */
  lemma Follow(c: Cloud, j: Plan, env: seq<seq<Event>>, k: Course)
    requires OnScript(c, j, env, k) && !Done(c.world.tasks[j.id].pc)
    requires var v := CloudRun(c, env[0]);
             c.world.tasks[j.id].pc.Checking? ==> Present(v, j)
    ensures var v, e := CloudRun(c, env[0]), OwnEvent(j, c.world.tasks[j.id].pc);
            && LeftAlone(c, v, j) && Ready(v, j)
            && (Steady(c, j, env) ==> Present(v, j))
            && Onward(c, env, k, CloudStep(v, e), env[1..], k.(made := k.made + env[0] + [e]), j)
  {
    var v, e := CloudRun(c, env[0]), OwnEvent(j, c.world.tasks[j.id].pc);
    OthersKeep(c, env[0], j);
    OwnStep(v, j);
    var d := CloudStep(v, e);
    OthersLater(env, 1, c, d, j);
    Behind(k.start, k.made, env[0], e);
    Regroup(k.made, env[0], e, Script(d, j, env[1..]));
  }

  /** The job was seen to be cancelled: the others have had two turns, and its machine is torn down. */
  lemma FollowCancelled(c: Cloud, j: Plan, env: seq<seq<Event>>, k: Course)
    requires OnScript(c, j, env, k) && c.world.tasks[j.id].pc.Checking? && !Present(CloudRun(c, env[0]), j)
    ensures var u, e := CloudRun(c, env[0]), OwnEvent(j, c.world.tasks[j.id].pc);
            var v := CloudRun(u, env[1]);
            && LeftAlone(u, v, j) && Ready(v, j) && !Steady(c, j, env)
            && v.world.tasks[j.id] == c.world.tasks[j.id]
            && Onward(c, env, k, CloudStep(v, e), env[2..], k.(made := k.made + (env[0] + env[1]) + [e]), j)
  {
    var u, e := CloudRun(c, env[0]), OwnEvent(j, c.world.tasks[j.id].pc);
    var v := CloudRun(u, env[1]);
    OthersKeep(c, env[0], j);
    OthersKeep(u, env[1], j);
    CloudRunJoin(c, env[0], env[1]);
    OwnStep(v, j);
    var d := CloudStep(v, e);
    OthersLater(env, 2, c, d, j);
    Behind(k.start, k.made, env[0] + env[1], e);
    Regroup(k.made, env[0] + env[1], e, Script(d, j, env[2..]));
  }

  /** The others have their turn. */
  method Yield(tracker: JobTracker, vm: VmManager, c: Cloud, others: seq<Event>) returns (d: Cloud)
    requires Synced(c, tracker, vm)
    modifies tracker, vm
    ensures d == CloudRun(c, others) && Synced(d, tracker, vm)
  {
    d := CloudRun(c, others);
    tracker.jobs, tracker.logs := d.world.tracker.jobs, d.world.tracker.logs;
    vm.overlays, vm.nvrams := d.ledger.host.overlays, d.ledger.host.nvrams;
    vm.domains, vm.running := d.ledger.host.domains, d.ledger.host.running;
  }

  /** The first half of the end of a job that failed. */
  method SayFailed(tracker: JobTracker, vm: VmManager, j: Plan, msg: string, env: seq<seq<Event>>, c: Cloud,
                   ghost k: Course)
    returns (d: Cloud, ghost l: Course)
    requires Synced(c, tracker, vm) && OnScript(c, j, env, k) && At(c, j, Failing(msg))
    modifies tracker, vm
    ensures Synced(d, tracker, vm) && Onward(c, env, k, d, env[1..], l, j) && At(d, j, Reporting(msg))
  {
    var e := OwnEvent(j, Failing(msg));
    d := Yield(tracker, vm, c, env[0]);
    Follow(c, j, env, k);
    tracker.SetStatus(j.id, Failed);
    d, l := CloudStep(d, e), k.(made := k.made + env[0] + [e]);
  }

  /** The second half. */
  method SendError(tracker: JobTracker, vm: VmManager, j: Plan, msg: string, env: seq<seq<Event>>, c: Cloud,
                   ghost k: Course)
    returns (d: Cloud, ghost l: Course)
    requires Synced(c, tracker, vm) && OnScript(c, j, env, k) && At(c, j, Reporting(msg))
    modifies tracker, vm
    ensures Synced(d, tracker, vm) && Onward(c, env, k, d, env[1..], l, j) && At(d, j, GaveUp(msg))
  {
    var e := OwnEvent(j, Reporting(msg));
    d := Yield(tracker, vm, c, env[0]);
    Follow(c, j, env, k);
    tracker.EmitError(j.id, msg);
    d, l := CloudStep(d, e), k.(made := k.made + env[0] + [e]);
  }

  /** The end of a job that failed. */
  method Fail(tracker: JobTracker, vm: VmManager, j: Plan, msg: string, env: seq<seq<Event>>, c: Cloud, ghost k: Course)
    returns (d: Cloud, ghost l: Course)
    requires Synced(c, tracker, vm) && OnScript(c, j, env, k) && At(c, j, Failing(msg))
    modifies tracker, vm
    ensures Synced(d, tracker, vm) && Onward(c, env, k, d, env[2..], l, j) && At(d, j, GaveUp(msg))
  {
    d, l := SayFailed(tracker, vm, j, msg, env, c, k);
    d, l := SendError(tracker, vm, j, msg, env[1..], d, l);
    assert env[1..][1..] == env[2..];
  }

  /** The look for a cancellation before phase `n`. */
  method Check(tracker: JobTracker, vm: VmManager, j: Plan, n: Phase, env: seq<seq<Event>>, c: Cloud, ghost k: Course)
    returns (present: bool, d: Cloud, rest: seq<seq<Event>>, ghost l: Course)
    requires Synced(c, tracker, vm) && OnScript(c, j, env, k) && At(c, j, Checking(n))
    modifies tracker, vm
    ensures Synced(d, tracker, vm) && Onward(c, env, k, d, rest, l, j)
    ensures present == Present(CloudRun(c, env[0]), j) && (Steady(c, j, env) ==> present)
    ensures At(d, j, if present then Entering(n) else Failing(CANCELLED))
  {
    var e := OwnEvent(j, Checking(n));
    d := Yield(tracker, vm, c, env[0]);
    present := tracker.Has(j.id);
    if present {
      Follow(c, j, env, k);
      d, rest, l := CloudStep(d, e), env[1..], k.(made := k.made + env[0] + [e]);
    } else {
      FollowCancelled(c, j, env, k);
      d := Yield(tracker, vm, d, env[1]);
      vm.Teardown(j.uuid, j.removal);
      d, rest, l := CloudStep(d, e), env[2..], k.(made := k.made + (env[0] + env[1]) + [e]);
    }
  }

  /** The announcement of phase `n`. */
  method Announce(tracker: JobTracker, vm: VmManager, j: Plan, n: Phase, env: seq<seq<Event>>, c: Cloud,
                  ghost k: Course)
    returns (d: Cloud, ghost l: Course)
    requires Synced(c, tracker, vm) && OnScript(c, j, env, k) && At(c, j, Entering(n))
    modifies tracker, vm
    ensures Synced(d, tracker, vm) && Onward(c, env, k, d, env[1..], l, j) && At(d, j, Working(n))
  {
    var e := OwnEvent(j, Entering(n));
    d := Yield(tracker, vm, c, env[0]);
    Follow(c, j, env, k);
    tracker.SetStatus(j.id, StatusOf(n));
    d, l := CloudStep(d, e), k.(made := k.made + env[0] + [e]);
  }

  /** The look for a cancellation before phase `n`, and what follows from it: the phase is announced, or the job's
      machine is torn down. */
  method CheckAndEnter(tracker: JobTracker, vm: VmManager, j: Plan, n: Phase, env: seq<seq<Event>>, c: Cloud,
                       ghost k: Course)
    returns (entered: bool, d: Cloud, rest: seq<seq<Event>>, ghost l: Course)
    requires Synced(c, tracker, vm) && OnScript(c, j, env, k) && At(c, j, Checking(n))
    modifies tracker, vm
    ensures Synced(d, tracker, vm) && Onward(c, env, k, d, rest, l, j)
    ensures entered == Present(CloudRun(c, env[0]), j) && (Steady(c, j, env) ==> entered)
    ensures At(d, j, if entered then Working(n) else Failing(CANCELLED))
  {
    entered, d, rest, l := Check(tracker, vm, j, n, env, c, k);
    if entered {
      d, l := Announce(tracker, vm, j, n, rest, d, l);
      rest := rest[1..];
    }
  }

  /** Phase `n` ends. Failing before the analysis leaves the machine behind; after it the machine is torn down. */
  method Leave(tracker: JobTracker, vm: VmManager, j: Plan, n: Phase, env: seq<seq<Event>>, c: Cloud, ghost k: Course)
    returns (d: Cloud, ghost l: Course)
    requires Synced(c, tracker, vm) && OnScript(c, j, env, k) && At(c, j, Working(n))
    modifies tracker, vm
    ensures Synced(d, tracker, vm) && Onward(c, env, k, d, env[1..], l, j)
    ensures var turn := j.turns[n - 1];
            At(d, j,
               if turn.Bad? then Failing(turn.msg) else if n < 3 then Checking(n + 1) else Succeeding(turn.result))
  {
    var e := OwnEvent(j, Working(n));
    d := Yield(tracker, vm, c, env[0]);
    Follow(c, j, env, k);
    if n == 3 {
      vm.Teardown(j.uuid, j.removal);
    }
    d, l := CloudStep(d, e), k.(made := k.made + env[0] + [e]);
  }

  /** The first announcement of a job. */
  method Begun(tracker: JobTracker, vm: VmManager, j: Plan, env: seq<seq<Event>>, c: Cloud, ghost k: Course)
    returns (d: Cloud, ghost l: Course)
    requires Synced(c, tracker, vm) && OnScript(c, j, env, k) && At(c, j, Begin)
    modifies tracker, vm
    ensures Synced(d, tracker, vm) && Onward(c, env, k, d, env[1..], l, j) && At(d, j, Creating)
    ensures New(c.ledger.host, j.uuid) ==> New(d.ledger.host, j.uuid)
  {
    var e := OwnEvent(j, Begin);
    d := Yield(tracker, vm, c, env[0]);
    Follow(c, j, env, k);
    tracker.SetStatus(j.id, SpawningVm);
    d, l := CloudStep(d, e), k.(made := k.made + env[0] + [e]);
  }

  /** `create_job_domain` for the job. On a host that does not know the uuid only its own calls decide. */
  method Make(tracker: JobTracker, vm: VmManager, j: Plan, env: seq<seq<Event>>, c: Cloud, ghost k: Course)
    returns (r: Creation, d: Cloud, ghost l: Course)
    requires Synced(c, tracker, vm) && OnScript(c, j, env, k) && At(c, j, Creating)
    modifies tracker, vm
    ensures Synced(d, tracker, vm) && Onward(c, env, k, d, env[1..], l, j)
    ensures At(d, j,
               if r.Created? then Checking(1) else if r.Refused? then Failing("failed to create VM") else Crashed)
    ensures New(c.ledger.host, j.uuid) ==> r == CreationOf(c.ledger.host, j.uuid, j.creation)
  {
    var e := OwnEvent(j, Creating);
    d := Yield(tracker, vm, c, env[0]);
    Follow(c, j, env, k);
    r := vm.CreateJobDomain(j.uuid, j.creation);
    d, l := CloudStep(d, e), k.(made := k.made + env[0] + [e]);
  }

  /** The first announcement and the making of the machine. */
  method Create(tracker: JobTracker, vm: VmManager, j: Plan, env: seq<seq<Event>>, c: Cloud, ghost k: Course)
    returns (r: Creation, d: Cloud, ghost l: Course)
    requires Synced(c, tracker, vm) && OnScript(c, j, env, k) && At(c, j, Begin)
    modifies tracker, vm
    ensures Synced(d, tracker, vm) && Onward(c, env, k, d, env[2..], l, j)
    ensures At(d, j,
               if r.Created? then Checking(1) else if r.Refused? then Failing("failed to create VM") else Crashed)
    ensures New(c.ledger.host, j.uuid) ==> r == CreationOf(c.ledger.host, j.uuid, j.creation)
  {
    d, l := Begun(tracker, vm, j, env, c, k);
    r, d, l := Make(tracker, vm, j, env[1..], d, l);
    assert env[1..][1..] == env[2..];
  }

  /** The job is in the table as completed with this result. */
  predicate Reported(c: Cloud, j: Plan, result: AnalysisResult) {
    && Present(c, j)
    && c.world.tracker.jobs[j.id].status == Completed && c.world.tracker.jobs[j.id].result == Some(result)
  }

  method Record(tracker: JobTracker, vm: VmManager, j: Plan, result: AnalysisResult, env: seq<seq<Event>>, c: Cloud,
                ghost k: Course)
    returns (d: Cloud, ghost l: Course)
    requires Synced(c, tracker, vm) && OnScript(c, j, env, k) && At(c, j, Succeeding(result))
    modifies tracker, vm
    ensures Synced(d, tracker, vm) && Onward(c, env, k, d, env[1..], l, j) && At(d, j, Finished(result))
    ensures Steady(c, j, env) ==> Reported(d, j, result)
  {
    var e := OwnEvent(j, Succeeding(result));
    d := Yield(tracker, vm, c, env[0]);
    Follow(c, j, env, k);
    tracker.SetResult(j.id, result);
    d, l := CloudStep(d, e), k.(made := k.made + env[0] + [e]);
  }

  /** Why a job goes no further than a phase: it was cancelled before it, or failed in it. */
  function PhaseError(present: bool, turn: Turn): Option<string> {
    if !present then Some(CANCELLED) else if turn.Bad? then Some(turn.msg) else None
  }

  /** One phase with all its exits: cancelled before it, failed in it, or over. */
  method DoPhase(tracker: JobTracker, vm: VmManager, j: Plan, n: Phase, env: seq<seq<Event>>, c: Cloud, ghost k: Course)
    returns (error: Option<string>, d: Cloud, rest: seq<seq<Event>>, ghost l: Course)
    requires Synced(c, tracker, vm) && OnScript(c, j, env, k) && At(c, j, Checking(n))
    modifies tracker, vm
    ensures Synced(d, tracker, vm) && Onward(c, env, k, d, rest, l, j)
    ensures error == PhaseError(Present(CloudRun(c, env[0]), j), j.turns[n - 1])
    ensures Steady(c, j, env) && j.turns[n - 1].Good? ==> error.None?
    ensures At(d, j,
               if error.Some? then GaveUp(error.value) else if n < 3 then Checking(n + 1)
               else Succeeding(j.turns[n - 1].result))
  {
    var entered;
    entered, d, rest, l := CheckAndEnter(tracker, vm, j, n, env, c, k);
    if entered {
      d, l := Leave(tracker, vm, j, n, rest, d, l);
      rest := rest[1..];
      if j.turns[n - 1].Good? {
        return None, d, rest, l;
      }
    }
    var msg := if entered then j.turns[n - 1].msg else CANCELLED;
    d, l := Fail(tracker, vm, j, msg, rest, d, l);
    return Some(msg), d, rest[2..], l;
  }

  /** How a job ended: with a result, with an error, or by a panic while its machine was made. */
  datatype Ending = Ended(result: AnalysisResult) | Errored(msg: string) | Broken

  function EndPc(ending: Ending): Pc {
    match ending
    case Ended(r) => Finished(r)
    case Errored(m) => GaveUp(m)
    case Broken => Crashed
  }

  predicate AllGood(j: Plan)
    requires PlanFit(j)
  {
    j.turns[0].Good? && j.turns[1].Good? && j.turns[2].Good?
  }

  /** The upload and the analysis. */
  method LaterPhases(tracker: JobTracker, vm: VmManager, j: Plan, env: seq<seq<Event>>, c: Cloud, ghost k: Course)
    returns (error: Option<string>, d: Cloud, rest: seq<seq<Event>>, ghost l: Course)
    requires Synced(c, tracker, vm) && OnScript(c, j, env, k) && At(c, j, Checking(2))
    modifies tracker, vm
    ensures Synced(d, tracker, vm) && Onward(c, env, k, d, rest, l, j)
    ensures error.None? ==> j.turns[1].Good? && j.turns[2].Good?
    ensures At(d, j, if error.Some? then GaveUp(error.value) else Succeeding(j.turns[2].result))
    ensures Steady(c, j, env) && j.turns[1].Good? && j.turns[2].Good? ==> error.None?
  {
    error, d, rest, l := DoPhase(tracker, vm, j, 2, env, c, k);
    if error.None? {
      error, d, rest, l := DoPhase(tracker, vm, j, 3, rest, d, l);
    }
  }

  /** The three phases of a job that has its machine. */
  method Phases(tracker: JobTracker, vm: VmManager, j: Plan, env: seq<seq<Event>>, c: Cloud, ghost k: Course)
    returns (error: Option<string>, d: Cloud, rest: seq<seq<Event>>, ghost l: Course)
    requires Synced(c, tracker, vm) && OnScript(c, j, env, k) && At(c, j, Checking(1))
    modifies tracker, vm
    ensures Synced(d, tracker, vm) && Onward(c, env, k, d, rest, l, j)
    ensures error.None? ==> AllGood(j)
    ensures At(d, j, if error.Some? then GaveUp(error.value) else Succeeding(j.turns[2].result))
    ensures Steady(c, j, env) && AllGood(j) ==> error.None?
  {
    error, d, rest, l := DoPhase(tracker, vm, j, 1, env, c, k);
    if error.None? {
      error, d, rest, l := LaterPhases(tracker, vm, j, rest, d, l);
    }
  }

  /** A job that has its machine, to its end. */
  method Finish(tracker: JobTracker, vm: VmManager, j: Plan, env: seq<seq<Event>>, c: Cloud, ghost k: Course)
    returns (ending: Ending, d: Cloud)
    requires Synced(c, tracker, vm) && OnScript(c, j, env, k) && At(c, j, Checking(1))
    modifies tracker, vm
    ensures Synced(d, tracker, vm) && d == CloudRun(k.start, k.whole) && At(d, j, EndPc(ending))
    ensures ending.Ended? ==> AllGood(j) && ending == Ended(j.turns[2].result)
    ensures Steady(c, j, env) && AllGood(j) ==> ending.Ended? && Reported(d, j, j.turns[2].result)
  {
    var error, rest;
    ghost var l;
    error, d, rest, l := Phases(tracker, vm, j, env, c, k);
    if error.Some? {
      CourseOver(d, j, rest, l);
      return Errored(error.value), d;
    }
    d, l := Record(tracker, vm, j, j.turns[2].result, rest, d, l);
    CourseOver(d, j, rest[1..], l);
    return Ended(j.turns[2].result), d;
  }

  /** Nothing stands in the job's way: it is in the table and nobody cancels it, its machine is new to the host and its
      calls succeed, and every phase ends well. */
  predicate Undisturbed(c: Cloud, j: Plan, env: seq<seq<Event>>)
    requires PlanFit(j)
  {
    && Steady(c, j, env) && AllGood(j)
    && New(c.ledger.host, j.uuid) && CreationOf(c.ledger.host, j.uuid, j.creation).Created?
  }

  /** `run_job`, while everything else goes on: before each of its shared operations the others do the next stretch of
      `env`. The tracker and the host end where the step machine does on the job's script, with the task at its end; and
      an undisturbed job ends with its result, in the table. */
  method Run(tracker: JobTracker, vm: VmManager, j: Plan, env: seq<seq<Event>>, c: Cloud)
    returns (ending: Ending, d: Cloud, ghost events: seq<Event>)
    requires Synced(c, tracker, vm) && At(c, j, Begin) && j.uuid !in c.ledger.uuids
    requires PlanFit(j) && |env| == StretchesLeft(Begin) && AllOthers(env, j)
    modifies tracker, vm
    ensures events == Script(c, j, env) && d == CloudRun(c, events)
    ensures Synced(d, tracker, vm) && At(d, j, EndPc(ending))
    ensures ending.Ended? ==> AllGood(j) && ending == Ended(j.turns[2].result)
    ensures Undisturbed(c, j, env) ==> ending.Ended? && Reported(d, j, j.turns[2].result)
  {
    events := Script(c, j, env);
    var created;
    ghost var k := Course(c, events, []);
    created, d, k := Create(tracker, vm, j, env, c, k);
    if created.Panicked? {
      CourseOver(d, j, env[2..], k);
      return Broken, d, events;
    }
    if created.Refused? {
      d, k := Fail(tracker, vm, j, "failed to create VM", env[2..], d, k);
      CourseOver(d, j, env[2..][2..], k);
      return Errored("failed to create VM"), d, events;
    }
    ending, d := Finish(tracker, vm, j, env[2..], d, k);
  }
}
