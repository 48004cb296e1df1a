/** What becomes of every machine: job tasks make, hold, tear down or abandon them, over all interleavings. */
module VmLedger {
  import opened Job
  import opened JobRuns
  import opened Vm

  /** `owner` records which machine was made for which job, for ever; `crashed` the machines whose making panicked;
      `left` what refused creations left behind; `kept` what removals failed to remove. */
  datatype Ledger = Ledger(
    host: HostState,
    uuids: set<Uuid>,
    owner: map<Id, Uuid>,
    abandoned: set<Uuid>,
    crashed: set<Uuid>,
    teardowns: multiset<Uuid>,
    left: HostState,
    kept: HostState)

  const NOTHING := HostState({}, {}, {}, {})

  datatype Cloud = Cloud(world: World, ledger: Ledger)

  /** A step of the system, with the uuid and the outcome of the foreign calls if it is one that makes or removes
      a machine. */
  datatype Event = Event(action: Action, uuid: Uuid, calls: Calls)

  function Start(h: HostState): Cloud {
    Cloud(EMPTY, Ledger(h, h.overlays + h.nvrams + h.domains + h.running, map[], {}, {}, multiset{}, NOTHING, NOTHING))
  }

  /** The task is between making its machine and giving it up. */
  predicate Holding(pc: Pc) {
    pc.Checking? || pc.Entering? || pc.Working?
  }

  /** How a step at `pc` turns out: making the machine is decided by the host. */
  function TurnAt(l: Ledger, pc: Pc, e: Event): Turn
    requires e.action.Advance?
  {
    if !pc.Creating? then e.action.turn
    else match CreationOf(l.host, e.uuid, e.calls)
      case Created => Good(AnalysisResult(0, 0, ""))
      case Refused => Bad("failed to create VM")
      case Panicked => Panic
  }

  function TurnOf(c: Cloud, e: Event, id: Id): Turn
    requires e.action.Advance?
  {
    if id in c.world.tasks then TurnAt(c.ledger, c.world.tasks[id].pc, e) else e.action.turn
  }

  function TornDown(l: Ledger, id: Id, e: Event): Ledger {
    if id in l.owner
    then l.(host := HostWithout(l.host, l.owner[id], e.calls), teardowns := l.teardowns + multiset{l.owner[id]},
            kept := Union(l.kept, Unremoved(l.owner[id], e.calls)))
    else l
  }

  /** What the step of the task of `id` at `pc` does to machines. */
  function NextLedger(l: Ledger, id: Id, pc: Pc, has: bool, turn: Turn, e: Event): Ledger {
    match pc
    case Creating =>
      var after := l.(host := HostAfter(l.host, e.uuid, e.calls), uuids := l.uuids + {e.uuid});
      (match turn
       case Good(_) => after.(owner := after.owner[id := e.uuid])
       case Bad(_) => after.(left := Union(after.left, Leftover(l.host, e.uuid, e.calls)))
       case Panic => after.(crashed := after.crashed + {e.uuid}))
    case Checking(_) => if has then l else TornDown(l, id, e)
    case Working(n) =>
      if turn.Panic? then l
      else if n == 3 then TornDown(l, id, e)
      else if turn.Bad? && id in l.owner then l.(abandoned := l.abandoned + {l.owner[id]})
      else l
    case _ => l
  }

  /** Machine uuids are fresh: making a machine under a known uuid is no step of the system. */
  function CloudStep(c: Cloud, e: Event): Cloud {
    if !e.action.Advance? || e.action.id !in c.world.tasks then Cloud(Step(c.world, e.action), c.ledger)
    else
      var id := e.action.id;
      var pc := c.world.tasks[id].pc;
      if pc.Creating? && e.uuid in c.ledger.uuids then c
      else
        var turn := TurnOf(c, e, id);
        Cloud(Step(c.world, Advance(id, turn)),
              NextLedger(c.ledger, id, pc, id in c.world.tracker.jobs, turn, e))
  }

  function CloudRun(c: Cloud, events: seq<Event>): Cloud
    decreases |events|
  {
    if events == [] then c else CloudRun(CloudStep(c, events[0]), events[1..])
  }

  lemma {:induction false} CloudRunJoin(c: Cloud, a: seq<Event>, b: seq<Event>)
    ensures CloudRun(c, a + b) == CloudRun(CloudRun(c, a), b)
    decreases |a|
  {
    if a == [] {
      assert a + b == b;
    } else {
      assert (a + b)[0] == a[0] && (a + b)[1..] == a[1..] + b;
      CloudRunJoin(CloudStep(c, a[0]), a[1..], b);
    }
  }

  lemma OneEvent(c: Cloud, e: Event)
    ensures CloudRun(c, [e]) == CloudStep(c, e)
  {
    assert [e][1..] == [];
    assert CloudRun(CloudStep(c, e), []) == CloudStep(c, e);
  }

  // ----- conservation -----

  /** The one machine of `id`: held, abandoned, or torn down once, as its task's place in the code says. A task that
      succeeded has torn its machine down. */
  ghost predicate Accounted(l: Ledger, id: Id, pc: Pc) {
    if id !in l.owner then !Holding(pc) && !pc.Succeeding? && !pc.Finished?
    else
      var d := l.owner[id];
      && !pc.Begin? && !pc.Creating?
      && d in l.uuids && d !in l.crashed
      && (d in l.abandoned ==> l.teardowns[d] == 0)
      && l.teardowns[d] <= 1
      && (Holding(pc) <==> d !in l.abandoned && l.teardowns[d] == 0)
      && (pc.Succeeding? || pc.Finished? ==> l.teardowns[d] == 1)
  }

  ghost predicate Owned(l: Ledger, d: Uuid) {
    exists id :: id in l.owner && l.owner[id] == d
  }

  ghost predicate AllAccounted(l: Ledger, tasks: map<Id, Task>) {
    forall id | id in tasks :: Accounted(l, id, tasks[id].pc)
  }

  /** No machine was made for two jobs. */
  ghost predicate Distinct(owner: map<Id, Uuid>) {
    forall i, j | i in owner && j in owner && owner[i] == owner[j] :: i == j
  }

  ghost predicate LettingsOwned(l: Ledger) {
    forall d | d in l.abandoned || d in l.teardowns :: Owned(l, d)
  }

  ghost predicate LedgerInv(l: Ledger, tasks: map<Id, Task>) {
    && l.owner.Keys <= tasks.Keys
    && AllAccounted(l, tasks)
    && Distinct(l.owner)
    && LettingsOwned(l)
    && l.crashed <= l.uuids
  }

  /** `m` differs from `l` only in what it says about machine `d` and whether job `id` owns it. */
  ghost predicate OnlyFor(l: Ledger, m: Ledger, id: Id, d: Uuid) {
    && (m.owner == l.owner || m.owner == l.owner[id := d])
    && (id in l.owner ==> l.owner[id] == d)
    && (m.abandoned == l.abandoned || m.abandoned == l.abandoned + {d})
    && (m.teardowns == l.teardowns || m.teardowns == l.teardowns + multiset{d})
    && (m.crashed == l.crashed || m.crashed == l.crashed + {d})
    && l.uuids <= m.uuids
    && ((d in m.abandoned && d !in l.abandoned) || m.teardowns != l.teardowns ==> id in m.owner)
  }

  predicate FreshFor(l: Ledger, pc: Pc, d: Uuid) {
    pc.Creating? ==> d !in l.uuids && d !in l.crashed && d !in l.abandoned && d !in l.teardowns
  }

  /** A step keeps the account of its own machine. */
  lemma OwnMachine(l: Ledger, id: Id, t: Task, has: bool, turn: Turn, e: Event)
    requires Accounted(l, id, t.pc) && FreshFor(l, t.pc, e.uuid)
    ensures var m := NextLedger(l, id, t.pc, has, turn, e);
            Accounted(m, id, NextTask(t, has, turn).pc)
            && OnlyFor(l, m, id, if id in l.owner then l.owner[id] else e.uuid)
            && (m.crashed != l.crashed || m.owner != l.owner ==> t.pc.Creating? && e.uuid in m.uuids)
  {
  }

  /** Machines of other jobs are accounted for as before. */
  lemma OtherMachine(l: Ledger, m: Ledger, id: Id, d: Uuid, i: Id, pc: Pc)
    requires OnlyFor(l, m, id, d) && i != id && Accounted(l, i, pc)
    requires i in l.owner ==> l.owner[i] != d
    ensures Accounted(m, i, pc)
  {
  }

  ghost predicate OthersOwn(l: Ledger, id: Id, d: Uuid) {
    forall i | i in l.owner && i != id :: l.owner[i] != d
  }

  lemma OthersStill(l: Ledger, m: Ledger, tasks: map<Id, Task>, id: Id, d: Uuid, t: Task)
    requires OnlyFor(l, m, id, d) && OthersOwn(l, id, d) && AllAccounted(l, tasks) && Accounted(m, id, t.pc)
    ensures AllAccounted(m, tasks[id := t])
  {
    forall i | i in tasks && i != id ensures Accounted(m, i, tasks[i].pc) {
      OtherMachine(l, m, id, d, i, tasks[i].pc);
    }
  }

  lemma DistinctStill(l: Ledger, m: Ledger, id: Id, d: Uuid)
    requires OnlyFor(l, m, id, d) && OthersOwn(l, id, d) && Distinct(l.owner)
    ensures Distinct(m.owner)
  {
  }

  lemma OwnedStill(l: Ledger, m: Ledger, id: Id, d: Uuid)
    requires OnlyFor(l, m, id, d) && LettingsOwned(l)
    ensures LettingsOwned(m)
  {
    forall x | x in m.abandoned || x in m.teardowns ensures Owned(m, x) {
      if x in l.abandoned || x in l.teardowns {
        assert Owned(l, x);
        var i :| i in l.owner && l.owner[i] == x;
        assert m.owner[i] == x;
      } else {
        assert m.owner[id] == x;
      }
    }
  }

  /** The machine of the moving task is no other job's. */
  lemma OthersOwnOthers(l: Ledger, tasks: map<Id, Task>, id: Id, d: Uuid)
    requires LedgerInv(l, tasks) && (if id in l.owner then l.owner[id] == d else d !in l.uuids)
    ensures OthersOwn(l, id, d)
  {
    forall i | i in l.owner && i != id ensures l.owner[i] != d {
      assert Accounted(l, i, tasks[i].pc);
    }
  }

  lemma NewUuidUnused(l: Ledger, tasks: map<Id, Task>, d: Uuid)
    requires LedgerInv(l, tasks)
    ensures d !in l.uuids ==> l.teardowns[d] == 0 && d !in l.abandoned && d !in l.crashed
  {
    if d in l.teardowns || d in l.abandoned {
      assert Owned(l, d);
      var i :| i in l.owner && l.owner[i] == d;
      assert Accounted(l, i, tasks[i].pc);
    }
  }

  /** A task that has no machine yet and is not making one leaves the ledger alone. */
  lemma NoMachine(l: Ledger, tasks: map<Id, Task>, id: Id, has: bool, turn: Turn, e: Event)
    requires LedgerInv(l, tasks) && id in tasks && id !in l.owner && !tasks[id].pc.Creating?
    ensures NextLedger(l, id, tasks[id].pc, has, turn, e) == l
    ensures LedgerInv(l, tasks[id := NextTask(tasks[id], has, turn)])
  {
    assert Accounted(l, id, tasks[id].pc);
    OwnMachine(l, id, tasks[id], has, turn, e);
    var after := tasks[id := NextTask(tasks[id], has, turn)];
    forall i | i in after ensures Accounted(l, i, after[i].pc) {
      if i != id { assert Accounted(l, i, tasks[i].pc); }
    }
  }

  lemma MachinesStep(l: Ledger, tasks: map<Id, Task>, id: Id, has: bool, turn: Turn, e: Event)
    requires LedgerInv(l, tasks) && id in tasks && (tasks[id].pc.Creating? ==> e.uuid !in l.uuids)
    ensures LedgerInv(NextLedger(l, id, tasks[id].pc, has, turn, e), tasks[id := NextTask(tasks[id], has, turn)])
  {
    var t, m := tasks[id], NextLedger(l, id, tasks[id].pc, has, turn, e);
    assert Accounted(l, id, t.pc);
    NewUuidUnused(l, tasks, e.uuid);
    OwnMachine(l, id, t, has, turn, e);
    if id in l.owner || t.pc.Creating? {
      var d := if id in l.owner then l.owner[id] else e.uuid;
      OthersOwnOthers(l, tasks, id, d);
      OthersStill(l, m, tasks, id, d, NextTask(t, has, turn));
      DistinctStill(l, m, id, d);
      OwnedStill(l, m, id, d);
    } else {
      NoMachine(l, tasks, id, has, turn, e);
    }
  }

  ghost predicate CloudInv(c: Cloud) {
    JobsInv(c.world) && LedgerInv(c.ledger, c.world.tasks)
  }

  /** Steps outside a task touch no machine, and a new job has none. */
  lemma LedgerUntouched(l: Ledger, w: World, a: Action)
    requires LedgerInv(l, w.tasks) && (!a.Advance? || a.id !in w.tasks)
    ensures LedgerInv(l, Step(w, a).tasks)
  {
    var v := Step(w, a);
    forall id | id in v.tasks ensures Accounted(l, id, v.tasks[id].pc) {
      assert id in w.tasks ==> Accounted(l, id, w.tasks[id].pc);
    }
  }

  lemma AdvanceKeepsCloud(c: Cloud, e: Event)
    requires CloudInv(c) && e.action.Advance? && e.action.id in c.world.tasks
    requires c.world.tasks[e.action.id].pc.Creating? ==> e.uuid !in c.ledger.uuids
    ensures CloudInv(CloudStep(c, e))
  {
    var id := e.action.id;
    var turn := TurnOf(c, e, id);
    JobsStep(c.world, Advance(id, turn));
    MachinesStep(c.ledger, c.world.tasks, id, id in c.world.tracker.jobs, turn, e);
    assert Step(c.world, Advance(id, turn)).tasks
        == c.world.tasks[id := NextTask(c.world.tasks[id], id in c.world.tracker.jobs, turn)];
  }

  lemma CloudStepKeeps(c: Cloud, e: Event)
    requires CloudInv(c)
    ensures CloudInv(CloudStep(c, e))
  {
    if !e.action.Advance? || e.action.id !in c.world.tasks {
      JobsStep(c.world, e.action);
      LedgerUntouched(c.ledger, c.world, e.action);
    } else if !(c.world.tasks[e.action.id].pc.Creating? && e.uuid in c.ledger.uuids) {
      AdvanceKeepsCloud(c, e);
    }
  }

  lemma {:induction false} CloudReachable(c: Cloud, events: seq<Event>)
    requires CloudInv(c)
    ensures CloudInv(CloudRun(c, events))
    decreases |events|
  {
    if events != [] {
      CloudStepKeeps(c, events[0]);
      CloudReachable(CloudStep(c, events[0]), events[1..]);
    }
  }

  function Made(l: Ledger): set<Uuid> {
    set id | id in l.owner :: l.owner[id]
  }

  function Held(c: Cloud): set<Uuid> {
    set id | id in c.ledger.owner && id in c.world.tasks && Holding(c.world.tasks[id].pc) :: c.ledger.owner[id]
  }

  function Gone(l: Ledger): set<Uuid> {
    set d | d in l.teardowns
  }

  lemma Conserved(c: Cloud)
    requires CloudInv(c)
    ensures Made(c.ledger) == Held(c) + c.ledger.abandoned + Gone(c.ledger)
    ensures Held(c) !! c.ledger.abandoned !! Gone(c.ledger)
    ensures forall d :: c.ledger.teardowns[d] <= 1
  {
    var l := c.ledger;
    forall d | d in l.abandoned || d in l.teardowns
      ensures d in Made(l) && d !in Held(c) && !(d in l.abandoned && d in l.teardowns) && l.teardowns[d] <= 1
    {
      assert Owned(l, d);
      var id :| id in l.owner && l.owner[id] == d;
      assert Accounted(l, id, c.world.tasks[id].pc);
    }
    forall d | d in Made(l) ensures d in Held(c) || d in l.abandoned || d in Gone(l) {
      var id :| id in l.owner && l.owner[id] == d;
      assert Accounted(l, id, c.world.tasks[id].pc);
    }
  }

  /** Over all runs of many jobs: the machines made are those held by running tasks, those abandoned and those torn
      down, without overlap, and none is torn down twice. */
  lemma MachinesConserved(h: HostState, events: seq<Event>)
    ensures var c := CloudRun(Start(h), events);
            var l := c.ledger;
            && Made(l) == Held(c) + l.abandoned + Gone(l)
            && Held(c) !! l.abandoned !! Gone(l)
            && (forall d :: l.teardowns[d] <= 1)
  {
    CloudReachable(Start(h), events);
    Conserved(CloudRun(Start(h), events));
  }

  /** How a task lets its machine go: torn down when the job is seen to be cancelled and when the analysis ends,
      either way; abandoned when bootstrap, connecting or uploading fails. */
  lemma WaysOut(h: HostState, events: seq<Event>, e: Event)
    requires var c := CloudRun(Start(h), events);
             e.action.Advance? && e.action.id in c.world.tasks
             && Holding(c.world.tasks[e.action.id].pc)
    ensures var c := CloudRun(Start(h), events);
            var id := e.action.id;
            var pc, l, m := c.world.tasks[id].pc, c.ledger, CloudStep(c, e).ledger;
            && id in l.owner && l.teardowns[l.owner[id]] == 0 && l.owner[id] !in l.abandoned
            && (m.teardowns[l.owner[id]] == 1 <==>
                  (pc.Checking? && id !in c.world.tracker.jobs) || (pc == Working(3) && !e.action.turn.Panic?))
            && (l.owner[id] in m.abandoned <==> pc.Working? && pc.n < 3 && e.action.turn.Bad?)
  {
    CloudReachable(Start(h), events);
    var c := CloudRun(Start(h), events);
    assert Accounted(c.ledger, e.action.id, c.world.tasks[e.action.id].pc);
  }

  // ----- the host -----

  ghost predicate There(base: set<Uuid>, left: set<Uuid>, kept: set<Uuid>, l: Ledger, d: Uuid) {
    d in base || d in left || d in l.crashed || (Owned(l, d) && (l.teardowns[d] == 0 || d in kept))
  }

  /** One kind of thing on the host: `base` was there before, `left` and `kept` are the ledger's leftovers of it, and
      `now` is there now. */
  ghost predicate Kind(base: set<Uuid>, now: set<Uuid>, left: set<Uuid>, kept: set<Uuid>, l: Ledger) {
    && base + left <= l.uuids
    && (forall id | id in l.owner :: l.owner[id] !in base && l.owner[id] !in left)
    && (forall d | d in kept :: l.teardowns[d] > 0)
    && (forall d :: d in now <==> There(base, left, kept, l, d))
  }

  ghost predicate HostMatches(h: HostState, l: Ledger) {
    && Kind(h.overlays, l.host.overlays, l.left.overlays, l.kept.overlays, l)
    && Kind(h.nvrams, l.host.nvrams, l.left.nvrams, l.kept.nvrams, l)
    && Kind(h.domains, l.host.domains, l.left.domains, l.kept.domains, l)
    && Kind(h.running, l.host.running, l.left.running, l.kept.running, l)
  }

  predicate TurnMatches(l: Ledger, turn: Turn, e: Event) {
    match CreationOf(l.host, e.uuid, e.calls)
    case Created => turn.Good?
    case Refused => turn.Bad?
    case Panicked => turn.Panic?
  }

  /** The uuid was never used. */
  ghost predicate Unused(l: Ledger, d: Uuid) {
    d !in l.uuids && l.teardowns[d] == 0 && d !in l.crashed && !Owned(l, d)
  }

  lemma UnusedIsNew(h: HostState, l: Ledger, d: Uuid)
    requires HostMatches(h, l) && Unused(l, d)
    ensures New(l.host, d)
  {
    assert !There(h.overlays, l.left.overlays, l.kept.overlays, l, d);
    assert !There(h.nvrams, l.left.nvrams, l.kept.nvrams, l, d);
    assert !There(h.domains, l.left.domains, l.kept.domains, l, d);
    assert !There(h.running, l.left.running, l.kept.running, l, d);
  }

  lemma OwnersKept(l: Ledger, m: Ledger, id: Id, d: Uuid)
    requires id !in l.owner && (m.owner == l.owner || m.owner == l.owner[id := d])
    ensures forall x :: Owned(m, x) <==> Owned(l, x) || (m.owner != l.owner && x == d)
  {
    forall x ensures Owned(m, x) <==> Owned(l, x) || (m.owner != l.owner && x == d) {
      if Owned(l, x) {
        var i :| i in l.owner && l.owner[i] == x;
        assert m.owner[i] == x;
      }
      if m.owner != l.owner {
        assert m.owner[id] == d;
      }
    }
  }

  /** A machine that is made, or whose making panics, adds itself to every kind. */
  lemma KindOfCreation(base: set<Uuid>, now: set<Uuid>, left: set<Uuid>, kept: set<Uuid>,
                       l: Ledger, m: Ledger, id: Id, d: Uuid)
    requires Kind(base, now, left, kept, l) && Unused(l, d) && id !in l.owner
    requires m.uuids == l.uuids + {d} && m.teardowns == l.teardowns
    requires || (m.owner == l.owner[id := d] && m.crashed == l.crashed)
             || (m.owner == l.owner && m.crashed == l.crashed + {d})
    ensures Kind(base, now + {d}, left, kept, m)
  {
    OwnersKept(l, m, id, d);
    forall x ensures x in now + {d} <==> There(base, left, kept, m, x) {
      assert x in now <==> There(base, left, kept, l, x);
      if m.owner != l.owner { assert m.owner[id] == d; }
    }
  }

  /** A refused creation adds its leftover. */
  lemma KindOfRefusal(base: set<Uuid>, now: set<Uuid>, left: set<Uuid>, kept: set<Uuid>, more: set<Uuid>,
                      l: Ledger, m: Ledger, d: Uuid)
    requires Kind(base, now, left, kept, l) && Unused(l, d) && forall x | x in more :: x == d
    requires m.uuids == l.uuids + {d} && m.teardowns == l.teardowns && m.owner == l.owner && m.crashed == l.crashed
    ensures Kind(base, now + more, left + more, kept, m)
  {
    forall id | id in m.owner ensures m.owner[id] !in left + more {
      assert Owned(l, l.owner[id]);
    }
    assert forall x :: Owned(m, x) <==> Owned(l, x);
    forall x ensures x in now + more <==> There(base, left + more, kept, m, x) {
      assert x in now <==> There(base, left, kept, l, x);
    }
  }

  lemma KindOfRemoval(base: set<Uuid>, now: set<Uuid>, left: set<Uuid>, kept: set<Uuid>, removed: bool,
                      l: Ledger, m: Ledger, id: Id)
    requires Kind(base, now, left, kept, l) && id in l.owner
    requires l.owner[id] !in l.crashed && l.teardowns[l.owner[id]] == 0
    requires m.uuids == l.uuids && m.owner == l.owner && m.crashed == l.crashed
    requires (m.teardowns == l.teardowns + multiset{l.owner[id]})
    ensures Kind(base, if removed then now - {l.owner[id]} else now, left, kept + One(!removed, l.owner[id]), m)
  {
    var d := l.owner[id];
    assert Owned(l, d);
    assert forall x :: Owned(m, x) <==> Owned(l, x);
    var after := if removed then now - {d} else now;
    forall x ensures x in after <==> There(base, left, kept + One(!removed, d), m, x) {
      assert x in now <==> There(base, left, kept, l, x);
    }
  }

  lemma HostOfCreation(h: HostState, l: Ledger, id: Id, has: bool, turn: Turn, e: Event)
    requires HostMatches(h, l) && id !in l.owner && Unused(l, e.uuid) && TurnMatches(l, turn, e)
    ensures HostMatches(h, NextLedger(l, id, Creating, has, turn, e))
  {
    var m, d := NextLedger(l, id, Creating, has, turn, e), e.uuid;
    UnusedIsNew(h, l, d);
    CreationAdds(l.host, d, e.calls);
    if turn.Bad? {
      var o := Leftover(l.host, d, e.calls);
      KindOfRefusal(h.overlays, l.host.overlays, l.left.overlays, l.kept.overlays, o.overlays, l, m, d);
      KindOfRefusal(h.nvrams, l.host.nvrams, l.left.nvrams, l.kept.nvrams, o.nvrams, l, m, d);
      KindOfRefusal(h.domains, l.host.domains, l.left.domains, l.kept.domains, o.domains, l, m, d);
      KindOfRefusal(h.running, l.host.running, l.left.running, l.kept.running, o.running, l, m, d);
    } else {
      KindOfCreation(h.overlays, l.host.overlays, l.left.overlays, l.kept.overlays, l, m, id, d);
      KindOfCreation(h.nvrams, l.host.nvrams, l.left.nvrams, l.kept.nvrams, l, m, id, d);
      KindOfCreation(h.domains, l.host.domains, l.left.domains, l.kept.domains, l, m, id, d);
      KindOfCreation(h.running, l.host.running, l.left.running, l.kept.running, l, m, id, d);
    }
  }

  lemma HostOfRemoval(h: HostState, l: Ledger, id: Id, e: Event)
    requires HostMatches(h, l) && id in l.owner
    requires l.owner[id] !in l.crashed && l.teardowns[l.owner[id]] == 0
    ensures HostMatches(h, TornDown(l, id, e))
  {
    var m, c := TornDown(l, id, e), e.calls;
    KindOfRemoval(h.overlays, l.host.overlays, l.left.overlays, l.kept.overlays, c.overlayRemoved, l, m, id);
    KindOfRemoval(h.nvrams, l.host.nvrams, l.left.nvrams, l.kept.nvrams, c.nvramRemoved, l, m, id);
    KindOfRemoval(h.domains, l.host.domains, l.left.domains, l.kept.domains, c.undefinedNvram, l, m, id);
    KindOfRemoval(h.running, l.host.running, l.left.running, l.kept.running, c.destroyed, l, m, id);
  }

  lemma KindUntouched(base: set<Uuid>, now: set<Uuid>, left: set<Uuid>, kept: set<Uuid>, l: Ledger, m: Ledger)
    requires Kind(base, now, left, kept, l)
    requires m.uuids == l.uuids && m.owner == l.owner && m.crashed == l.crashed && m.teardowns == l.teardowns
    ensures Kind(base, now, left, kept, m)
  {
    assert forall x :: Owned(m, x) <==> Owned(l, x);
    assert forall x :: There(base, left, kept, m, x) <==> There(base, left, kept, l, x);
  }

  lemma HostUntouched(h: HostState, l: Ledger, abandoned: set<Uuid>)
    requires HostMatches(h, l)
    ensures HostMatches(h, l.(abandoned := abandoned))
  {
    var m := l.(abandoned := abandoned);
    KindUntouched(h.overlays, l.host.overlays, l.left.overlays, l.kept.overlays, l, m);
    KindUntouched(h.nvrams, l.host.nvrams, l.left.nvrams, l.kept.nvrams, l, m);
    KindUntouched(h.domains, l.host.domains, l.left.domains, l.kept.domains, l, m);
    KindUntouched(h.running, l.host.running, l.left.running, l.kept.running, l, m);
  }

  lemma HostStep(h: HostState, l: Ledger, t: Task, id: Id, has: bool, turn: Turn, e: Event)
    requires HostMatches(h, l) && Accounted(l, id, t.pc)
    requires t.pc.Creating? ==> Unused(l, e.uuid) && TurnMatches(l, turn, e)
    ensures HostMatches(h, NextLedger(l, id, t.pc, has, turn, e))
  {
    var m := NextLedger(l, id, t.pc, has, turn, e);
    if t.pc.Creating? {
      HostOfCreation(h, l, id, has, turn, e);
    } else if m == TornDown(l, id, e) && id in l.owner && Holding(t.pc) {
      HostOfRemoval(h, l, id, e);
    } else {
      assert m == l.(abandoned := m.abandoned);
      HostUntouched(h, l, m.abandoned);
    }
  }

  lemma NewUuidUnowned(l: Ledger, tasks: map<Id, Task>, d: Uuid)
    requires LedgerInv(l, tasks) && d !in l.uuids
    ensures Unused(l, d)
  {
    NewUuidUnused(l, tasks, d);
    forall i | i in l.owner ensures l.owner[i] in l.uuids {
      assert Accounted(l, i, tasks[i].pc);
    }
  }

  lemma CloudHostStep(h: HostState, c: Cloud, e: Event)
    requires CloudInv(c) && HostMatches(h, c.ledger)
    ensures HostMatches(h, CloudStep(c, e).ledger)
  {
    if e.action.Advance? && e.action.id in c.world.tasks
       && !(c.world.tasks[e.action.id].pc.Creating? && e.uuid in c.ledger.uuids) {
      var id := e.action.id;
      assert Accounted(c.ledger, id, c.world.tasks[id].pc);
      if c.world.tasks[id].pc.Creating? {
        NewUuidUnowned(c.ledger, c.world.tasks, e.uuid);
      }
      HostStep(h, c.ledger, c.world.tasks[id], id, id in c.world.tracker.jobs, TurnOf(c, e, id), e);
    }
  }

  lemma {:induction false} HostReachable(h: HostState, c: Cloud, events: seq<Event>)
    requires CloudInv(c) && HostMatches(h, c.ledger)
    ensures HostMatches(h, CloudRun(c, events).ledger)
    decreases |events|
  {
    if events != [] {
      CloudStepKeeps(c, events[0]);
      CloudHostStep(h, c, events[0]);
      HostReachable(h, CloudStep(c, events[0]), events[1..]);
    }
  }

  /** A machine that was made and not torn down is held or abandoned. */
  lemma LiveMachines(c: Cloud, d: Uuid)
    requires CloudInv(c)
    ensures Owned(c.ledger, d) && c.ledger.teardowns[d] == 0 <==> d in Held(c) || d in c.ledger.abandoned
  {
    Conserved(c);
    assert Owned(c.ledger, d) <==> d in Made(c.ledger);
    assert c.ledger.teardowns[d] > 0 <==> d in Gone(c.ledger);
  }

  lemma KindAccounted(c: Cloud, base: set<Uuid>, now: set<Uuid>, left: set<Uuid>, kept: set<Uuid>)
    requires CloudInv(c) && Kind(base, now, left, kept, c.ledger)
    ensures now == base + (Held(c) + c.ledger.abandoned + c.ledger.crashed) + left + kept
  {
    var all := base + (Held(c) + c.ledger.abandoned + c.ledger.crashed) + left + kept;
    forall d ensures d in now <==> d in all {
      LiveMachines(c, d);
      assert d in now <==> There(base, left, kept, c.ledger, d);
      if d in kept {
        assert LettingsOwned(c.ledger) && d in c.ledger.teardowns;
      }
    }
  }

  /** After any run, whatever the foreign calls did: the host holds, of each kind, what it held before, the machines
      that are held, abandoned or were being made when their task panicked, what refused creations left behind, and what
      removals failed to remove. */
  lemma HostAccounted(h: HostState, events: seq<Event>)
    ensures var c := CloudRun(Start(h), events);
            var l, live := c.ledger, Held(c) + c.ledger.abandoned + c.ledger.crashed;
            && l.host.overlays == h.overlays + live + l.left.overlays + l.kept.overlays
            && l.host.nvrams == h.nvrams + live + l.left.nvrams + l.kept.nvrams
            && l.host.domains == h.domains + live + l.left.domains + l.kept.domains
            && l.host.running == h.running + live + l.left.running + l.kept.running
  {
    HostReachable(h, Start(h), events);
    CloudReachable(Start(h), events);
    var c := CloudRun(Start(h), events);
    KindAccounted(c, h.overlays, c.ledger.host.overlays, c.ledger.left.overlays, c.ledger.kept.overlays);
    KindAccounted(c, h.nvrams, c.ledger.host.nvrams, c.ledger.left.nvrams, c.ledger.kept.nvrams);
    KindAccounted(c, h.domains, c.ledger.host.domains, c.ledger.left.domains, c.ledger.kept.domains);
    KindAccounted(c, h.running, c.ledger.host.running, c.ledger.left.running, c.ledger.kept.running);
  }

  // ----- which leftovers there can be -----

  lemma {:induction false} NoFilesLeft(c: Cloud, events: seq<Event>)
    requires forall i | 0 <= i < |events| :: Removable(events[i].calls)
    requires {} == c.ledger.left.overlays == c.ledger.left.nvrams == c.ledger.kept.overlays == c.ledger.kept.nvrams
    ensures var l := CloudRun(c, events).ledger;
            {} == l.left.overlays == l.left.nvrams == l.kept.overlays == l.kept.nvrams
    decreases |events|
  {
    if events != [] {
      assert forall i | 0 <= i < |events[1..]| :: events[1..][i] == events[i + 1];
      NoFilesLeft(CloudStep(c, events[0]), events[1..]);
    }
  }

  /** If removals work, then after any run the files added to the host are exactly those of the machines that are
      held, abandoned, or were being made when their task panicked. */
  lemma FilesAccounted(h: HostState, events: seq<Event>)
    requires forall i | 0 <= i < |events| :: Removable(events[i].calls)
    ensures var c := CloudRun(Start(h), events);
            && c.ledger.host.overlays == h.overlays + Held(c) + c.ledger.abandoned + c.ledger.crashed
            && c.ledger.host.nvrams == h.nvrams + Held(c) + c.ledger.abandoned + c.ledger.crashed
  {
    HostAccounted(h, events);
    NoFilesLeft(Start(h), events);
  }

  /** A creation leaves a domain behind exactly if it is refused and the domain ran or could not be undefined. */
  lemma DomainLeftBehind(c: Cloud, e: Event)
    requires CloudInv(c) && e.action.Advance? && e.action.id in c.world.tasks
    requires c.world.tasks[e.action.id].pc.Creating? && e.uuid !in c.ledger.uuids && e.uuid !in c.ledger.left.domains
    ensures e.uuid in CloudStep(c, e).ledger.left.domains
            <==> CreationOf(c.ledger.host, e.uuid, e.calls).Refused? && DomainLeft(c.ledger.host, e.uuid, e.calls)
  {
  }

  // ----- witnesses -----

  /** The next event of job 0. */
  function Moving(turn: Turn, d: Uuid, calls: Calls): Event {
    Event(Advance(0, turn), d, calls)
  }

  /** Job 0 is in the table and its task at `pc`, and the ledger is `l`. */
  ghost predicate JobAt(c: Cloud, pc: Pc, l: Ledger) {
    0 in c.world.tasks && 0 in c.world.tracker.jobs && 0 in c.world.tracker.logs
    && c.world.tasks[0].pc == pc && c.ledger == l
  }

  lemma JobMoves(c: Cloud, events: seq<Event>, pc: Pc, l: Ledger, turn: Turn, d: Uuid, calls: Calls)
    requires JobAt(CloudRun(c, events), pc, l) && (pc.Creating? ==> d !in l.uuids)
    ensures var e := Moving(turn, d, calls);
            JobAt(CloudRun(c, events + [e]), NextTask(Task(pc, 0), true, TurnAt(l, pc, e)).pc,
                  NextLedger(l, 0, pc, true, TurnAt(l, pc, e), e))
  {
    var e, now := Moving(turn, d, calls), CloudRun(c, events);
    CloudRunJoin(c, events, [e]);
    OneEvent(now, e);
    OthersUntouched(now.world.tracker, 0, pc);
  }

  /** The events of job 0 up to the making of machine `d`. */
  function UpToMaking(d: Uuid, calls: Calls): seq<Event> {
    [Event(Submit(0, ""), 0, ALL_WELL)] + [Moving(Panic, 0, ALL_WELL)] + [Moving(Panic, d, calls)]
  }

  lemma MakingRun(d: Uuid, calls: Calls)
    ensures var l, e := Start(NOTHING).ledger, Moving(Panic, d, calls);
            JobAt(CloudRun(Start(NOTHING), UpToMaking(d, calls)),
                  NextTask(Task(Creating, 0), true, TurnAt(l, Creating, e)).pc,
                  NextLedger(l, 0, Creating, true, TurnAt(l, Creating, e), e))
  {
    var l, submit := Start(NOTHING).ledger, Event(Submit(0, ""), 0, ALL_WELL);
    OneEvent(Start(NOTHING), submit);
    assert JobAt(CloudRun(Start(NOTHING), [submit]), Begin, l);
    JobMoves(Start(NOTHING), [submit], Begin, l, Panic, 0, ALL_WELL);
    JobMoves(Start(NOTHING), [submit] + [Moving(Panic, 0, ALL_WELL)], Creating, l, Panic, d, calls);
  }

  /** The events of job 0 up to the failure of its bootstrap. */
  function UpToFailure(d: Uuid): seq<Event> {
    UpToMaking(d, ALL_WELL) + [Moving(Panic, 0, ALL_WELL)] + [Moving(Panic, 0, ALL_WELL)]
    + [Moving(Bad(""), 0, ALL_WELL)]
  }

  /** The ledger of one job that has its machine `d`. */
  function OneMachine(d: Uuid): Ledger {
    Ledger(HostState({d}, {d}, {d}, {d}), {d}, map[0 := d], {}, {}, multiset{}, NOTHING, NOTHING)
  }

  lemma AllWellCreates(d: Uuid)
    ensures CreationOf(NOTHING, d, ALL_WELL).Created?
    ensures HostAfter(NOTHING, d, ALL_WELL) == HostState({d}, {d}, {d}, {d})
  {
    CreationAdds(NOTHING, d, ALL_WELL);
  }

  lemma LedgerOfOne(d: Uuid)
    ensures NextLedger(Start(NOTHING).ledger, 0, Creating, true, Good(AnalysisResult(0, 0, "")),
                       Moving(Panic, d, ALL_WELL)) == OneMachine(d)
  {
    AllWellCreates(d);
    assert {} + {d} == {d};
  }

  lemma MadeOne(d: Uuid)
    ensures JobAt(CloudRun(Start(NOTHING), UpToMaking(d, ALL_WELL)), Checking(1), OneMachine(d))
  {
    MakingRun(d, ALL_WELL);
    AllWellCreates(d);
    LedgerOfOne(d);
  }

  lemma Checks(c: Cloud, events: seq<Event>, n: Phase, l: Ledger)
    requires JobAt(CloudRun(c, events), Checking(n), l)
    ensures JobAt(CloudRun(c, events + [Moving(Panic, 0, ALL_WELL)]), Entering(n), l)
  {
    JobMoves(c, events, Checking(n), l, Panic, 0, ALL_WELL);
  }

  lemma Enters(c: Cloud, events: seq<Event>, n: Phase, l: Ledger)
    requires JobAt(CloudRun(c, events), Entering(n), l)
    ensures JobAt(CloudRun(c, events + [Moving(Panic, 0, ALL_WELL)]), Working(n), l)
  {
    JobMoves(c, events, Entering(n), l, Panic, 0, ALL_WELL);
  }

  lemma FailsAtWork(c: Cloud, events: seq<Event>, n: Phase, l: Ledger, d: Uuid)
    requires JobAt(CloudRun(c, events), Working(n), l) && n < 3 && 0 in l.owner && l.owner[0] == d
    ensures JobAt(CloudRun(c, events + [Moving(Bad(""), 0, ALL_WELL)]), Failing(""),
                  l.(abandoned := l.abandoned + {d}))
  {
    JobMoves(c, events, Working(n), l, Bad(""), 0, ALL_WELL);
  }

  lemma FailsInBootstrap(d: Uuid)
    ensures var l := OneMachine(d);
            JobAt(CloudRun(Start(NOTHING), UpToFailure(d)), Failing(""), l.(abandoned := l.abandoned + {d}))
  {
    var events, e := UpToMaking(d, ALL_WELL), Moving(Panic, 0, ALL_WELL);
    MadeOne(d);
    Checks(Start(NOTHING), events, 1, OneMachine(d));
    Enters(Start(NOTHING), events + [e], 1, OneMachine(d));
    FailsAtWork(Start(NOTHING), events + [e] + [e], 1, OneMachine(d), d);
  }

  /** A run that ends with an abandoned machine: its job fails in the bootstrap, and everything of it stays. */
  lemma BootstrapFailureAbandons(d: Uuid)
    ensures var c := CloudRun(Start(NOTHING), UpToFailure(d));
            && 0 in c.world.tasks && c.world.tasks[0].pc == Failing("")
            && c.ledger.abandoned == {d} && c.ledger.host == HostState({d}, {d}, {d}, {d})
  {
    FailsInBootstrap(d);
  }

  /** A run that ends with a domain left behind: no address in time, so the job fails without a machine, and the domain
      runs on without its files. */
  lemma NoLeaseLeavesRunningDomain(d: Uuid)
    ensures var c := CloudRun(Start(NOTHING), UpToMaking(d, ALL_WELL.(leaseFound := false)));
            && 0 in c.world.tasks && c.world.tasks[0].pc == Failing("failed to create VM")
            && c.ledger.owner == map[]
            && c.ledger.left.domains == {d} && c.ledger.host == HostState({}, {}, {d}, {d})
  {
    MakingRun(d, ALL_WELL.(leaseFound := false));
  }
}
