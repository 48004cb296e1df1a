/** The handles of the monitored process: what is open with the operating system and what the fields hold. */
module ProcessHandles {
  import opened Types

  type Handle = int

  const NULL: Handle := 0

  /** What `GetCurrentProcess` gives; closing it does nothing. */
  const PSEUDO: Handle := -1

  const STILL_ACTIVE: U32 := 0x103

  /** `live`: the handles the system has issued to this process object and that are open. `misused`: how often a
      handle was closed that was not open. */
  datatype State = State(pid: U32, tid: U32, hProcess: Option<Handle>, hThread: Option<Handle>, suspended: bool,
                         live: set<Handle>, misused: nat)

  /** What the system answers to one operation. `all`, `limited`, `thread`: the handles it would issue, null if the
      call fails; `code`: the exit code, if it can be had. */
  datatype Answers = Answers(all: Handle, limited: Handle, thread: Handle, code: Option<U32>, resumed: bool)

  datatype Outcome = Done(yes: bool) | Failed | Code(code: U32) | NoCode | Panicked

  predicate Real(h: Handle) {
    h != NULL && h != PSEUDO
  }

  /** The system never issues a handle that is open. */
  predicate Issuable(live: set<Handle>, h: Handle) {
    h == NULL || (h != PSEUDO && h !in live)
  }

  predicate AnswersFit(live: set<Handle>, a: Answers) {
    && Issuable(live, a.all) && Issuable(live, a.limited) && Issuable(live, a.thread)
    && (a.thread != NULL ==> a.thread != a.all && a.thread != a.limited)
  }

  function Issue(live: set<Handle>, h: Handle): set<Handle> {
    if Real(h) then live + {h} else live
  }

  // ----- what each operation does -----

  /** `CloseHandle` and whether it works. */
  predicate Closes(s: State, h: Handle) {
    h == PSEUDO || (h != NULL && h in s.live)
  }

  function Closed(s: State, h: Handle): State {
    if h == NULL || h == PSEUDO then s
    else if h in s.live then s.(live := s.live - {h})
    else s.(misused := s.misused + 1)
  }

  function ProcessHandle(s: State, a: Answers, own: U32): Handle {
    if s.pid == own then PSEUDO else if a.all != NULL then a.all else a.limited
  }

  function ProcessOpened(s: State, a: Answers, own: U32): State {
    if s.pid != 0 && s.hProcess.None?
    then s.(hProcess := Some(ProcessHandle(s, a, own)), live := Issue(s.live, ProcessHandle(s, a, own)))
    else s
  }

  function ThreadOpened(s: State, a: Answers): State {
    if s.tid != 0 && s.hThread.None? then s.(hThread := Some(a.thread), live := Issue(s.live, a.thread)) else s
  }

  /** Opening the process failed just now; then the thread is not tried. */
  predicate ProcessRefused(s: State, a: Answers, own: U32) {
    s.pid != 0 && s.hProcess.None? && ProcessHandle(s, a, own) == NULL
  }

  function Opened(s: State, a: Answers, own: U32): State {
    var v := ProcessOpened(s, a, own);
    if ProcessRefused(s, a, own) then v else ThreadOpened(v, a)
  }

  function OpenOutcome(s: State, a: Answers, own: U32): Outcome {
    if ProcessRefused(s, a, own) || (s.tid != 0 && s.hThread.None? && a.thread == NULL) then Failed
    else Done(s.pid != 0 || s.tid != 0)
  }

  function Queried(s: State, a: Answers, own: U32): State {
    if s.hProcess.None? || s.hProcess.value == NULL then Opened(s, a, own) else s
  }

  function CodeOutcome(s: State, a: Answers, own: U32): Outcome {
    var v := Queried(s, a, own);
    if v.hProcess.None? then Panicked
    else if v.hProcess.value == NULL || a.code.None? then NoCode
    else Code(a.code.value)
  }

  function AfterClose(s: State): State {
    if s.hProcess.Some? && !Closes(s, s.hProcess.value) then Closed(s, s.hProcess.value).(hProcess := None)
    else
      var v := if s.hProcess.Some? then Closed(s, s.hProcess.value).(hProcess := None) else s;
      if v.hThread.Some? then Closed(v, v.hThread.value).(hThread := None) else v
  }

  function CloseOutcome(s: State): Outcome {
    if s.hProcess.Some? && !Closes(s, s.hProcess.value) then Failed
    else
      var v := if s.hProcess.Some? then Closed(s, s.hProcess.value) else s;
      if v.hThread.Some? && !Closes(v, v.hThread.value) then Failed else Done(true)
  }

  function AfterTermination(s: State): State {
    var v := if s.hProcess.Some? then Closed(s, s.hProcess.value) else s;
    var u := if v.hThread.Some? then Closed(v, v.hThread.value) else v;
    u.(hProcess := None, hThread := None, suspended := false)
  }

  predicate Resumes(s: State, a: Answers) {
    s.suspended && s.hThread.Some? && s.hThread.value != NULL && a.resumed
  }

  /** `execute`: the process created, with its two handles, if it could be. */
  datatype Creation = Creation(found: bool, created: bool, pid: U32, tid: U32, process: Handle, thread: Handle)

  predicate CreationFits(live: set<Handle>, c: Creation) {
    c.created ==> Real(c.process) && Real(c.thread) && c.process != c.thread
                  && Issuable(live, c.process) && Issuable(live, c.thread)
  }

  function Executed(s: State, c: Creation, suspended: bool): State {
    if !c.found then s
    else
      var v := s.(suspended := s.suspended || suspended);
      if !c.created then v
      else v.(pid := c.pid, tid := c.tid, hProcess := Some(c.process), hThread := Some(c.thread),
              live := v.live + {c.process, c.thread})
  }

  class Process {
    var pid: U32
    var tid: U32
    var hProcess: Option<Handle>
    var hThread: Option<Handle>
    var suspended: bool
    var live: set<Handle>
    var misused: nat

    function Value(): State
      reads this
    {
      State(pid, tid, hProcess, hThread, suspended, live, misused)
    }

    constructor ()
      ensures Value() == State(0, 0, None, None, false, {}, 0)
    {
      pid, tid, hProcess, hThread, suspended := 0, 0, None, None, false;
      live, misused := {}, 0;
    }

    /** The system closes an open handle, takes the pseudo handle, and refuses any other. */
    method CloseHandle(h: Handle) returns (ok: bool)
      modifies this`live, this`misused
      ensures ok == Closes(old(Value()), h)
      ensures live == if Real(h) then old(live) - {h} else old(live)
      ensures misused == old(misused) + if Real(h) && h !in old(live) then 1 else 0
    {
      if h == PSEUDO { return true; }
      if h == NULL { return false; }
      if h !in live {
        misused := misused + 1;
        return false;
      }
      live := live - {h};
      return true;
    }

    method Execute(c: Creation, suspend: bool) returns (ok: bool)
      modifies this
      ensures Value() == Executed(old(Value()), c, suspend)
      ensures ok == (c.found && c.created)
    {
      if !c.found { return false; }
      if suspend { suspended := true; }
      if c.created {
        pid, tid := c.pid, c.tid;
        hProcess, hThread := Some(c.process), Some(c.thread);
        live := live + {c.process, c.thread};
        return true;
      }
      return false;
    }

    method Open(a: Answers, own: U32) returns (r: Outcome)
      modifies this
      ensures Value() == Opened(old(Value()), a, own)
      ensures r == OpenOutcome(old(Value()), a, own)
    {
      var ret := pid != 0 || tid != 0;
      if pid != 0 && hProcess.None? {
        if pid == own {
          hProcess := Some(PSEUDO);
        } else {
          hProcess := Some(a.all);
          live := Issue(live, a.all);
          if a.all == NULL {
            hProcess := Some(a.limited);
            live := Issue(live, a.limited);
          }
        }
        ret := true;
        if hProcess.value == NULL {
          return Failed;
        }
      }
      if tid != 0 && hThread.None? {
        hThread := Some(a.thread);
        live := Issue(live, a.thread);
        if a.thread == NULL {
          return Failed;
        }
        ret := true;
      }
      return Done(ret);
    }

    method ExitCode(a: Answers, own: U32) returns (r: Outcome)
      modifies this
      ensures Value() == Queried(old(Value()), a, own)
      ensures r == CodeOutcome(old(Value()), a, own)
    {
      if hProcess.None? || hProcess.value == NULL {
        var ignored := Open(a, own);
      }
      if hProcess.None? {
        return Panicked;
      }
      if hProcess.value == NULL || a.code.None? {
        return NoCode;
      }
      return Code(a.code.value);
    }

    method IsAlive(a: Answers, own: U32) returns (alive: bool, panicked: bool)
      modifies this
      ensures Value() == Queried(old(Value()), a, own)
      ensures panicked <==> old(hProcess).None? && pid == 0
      ensures alive <==> CodeOutcome(old(Value()), a, own) == Code(STILL_ACTIVE)
    {
      var r := ExitCode(a, own);
      alive := r.Code? && r.code == STILL_ACTIVE;
      panicked := r.Panicked?;
    }

    method Resume(a: Answers) returns (r: Outcome)
      modifies this`suspended
      ensures suspended == (old(suspended) && !Resumes(old(Value()), a))
      ensures r == if !old(suspended) then Done(false) else if Resumes(old(Value()), a) then Done(true) else Failed
    {
      if !suspended { return Done(false); }
      if hThread.None? { return Failed; }
      if hThread.value != NULL && a.resumed {
        suspended := false;
        return Done(true);
      }
      return Failed;
    }

    method Close() returns (r: Outcome)
      modifies this
      ensures Value() == AfterClose(old(Value()))
      ensures r == CloseOutcome(old(Value()))
    {
      if hProcess.Some? {
        var h := hProcess.value;
        hProcess := None;
        var ok := CloseHandle(h);
        if !ok { return Failed; }
      }
      if hThread.Some? {
        var h := hThread.value;
        hThread := None;
        var ok := CloseHandle(h);
        if !ok { return Failed; }
      }
      return Done(true);
    }

    method TerminateAndClose()
      modifies this
      ensures Value() == AfterTermination(old(Value()))
    {
      if hProcess.Some? && hProcess.value != NULL {
        var ignored := CloseHandle(hProcess.value);
      }
      if hThread.Some? && hThread.value != NULL {
        var ignored := CloseHandle(hThread.value);
      }
      hProcess, hThread, suspended := None, None, false;
    }
  }

  // ----- the ledger -----

  function RealIn(o: Option<Handle>): set<Handle> {
    if o.Some? && Real(o.value) then {o.value} else {}
  }

  /** The open handles are exactly the real ones in the two fields, and no closed handle was ever closed again. */
  ghost predicate Ledger(s: State) {
    && s.live == RealIn(s.hProcess) + RealIn(s.hThread)
    && RealIn(s.hProcess) !! RealIn(s.hThread)
    && s.hThread != Some(PSEUDO)
    && s.misused == 0
  }

  datatype Op = OpenOp(a: Answers) | ExitCodeOp(a: Answers) | IsAliveOp(a: Answers) | ResumeOp(a: Answers)
              | CloseOp | TerminateOp

  /** An operation whose answers the system cannot give is no step. */
  function Apply(s: State, op: Op, own: U32): State {
    match op
    case OpenOp(a) => if AnswersFit(s.live, a) then Opened(s, a, own) else s
    case ExitCodeOp(a) => if AnswersFit(s.live, a) then Queried(s, a, own) else s
    case IsAliveOp(a) => if AnswersFit(s.live, a) then Queried(s, a, own) else s
    case ResumeOp(a) => if Resumes(s, a) then s.(suspended := false) else s
    case CloseOp => AfterClose(s)
    case TerminateOp => AfterTermination(s)
  }

  function Run(s: State, ops: seq<Op>, own: U32): State
    decreases |ops|
  {
    if ops == [] then s else Run(Apply(s, ops[0], own), ops[1..], own)
  }

  const NEW := State(0, 0, None, None, false, {}, 0)

  lemma ProcessOpenedKeeps(s: State, a: Answers, own: U32)
    requires Ledger(s) && AnswersFit(s.live, a)
    ensures Ledger(ProcessOpened(s, a, own))
    ensures a.thread != NULL ==> Issuable(ProcessOpened(s, a, own).live, a.thread)
  {
  }

  lemma OpenedKeeps(s: State, a: Answers, own: U32)
    requires Ledger(s) && AnswersFit(s.live, a)
    ensures Ledger(Opened(s, a, own))
  {
    ProcessOpenedKeeps(s, a, own);
    var v := ProcessOpened(s, a, own);
    assert v.tid == s.tid && v.hThread == s.hThread;
  }

  lemma ApplyKeeps(s: State, op: Op, own: U32)
    requires Ledger(s)
    ensures Ledger(Apply(s, op, own))
  {
    match op {
      case OpenOp(a) => if AnswersFit(s.live, a) { OpenedKeeps(s, a, own); }
      case ExitCodeOp(a) => if AnswersFit(s.live, a) { OpenedKeeps(s, a, own); }
      case IsAliveOp(a) => if AnswersFit(s.live, a) { OpenedKeeps(s, a, own); }
      case _ =>
    }
  }

  lemma {:induction false} RunKeeps(s: State, ops: seq<Op>, own: U32)
    requires Ledger(s)
    ensures Ledger(Run(s, ops, own))
    decreases |ops|
  {
    if ops != [] {
      ApplyKeeps(s, ops[0], own);
      RunKeeps(Apply(s, ops[0], own), ops[1..], own);
    }
  }

  /** One `execute`, then any sequence of the other operations: the ledger holds, so no handle is lost, closed twice or
      overwritten while open, and null is never in it. */
  lemma LedgerHolds(c: Creation, suspend: bool, ops: seq<Op>, own: U32)
    requires CreationFits({}, c)
    ensures var s := Run(Executed(NEW, c, suspend), ops, own);
            Ledger(s) && NULL !in s.live && PSEUDO !in s.live && |s.live| <= 2
  {
    RunKeeps(Executed(NEW, c, suspend), ops, own);
    var s := Run(Executed(NEW, c, suspend), ops, own);
    assert |RealIn(s.hProcess)| <= 1 && |RealIn(s.hThread)| <= 1;
  }

  /** Opening keeps every handle there is and asks for the missing ones, full access first. It fails exactly if one it
      asked for came back null, and otherwise every id that is known has its handle field filled. */
  lemma OpenMeaning(s: State, a: Answers, own: U32)
    ensures var v, r := Opened(s, a, own), OpenOutcome(s, a, own);
            && (s.hProcess.Some? ==> v.hProcess == s.hProcess) && (s.hThread.Some? ==> v.hThread == s.hThread)
            && (r == Failed <==> (s.hProcess.None? && v.hProcess == Some(NULL))
                                 || (s.hThread.None? && v.hThread == Some(NULL)))
            && (r != Failed ==> (v.pid != 0 ==> v.hProcess.Some?) && (v.tid != 0 ==> v.hThread.Some?)
                                && r == Done(v.pid != 0 || v.tid != 0))
            && (s.hProcess.None? && v.hProcess == Some(a.limited) && a.limited != NULL && a.limited != PSEUDO
                ==> a.all == NULL || a.all == a.limited)
            && v.pid == s.pid && v.tid == s.tid && v.suspended == s.suspended && s.live <= v.live
  {
  }

  /** A further `execute` keeps the ledger exactly if it creates no process or the fields hold no open handle: it
      overwrites them unclosed. */
  lemma ExecuteAgain(s: State, c: Creation, suspend: bool)
    requires Ledger(s) && CreationFits(s.live, c)
    ensures Ledger(Executed(s, c, suspend))
            <==> !c.found || !c.created || RealIn(s.hProcess) + RealIn(s.hThread) == {}
  {
    if c.found && c.created {
      var v := Executed(s, c, suspend);
      assert v.live == s.live + {c.process, c.thread};
      if h: Handle :| h in s.live {
        assert h in v.live && h != c.process && h != c.thread;
        assert h !in RealIn(v.hProcess) + RealIn(v.hThread);
      } else {
        assert s.live == {};
      }
    }
  }

  /** `close` fails exactly if a field holds null; it then leaves the thread handle open if the null was the process's;
      otherwise nothing stays open. A second `close` releases everything. */
  lemma CloseReleases(s: State)
    requires Ledger(s)
    ensures CloseOutcome(s) == Failed <==> s.hProcess == Some(NULL) || s.hThread == Some(NULL)
    ensures AfterClose(s).live == if s.hProcess == Some(NULL) then RealIn(s.hThread) else {}
    ensures AfterClose(s).hProcess.None?
    ensures AfterClose(AfterClose(s)).live == {} && AfterClose(AfterClose(s)).hThread.None?
  {
    var v := AfterClose(s);
    if s.hProcess == Some(NULL) {
      assert v.live == s.live && v.hThread == s.hThread;
    }
  }

  lemma TerminationReleases(s: State)
    requires Ledger(s)
    ensures AfterTermination(s).live == {} && !AfterTermination(s).suspended
    ensures AfterTermination(s).hProcess.None? && AfterTermination(s).hThread.None?
  {
  }

  predicate Releases(op: Op) {
    op.CloseOp? || op.TerminateOp?
  }

  /** A failed open is remembered: until the process is closed or terminated no operation tries again, and its exit
      code cannot be had. */
  lemma {:induction false} NullSticks(s: State, ops: seq<Op>, own: U32, a: Answers)
    requires s.hProcess == Some(NULL) && forall i | 0 <= i < |ops| :: !Releases(ops[i])
    ensures Run(s, ops, own).hProcess == Some(NULL)
    ensures CodeOutcome(Run(s, ops, own), a, own) == NoCode
    decreases |ops|
  {
    if ops != [] {
      NullSticks(Apply(s, ops[0], own), ops[1..], own, a);
    }
  }
}
