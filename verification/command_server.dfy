/** Shutting down the command pipe's accept loop while clients come and go. */
module CommandServer {
  /** Where the server is in `serve_command_pipe`. */
  datatype Pc =
    | Top          // about to read the flag
    | Creating     // the flag was up: about to create a pipe
    | Connecting   // the pipe exists: in `connect`
    | Rechecking   // a client is connected: about to read the flag again
    | Spawning     // the flag was still up: about to hand the client to a thread
    | Exited

  /** The instance a client can open. */
  datatype Pipe = NoPipe | Listening | Attached | Abandoned

  /** `missed` records that the nudge came while the server was between a passed check and the creation of its pipe;
      `failed` that a creation failed. */
  datatype World = World(doRun: bool, nudged: bool, pc: Pc, pipe: Pipe, handlers: nat, missed: bool, failed: bool)

  datatype Action =
    | Server(ok: bool)   // the server's next step, with the outcome of the call it makes
    | Arrive             // a client opens the pipe
    | Leave              // the client closes it again
    | Stop               // `run_analysis` lowers the flag
    | Nudge              // and then tries to open the pipe

  const START := World(true, false, Top, NoPipe, 0, false, false)

  /** `connect` returns once a client is there. It fails if the client is gone already, unless it came while the
      server was waiting. */
  function ServerStep(w: World, ok: bool): World {
    match w.pc
    case Top => w.(pc := if w.doRun then Creating else Exited)
    case Creating => if ok then w.(pc := Connecting, pipe := Listening) else w.(pc := Exited, failed := true)
    case Connecting =>
      (match w.pipe
       case Attached => w.(pc := Rechecking)
       case Abandoned => if ok then w.(pc := Rechecking) else w.(pc := Top, pipe := NoPipe)
       case _ => w)
    case Rechecking => if w.doRun then w.(pc := Spawning) else w.(pc := Exited, pipe := NoPipe)
    case Spawning => w.(pc := Top, pipe := NoPipe, handlers := w.handlers + 1)
    case Exited => w
  }

  function Opened(w: World): World {
    if w.pipe.Listening? then w.(pipe := Attached) else w
  }

  /** The flag is lowered before the nudge. */
  function Step(w: World, a: Action): World {
    match a
    case Server(ok) => ServerStep(w, ok)
    case Arrive => Opened(w)
    case Leave => if w.pipe.Attached? && w.pc.Connecting? then w.(pipe := Abandoned) else w
    case Stop => w.(doRun := false)
    case Nudge => if w.doRun || w.nudged then w else Opened(w).(nudged := true, missed := w.pc.Creating?)
  }

  function Run(w: World, actions: seq<Action>): World
    decreases |actions|
  {
    if actions == [] then w else Run(Step(w, actions[0]), actions[1..])
  }

  ghost predicate Inv(w: World) {
    && (w.pipe.NoPipe? <==> w.pc.Top? || w.pc.Creating? || w.pc.Exited?)
    && (w.pipe.Listening? ==> w.pc.Connecting?)
    && (w.nudged ==> !w.doRun)
    && (w.missed ==> w.nudged)
    && (w.nudged && (w.pc.Creating? || w.pipe.Listening?) ==> w.missed)
    && (w.pc.Exited? ==> !w.doRun || w.failed)
    && (w.failed ==> w.pc.Exited?)
  }

  lemma {:induction false} RunKeeps(w: World, actions: seq<Action>)
    requires Inv(w)
    ensures Inv(Run(w, actions))
    decreases |actions|
  {
    if actions != [] {
      RunKeeps(Step(w, actions[0]), actions[1..]);
    }
  }

  /** No outcome of the server's next call changes anything. */
  ghost predicate Blocked(w: World) {
    !w.pc.Exited? && forall ok :: ServerStep(w, ok) == w
  }

  /** After the nudge the server is blocked in one state only: the nudge fell between a passed check and the creation
      of the pipe, and no client has come to the new pipe since. */
  lemma OnlyTheWindowBlocks(actions: seq<Action>)
    ensures var w := Run(START, actions);
            w.nudged ==> (Blocked(w) <==> w.missed && w.pc.Connecting? && w.pipe.Listening?)
  {
    RunKeeps(START, actions);
    var w := Run(START, actions);
    assert Blocked(w) ==> ServerStep(w, true) == w;
  }

  /** How many of its own steps the server has left once the flag is down. */
  function Rank(pc: Pc): nat {
    match pc
    case Exited => 0 case Top => 1 case Rechecking => 1
    case Spawning => 2 case Connecting => 2 case Creating => 3
  }

  /** How many of the server's steps in the run do something. */
  function Moves(w: World, actions: seq<Action>): nat
    decreases |actions|
  {
    if actions == [] then 0
    else (if actions[0].Server? && Step(w, actions[0]) != w then 1 else 0) + Moves(Step(w, actions[0]), actions[1..])
  }

  /** Once the flag is down, every step of the server brings it closer to its exit, and nothing else moves it. */
  lemma {:induction false} StepsLeft(w: World, actions: seq<Action>)
    requires Inv(w) && !w.doRun
    ensures Moves(w, actions) + Rank(Run(w, actions).pc) <= Rank(w.pc) <= 3
    decreases |actions|
  {
    if actions != [] {
      StepsLeft(Step(w, actions[0]), actions[1..]);
    }
  }

  /** The server steps in `actions`. */
  function Turns(actions: seq<Action>): nat {
    if actions == [] then 0 else (if actions[0].Server? then 1 else 0) + Turns(actions[1..])
  }

  /** If the nudge did not fall into the window, then after it three turns of the server, however they are interleaved
      with clients, are enough for it to exit. */
  lemma {:induction false} ExitsInThreeTurns(w: World, actions: seq<Action>)
    requires Inv(w) && w.nudged && !w.missed
    ensures Turns(actions) >= Rank(w.pc) ==> Run(w, actions).pc.Exited?
    decreases |actions|
  {
    if actions != [] {
      ExitsInThreeTurns(Step(w, actions[0]), actions[1..]);
    }
  }

  /** The same from the start of the program: after any run that has nudged outside the window. */
  lemma NudgedServerExits(before: seq<Action>, after: seq<Action>)
    requires var w := Run(START, before); w.nudged && !w.missed
    requires Turns(after) >= 3
    ensures Run(Run(START, before), after).pc.Exited?
  {
    RunKeeps(START, before);
    ExitsInThreeTurns(Run(START, before), after);
  }

  /** With the flag down and a client at the pipe, two turns are enough. */
  lemma {:induction false} ArrivedExits(w: World, actions: seq<Action>)
    requires Inv(w) && !w.doRun && !w.pc.Creating? && !w.pc.Spawning? && !w.pipe.Listening?
    ensures Turns(actions) >= Rank(w.pc) ==> Run(w, actions).pc.Exited?
    decreases |actions|
  {
    if actions != [] {
      ArrivedExits(Step(w, actions[0]), actions[1..]);
    }
  }

  /** In the window: the server exits if the creation fails or some client comes to the new pipe, and waits for ever if
      none does. */
  lemma {:induction false} WindowWaits(w: World, actions: seq<Action>)
    requires Inv(w) && w.missed && w.pipe.Listening?
    ensures (forall i | 0 <= i < |actions| :: !actions[i].Arrive?) ==> Run(w, actions) == w
    ensures forall rest | Turns(rest) >= 2 :: Run(w, [Arrive] + rest).pc.Exited?
    decreases |actions|
  {
    if actions != [] {
      if !actions[0].Arrive? {
        assert Step(w, actions[0]) == w;
        WindowWaits(w, actions[1..]);
      }
    }
    forall rest | Turns(rest) >= 2 ensures Run(w, [Arrive] + rest).pc.Exited? {
      var v := Step(w, Arrive);
      ArrivedExits(v, rest);
      assert ([Arrive] + rest)[1..] == rest;
    }
  }

  /** The window is real. */
  lemma WindowIsReachable()
    ensures var w := Run(START, [Server(true), Stop, Nudge, Server(true)]);
            w.nudged && w.missed && Blocked(w)
  {
    assert [Server(true), Stop, Nudge, Server(true)][1..] == [Stop, Nudge, Server(true)];
    assert [Stop, Nudge, Server(true)][1..] == [Nudge, Server(true)];
    assert [Nudge, Server(true)][1..] == [Server(true)] && [Server(true)][1..] == [];
  }

  /** Once the flag is down at most one more client is handed to a thread, the one whose check had passed; none after
      the check has read a lowered flag. */
  lemma {:induction false} HandlersAfterStop(w: World, actions: seq<Action>)
    requires Inv(w) && !w.doRun
    ensures Run(w, actions).handlers <= w.handlers + (if w.pc.Spawning? then 1 else 0)
    decreases |actions|
  {
    if actions != [] {
      HandlersAfterStop(Step(w, actions[0]), actions[1..]);
    }
  }

  lemma {:induction false} HandlersOnlyGrow(w: World, actions: seq<Action>)
    ensures Run(w, actions).handlers >= w.handlers
    decreases |actions|
  {
    if actions != [] {
      HandlersOnlyGrow(Step(w, actions[0]), actions[1..]);
    }
  }

  lemma NoHandlerAfterLoweredCheck(before: seq<Action>, after: seq<Action>)
    requires var w := Run(START, before); w.pc.Rechecking? && !w.doRun
    ensures Run(Run(START, before), after).handlers == Run(START, before).handlers
  {
    RunKeeps(START, before);
    HandlersAfterStop(Run(START, before), after);
    HandlersOnlyGrow(Run(START, before), after);
  }

  /** The loop ends only for a lowered flag or a pipe that could not be created. */
  lemma ExitHasACause(actions: seq<Action>)
    requires Run(START, actions).pc.Exited?
    ensures Run(START, actions).doRun ==> Run(START, actions).failed
  {
    RunKeeps(START, actions);
  }

  // ----- the loop, while clients and the shutdown go on -----

  lemma {:induction false} RunJoin(w: World, a: seq<Action>, b: seq<Action>)
    ensures Run(w, a + b) == Run(Run(w, a), b)
    decreases |a|
  {
    if a == [] {
      assert a + b == b;
    } else {
      assert (a + b)[0] == a[0] && (a + b)[1..] == a[1..] + b;
      RunJoin(Step(w, a[0]), a[1..], b);
    }
  }

  predicate NotServer(actions: seq<Action>) {
    forall k | 0 <= k < |actions| :: !actions[k].Server?
  }

  lemma {:induction false} OthersKeepPc(w: World, actions: seq<Action>)
    requires NotServer(actions)
    ensures Run(w, actions).pc == w.pc && Run(w, actions).handlers == w.handlers
    decreases |actions|
  {
    if actions != [] {
      assert forall k | 0 <= k < |actions[1..]| :: actions[1..][k] == actions[k + 1];
      OthersKeepPc(Step(w, actions[0]), actions[1..]);
    }
  }

  /** What clients and the shutdown do in one round of the loop, before each of its steps and until a client connects,
      if one does; and how the creation of the pipe and a connection whose client is gone turn out. */
  datatype Round = Round(check: seq<Action>, create: seq<Action>, connect: seq<Action>, recheck: seq<Action>,
                         spawn: seq<Action>, created: bool, connected: bool)

  predicate RoundFit(r: Round) {
    NotServer(r.check) && NotServer(r.create) && NotServer(r.connect) && NotServer(r.recheck) && NotServer(r.spawn)
  }

  predicate AllFit(rounds: seq<Round>) {
    forall i | 0 <= i < |rounds| :: RoundFit(rounds[i])
  }

  /** What the others do before the step at `pc`. */
  function Stretch(r: Round, pc: Pc): seq<Action> {
    match pc
    case Top => r.check
    case Creating => r.create
    case Connecting => r.connect
    case Rechecking => r.recheck
    case Spawning => r.spawn
    case Exited => []
  }

  /** How the call of the step at `pc` turns out. */
  function Answer(r: Round, pc: Pc): bool {
    if pc.Creating? then r.created else if pc.Connecting? then r.connected else true
  }

  predicate Waits(w: World) {
    w.pc.Connecting? && w.pipe.Listening?
  }

  /** How many steps of a round may be left. */
  function StepsOfRound(pc: Pc): nat {
    match pc
    case Top => 5 case Creating => 4 case Connecting => 3 case Rechecking => 2 case Spawning => 1 case Exited => 0
  }

  /** The steps of the loop and of the others, in order, from `w` on: round after round what the others do and then the
      step of the loop, until it exits, waits for a client that does not come, or the rounds are used up. A round ends
      at the top of the loop. */
  ghost function Script(w: World, rounds: seq<Round>): seq<Action>
    requires Inv(w) && AllFit(rounds)
    decreases |rounds|, StepsOfRound(w.pc)
  {
    if rounds == [] || w.pc.Exited? then []
    else
      var others, answer := Stretch(rounds[0], w.pc), Answer(rounds[0], w.pc);
      var v := Run(w, others);
      OthersKeepPc(w, others);
      RunKeeps(w, others);
      if Waits(v) then others
      else
        var x := ServerStep(v, answer);
        others + [Server(answer)] + Script(x, if x.pc.Top? then rounds[1..] else rounds)
  }

  /** How many times the server looks at the flag at the top of its loop. */
  function Checks(w: World, actions: seq<Action>): nat
    decreases |actions|
  {
    if actions == [] then 0
    else (if actions[0].Server? && w.pc.Top? then 1 else 0) + Checks(Step(w, actions[0]), actions[1..])
  }

  lemma {:induction false} OthersCheckNothing(w: World, others: seq<Action>, rest: seq<Action>)
    requires NotServer(others)
    ensures Checks(w, others + rest) == Checks(Run(w, others), rest)
    decreases |others|
  {
    if others == [] {
      assert others + rest == rest;
    } else {
      assert (others + rest)[0] == others[0] && (others + rest)[1..] == others[1..] + rest;
      assert forall k | 0 <= k < |others[1..]| :: others[1..][k] == others[k + 1];
      OthersCheckNothing(Step(w, others[0]), others[1..], rest);
    }
  }

  /** The others have their turn and the server makes its step. */
  lemma OneTurn(w: World, others: seq<Action>, ok: bool, rest: seq<Action>)
    requires NotServer(others)
    ensures var v := Run(w, others);
            && Run(w, others + [Server(ok)] + rest) == Run(ServerStep(v, ok), rest)
            && Checks(w, others + [Server(ok)] + rest)
               == (if w.pc.Top? then 1 else 0) + Checks(ServerStep(v, ok), rest)
  {
    var v, tail := Run(w, others), [Server(ok)] + rest;
    assert others + [Server(ok)] + rest == others + tail;
    assert tail[0] == Server(ok) && tail[1..] == rest;
    OthersKeepPc(w, others);
    OthersCheckNothing(w, others, tail);
    RunJoin(w, others, tail);
    assert Run(v, tail) == Run(Step(v, tail[0]), tail[1..]);
  }

  /** A script that ends at the top of the loop has played all its rounds. */
  lemma {:induction false} ScriptPlaysRounds(w: World, rounds: seq<Round>)
    requires Inv(w) && AllFit(rounds)
    ensures var v := Run(w, Script(w, rounds));
            && (v.pc.Exited? || Waits(v) || rounds == [] || v.pc.Top?)
            && (v.pc.Top? ==> Checks(w, Script(w, rounds)) + (if w.pc.Top? then 0 else 1) == |rounds|)
    decreases |rounds|, StepsOfRound(w.pc)
  {
    if rounds != [] && !w.pc.Exited? {
      var others, answer := Stretch(rounds[0], w.pc), Answer(rounds[0], w.pc);
      var v := Run(w, others);
      OthersKeepPc(w, others);
      RunKeeps(w, others);
      if !Waits(v) {
        var x := ServerStep(v, answer);
        var left := if x.pc.Top? then rounds[1..] else rounds;
        ScriptPlaysRounds(x, left);
        OneTurn(w, others, answer, Script(x, left));
      }
    }
  }

  /** After `actions` the server is at `w`, and what follows until the end of `whole` is the script of `rounds`. */
  ghost predicate OnScript(w: World, rounds: seq<Round>, actions: seq<Action>, whole: seq<Action>) {
    Inv(w) && AllFit(rounds) && w == Run(START, actions) && whole == actions + Script(w, rounds)
  }

  lemma ScriptOver(w: World, rounds: seq<Round>, actions: seq<Action>, whole: seq<Action>)
    requires OnScript(w, rounds, actions, whole) && (rounds == [] || w.pc.Exited?)
    ensures whole == actions && Run(START, whole) == w
  {
  }

  lemma StretchKeeps(w: World, r: Round)
    requires Inv(w) && RoundFit(r)
    ensures var v := Run(w, Stretch(r, w.pc));
            v.pc == w.pc && Inv(v) && Inv(ServerStep(v, Answer(r, w.pc)))
  {
    var v := Run(w, Stretch(r, w.pc));
    OthersKeepPc(w, Stretch(r, w.pc));
    RunKeeps(w, Stretch(r, w.pc));
    assert ServerStep(v, Answer(r, w.pc)) == Step(v, Server(Answer(r, w.pc)));
  }

  lemma Behind(w: World, actions: seq<Action>, others: seq<Action>, ok: bool)
    requires w == Run(START, actions) && NotServer(others)
    ensures Run(START, actions + others) == Run(w, others)
    ensures Run(START, actions + others + [Server(ok)]) == ServerStep(Run(w, others), ok)
  {
    RunJoin(START, actions, others);
    RunJoin(START, actions + others, [Server(ok)]);
    var v := Run(w, others);
    assert Run(v, [Server(ok)]) == Run(Step(v, Server(ok)), [Server(ok)][1..]);
  }

  lemma Regroup(a: seq<Action>, b: seq<Action>, c: Action, d: seq<Action>)
    ensures a + (b + [c] + d) == a + b + [c] + d
  {
  }

  /** The script goes on behind a step of the loop. */
  lemma Follow(w: World, rounds: seq<Round>, actions: seq<Action>, whole: seq<Action>)
    requires OnScript(w, rounds, actions, whole) && rounds != [] && !w.pc.Exited?
    ensures var others, answer := Stretch(rounds[0], w.pc), Answer(rounds[0], w.pc);
            var v := Run(w, others);
            var x := ServerStep(v, answer);
            && v.pc == w.pc && Inv(v)
            && if Waits(v) then whole == actions + others && Run(START, whole) == v
               else OnScript(x, if x.pc.Top? then rounds[1..] else rounds, actions + others + [Server(answer)], whole)
  {
    var others, answer := Stretch(rounds[0], w.pc), Answer(rounds[0], w.pc);
    var v := Run(w, others);
    StretchKeeps(w, rounds[0]);
    Behind(w, actions, others, answer);
    if !Waits(v) {
      var x := ServerStep(v, answer);
      Regroup(actions, others, Server(answer), Script(x, if x.pc.Top? then rounds[1..] else rounds));
    }
  }

  /** The flag the server shares with `run_analysis`, the pipe it shares with its clients, and how many clients it has
      handed to threads. */
  class CommandPipe {
    var doRun: bool
    var pipe: Pipe
    var handlers: nat

    constructor ()
      ensures Holds(START)
    {
      doRun, pipe, handlers := true, NoPipe, 0;
    }

    /** The flag, the pipe and the threads are as in `w`. */
    predicate Holds(w: World)
      reads this
    {
      doRun == w.doRun && pipe == w.pipe && handlers == w.handlers
    }

    method Load() returns (b: bool)
      ensures b == doRun
    {
      b := doRun;
    }

    method Create(ok: bool)
      modifies `pipe
      ensures pipe == if ok then Listening else old(pipe)
    {
      if ok {
        pipe := Listening;
      }
    }

    /** A client that is still there is connected; `ok` says how it goes with one that is gone. */
    method Connect(ok: bool) returns (connected: bool)
      requires pipe.Attached? || pipe.Abandoned?
      ensures connected == (pipe.Attached? || ok)
    {
      connected := pipe.Attached? || ok;
    }

    method Drop()
      modifies `pipe
      ensures pipe == NoPipe
    {
      pipe := NoPipe;
    }

    method Spawn()
      modifies `pipe, `handlers
      ensures pipe == NoPipe && handlers == old(handlers) + 1
    {
      pipe, handlers := NoPipe, handlers + 1;
    }

    /** The others have their turn. */
    method Elapse(w: World, others: seq<Action>) returns (v: World)
      requires Holds(w)
      modifies this
      ensures v == Run(w, others) && Holds(v)
    {
      v := Run(w, others);
      doRun, pipe, handlers := v.doRun, v.pipe, v.handlers;
    }
  }

  /** How a part of a round ends: the loop goes on behind it, starts over, or is left. */
  datatype Flow = Next | Again | Left

  /** The first part of a round: the flag and the pipe. */
  method Offer(p: CommandPipe, w: World, rounds: seq<Round>, ghost actions: seq<Action>, ghost whole: seq<Action>)
    returns (v: World, flow: Flow, ghost all: seq<Action>)
    requires p.Holds(w) && OnScript(w, rounds, actions, whole) && rounds != [] && w.pc.Top?
    modifies p
    ensures p.Holds(v)
    ensures if flow.Next? then v.pc.Connecting? && OnScript(v, rounds, all, whole)
            else flow.Left? && v.pc.Exited? && v == Run(START, whole)
  {
    var r := rounds[0];
    v := p.Elapse(w, r.check);
    var doRun := p.Load();
    Follow(w, rounds, actions, whole);
    all := actions + r.check + [Server(true)];
    var x := ServerStep(v, true);
    if !doRun {
      ScriptOver(x, rounds, all, whole);
      return x, Left, all;
    }
    v := p.Elapse(x, r.create);
    p.Create(r.created);
    Follow(x, rounds, all, whole);
    v, all := ServerStep(v, r.created), all + r.create + [Server(r.created)];
    if !r.created {
      ScriptOver(v, rounds, all, whole);
      return v, Left, all;
    }
    flow := Next;
  }

  /** The second part: a client, if one comes. */
  method Accept(p: CommandPipe, w: World, rounds: seq<Round>, ghost actions: seq<Action>, ghost whole: seq<Action>)
    returns (v: World, flow: Flow, ghost all: seq<Action>)
    requires p.Holds(w) && OnScript(w, rounds, actions, whole) && rounds != [] && w.pc.Connecting?
    modifies p
    ensures p.Holds(v)
    ensures match flow
            case Next => v.pc.Rechecking? && OnScript(v, rounds, all, whole)
            case Again => v.pc.Top? && OnScript(v, rounds[1..], all, whole)
            case Left => Waits(v) && v == Run(START, whole)
  {
    var r := rounds[0];
    v := p.Elapse(w, r.connect);
    Follow(w, rounds, actions, whole);
    all := actions + r.connect + [Server(r.connected)];
    if p.pipe.Listening? {
      return v, Left, all;
    }
    var connected := p.Connect(r.connected);
    if !connected {
      p.Drop();
    }
    v := ServerStep(v, r.connected);
    flow := if connected then Next else Again;
  }

  /** The last part: the flag again, and the client handed over. */
  method HandOver(p: CommandPipe, w: World, rounds: seq<Round>, ghost actions: seq<Action>, ghost whole: seq<Action>)
    returns (v: World, flow: Flow, ghost all: seq<Action>)
    requires p.Holds(w) && OnScript(w, rounds, actions, whole) && rounds != [] && w.pc.Rechecking?
    modifies p
    ensures p.Holds(v)
    ensures if flow.Again? then v.pc.Top? && OnScript(v, rounds[1..], all, whole)
            else flow.Left? && v.pc.Exited? && v == Run(START, whole)
  {
    var r := rounds[0];
    v := p.Elapse(w, r.recheck);
    var doRun := p.Load();
    Follow(w, rounds, actions, whole);
    all := actions + r.recheck + [Server(true)];
    var x := ServerStep(v, true);
    if !doRun {
      p.Drop();
      ScriptOver(x, rounds, all, whole);
      return x, Left, all;
    }
    v := p.Elapse(x, r.spawn);
    p.Spawn();
    Follow(x, rounds, all, whole);
    v, flow, all := ServerStep(v, true), Again, all + r.spawn + [Server(true)];
  }

  /** The accept loop. Whatever happens in its rounds, the flag, the pipe and the threads end where the step machine
      does on the script of the rounds: at its exit, waiting for a client that never comes, or with all rounds
      played. */
  method ServeCommandPipe(p: CommandPipe, rounds: seq<Round>) returns (w: World, ghost actions: seq<Action>)
    requires p.Holds(START) && AllFit(rounds)
    modifies p
    ensures actions == Script(START, rounds) && w == Run(START, actions) && p.Holds(w)
    ensures w.pc.Exited? || Waits(w) || (w.pc.Top? && Checks(START, actions) == |rounds|)
  {
    actions := Script(START, rounds);
    ScriptPlaysRounds(START, rounds);
    w := START;
    ghost var sofar := [];
    assert sofar + actions == actions;
    for i := 0 to |rounds|
      invariant p.Holds(w) && w.pc.Top? && OnScript(w, rounds[i..], sofar, actions)
    {
      assert rounds[i..][1..] == rounds[i + 1..];
      var flow;
      w, flow, sofar := Offer(p, w, rounds[i..], sofar, actions);
      if flow.Left? {
        return;
      }
      w, flow, sofar := Accept(p, w, rounds[i..], sofar, actions);
      if flow.Left? {
        return;
      }
      if flow.Next? {
        w, flow, sofar := HandOver(p, w, rounds[i..], sofar, actions);
        if flow.Left? {
          return;
        }
      }
    }
    ScriptOver(w, rounds[|rounds|..], sofar, actions);
  }
}
