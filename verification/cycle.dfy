/** What the command thread, a caller and the proton thread do in the steps of the monitor. */
module Cycles {
  import opened Wrappers
  import C = ClientState
  import opened Handshake
  import Restarts

  /** What command thread `j` may come to in the step `l`. A thread begins to perform a request only when it has just
      found the client not stopped, after it had found it neither retrying nor starting; and one that does not perform
      its request finishes it only because its time was up while it waited, or because the client was stopped. */
  predicate MayBecome(s: System, l: Label, j: nat, c: Command)
    requires j < |s.commands|
  {
    match c
    case Performing(op) => s.commands[j] == StopCheck(op) && s.state != C.Stopped
    case StopCheck(op) => s.commands[j] == Checking(op) && s.state != C.Retrying && s.state != C.Starting
    case AwaitingConnection(op) => s.commands[j] == Checking(op) && (s.state == C.Retrying || s.state == C.Starting)
    case Ensuring(op) =>
      || (s.commands[j] == AwaitingConnection(op) && l.CommandStep? && l.fires)
      || (s.commands[j] == StopCheck(op) && s.state == C.Stopped)
      || (s.commands[j] == Performing(op) && l.CommandStep? && (l.fires || l.attempted.Completes?))
    case Checking(op) =>
      || (s.commands[j] == Popping && s.queue != [] && op == s.queue[0])
      || s.commands[j] == AwaitingConnection(op)
      || (s.commands[j] == Performing(op) && l.CommandStep? && l.attempted.Retries?)
    case _ => true
  }

  lemma PerformsOnlyWhenUp(s: System, l: Label, j: nat)
    requires j < |s.commands|
    ensures
      var s1 := Step(s, l);
      j < |s1.commands| && (s1.commands[j] == s.commands[j] || MayBecome(s, l, j, s1.commands[j]))
  {
    ObserveLeavesCommands(s, Move(s, l));
    match l
    case CallerStep(i) => if i < |s.callers| { CallerLeavesCommands(s, i); }
    case CommandStep(i, a, fires) => CommandMayBecome(s, i, j, a, fires);
    case _ => OthersLeaveOrKill(s, l, j);
  }

  lemma ObserveLeavesCommands(s: System, s1: System)
    ensures Observe(s, s1).commands == s1.commands
  {
  }

  lemma OthersLeaveOrKill(s: System, l: Label, j: nat)
    requires j < |s.commands| && !l.CallerStep? && !l.CommandStep?
    ensures
      var s1 := Move(s, l);
      j < |s1.commands| && (s1.commands[j] == s.commands[j] || s1.commands[j] == Dead)
  {
  }

  lemma CommandMayBecome(s: System, i: nat, j: nat, a: Attempted, fires: bool)
    requires j < |s.commands|
    ensures
      var s1, l := Move(s, CommandStep(i, a, fires)), CommandStep(i, a, fires);
      j < |s1.commands| && (s1.commands[j] == s.commands[j] || MayBecome(s, l, j, s1.commands[j]))
  {
    if i < |s.commands| { NextMove(s, i, a, fires); }
    if i == j { OwnMove(s, j, a, fires); }
  }

  /** The place a command thread moves to; the others stay where they are. */
  function Next(s: System, j: nat, a: Attempted, fires: bool): Command
    requires j < |s.commands|
  {
    match s.commands[j]
    case Idle => if s.mutex == None then Looking else Idle
    case Looking => if s.queue == [] then Sleeping else Entering
    case Sleeping => if s.mutex == None then Woken else Sleeping
    case Woken => if s.state == C.Stopped then Dead else Looking
    case Entering => Popping
    case Popping => if s.queue == [] then Popping else Checking(s.queue[0])
    case Checking(op) =>
      if s.state == C.Retrying || s.state == C.Starting then AwaitingConnection(op) else StopCheck(op)
    case AwaitingConnection(op) => if fires then Ensuring(op) else Checking(op)
    case StopCheck(op) => if s.state == C.Stopped then Ensuring(op) else Performing(op)
    case Performing(op) => if fires || a.Completes? then Ensuring(op) else Checking(op)
    case Ensuring(_) => Signalling
    case Signalling => if s.state == C.Stopped then Dead else Idle
    case Dead => Dead
  }

  lemma NextMove(s: System, j: nat, a: Attempted, fires: bool)
    requires j < |s.commands|
    ensures CommandMoves(s, j, a, fires).commands == s.commands[j := Next(s, j, a, fires)]
  {
    match s.commands[j]
    case Popping => if s.queue == [] { assert s.commands[j := Popping] == s.commands; }
    case Dead => assert s.commands[j := Dead] == s.commands;
    case Idle => if s.mutex != None { assert s.commands[j := Idle] == s.commands; }
    case Sleeping => if s.mutex != None { assert s.commands[j := Sleeping] == s.commands; }
    case _ =>
  }

  lemma OwnMove(s: System, j: nat, a: Attempted, fires: bool)
    requires j < |s.commands|
    ensures
      var c := Next(s, j, a, fires);
      c == s.commands[j] || MayBecome(s, CommandStep(j, a, fires), j, c)
  {
  }

  lemma CallerLeavesCommands(s: System, i: nat)
    requires i < |s.callers|
    ensures CallerMoves(s, i).commands == s.commands
  {
  }

  /** The steps from the test of the queue to the next, if nothing stands in the way. */
  function Steps(j: nat, n: nat): seq<Label> {
    seq(n, _ => CommandStep(j, Completes, false))
  }

  /** The steps of thread `j` alone through given systems. */
  lemma RunsThrough(ss: seq<System>, j: nat)
    requires ss != [] && forall i :: 0 <= i < |ss| - 1 ==> Step(ss[i], CommandStep(j, Completes, false)) == ss[i + 1]
    ensures Run(ss[0], Steps(j, |ss| - 1)) == ss[|ss| - 1]
  {
    Restarts.PlainRun(ss, Steps(j, |ss| - 1));
  }

  /** A monitor in which the proton thread rests. */
  predicate Calm(s: System, j: nat) {
    s.proton == Pausing && s.steady == None && j < |s.commands|
      && forall k :: 0 <= k < |s.commands| ==> !s.commands[k].AwaitingConnection?
  }

  function Moved(s: System, j: nat, c: Command): System
    requires j < |s.commands|
  {
    s.(commands := s.commands[j := c])
  }

  function Go(j: nat): Label {
    CommandStep(j, Completes, false)
  }

  lemma CalmStep(s: System, j: nat)
    requires Calm(s, j) && Calm(CommandMoves(s, j, Completes, false), j)
    ensures Step(s, Go(j)) == CommandMoves(s, j, Completes, false)
  {
  }

  lemma AtLooking(s: System, j: nat)
    requires Calm(s, j) && s.commands[j] == Looking && s.queue != []
    ensures var s1 := Moved(s, j, Entering); Step(s, Go(j)) == s1 && Calm(s1, j)
  {
    CalmStep(s, j);
  }

  lemma AtEntering(s: System, j: nat)
    requires Calm(s, j) && s.commands[j] == Entering
    ensures var s1 := Moved(s, j, Popping).(processing := true); Step(s, Go(j)) == s1 && Calm(s1, j)
  {
    CalmStep(s, j);
  }

  lemma AtPopping(s: System, j: nat)
    requires Calm(s, j) && s.commands[j] == Popping && s.queue != []
    ensures
      var s1 := Moved(s, j, Checking(s.queue[0])).(queue := s.queue[1..]); Step(s, Go(j)) == s1 && Calm(s1, j)
  {
    CalmStep(s, j);
  }

  lemma AtChecking(s: System, j: nat, op: nat)
    requires Calm(s, j) && s.commands[j] == Checking(op) && s.state != C.Retrying && s.state != C.Starting
    ensures var s1 := Moved(s, j, StopCheck(op)); Step(s, Go(j)) == s1 && Calm(s1, j)
  {
    CalmStep(s, j);
  }

  lemma AtStopCheck(s: System, j: nat, op: nat)
    requires Calm(s, j) && s.commands[j] == StopCheck(op)
    ensures
      var s1 := Moved(s, j, if s.state == C.Stopped then Ensuring(op) else Performing(op));
      Step(s, Go(j)) == s1 && Calm(s1, j)
  {
    CalmStep(s, j);
  }

  lemma AtPerforming(s: System, j: nat, op: nat)
    requires Calm(s, j) && s.commands[j] == Performing(op)
    ensures var s1 := Moved(s, j, Ensuring(op)); Step(s, Go(j)) == s1 && Calm(s1, j)
  {
    CalmStep(s, j);
  }

  /** The ensure clause. */
  function Ensured(s: System, j: nat, op: nat): System
    requires j < |s.commands|
  {
    Moved(s, j, Signalling).(processing := false, done := s.done + [op])
  }

  lemma AtEnsuring(s: System, j: nat, op: nat)
    requires Calm(s, j) && s.commands[j] == Ensuring(op)
    ensures var s1 := Ensured(s, j, op); Step(s, Go(j)) == s1 && Calm(s1, j)
  {
    CalmStep(s, j);
  }

  /** The end of the turn. */
  function Ended(s: System, j: nat): System
    requires j < |s.commands|
  {
    if s.state == C.Stopped then Moved(s, j, Dead).(mutex := None, shutdown := true)
    else Moved(s, j, Idle).(mutex := None)
  }

  lemma AtSignalling(s: System, j: nat)
    requires Calm(s, j) && s.commands[j] == Signalling
    ensures Step(s, Go(j)) == Ended(s, j)
  {
    CalmStep(s, j);
  }

  lemma ThreeSteps(s: System, s1: System, s2: System, s3: System, j: nat)
    requires Step(s, Go(j)) == s1 && Step(s1, Go(j)) == s2 && Step(s2, Go(j)) == s3
    ensures Run(s, Steps(j, 3)) == s3
  {
    RunsThrough([s, s1, s2, s3], j);
  }

  lemma TwoSteps(s: System, s1: System, s2: System, j: nat)
    requires Step(s, Go(j)) == s1 && Step(s1, Go(j)) == s2
    ensures Run(s, Steps(j, 2)) == s2
  {
    RunsThrough([s, s1, s2], j);
  }

  /** The first three steps: the request at the head of the queue is popped, with processing_command set. */
  lemma Pops(s: System, j: nat, op: nat, rest: seq<nat>)
    requires Calm(s, j) && s.commands[j] == Looking && s.queue == [op] + rest
    ensures
      var s1 := Moved(s, j, Checking(op)).(processing := true, queue := rest);
      Calm(s1, j) && Run(s, Steps(j, 3)) == s1
  {
    var s1 := Moved(s, j, Entering);
    var s2 := Moved(s1, j, Popping).(processing := true);
    var s3 := Moved(s2, j, Checking(op)).(queue := rest);
    AtLooking(s, j);
    AtEntering(s1, j);
    AtPopping(s2, j);
    ThreeSteps(s, s1, s2, s3, j);
    assert s3.commands == s.commands[j := Checking(op)];
  }

  /** From the check on: performed on a started client, and not on a stopped one. */
  lemma Performs(s: System, j: nat, op: nat)
    requires Calm(s, j) && s.commands[j] == Checking(op) && (s.state == C.Started || s.state == C.Stopped)
    ensures
      var s1 := Moved(s, j, Ensuring(op));
      Calm(s1, j) && Run(s, Steps(j, if s.state == C.Started then 3 else 2)) == s1
  {
    var s1 := Moved(s, j, StopCheck(op));
    var s2 := Moved(s1, j, if s.state == C.Stopped then Ensuring(op) else Performing(op));
    AtChecking(s, j, op);
    AtStopCheck(s1, j, op);
    if s.state == C.Started {
      AtPerforming(s2, j, op);
      ThreeSteps(s, s1, s2, Moved(s2, j, Ensuring(op)), j);
      assert Moved(s2, j, Ensuring(op)).commands == s.commands[j := Ensuring(op)];
    } else {
      TwoSteps(s, s1, s2, j);
      assert s2.commands == s.commands[j := Ensuring(op)];
    }
  }

  /** From the ensure clause on. */
  lemma Finishes(s: System, j: nat, op: nat)
    requires Calm(s, j) && s.commands[j] == Ensuring(op)
    ensures Run(s, Steps(j, 2)) == Ended(Ensured(s, j, op), j)
  {
    AtEnsuring(s, j, op);
    AtSignalling(Ensured(s, j, op), j);
    TwoSteps(s, Ensured(s, j, op), Ended(Ensured(s, j, op), j), j);
  }

  lemma SplitSteps(s: System, j: nat, m: nat, n: nat)
    ensures Run(s, Steps(j, m + n)) == Run(Run(s, Steps(j, m)), Steps(j, n))
  {
    assert Steps(j, m + n) == Steps(j, m) + Steps(j, n);
    Restarts.RunTwo(s, Steps(j, m), Steps(j, n));
  }

  /** A command thread that looks at a queue with a request pops it, and on a started client it performs it once and is
      back for the next after eight steps, with the request done, processing_command clear and the mutex free. On a
      stopped client the request is done without being performed, the shutdown flag is set and the thread ends. */
  lemma RequestIsServed(s: System, j: nat, op: nat, rest: seq<nat>)
    requires Calm(s, j) && s.commands[j] == Looking && s.queue == [op] + rest
    requires s.state == C.Started || s.state == C.Stopped
    ensures
      var s1 := s.(processing := false, queue := rest, done := s.done + [op], mutex := None);
      if s.state == C.Started then Run(s, Steps(j, 8)) == Moved(s1, j, Idle)
      else Run(s, Steps(j, 7)) == Moved(s1, j, Dead).(shutdown := true)
  {
    var s3 := Moved(s, j, Checking(op)).(processing := true, queue := rest);
    var s6 := Moved(s3, j, Ensuring(op));
    var n := if s.state == C.Started then 3 else 2;
    Pops(s, j, op, rest);
    Performs(s3, j, op);
    Finishes(s6, j, op);
    SplitSteps(s, j, 3, n);
    SplitSteps(s, j, 3 + n, 2);
    EndsSame(s, s6, j, op, rest);
  }

  lemma EndsSame(s: System, s6: System, j: nat, op: nat, rest: seq<nat>)
    requires j < |s.commands| && |s6.commands| == |s.commands|
    requires s6 == s.(processing := true, queue := rest, commands := s6.commands)
    requires forall k :: 0 <= k < |s.commands| && k != j ==> s6.commands[k] == s.commands[k]
    ensures
      var s1 := s.(processing := false, queue := rest, done := s.done + [op], mutex := None);
      Ended(Ensured(s6, j, op), j)
        == if s.state == C.Stopped then Moved(s1, j, Dead).(shutdown := true) else Moved(s1, j, Idle)
  {
    var c: Command := if s.state == C.Stopped then Dead else Idle;
    assert s6.commands[j := Signalling][j := c] == s.commands[j := c];
  }

  /** The other turns: a wait for the connection goes back to the check unless its time is up; an attempt that is to be
      tried again does too, with the request still in hand, and sets :retrying if the connection was lost; a thread that
      wakes looks at the queue again, or ends if the client is stopped; and one that finds the queue empty sleeps
      without the mutex. */
  lemma TurnsOfTheThread(s: System, j: nat, a: Attempted, fires: bool)
    requires j < |s.commands|
    ensures
      var s1 := CommandMoves(s, j, a, fires);
      match s.commands[j]
      case AwaitingConnection(op) => s1 == Moved(s, j, if fires then Ensuring(op) else Checking(op))
      case Performing(op) =>
        if fires || a == Completes then s1 == Moved(s, j, Ensuring(op))
        else s1 == Moved(s, j, Checking(op)).(state := if a == Retries(true) then C.Retrying else s.state)
      case Woken => s1 == if s.state == C.Stopped then Moved(s, j, Dead).(mutex := None) else Moved(s, j, Looking)
      case Looking => s.queue == [] ==> s1 == Moved(s, j, Sleeping).(mutex := None)
      case _ => true
  {
  }

  // ----- A caller.

  function CallerMoved(s: System, i: nat, c: Caller): System
    requires i < |s.callers|
  {
    s.(callers := s.callers[i := c])
  }

  /** A caller that wakes and finds the queue empty returns, and is on its way with the mutex free after three steps;
      one that finds a request in it goes back to wait. */
  lemma CallerReturnsIffEmpty(s: System, i: nat, id: nat)
    requires i < |s.callers| && s.callers[i] == Waiting(id) && s.mutex == None
    ensures
      var s1 := CallerMoves(s, i);
      var s2 := CallerMoves(s1, i);
      && s1 == CallerMoved(s, i, Testing(id)).(mutex := Some(CallerT(i)))
      && if s.queue == [] then
           CallerMoves(s2, i) == CallerMoved(s, i, Outside).(returned := s.returned + [id])
         else s2 == s
  {
    assert s.callers[i := Waiting(id)] == s.callers;
  }

  // ----- The proton thread.

  /** A pass of proton_loop over a client that no one else touches connects exactly if the client is starting, or if it
      is retrying and has subscriptions or a request in processing; and exactly then the guard as a whole holds. */
  lemma PassConnectsIff(s: System)
    requires s.proton == AtStarting
    ensures
      var connects := exists n :: 0 < n <= 4 && ProtonAfter(s, n) == Connecting;
      && (connects <==> s.state == C.Starting || (s.state == C.Retrying && (s.subscriptions || s.processing)))
      && (connects <==> C.WantsConnect(s.state, s.subscriptions, s.processing))
  {
    FourSteps(s);
    if exists n :: 0 < n <= 4 && ProtonAfter(s, n) == Connecting {
      var n :| 0 < n <= 4 && ProtonAfter(s, n) == Connecting;
      assert n == 1 || n == 2 || n == 3 || n == 4;
    }
  }

  /** The place of the proton thread after `n` of its steps alone. */
  function ProtonAfter(s: System, n: nat): Proton {
    if n == 0 then s.proton else ProtonMoves(s.(proton := ProtonAfter(s, n - 1))).proton
  }

  lemma FourSteps(s: System)
    requires s.proton == AtStarting
    ensures
      var p1 := if s.state == C.Starting then Connecting else AtRetrying;
      var p2 := if p1 == Connecting || s.state != C.Retrying then Pausing else AtSubscriptions;
      && ProtonAfter(s, 1) == p1 && ProtonAfter(s, 2) == p2
      && (p2 == Pausing ==> ProtonAfter(s, 3) == AtStarting && ProtonAfter(s, 4) == p1)
      && (p2 == AtSubscriptions && s.subscriptions ==> ProtonAfter(s, 3) == Connecting)
      && (p2 == AtSubscriptions && !s.subscriptions ==>
            && ProtonAfter(s, 3) == AtProcessing
            && ProtonAfter(s, 4) == if s.processing then Connecting else Pausing)
  {
    assert ProtonAfter(s, 0) == AtStarting;
    assert ProtonAfter(s, 1) == ProtonMoves(s.(proton := ProtonAfter(s, 0))).proton;
    assert ProtonAfter(s, 2) == ProtonMoves(s.(proton := ProtonAfter(s, 1))).proton;
    assert ProtonAfter(s, 3) == ProtonMoves(s.(proton := ProtonAfter(s, 2))).proton;
    assert ProtonAfter(s, 4) == ProtonMoves(s.(proton := ProtonAfter(s, 3))).proton;
  }
}
