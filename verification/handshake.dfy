/** The monitor between callers and command threads, and the guard of proton_loop. */
module Handshake {
  /* push_request, command_loop and process_request_queue of lib/mqlight/command.rb and proton_loop of
     lib/mqlight/connection.rb, as a transition system in which every thread moves one step at a time.

     Any number of threads call, and any number of command threads exist, since `start` creates a new one and `stop`
     may leave the old one running. A waiting thread may wake at any time, which covers every pattern of signals. */

  import opened Wrappers
  import opened ClientState

  datatype Tid = CallerT(i: nat) | CommandT(j: nat)

  /** A thread in push_request; requests are named by the order of their pushes. */
  datatype Caller =
    | Outside
    | Pushing                 // holds the mutex, checks for shutdown and pushes
    | Testing(id: nat)        // holds the mutex, at the test of the empty queue
    | Waiting(id: nat)        // in the condition variable, without the mutex
    | Leaving(id: nat)        // holds the mutex, about to return

  /** A command thread. From Popping to Ensuring it is inside process_request_queue. */
  datatype Command =
    | Idle                    // about to take the mutex
    | Looking                 // holds it, at the test of the empty queue
    | Sleeping                // in the condition variable, without it
    | Woken                   // holds it again, at the stopped check
    | Entering                // about to set processing_command
    | Popping
    | Checking(op: nat)       // at `while retrying? || starting?`
    | AwaitingConnection(op: nat)
    | StopCheck(op: nat)
    | Performing(op: nat)
    | Ensuring(op: nat)       // in the ensure clause
    | Signalling              // at the stopped check after the request
    | Dead

  /** A pass of proton_loop reads the parts of its guard one after the other. */
  datatype Proton = AtStarting | AtRetrying | AtSubscriptions | AtProcessing | Connecting | Pausing

  datatype System = System(
    state: State, processing: bool, shutdown: bool, subscriptions: bool,
    mutex: Option<Tid>, queue: seq<nat>, pushed: nat, done: seq<nat>, returned: seq<nat>,
    callers: seq<Caller>, commands: seq<Command>,
    proton: Proton, steady: Option<State>)

  function Init(callers: nat): System {
    System(Stopped, false, false, false, None, [], 0, [], [], seq(callers, _ => Outside), [], Pausing, None)
  }

  /** How an attempt at a request goes on. */
  datatype Attempted = Completes | Retries(lost: bool)

  datatype Label =
    | CallerStep(i: nat)
    | CommandStep(j: nat, attempted: Attempted, fires: bool)
    | Kill(j: nat)            // join gives up on a command thread
    | Spawn                   // start
    | ProtonStep
    | SetState(to: State)     // change_state by any thread
    | SetSubscriptions(present: bool)

  predicate Holds(c: Command) {
    !c.Idle? && !c.Sleeping? && !c.Dead?
  }

  predicate CallerHolds(c: Caller) {
    c.Pushing? || c.Testing? || c.Leaving?
  }

  /** Between `processing_command = true` and the ensure clause. */
  predicate Processing(c: Command) {
    c.Popping? || HasOp(c)
  }

  predicate HasOp(c: Command) {
    c.Checking? || c.AwaitingConnection? || c.StopCheck? || c.Performing? || c.Ensuring?
  }

  predicate Awaits(s: System) {
    exists j :: 0 <= j < |s.commands| && s.commands[j].AwaitingConnection?
  }

  function CallerMoves(s: System, i: nat): System
    requires i < |s.callers|
  {
    var me := CallerT(i);
    match s.callers[i]
    case Outside =>
      if s.mutex == None then s.(mutex := Some(me), callers := s.callers[i := Pushing]) else s
    case Pushing =>
      if s.shutdown then s.(mutex := None, callers := s.callers[i := Outside])
      else s.(queue := s.queue + [s.pushed], pushed := s.pushed + 1, callers := s.callers[i := Testing(s.pushed)])
    case Testing(id) =>
      if s.queue == [] then s.(callers := s.callers[i := Leaving(id)])
      else s.(mutex := None, callers := s.callers[i := Waiting(id)])
    case Waiting(id) =>
      if s.mutex == None then s.(mutex := Some(me), callers := s.callers[i := Testing(id)]) else s
    case Leaving(id) =>
      s.(mutex := None, returned := s.returned + [id], callers := s.callers[i := Outside])
  }

  /** A command thread takes the mutex, gives it back, or moves on without touching it. */
  function Acquire(s: System, j: nat, c: Command): System
    requires j < |s.commands|
  {
    if s.mutex == None then s.(mutex := Some(CommandT(j)), commands := s.commands[j := c]) else s
  }

  function Release(s: System, j: nat, c: Command): System
    requires j < |s.commands|
  {
    s.(mutex := None, commands := s.commands[j := c])
  }

  function Advance(s: System, j: nat, c: Command): System
    requires j < |s.commands|
  {
    s.(commands := s.commands[j := c])
  }

  function Enter(s: System, j: nat): System
    requires j < |s.commands|
  {
    s.(processing := true, commands := s.commands[j := Popping])
  }

  function Pop(s: System, j: nat): System
    requires j < |s.commands|
  {
    if s.queue == [] then s else s.(queue := s.queue[1..], commands := s.commands[j := Checking(s.queue[0])])
  }

  function Ensure(s: System, j: nat, op: nat): System
    requires j < |s.commands|
  {
    s.(processing := false, done := s.done + [op], commands := s.commands[j := Signalling])
  }

  function CommandMoves(s: System, j: nat, a: Attempted, fires: bool): System
    requires j < |s.commands|
  {
    match s.commands[j]
    case Idle => Acquire(s, j, Looking)
    case Looking => if s.queue == [] then Release(s, j, Sleeping) else Advance(s, j, Entering)
    case Sleeping => Acquire(s, j, Woken)
    case Woken => if s.state == Stopped then Release(s, j, Dead) else Advance(s, j, Looking)
    case Entering => Enter(s, j)
    case Popping => Pop(s, j)
    case Checking(op) =>
      Advance(s, j, if s.state == Retrying || s.state == Starting then AwaitingConnection(op) else StopCheck(op))
    case AwaitingConnection(op) => Advance(s, j, if fires then Ensuring(op) else Checking(op))
    case StopCheck(op) => Advance(s, j, if s.state == Stopped then Ensuring(op) else Performing(op))
    case Performing(op) =>
      if fires || a.Completes? then Advance(s, j, Ensuring(op))
      else Advance(s.(state := if a.lost then Retrying else s.state), j, Checking(op))
    case Ensuring(op) => Ensure(s, j, op)
    case Signalling =>
      if s.state == Stopped then Release(s.(shutdown := true), j, Dead) else Release(s, j, Idle)
    case Dead => s
  }

  /** Thread#kill runs the ensure clause and releases the mutex; the request is over too. */
  function Killed(s: System, j: nat): System
    requires j < |s.commands|
  {
    var c := s.commands[j];
    var s1 := s.(commands := s.commands[j := Dead], mutex := if Holds(c) then None else s.mutex,
                 processing := if Processing(c) then false else s.processing);
    if HasOp(c) then s1.(done := s.done + [c.op]) else s1
  }

  /** starting? || (retrying? && (subscriptions_present? || processing_command?)), one read a step. */
  function ProtonMoves(s: System): System {
    match s.proton
    case AtStarting => s.(proton := if s.state == Starting then Connecting else AtRetrying)
    case AtRetrying => s.(proton := if s.state == Retrying then AtSubscriptions else Pausing)
    case AtSubscriptions => s.(proton := if s.subscriptions then Connecting else AtProcessing)
    case AtProcessing => s.(proton := if s.processing then Connecting else Pausing)
    case Connecting => s.(proton := Pausing)
    case Pausing => s.(proton := AtStarting)
  }

  function Move(s: System, l: Label): System {
    match l
    case CallerStep(i) => if i < |s.callers| then CallerMoves(s, i) else s
    case CommandStep(j, a, fires) => if j < |s.commands| then CommandMoves(s, j, a, fires) else s
    case Kill(j) => if j < |s.commands| then Killed(s, j) else s
    case Spawn => s.(commands := s.commands + [Idle])
    case ProtonStep => ProtonMoves(s)
    case SetState(to) => s.(state := to)
    case SetSubscriptions(p) => s.(subscriptions := p)
  }

  /** `steady` holds a state when a command thread has been waiting for the connection, in that one state of retrying
      or starting, ever since the current pass of proton_loop began. */
  function Observe(s: System, s': System): System {
    var now := if Awaits(s') && (s'.state == Retrying || s'.state == Starting) then Some(s'.state) else None;
    if s'.proton == AtStarting && s.proton == Pausing then s'.(steady := now)
    else s'.(steady := if now == s.steady then now else None)
  }

  function Step(s: System, l: Label): System {
    Observe(s, Move(s, l))
  }

  function Run(s: System, ls: seq<Label>): System
    decreases |ls|
  {
    if ls == [] then s else Run(Step(s, ls[0]), ls[1..])
  }

  // ----- The invariant.

  function Ids(n: nat): seq<nat> {
    seq(n, k => k)
  }

  /** The request a command thread has popped and not yet finished. */
  function InFlight(s: System): seq<nat> {
    if s.mutex.Some? && s.mutex.value.CommandT? && s.mutex.value.j < |s.commands| && HasOp(s.commands[s.mutex.value.j])
    then [s.commands[s.mutex.value.j].op] else []
  }

  ghost predicate MutexInv(s: System) {
    && (forall i :: 0 <= i < |s.callers| ==> (CallerHolds(s.callers[i]) <==> s.mutex == Some(CallerT(i))))
    && (forall j :: 0 <= j < |s.commands| ==> (Holds(s.commands[j]) <==> s.mutex == Some(CommandT(j))))
    && (s.mutex.Some? && s.mutex.value.CallerT? ==> s.mutex.value.i < |s.callers|)
    && (s.mutex.Some? && s.mutex.value.CommandT? ==> s.mutex.value.j < |s.commands|)
  }

  /** Requests finish in the order of their pushes: what was pushed is what is done, in flight or queued. */
  ghost predicate OrderInv(s: System) {
    s.done + InFlight(s) + s.queue == Ids(s.pushed)
  }

  /** A call that has returned, or is about to, was for a request that is done. */
  ghost predicate ReturnInv(s: System) {
    && (forall k :: 0 <= k < |s.returned| ==> s.returned[k] in s.done)
    && (forall i :: 0 <= i < |s.callers| ==>
          && (s.callers[i].Leaving? ==> s.callers[i].id in s.done)
          && (s.callers[i].Testing? || s.callers[i].Waiting? ==> s.callers[i].id < s.pushed))
  }

  /** processing_command is set exactly while the holder of the mutex is inside process_request_queue. */
  ghost predicate ProcessingInv(s: System) {
    && (s.processing <==> s.mutex.Some? && s.mutex.value.CommandT? && s.mutex.value.j < |s.commands|
                          && Processing(s.commands[s.mutex.value.j]))
    && (forall j :: 0 <= j < |s.commands| && (s.commands[j].Entering? || s.commands[j].Popping?) ==> s.queue != [])
  }

  /** While a steady wait lasts, no read of the current pass has turned the guard down. */
  ghost predicate SteadyInv(s: System) {
    s.steady.Some? ==>
      && Awaits(s) && s.state == s.steady.value && (s.state == Retrying || s.state == Starting)
      && (s.proton == AtRetrying || s.proton == AtSubscriptions || s.proton == AtProcessing ==> s.state == Retrying)
  }

  /** The part of the invariant that does not concern the proton thread. */
  ghost predicate Guarded(s: System) {
    MutexInv(s) && OrderInv(s) && ReturnInv(s) && ProcessingInv(s)
  }

  ghost predicate Inv(s: System) {
    Guarded(s) && SteadyInv(s)
  }

  lemma IdsGrow(n: nat)
    ensures Ids(n + 1) == Ids(n) + [n]
  {
  }

  lemma PushKeepsInv(s: System, i: nat)
    requires Guarded(s) && i < |s.callers| && s.callers[i] == Pushing
    ensures Guarded(CallerMoves(s, i))
  {
    IdsGrow(s.pushed);
    assert s.done + InFlight(s) + (s.queue + [s.pushed]) == (s.done + InFlight(s) + s.queue) + [s.pushed];
  }

  /** A caller that finds the queue empty has its request among what is done: nothing is in flight. */
  lemma EmptyQueueIsDone(s: System, i: nat)
    requires Guarded(s) && i < |s.callers| && s.callers[i].Testing? && s.queue == []
    ensures s.callers[i].id in s.done
  {
    assert InFlight(s) == [];
    assert s.done == Ids(s.pushed);
    assert s.done[s.callers[i].id] == s.callers[i].id;
  }

  lemma CallerKeepsInv(s: System, i: nat)
    requires Guarded(s) && i < |s.callers|
    ensures Guarded(CallerMoves(s, i))
  {
    if s.callers[i] == Pushing {
      PushKeepsInv(s, i);
    } else {
      if s.callers[i].Testing? && s.queue == [] { EmptyQueueIsDone(s, i); }
      assert InFlight(CallerMoves(s, i)) == InFlight(s);
    }
  }

  lemma AcquireKeepsInv(s: System, j: nat, c: Command)
    requires Guarded(s) && j < |s.commands| && !Holds(s.commands[j]) && (c == Looking || c == Woken)
    ensures Guarded(Acquire(s, j, c))
  {
  }

  lemma ReleaseKeepsInv(s: System, j: nat, c: Command)
    requires Guarded(s) && j < |s.commands| && Holds(s.commands[j]) && !Processing(s.commands[j]) && !Holds(c)
    ensures Guarded(Release(s, j, c))
  {
  }

  lemma AdvanceKeepsInv(s: System, j: nat, c: Command)
    requires Guarded(s) && j < |s.commands| && Holds(s.commands[j]) && Holds(c)
    requires Processing(s.commands[j]) == Processing(c) && (c == Entering ==> s.queue != [])
    requires HasOp(s.commands[j]) == HasOp(c) && (HasOp(c) ==> c.op == s.commands[j].op)
    ensures Guarded(Advance(s, j, c))
  {
  }

  lemma EnterKeepsInv(s: System, j: nat)
    requires Guarded(s) && j < |s.commands| && s.commands[j] == Entering
    ensures Guarded(Enter(s, j))
  {
  }

  lemma PopKeepsInv(s: System, j: nat)
    requires Guarded(s) && j < |s.commands| && s.commands[j] == Popping
    ensures Guarded(Pop(s, j))
  {
    assert s.done + [] + s.queue == s.done + [s.queue[0]] + s.queue[1..];
  }

  lemma EnsureKeepsInv(s: System, j: nat, op: nat)
    requires Guarded(s) && j < |s.commands| && s.commands[j] == Ensuring(op)
    ensures Guarded(Ensure(s, j, op))
  {
    assert s.done + [op] + s.queue == (s.done + [op]) + [] + s.queue;
  }

  lemma CommandKeepsInv(s: System, j: nat, a: Attempted, fires: bool)
    requires Guarded(s) && j < |s.commands|
    ensures Guarded(CommandMoves(s, j, a, fires))
  {
    match s.commands[j]
    case Idle => AcquireKeepsInv(s, j, Looking);
    case Looking => if s.queue == [] { ReleaseKeepsInv(s, j, Sleeping); } else { AdvanceKeepsInv(s, j, Entering); }
    case Sleeping => AcquireKeepsInv(s, j, Woken);
    case Woken => if s.state == Stopped { ReleaseKeepsInv(s, j, Dead); } else { AdvanceKeepsInv(s, j, Looking); }
    case Entering => EnterKeepsInv(s, j);
    case Popping => PopKeepsInv(s, j);
    case Checking(op) =>
      var waits := s.state == Retrying || s.state == Starting;
      AdvanceKeepsInv(s, j, if waits then AwaitingConnection(op) else StopCheck(op));
    case AwaitingConnection(op) => AdvanceKeepsInv(s, j, if fires then Ensuring(op) else Checking(op));
    case StopCheck(op) => AdvanceKeepsInv(s, j, if s.state == Stopped then Ensuring(op) else Performing(op));
    case Performing(op) =>
      if fires || a.Completes? {
        AdvanceKeepsInv(s, j, Ensuring(op));
      } else {
        var s1 := s.(state := if a.lost then Retrying else s.state);
        SameMonitor(s, s1);
        AdvanceKeepsInv(s1, j, Checking(op));
      }
    case Ensuring(op) => EnsureKeepsInv(s, j, op);
    case Signalling =>
      if s.state == Stopped {
        SameMonitor(s, s.(shutdown := true));
        ReleaseKeepsInv(s.(shutdown := true), j, Dead);
      } else {
        ReleaseKeepsInv(s, j, Idle);
      }
    case Dead =>
  }

  /** The invariant does not depend on the state, the shutdown flag or the proton thread. */
  lemma SameMonitor(s: System, s1: System)
    requires Guarded(s)
    requires s1 == s.(state := s1.state, shutdown := s1.shutdown, subscriptions := s1.subscriptions,
                      proton := s1.proton, steady := s1.steady)
    ensures Guarded(s1)
  {
    assert InFlight(s1) == InFlight(s);
  }

  lemma SpawnKeepsInv(s: System)
    requires Guarded(s)
    ensures Guarded(s.(commands := s.commands + [Idle]))
  {
    assert InFlight(s.(commands := s.commands + [Idle])) == InFlight(s);
  }

  lemma KillKeepsInv(s: System, j: nat)
    requires Inv(s) && j < |s.commands|
    ensures Guarded(Killed(s, j))
  {
    var c := s.commands[j];
    if HasOp(c) {
      assert s.done + [c.op] + s.queue == (s.done + [c.op]) + [] + s.queue;
    }
  }

  /** Only the holder of the mutex can be waiting for the connection, and it has set processing_command. */
  lemma AwaitingIsProcessing(s: System)
    requires MutexInv(s) && ProcessingInv(s) && Awaits(s)
    ensures s.processing
  {
    var j :| 0 <= j < |s.commands| && s.commands[j].AwaitingConnection?;
    assert Holds(s.commands[j]);
  }

  /** A pass that has begun and not yet decided has so far read what it would read in the state it began in. */
  ghost predicate ReadSoFar(proton: Proton, state: State) {
    (state == Retrying || state == Starting)
    && (proton == AtRetrying || proton == AtSubscriptions || proton == AtProcessing ==> state == Retrying)
  }

  lemma ObserveKeepsSteady(s: System, s1: System)
    requires s1.steady == s.steady
    requires s.steady.Some? && s1.state == s.state && !(s1.proton == AtStarting && s.proton == Pausing)
             ==> ReadSoFar(s1.proton, s1.state)
    requires SteadyInv(s)
    ensures SteadyInv(Observe(s, s1))
  {
    var s' := Observe(s, s1);
    assert s'.commands == s1.commands;
    assert Awaits(s1) ==> Awaits(s');
  }

  lemma MoveKeepsGuarded(s: System, l: Label)
    requires Inv(s)
    ensures Guarded(Move(s, l))
  {
    match l
    case CallerStep(i) => if i < |s.callers| { CallerKeepsInv(s, i); }
    case CommandStep(j, a, fires) => if j < |s.commands| { CommandKeepsInv(s, j, a, fires); }
    case Kill(j) => if j < |s.commands| { KillKeepsInv(s, j); }
    case Spawn => SpawnKeepsInv(s);
    case _ => SameMonitor(s, Move(s, l));
  }

  lemma CallerKeepsSteady(s: System, i: nat)
    requires SteadyInv(s) && i < |s.callers|
    ensures SteadyInv(Observe(s, CallerMoves(s, i)))
  {
    var s1 := CallerMoves(s, i);
    assert s1.proton == s.proton && s1.steady == s.steady;
    ObserveKeepsSteady(s, s1);
  }

  lemma CommandLeavesProton(s: System, j: nat, a: Attempted, fires: bool)
    requires j < |s.commands|
    ensures CommandMoves(s, j, a, fires).proton == s.proton && CommandMoves(s, j, a, fires).steady == s.steady
  {
  }

  lemma CommandKeepsSteady(s: System, j: nat, a: Attempted, fires: bool)
    requires SteadyInv(s) && j < |s.commands|
    ensures SteadyInv(Observe(s, CommandMoves(s, j, a, fires)))
  {
    CommandLeavesProton(s, j, a, fires);
    ObserveKeepsSteady(s, CommandMoves(s, j, a, fires));
  }

  lemma MovesKeepSteady(s: System, l: Label)
    requires Inv(s)
    ensures SteadyInv(Step(s, l))
  {
    match l
    case CallerStep(i) => if i < |s.callers| { CallerKeepsSteady(s, i); } else { ObserveKeepsSteady(s, s); }
    case CommandStep(j, a, fires) =>
      if j < |s.commands| { CommandKeepsSteady(s, j, a, fires); } else { ObserveKeepsSteady(s, s); }
    case _ => ObserveKeepsSteady(s, Move(s, l));
  }

  lemma StepKeepsInv(s: System, l: Label)
    requires Inv(s)
    ensures Inv(Step(s, l))
  {
    MoveKeepsGuarded(s, l);
    MovesKeepSteady(s, l);
    SameMonitor(Move(s, l), Step(s, l));
  }

  lemma {:induction false} RunKeepsInv(s: System, ls: seq<Label>)
    requires Inv(s)
    ensures Inv(Run(s, ls))
    decreases |ls|
  {
    if ls == [] {
    } else {
      StepKeepsInv(s, ls[0]);
      RunKeepsInv(Step(s, ls[0]), ls[1..]);
    }
  }

  // ----- The theorems, for every run of any number of threads.

  /** Requests are processed in the order of their pushes, one at a time: what has been pushed is what is done, then
      what is in flight, then what is queued. */
  lemma ProcessedInPushOrder(callers: nat, ls: seq<Label>)
    ensures var s := Run(Init(callers), ls);
      && s.done + InFlight(s) + s.queue == Ids(s.pushed)
      && forall j, k :: 0 <= j < |s.commands| && 0 <= k < |s.commands| ==>
           HasOp(s.commands[j]) && HasOp(s.commands[k]) ==> j == k
  {
    RunKeepsInv(Init(callers), ls);
    var s := Run(Init(callers), ls);
    assert forall j :: 0 <= j < |s.commands| && HasOp(s.commands[j]) ==> Holds(s.commands[j]);
  }

  /** When push_request returns, its request has been popped and its processing is over. */
  lemma ReturnedAreDone(callers: nat, ls: seq<Label>)
    ensures var s := Run(Init(callers), ls); forall k :: 0 <= k < |s.returned| ==> s.returned[k] in s.done
  {
    RunKeepsInv(Init(callers), ls);
  }

  /** processing_command is set whenever a command thread waits for the connection, so that while the client is
      retrying or starting the reconnect guard holds. */
  lemma GuardNeverStuck(callers: nat, ls: seq<Label>)
    ensures var s := Run(Init(callers), ls);
      Awaits(s) ==>
        && s.processing
        && (s.state == Retrying || s.state == Starting ==> WantsConnect(s.state, s.subscriptions, s.processing))
  {
    RunKeepsInv(Init(callers), ls);
    var s := Run(Init(callers), ls);
    if Awaits(s) { AwaitingIsProcessing(s); }
  }

  /** The guard is read piece by piece, yet a pass of proton_loop that begins and ends during one wait for the
      connection, in one state of retrying or starting, does not pass over it. */
  lemma NoPassOverAWait(callers: nat, ls: seq<Label>)
    ensures var s := Run(Init(callers), ls);
      s.steady.Some? && s.proton != Connecting && s.proton != Pausing ==> Step(s, ProtonStep).proton != Pausing
  {
    RunKeepsInv(Init(callers), ls);
    var s := Run(Init(callers), ls);
    if s.steady.Some? { AwaitingIsProcessing(s); }
  }

  /** The shutdown flag is never taken back: once a command thread has set it no request is ever pushed again, even if
      the client is started anew. */
  lemma {:induction false} ShutdownIsForever(s: System, ls: seq<Label>)
    requires s.shutdown
    ensures Run(s, ls).shutdown && Run(s, ls).pushed == s.pushed
    decreases |ls|
  {
    if ls == [] {
    } else {
      MoveKeepsShutdown(s, ls[0]);
      ShutdownIsForever(Step(s, ls[0]), ls[1..]);
    }
  }

  lemma MoveKeepsShutdown(s: System, l: Label)
    requires s.shutdown
    ensures Move(s, l).shutdown && Move(s, l).pushed == s.pushed
  {
  }

  /** The step in which the flag is set: a command thread that has ended its request finds the client stopped. */
  predicate ShutsDown(s: System, l: Label) {
    l.CommandStep? && l.j < |s.commands| && s.commands[l.j] == Signalling && s.state == Stopped
  }

  ghost predicate ShutsDownAt(s: System, ls: seq<Label>, k: int) {
    0 <= k < |ls| && ShutsDown(Run(s, ls[..k]), ls[k])
  }

  lemma CallerLeavesShutdown(s: System, i: nat)
    requires i < |s.callers|
    ensures CallerMoves(s, i).shutdown == s.shutdown
  {
  }

  lemma CommandShutsDownIff(s: System, j: nat, a: Attempted, fires: bool)
    requires j < |s.commands|
    ensures CommandMoves(s, j, a, fires).shutdown <==> s.shutdown || (s.commands[j] == Signalling && s.state == Stopped)
  {
  }

  lemma StepShutsDownIff(s: System, l: Label)
    ensures Step(s, l).shutdown <==> s.shutdown || ShutsDown(s, l)
  {
    match l
    case CallerStep(i) => if i < |s.callers| { CallerLeavesShutdown(s, i); }
    case CommandStep(j, a, fires) => if j < |s.commands| { CommandShutsDownIff(s, j, a, fires); }
    case _ =>
  }

  lemma ShutsDownLater(s: System, ls: seq<Label>, k: nat)
    requires ls != []
    ensures ShutsDownAt(s, ls, k + 1) <==> ShutsDownAt(Step(s, ls[0]), ls[1..], k)
  {
    if k + 1 < |ls| { assert ls[..k + 1][1..] == ls[1..][..k]; }
  }

  /** Exactly when the flag is set: it was before, or some command thread has found the client stopped right after a
      request. A stop while no request is processed does not set it. */
  lemma {:induction false} ShutDownIff(s: System, ls: seq<Label>)
    ensures Run(s, ls).shutdown <==> s.shutdown || exists k :: ShutsDownAt(s, ls, k)
    decreases |ls|
  {
    if ls == [] {
    } else {
      var s1 := Step(s, ls[0]);
      StepShutsDownIff(s, ls[0]);
      ShutDownIff(s1, ls[1..]);
      assert ls[..0] == [] && (ShutsDownAt(s, ls, 0) <==> ShutsDown(s, ls[0]));
      forall k: nat ensures ShutsDownAt(s, ls, k + 1) <==> ShutsDownAt(s1, ls[1..], k) {
        ShutsDownLater(s, ls, k);
      }
      if exists k :: ShutsDownAt(s1, ls[1..], k) {
        var k :| ShutsDownAt(s1, ls[1..], k);
        assert ShutsDownAt(s, ls, k + 1);
      }
      if exists k :: ShutsDownAt(s, ls, k) && k > 0 {
        var k :| ShutsDownAt(s, ls, k) && k > 0;
        assert ShutsDownAt(s1, ls[1..], k - 1);
      }
    }
  }

  /** So a caller that comes to push, at any moment of any run of a new client, pushes exactly if that has never
      happened, and is refused otherwise. */
  lemma PushesIffNeverShutDown(callers: nat, ls: seq<Label>, i: nat)
    requires var s := Run(Init(callers), ls); i < |s.callers| && s.callers[i] == Pushing
    ensures
      var s := Run(Init(callers), ls);
      Step(s, CallerStep(i)).queue
        == if exists k :: ShutsDownAt(Init(callers), ls, k) then s.queue else s.queue + [s.pushed]
  {
    ShutDownIff(Init(callers), ls);
    var s := Run(Init(callers), ls);
    assert Step(s, CallerStep(i)).queue == CallerMoves(s, i).queue;
  }
}
