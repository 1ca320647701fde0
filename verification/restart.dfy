/** A run of the monitor in which a client is stopped and started anew. */
module Restarts {
  import opened Wrappers
  import C = ClientState
  import opened Handshake

  function To(state: C.State): Label {
    SetState(state)
  }

  /** A step of any thread but the proton thread, with no wait being watched, is the move alone. */
  lemma PlainStep(s: System, l: Label)
    requires s.steady.None? && s.proton.Pausing? && !l.ProtonStep?
    requires Move(s, l).steady.None? && Move(s, l).proton.Pausing?
    ensures Step(s, l) == Move(s, l)
  {
  }

  lemma {:induction false} RunTwo(s: System, ls: seq<Label>, ms: seq<Label>)
    ensures Run(s, ls + ms) == Run(Run(s, ls), ms)
    decreases |ls|
  {
    if ls == [] {
      assert ls + ms == ms;
    } else {
      assert (ls + ms)[1..] == ls[1..] + ms;
      RunTwo(Step(s, ls[0]), ls[1..], ms);
    }
  }

  /** A run through given systems. */
  lemma {:induction false} PlainRun(ss: seq<System>, ls: seq<Label>)
    requires |ss| == |ls| + 1
    requires forall i :: 0 <= i < |ls| ==> Step(ss[i], ls[i]) == ss[i + 1]
    ensures Run(ss[0], ls) == ss[|ls|]
    decreases |ls|
  {
    if ls == [] {
    } else {
      assert forall i :: 0 <= i < |ls| - 1 ==> Step(ss[1..][i], ls[1..][i]) == ss[1..][i + 1];
      PlainRun(ss[1..], ls[1..]);
    }
  }

  lemma RunFour(
    s0: System, s1: System, s2: System, s3: System, s4: System,
    ls1: seq<Label>, ls2: seq<Label>, ls3: seq<Label>, ls4: seq<Label>)
    requires Run(s0, ls1) == s1 && Run(s1, ls2) == s2 && Run(s2, ls3) == s3 && Run(s3, ls4) == s4
    ensures Run(s0, ls1 + ls2 + ls3 + ls4) == s4
  {
    RunTwo(s0, ls1, ls2);
    RunTwo(s0, ls1 + ls2, ls3);
    RunTwo(s0, ls1 + ls2 + ls3, ls4);
  }

  /** Two callers and one command thread in a state, with nothing else going on. */
  function Quiet(
    state: C.State, shutdown: bool, mutex: Option<Tid>, queue: seq<nat>, pushed: nat, done: seq<nat>,
    callers: seq<Caller>, commands: seq<Command>): System
  {
    System(state, false, shutdown, false, mutex, queue, pushed, done, [], callers, commands, Pausing, None)
  }

  /** A step of the command thread, or of a caller. */
  function Go(j: nat): Label {
    CommandStep(j, Completes, false)
  }

  const PUSHES: seq<Label> := [Spawn, To(C.Started), CallerStep(0), CallerStep(0), CallerStep(0)]

  /** A caller has pushed request 0 and waits. */
  const PUSHED: System := Quiet(C.Started, false, None, [0], 1, [], [Waiting(0), Outside], [Idle])

  lemma PushesOne()
    ensures Run(Init(2), PUSHES) == PUSHED
  {
    var s0 := Quiet(C.Stopped, false, None, [], 0, [], [Outside, Outside], []);
    assert Init(2) == s0;
    var s1 := s0.(commands := [Idle]);
    var s2 := s1.(state := C.Started);
    var s3 := s2.(mutex := Some(CallerT(0)), callers := [Pushing, Outside]);
    var s4 := s3.(queue := [0], pushed := 1, callers := [Testing(0), Outside]);
    PlainStep(s0, Spawn);
    PlainStep(s1, To(C.Started));
    PlainStep(s2, CallerStep(0));
    PlainStep(s3, CallerStep(0));
    PlainStep(s4, CallerStep(0));
    PlainRun([s0, s1, s2, s3, s4, PUSHED], PUSHES);
  }

  const PERFORMS: seq<Label> := [Go(0), Go(0), Go(0), Go(0), Go(0), Go(0)]

  /** The command thread is at its request. */
  const PERFORMING: System :=
    PUSHED.(mutex := Some(CommandT(0)), queue := [], processing := true, commands := [Performing(0)])

  lemma PerformsOne()
    ensures Run(PUSHED, PERFORMS) == PERFORMING
  {
    var s0 := PUSHED;
    var s1 := s0.(mutex := Some(CommandT(0)), commands := [Looking]);
    var s2 := s1.(commands := [Entering]);
    var s3 := s2.(processing := true, commands := [Popping]);
    var s4 := s3.(queue := [], commands := [Checking(0)]);
    var s5 := s4.(commands := [StopCheck(0)]);
    PlainStep(s0, Go(0));
    PlainStep(s1, Go(0));
    PlainStep(s2, Go(0));
    PlainStep(s3, Go(0));
    PlainStep(s4, Go(0));
    PlainStep(s5, Go(0));
    PlainRun([s0, s1, s2, s3, s4, s5, PERFORMING], PERFORMS);
  }

  const STOPS: seq<Label> := [Go(0), Go(0), To(C.Stopped), Go(0)]

  /** The request is done, the client is stopped, and the command thread has ended and set the flag. */
  const SHUT_DOWN: System := Quiet(C.Stopped, true, None, [], 1, [0], [Waiting(0), Outside], [Dead])

  lemma StopsAfterOne()
    ensures Run(PERFORMING, STOPS) == SHUT_DOWN
  {
    var s0 := PERFORMING;
    var s1 := s0.(commands := [Ensuring(0)]);
    var s2 := s1.(processing := false, done := [0], commands := [Signalling]);
    var s3 := s2.(state := C.Stopped);
    PlainStep(s0, Go(0));
    PlainStep(s1, Go(0));
    PlainStep(s2, To(C.Stopped));
    PlainStep(s3, Go(0));
    PlainRun([s0, s1, s2, s3, SHUT_DOWN], STOPS);
  }

  const RESTARTS: seq<Label> := [To(C.Starting), Spawn, To(C.Started), CallerStep(1)]

  /** The client has been started anew, and a caller is about to push. */
  const RESTARTED: System :=
    SHUT_DOWN.(state := C.Started, mutex := Some(CallerT(1)), callers := [Waiting(0), Pushing],
               commands := [Dead, Idle])

  lemma StartsAnew()
    ensures Run(SHUT_DOWN, RESTARTS) == RESTARTED
  {
    var s0 := SHUT_DOWN;
    var s1 := s0.(state := C.Starting);
    var s2 := s1.(commands := [Dead, Idle]);
    var s3 := s2.(state := C.Started);
    PlainStep(s0, To(C.Starting));
    PlainStep(s1, Spawn);
    PlainStep(s2, To(C.Started));
    PlainStep(s3, CallerStep(1));
    PlainRun([s0, s1, s2, s3, RESTARTED], RESTARTS);
  }

  lemma IsRestarted()
    ensures Run(Init(2), PUSHES + PERFORMS + STOPS + RESTARTS) == RESTARTED
  {
    PushesOne();
    PerformsOne();
    StopsAfterOne();
    StartsAnew();
    RunFour(Init(2), PUSHED, PERFORMING, SHUT_DOWN, RESTARTED, PUSHES, PERFORMS, STOPS, RESTARTS);
  }

  lemma PushIsRefused()
    ensures Step(RESTARTED, CallerStep(1)) == RESTARTED.(mutex := None, callers := [Waiting(0), Outside])
  {
    PlainStep(RESTARTED, CallerStep(1));
  }

  /** A client can be stopped while a request is processed and started anew: it is started, with a command thread that
      waits for requests. Yet a caller that comes to push is refused, and so is every later one. */
  lemma RestartIsRefused()
    ensures exists ls: seq<Label> :: Run(Init(2), ls) == RESTARTED
    ensures Step(RESTARTED, CallerStep(1)) == RESTARTED.(mutex := None, callers := [Waiting(0), Outside])
    ensures forall ms: seq<Label> :: Run(RESTARTED, ms).pushed == RESTARTED.pushed
  {
    IsRestarted();
    PushIsRefused();
    forall ms: seq<Label> ensures Run(RESTARTED, ms).pushed == RESTARTED.pushed {
      ShutdownIsForever(RESTARTED, ms);
    }
  }
}
