/** Concrete runs, put together one tick at a time. */
module Scenarios {
  import opened Wrappers
  import opened Destinations
  import opened ClientState
  import opened SubscriptionPath
  import opened RequestLoop

  /** A tick in which nothing happens. */
  const STILL: Tick := Tick([], false, Fine, Unknown, NoErrno, false)

  /** A tick in which nothing happens and the question is answered yes. */
  const YES: Tick := STILL.(flag := true)

  /** A tick in which only `e` happens. */
  function On(e: Event): Tick {
    STILL.(events := [e])
  }

  /** A tick in which only `e` happens and the question is answered yes. */
  function YesOn(e: Event): Tick {
    On(e).(flag := true)
  }

  /** A tick in which the proton thread connects again, and the sockets are open. */
  const RECONNECT: Tick := YES.(events := [SetState(Starting), Connect])

  /** A client that has been started, one whose connect is in progress, and one that has connected. */
  const STARTING_CLIENT: Client := NEW_CLIENT.(state := Starting)

  const CONNECTING_CLIENT: Client := STARTED_CLIENT.(state := Starting, connecting := true)

  const STARTED_CLIENT: Client := NEW_CLIENT.(state := Started, impl := true, m := FreshMessenger(1))

  lemma EnvOne(c: Client, e: Event)
    ensures Env(c, [e]) == Happen(c, e) && Env(c, []) == c
  {
    assert Env(Happen(c, e), []) == Happen(c, e);
  }

  lemma EnvReconnect(c: Client)
    ensures Env(c, RECONNECT.events) == Happen(Happen(c, SetState(Starting)), Connect)
  {
    assert RECONNECT.events[1..] == [Connect];
    EnvOne(Happen(c, SetState(Starting)), Connect);
  }

  /** The first step of a request in which only `e` happens: it waits on unless the client has started or stopped. */
  lemma WaitsOnce(c: Client, r: Request, e: Event, rest: Script)
    requires !r.timed
    ensures
      var c1 := Happen(c, e);
      Process(c, r, [On(e)] + rest)
        == if c1.state == Retrying || c1.state == Starting then Process(c1, r, rest) else StoppedCheck(c1, r, rest)
  {
    assert ([On(e)] + rest)[1..] == rest;
    EnvOne(c, e);
  }

  lemma StartingUp()
    ensures Happen(NEW_CLIENT, SetState(Starting)) == STARTING_CLIENT
    ensures Happen(STARTING_CLIENT, Connect) == CONNECTING_CLIENT
    ensures Happen(CONNECTING_CLIENT, Activate) == STARTED_CLIENT
  {
  }

  /** The first request of a new client waits for it to start. */
  lemma StartsUp(r: Request, rest: Script)
    requires !r.timed
    ensures Process(NEW_CLIENT, r, [On(SetState(Starting)), On(Connect), On(Activate)] + rest)
         == StoppedCheck(STARTED_CLIENT, r, rest)
  {
    var s2 := [On(Activate)] + rest;
    var s1 := [On(Connect)] + s2;
    assert [On(SetState(Starting)), On(Connect), On(Activate)] + rest == [On(SetState(Starting))] + s1;
    StartingUp();
    WaitsOnce(NEW_CLIENT, r, SetState(Starting), s1);
    WaitsOnce(STARTING_CLIENT, r, Connect, s2);
    WaitsOnce(CONNECTING_CLIENT, r, Activate, rest);
  }

  /** The stopped check of a client that is not stopped, when only `e` happens at it. */
  lemma GoesOn(c: Client, r: Request, e: Event, rest: Script)
    requires Happen(c, e).state != Stopped
    ensures StoppedCheck(c, r, [On(e)] + rest) == AfterAttempt(Perform(Happen(c, e), r, rest), r)
  {
    assert ([On(e)] + rest)[1..] == rest;
    EnvOne(c, e);
  }

  /** A started client goes straight to its request. */
  lemma GoesStraight(c: Client, r: Request, rest: Script)
    requires !r.timed && c.state == Started
    ensures Process(c, r, [STILL] + rest) == StoppedCheck(c, r, rest)
    ensures StoppedCheck(c, r, [STILL] + rest) == AfterAttempt(Perform(c, r, rest), r)
  {
    assert ([STILL] + rest)[1..] == rest;
    EnvOne(c, Free);
  }

  const SUBSCRIBING: Script := [STILL, STILL, YES]

  function Subscribed(c: Client, r: Request, d: Destination): Client {
    Record(AddLink(c, d.address), r, d, Nothing)
  }

  /** A subscribe that meets no trouble. */
  lemma Subscribes(c: Client, r: Request, d: Destination, rest: Script)
    requires r.op == Subscribe(d) && !r.timed && c.state == Started && c.impl
    ensures StoppedCheck(c, r, SUBSCRIBING + rest) == Run(Subscribed(c, r, d), rest, Finished)
  {
    var s2 := [YES] + rest;
    var s1 := [STILL] + s2;
    assert SUBSCRIBING + rest == [STILL] + s1 && s1[1..] == s2 && s2[1..] == rest;
    GoesStraight(c, r, s1);
    var c1 := AddLink(c, d.address);
    EnvOne(c, Free);
    EnvOne(c1, Free);
    assert ProcessQueuedSubscription(c, r, d, s1) == AwaitLink(c1, r, d, s2);
  }

  /** A request served before the others. */
  lemma ServeFirst(c: Client, r: Request, rs: seq<Request>, s: Script)
    requires Process(c, r, s).out.Finished?
    ensures var o := Process(c, r, s); Serve(c, [r] + rs, s) == Serve(o.c, rs, o.rest)
  {
    assert ([r] + rs)[1..] == rs;
  }
}
