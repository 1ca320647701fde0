/** Two runs, from a new client and without any exception reaching a caller, in which a receive is given a message of
    another destination. */
module Misrouting {
  import opened Wrappers
  import opened Destinations
  import opened ClientState
  import opened ReceivePath
  import opened SubscriptionPath
  import opened RequestLoop
  import opened CreditProtocol
  import opened Scenarios

  // ----- Handing over the message in the queue.

  /** The ticks of a receive at `d` from the sight of a message on. */
  function Epilogue(d: Destination): Script {
    [STILL, STILL, STILL] + if Settles(d) then [STILL] else []
  }

  /** A client that has taken `msg` from its queue, replied with it and acknowledged it. */
  function Taken(c: Client, r: Request, d: Destination, msg: Message): Client
    requires c.m.incoming != []
  {
    var c1 := Hand(Get(c), r, msg);
    if Settles(d) then SettleTracker(c1) else c1
  }

  lemma AcknowledgesOnce(c: Client, d: Destination, rest: Script)
    requires c.impl
    ensures Acknowledge(c, d, (if Settles(d) then [STILL] else []) + rest)
         == Run(if Settles(d) then SettleTracker(c) else c, rest, Finished)
  {
    EnvOne(c, Free);
    if Settles(d) { assert ([STILL] + rest)[1..] == rest; } else { assert [] + rest == rest; }
  }

  /** What a started client takes from its queue it hands over, whoever the message is for. */
  lemma HandsOver(c: Client, r: Request, d: Destination, g: nat, msg: Message, rest: Script)
    requires !r.timed && c.impl && c.state == Started && c.m.incoming == [msg]
    ensures DecidePresent(c, r, d, g, [STILL, STILL, STILL] + rest) == Acknowledge(Hand(Get(c), r, msg), d, rest)
  {
    var s2 := [STILL] + rest;
    var s1 := [STILL] + s2;
    var s := [STILL] + s1;
    assert [STILL, STILL, STILL] + rest == s && s[1..] == s1 && s1[1..] == s2 && s2[1..] == rest;
    EnvOne(c, Free);
    assert DecidePresent(c, r, d, g, s) == CollectMessage(c, r, d, s1);
    var c1 := Get(c);
    assert CollectMessage(c, r, d, s1) == HandOver(c1, r, d, msg, s2);
    EnvOne(c1, Free);
  }

  lemma TakesMessage(c: Client, r: Request, d: Destination, g: nat, msg: Message, rest: Script)
    requires !r.timed && c.impl && c.state == Started && c.m.incoming == [msg]
    ensures DecidePresent(c, r, d, g, Epilogue(d) + rest) == Run(Taken(c, r, d, msg), rest, Finished)
  {
    var s := (if Settles(d) then [STILL] else []) + rest;
    assert Epilogue(d) + rest == [STILL, STILL, STILL] + s;
    HandsOver(c, r, d, g, msg, s);
    AcknowledgesOnce(Hand(Get(c), r, msg), d, rest);
  }

  /** A receive that opens its link and waits. */
  lemma OpensAndWaits(c: Client, r: Request, d: Destination, rest: Script)
    requires c.impl && c.state == Started && d.address in c.m.links
    ensures CheckForMessages(c, r, d, [YES, STILL] + rest)
         == AwaitMessage(GrantCredit(c, d.address), r, d, c.m.gen, rest)
  {
    var s1 := [STILL] + rest;
    assert [YES, STILL] + rest == [YES] + s1 && ([YES] + s1)[1..] == s1 && s1[1..] == rest;
    EnvOne(c, Free);
  }

  // ----- A receive that a reconnect overtakes.

  /** The proton thread has connected again, has subscribed at `a` so far, and is waiting for that link. */
  function Reconnecting(c: Client, a: Address): Client {
    var m := FreshMessenger(c.m.gen + 1).(links := map[a := Link(0, false)]);
    c.(state := Starting, impl := true, connecting := true, m := m)
  }

  /** The client after a receive at `a` that was overtaken. */
  function Overtaken(c: Client, r: Request, a: Address): Client {
    Push(GrantCredit(Reconnecting(c, a), a), r, Nothing)
  }

  /** Opened on the new messenger, the receive sees that the client is not started. */
  lemma OpensTooLate(c: Client, c1: Client, r: Request, d: Destination, rest: Script)
    requires !r.timed && c1.impl && Happen(c1, Reinstate(d.address)) == Reconnecting(c, d.address)
    ensures OpenForMessage(c1, r, d, [On(Reinstate(d.address)), STILL, STILL] + rest)
         == Run(Overtaken(c, r, d.address), rest, Finished)
  {
    var s2 := [On(Reinstate(d.address)), STILL, STILL] + rest;
    var s3 := [STILL, STILL] + rest;
    var s4 := [STILL] + rest;
    assert s2[1..] == s3 && s3[1..] == s4 && s4[1..] == rest;
    EnvOne(c1, Reinstate(d.address));
    var c3 := GrantCredit(Reconnecting(c, d.address), d.address);
    EnvOne(c3, Free);
    assert OpenForMessage(c1, r, d, s2) == AwaitMessage(c3, r, d, c3.m.gen, s3);
    assert AwaitMessage(c3, r, d, c3.m.gen, s3) == DecidePresent(c3, r, d, c3.m.gen, s4);
  }

  lemma IsReconnecting(c: Client, a: Address)
    requires IsRecorded(c.destinations, a) && c.state == Started
    ensures
      var c1 := Env(Happen(c, SetState(Retrying)), RECONNECT.events);
      c1.impl && Happen(c1, Reinstate(a)) == Reconnecting(c, a)
  {
    var c0 := Happen(c, SetState(Retrying));
    EnvReconnect(c0);
    var c1 := Env(c0, RECONNECT.events);
    assert c1 == c.(state := Starting, impl := true, connecting := true, m := FreshMessenger(c.m.gen + 1));
    assert c1.m.links[a := Link(0, false)] == map[a := Link(0, false)];
  }

  function OvertakingScript(a: Address): Script {
    [STILL, On(SetState(Retrying)), RECONNECT, On(Reinstate(a)), STILL, STILL]
  }

  /** A receive at `d` that a reconnect overtakes before its open leaves its credit on the new messenger. */
  lemma OvertakenReceive(c: Client, r: Request, d: Destination, rest: Script)
    requires r.op == Receive(d) && !r.timed && c.state == Started && c.impl && IsRecorded(c.destinations, d.address)
    ensures Process(c, r, OvertakingScript(d.address) + rest) == Run(Overtaken(c, r, d.address), rest, Finished)
  {
    var s3 := [On(Reinstate(d.address)), STILL, STILL] + rest;
    var s2 := [RECONNECT] + s3;
    var s1 := [On(SetState(Retrying))] + s2;
    assert OvertakingScript(d.address) + rest == [STILL] + s1;
    GoesStraight(c, r, s1);
    var c1 := Happen(c, SetState(Retrying));
    GoesOn(c, r, SetState(Retrying), s2);
    ReconnectsFirst(c1, r, d, s3);
    IsReconnecting(c, d.address);
    OpensTooLate(c, Env(c1, RECONNECT.events), r, d, rest);
  }

  /** The check of the sockets finds those of the new connection open. */
  lemma ReconnectsFirst(c: Client, r: Request, d: Destination, rest: Script)
    requires c.state == Retrying
    ensures CheckForMessages(c, r, d, [RECONNECT] + rest) == OpenForMessage(Env(c, RECONNECT.events), r, d, rest)
  {
    EnvReconnect(c);
    assert ([RECONNECT] + rest)[1..] == rest;
  }

  /** The rest of the reconnect: the other destination is subscribed again and the client started. */
  function Reconnected(c: Client, b: Address): Client {
    AddLink(c, b).(state := Started, connecting := false)
  }

  lemma Reconnects(c: Client, r: Request, b: Address, rest: Script)
    requires !r.timed && c.connecting && c.state == Starting && IsRecorded(c.destinations, b)
    ensures Process(c, r, [On(Reinstate(b)), On(Activate)] + rest) == StoppedCheck(Reconnected(c, b), r, rest)
  {
    var s1 := [On(Activate)] + rest;
    assert [On(Reinstate(b)), On(Activate)] + rest == [On(Reinstate(b))] + s1;
    var c1 := AddLink(c, b);
    assert Happen(c, Reinstate(b)) == c1 && c1.state == Starting && c1.connecting;
    WaitsOnce(c, r, Reinstate(b), s1);
    assert Happen(c1, Activate) == Reconnected(c, b);
    WaitsOnce(c1, r, Activate, rest);
  }

  // ----- A receive that is tried again.

  function RetryingScript(a: Address, d: Destination): Script {
    [STILL, STILL, YES, FAULTY, YES, STILL, STILL, YES, On(Arrive(a, 6)), STILL] + Epilogue(d)
  }

  /** The client after a receive at `d` that was opened twice and given one message. */
  function OpenedTwice(c: Client, r: Request, d: Destination): Client
    requires d.address in c.m.links && c.m.links[d.address].credit == 0 && c.impl
  {
    var c1 := Happen(GrantCredit(c, d.address), Arrive(d.address, 6));
    Taken(GrantCredit(c1, d.address), r, d, Message(d.address, 6, c.m.gen))
  }

  /** The second open, after the message that the first credit let in. */
  lemma OpensAgain(c: Client, c1: Client, r: Request, d: Destination, rest: Script)
    requires r.op == Receive(d) && !r.timed && c.state == Started && c.impl && c.m.incoming == []
    requires d.address in c.m.links && c.m.links[d.address].credit == 0 && c1 == GrantCredit(c, d.address)
    ensures Process(c1, r, [STILL, STILL, YES, On(Arrive(d.address, 6)), STILL] + Epilogue(d) + rest)
         == Run(OpenedTwice(c, r, d), rest, Finished)
  {
    var a := d.address;
    var s5 := Epilogue(d) + rest;
    var s4 := [STILL] + s5;
    var s3 := [On(Arrive(a, 6))] + s4;
    var s2 := [YES] + s3;
    var s1 := [STILL] + s2;
    assert [STILL, STILL, YES, On(Arrive(a, 6)), STILL] + Epilogue(d) + rest == [STILL] + s1;
    assert s2[1..] == s3 && s3[1..] == s4 && s4[1..] == s5;
    GoesStraight(c1, r, s1);
    GoesStraight(c1, r, s2);
    EnvOne(c1, Arrive(a, 6));
    assert CheckForMessages(c1, r, d, s2) == OpenForMessage(c1, r, d, s3);
    var c3 := GrantCredit(Happen(c1, Arrive(a, 6)), a);
    EnvOne(c3, Free);
    assert OpenForMessage(c1, r, d, s3) == AwaitMessage(c3, r, d, c.m.gen, s4);
    assert AwaitMessage(c3, r, d, c.m.gen, s4) == DecidePresent(c3, r, d, c.m.gen, s5);
    TakesMessage(c3, r, d, c.m.gen, Message(a, 6, c.m.gen), rest);
  }

  const FAULTY: Tick := STILL.(fault := StateFault)

  /** An open that issues the credit and then reports a state error. */
  lemma FailsToOpen(c: Client, r: Request, d: Destination, rest: Script)
    requires r.op == Receive(d) && !r.timed && c.state == Started && c.impl && d.address in c.m.links
    ensures CheckForMessages(c, r, d, [YES, FAULTY] + rest)
         == Run(GrantCredit(c, d.address), rest, Raised(QpidStateError))
  {
    var s1 := [FAULTY] + rest;
    assert [YES, FAULTY] + rest == [YES] + s1 && ([YES] + s1)[1..] == s1 && s1[1..] == rest;
    EnvOne(c, Free);
  }

  /** The rescue of a state error, when the messenger and the sockets are found in order. */
  lemma StateErrorRetries(c: Client, r: Request, rest: Script)
    requires c.state == Started && c.impl
    ensures AfterAttempt(Run(c, [YES] + rest, Raised(QpidStateError)), r) == Process(c, r, rest)
  {
    assert ([YES] + rest)[1..] == rest;
    EnvOne(c, Free);
  }

  /** When the messenger reports a state error after the credit was issued, the receive is tried again; if its message
      has come in meanwhile it issues another credit, takes the message, and leaves that credit behind. */
  lemma RetriedReceive(c: Client, r: Request, d: Destination, rest: Script)
    requires r.op == Receive(d) && !r.timed && c.state == Started && c.impl && c.m.incoming == []
    requires d.address in c.m.links && c.m.links[d.address].credit == 0
    ensures Process(c, r, RetryingScript(d.address, d) + rest) == Run(OpenedTwice(c, r, d), rest, Finished)
  {
    var s5 := [STILL, STILL, YES, On(Arrive(d.address, 6)), STILL] + Epilogue(d) + rest;
    var s4 := [YES] + s5;
    var s2 := [YES, FAULTY] + s4;
    var s1 := [STILL] + s2;
    assert RetryingScript(d.address, d) + rest == [STILL] + s1;
    GoesStraight(c, r, s1);
    GoesStraight(c, r, s2);
    FailsToOpen(c, r, d, s4);
    var c1 := GrantCredit(c, d.address);
    StateErrorRetries(c1, r, s5);
    OpensAgain(c, c1, r, d, rest);
  }

  // ----- The message that a forgotten credit lets in.

  /** A credit is out at `a` while nothing is buffered. */
  predicate Forgotten(c: Client, a: Address) {
    && c.impl && c.state == Started && !c.connecting && c.m.incoming == []
    && a in c.m.links && c.m.links[a].credit == 1
  }

  function MisleadingScript(a: Address, d: Destination): Script {
    [STILL, YES, STILL, On(Arrive(a, 7))] + Epilogue(d)
  }

  lemma MisledWait(c: Client, r: Request, d: Destination, a: Address)
    requires !r.timed && Forgotten(c, a)
    ensures
      var o := AwaitMessage(c, r, d, c.m.gen, [On(Arrive(a, 7))] + Epilogue(d));
      && o.out.Finished? && o.c.history.faulted == c.history.faulted
      && o.c.replies == c.replies + [Reply(r, Delivered(Message(a, 7, c.m.gen)))]
  {
    var s := [On(Arrive(a, 7))] + Epilogue(d);
    assert s[1..] == Epilogue(d) == Epilogue(d) + [];
    EnvOne(c, Arrive(a, 7));
    var c1 := Happen(c, Arrive(a, 7));
    assert AwaitMessage(c, r, d, c.m.gen, s) == DecidePresent(c1, r, d, c.m.gen, Epilogue(d));
    TakesMessage(c1, r, d, c.m.gen, Message(a, 7, c.m.gen), []);
  }

  /** It reaches the receive at `d`. */
  lemma MisledReceive(c: Client, r: Request, d: Destination, a: Address)
    requires r.op == Receive(d) && !r.timed && d.address != a && Forgotten(c, a) && d.address in c.m.links
    ensures
      var o := StoppedCheck(c, r, MisleadingScript(a, d));
      && o.out.Finished? && o.c.history.faulted == c.history.faulted
      && o.c.replies == c.replies + [Reply(r, Delivered(Message(a, 7, c.m.gen)))]
  {
    var s3 := [On(Arrive(a, 7))] + Epilogue(d);
    var s2 := [YES, STILL] + s3;
    assert MisleadingScript(a, d) == [STILL] + s2;
    GoesStraight(c, r, s2);
    OpensAndWaits(c, r, d, s3);
    MisledWait(GrantCredit(c, d.address), r, d, a);
  }

  // ----- The runs.

  /** Two subscribes, then two receives. */
  function Requests(d1: Destination, d2: Destination): seq<Request> {
    [Request(1, false, Subscribe(d1)), Request(2, false, Subscribe(d2)),
     Request(3, false, Receive(d1)), Request(4, false, Receive(d2))]
  }

  /** The client that has started and subscribed to both. */
  function TwiceSubscribed(d1: Destination, d2: Destination): Client {
    Subscribed(Subscribed(STARTED_CLIENT, Requests(d1, d2)[0], d1), Requests(d1, d2)[1], d2)
  }

  const PROLOGUE: Script := [On(SetState(Starting)), On(Connect), On(Activate)] + SUBSCRIBING + [STILL] + SUBSCRIBING

  lemma SubscribesTwice(d1: Destination, d2: Destination, s: Script)
    ensures Serve(NEW_CLIENT, Requests(d1, d2), PROLOGUE + s)
         == Serve(TwiceSubscribed(d1, d2), Requests(d1, d2)[2..], s)
  {
    var rs := Requests(d1, d2);
    var s2 := SUBSCRIBING + s;
    var s1 := SUBSCRIBING + ([STILL] + s2);
    assert PROLOGUE + s == [On(SetState(Starting)), On(Connect), On(Activate)] + s1;
    StartsUp(rs[0], s1);
    Subscribes(STARTED_CLIENT, rs[0], d1, [STILL] + s2);
    assert rs == [rs[0]] + rs[1..] && rs[1..] == [rs[1]] + rs[2..];
    ServeFirst(NEW_CLIENT, rs[0], rs[1..], PROLOGUE + s);
    var c := Subscribed(STARTED_CLIENT, rs[0], d1);
    GoesStraight(c, rs[1], s2);
    Subscribes(c, rs[1], d2, s);
    ServeFirst(c, rs[1], rs[2..], [STILL] + s2);
  }

  /** A client that has subscribed at `a` and `b` and has no credit out. */
  predicate Ready(c: Client, a: Address, b: Address) {
    && c.state == Started && c.impl && !c.connecting && c.m.incoming == [] && !c.history.faulted
    && IsRecorded(c.destinations, a) && IsRecorded(c.destinations, b)
    && a in c.m.links && b in c.m.links && c.m.links[a].credit == 0
  }

  lemma TwiceSubscribedIsReady(d1: Destination, d2: Destination)
    ensures Ready(TwiceSubscribed(d1, d2), d1.address, d2.address)
  {
    var ds := TwiceSubscribed(d1, d2).destinations;
    assert ds == [d1, d2];
    assert ds[0].address == d1.address && ds[1].address == d2.address;
  }

  /** The two receives are served and a message reaches the wrong one. */
  ghost predicate Misroutes(c: Client, rs: seq<Request>, s: Script) {
    var o := Serve(c, rs, s);
    o.out.Finished? && !o.c.history.faulted && !Routed(o.c.replies)
  }

  /** The second of two receives was given the message of the first one's destination. */
  lemma SecondIsMisled(c: Client, r1: Request, r2: Request, s: Script, c1: Client, s1: Script, msg: Message)
    requires Process(c, r1, s) == Run(c1, s1, Finished) && !c1.history.faulted
    requires r2.op.Receive? && r2.op.destination.address != msg.link
    requires
      var o := Process(c1, r2, s1);
      && o.out.Finished? && o.c.history.faulted == c1.history.faulted
      && o.c.replies == c1.replies + [Reply(r2, Delivered(msg))]
    ensures Misroutes(c, [r1, r2], s)
  {
    var o := Process(c1, r2, s1);
    assert [r1, r2] == [r1] + [r2] && [r2] == [r2] + [];
    ServeFirst(c, r1, [r2], s);
    ServeFirst(c1, r2, [], s1);
    assert Serve(c, [r1, r2], s) == Serve(o.c, [], o.rest);
    assert !RoutedReply(o.c.replies[|c1.replies|]);
  }

  lemma OvertakenIsMisrouted(c: Client, r1: Request, d1: Destination, r2: Request, d2: Destination)
    requires Ready(c, d1.address, d2.address) && d1.address != d2.address
    requires r1.op == Receive(d1) && r2.op == Receive(d2) && !r1.timed && !r2.timed
    ensures exists s :: Misroutes(c, [r1, r2], s)
  {
    var s2 := MisleadingScript(d1.address, d2);
    var s1 := [On(Reinstate(d2.address)), On(Activate)] + s2;
    var s := OvertakingScript(d1.address) + s1;
    OvertakenReceive(c, r1, d1, s1);
    var c1 := Overtaken(c, r1, d1.address);
    Reconnects(c1, r2, d2.address, s2);
    MisledReceive(Reconnected(c1, d2.address), r2, d2, d1.address);
    SecondIsMisled(c, r1, r2, s, c1, s1, Message(d1.address, 7, c1.m.gen));
  }

  lemma RetriedIsMisrouted(c: Client, r1: Request, d1: Destination, r2: Request, d2: Destination)
    requires Ready(c, d1.address, d2.address) && d1.address != d2.address
    requires r1.op == Receive(d1) && r2.op == Receive(d2) && !r1.timed && !r2.timed
    ensures exists s :: Misroutes(c, [r1, r2], s)
  {
    var s2 := MisleadingScript(d1.address, d2);
    var s1 := [STILL] + s2;
    var s := RetryingScript(d1.address, d1) + s1;
    RetriedReceive(c, r1, d1, s1);
    var c1 := OpenedTwice(c, r1, d1);
    LeavesCredit(c, r1, d1, d2.address);
    GoesStraight(c1, r2, s2);
    MisledReceive(c1, r2, d2, d1.address);
    SecondIsMisled(c, r1, r2, s, c1, s1, Message(d1.address, 7, c1.m.gen));
  }

  lemma LeavesCredit(c: Client, r: Request, d: Destination, b: Address)
    requires Ready(c, d.address, b)
    ensures var c1 := OpenedTwice(c, r, d); Forgotten(c1, d.address) && b in c1.m.links && !c1.history.faulted
  {
  }

  /** Without the guard routing fails. Both destinations are subscribed to; the receive at the first is overtaken by a
      reconnect and answers nil, but its credit stays; the receive at the second is given the message it lets in. */
  lemma OvertakenReceiveMisroutes(d1: Destination, d2: Destination)
    requires d1.address != d2.address
    ensures exists s :: Misroutes(NEW_CLIENT, Requests(d1, d2), s)
  {
    var rs := Requests(d1, d2);
    TwiceSubscribedIsReady(d1, d2);
    OvertakenIsMisrouted(TwiceSubscribed(d1, d2), rs[2], d1, rs[3], d2);
    MisroutesFromTheStart(d1, d2);
  }

  /** Nor does it take a reconnect: the receive at the first destination is tried again after a state error and answered
      with its message, and the receive at the second is given the next message of the first. */
  lemma RetriedReceiveMisroutes(d1: Destination, d2: Destination)
    requires d1.address != d2.address
    ensures exists s :: Misroutes(NEW_CLIENT, Requests(d1, d2), s)
  {
    var rs := Requests(d1, d2);
    TwiceSubscribedIsReady(d1, d2);
    RetriedIsMisrouted(TwiceSubscribed(d1, d2), rs[2], d1, rs[3], d2);
    MisroutesFromTheStart(d1, d2);
  }

  lemma MisroutesFromTheStart(d1: Destination, d2: Destination)
    requires exists s :: Misroutes(TwiceSubscribed(d1, d2), [Requests(d1, d2)[2], Requests(d1, d2)[3]], s)
    ensures exists s :: Misroutes(NEW_CLIENT, Requests(d1, d2), s)
  {
    var rs := Requests(d1, d2);
    var s :| Misroutes(TwiceSubscribed(d1, d2), [rs[2], rs[3]], s);
    SubscribesTwice(d1, d2, s);
    assert rs[2..] == [rs[2], rs[3]];
    assert Misroutes(NEW_CLIENT, rs, PROLOGUE + s);
  }
}
