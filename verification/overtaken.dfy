/** What a request comes to when its messenger is freed or replaced under it: runs from a new client. */
module OvertakenRequests {
  import opened Wrappers
  import opened Destinations
  import opened ClientState
  import opened ReceivePath
  import opened SubscriptionPath
  import opened RequestLoop
  import opened Scenarios
  import opened Misrouting

  /** A subscribe, then a receive at the same destination. */
  function SubscribeAndReceive(d: Destination): seq<Request> {
    [Request(1, false, Subscribe(d)), Request(2, false, Receive(d))]
  }

  const STARTUP: Script := [On(SetState(Starting)), On(Connect), On(Activate)]

  lemma PerformsReceive(c: Client, r: Request, d: Destination, s: Script)
    requires r.op == Receive(d)
    ensures Perform(c, r, s) == CheckForMessages(c, r, d, s)
  {
  }

  lemma ServeBoth(d: Destination, s: Script, c: Client, s1: Script)
    requires
      var rs := SubscribeAndReceive(d);
      && Process(NEW_CLIENT, rs[0], s) == Run(c, s1, Finished)
      && !Process(c, rs[1], s1).out.Blocked?
    ensures Serve(NEW_CLIENT, SubscribeAndReceive(d), s).c == Process(c, SubscribeAndReceive(d)[1], s1).c
  {
    var rs := SubscribeAndReceive(d);
    assert rs == [rs[0]] + [rs[1]] && [rs[1]][1..] == [];
    ServeFirst(NEW_CLIENT, rs[0], [rs[1]], s);
  }

  // ----- A second reply.

  /** The ticks of a receive at `a` up to its reply, then the one of the acknowledgement. */
  function AnsweringTicks(a: Address, last: Tick): Script {
    [YES, STILL] + [On(Arrive(a, 7)), STILL, STILL, STILL, last]
  }

  /** A client that can open a receive at `d` and take its message. */
  predicate CanReceive(c: Client, r: Request, d: Destination) {
    && r.op == Receive(d) && !r.timed && c.state == Started && c.impl && c.m.incoming == [] && Settles(d)
    && !c.connecting && d.address in c.m.links && c.m.links[d.address].credit == 0
  }

  /** The client that has replied with the message, and goes on to acknowledge it. */
  function Answered(c: Client, r: Request, d: Destination): Client
    requires CanReceive(c, r, d)
  {
    var msg := Message(d.address, 7, c.m.gen);
    Hand(Get(Happen(GrantCredit(c, d.address), Arrive(d.address, 7))), r, msg)
  }

  lemma Answers(c: Client, r: Request, d: Destination, last: Tick, rest: Script)
    requires CanReceive(c, r, d)
    ensures Perform(c, r, AnsweringTicks(d.address, last) + rest) == Acknowledge(Answered(c, r, d), d, [last] + rest)
  {
    var s2 := [STILL, STILL, STILL] + ([last] + rest);
    var s1 := [On(Arrive(d.address, 7))] + s2;
    assert AnsweringTicks(d.address, last) + rest == [YES, STILL] + s1 && s1[1..] == s2;
    PerformsReceive(c, r, d, [YES, STILL] + s1);
    OpensAndWaits(c, r, d, s1);
    var c1 := GrantCredit(c, d.address);
    EnvOne(c1, Arrive(d.address, 7));
    var c2 := Happen(c1, Arrive(d.address, 7));
    assert AwaitMessage(c1, r, d, c.m.gen, s1) == DecidePresent(c2, r, d, c.m.gen, s2);
    HandsOver(c2, r, d, c.m.gen, Message(d.address, 7, c.m.gen), [last] + rest);
  }

  /** The subscribe has been answered once and the receive twice: with its message, then with `second`. */
  ghost predicate AnswersTwice(d: Destination, s: Script, msg: Message, second: Body) {
    var rs := SubscribeAndReceive(d);
    Serve(NEW_CLIENT, rs, s).c.replies
      == [Reply(rs[0], Nothing), Reply(rs[1], Delivered(msg)), Reply(rs[1], second)]
  }

  /** From the second request of a client whose subscribe went well on. */
  lemma AnswersAfterSubscribe(d: Destination, s: Script, second: Body)
    requires Settles(d)
    requires
      var rs := SubscribeAndReceive(d);
      var c := Subscribed(STARTED_CLIENT, rs[0], d);
      var o := Process(c, rs[1], s);
      && !o.out.Blocked?
      && o.c.replies == c.replies + [Reply(rs[1], Delivered(Message(d.address, 7, 1))), Reply(rs[1], second)]
    ensures AnswersTwice(d, STARTUP + (SUBSCRIBING + s), Message(d.address, 7, 1), second)
  {
    var rs := SubscribeAndReceive(d);
    StartsUp(rs[0], SUBSCRIBING + s);
    Subscribes(STARTED_CLIENT, rs[0], d, s);
    ServeBoth(d, STARTUP + (SUBSCRIBING + s), Subscribed(STARTED_CLIENT, rs[0], d), s);
  }

  // By a messenger that is freed: the client is stopped between the reply and the acknowledgement.

  const FREED: Tick := STILL.(events := [SetState(Stopping), Free])

  lemma FreedAcknowledgement(c: Client, d: Destination)
    requires Settles(d)
    ensures
      var o := Acknowledge(c, d, [FREED]);
      o.out == Raised(ForeignError) && o.rest == [] && o.c.replies == c.replies
  {
    assert FREED.events[1..] == [Free];
    EnvOne(Happen(c, SetState(Stopping)), Free);
  }

  lemma IsRescued(a: Run, r: Request)
    requires a.out == Raised(ForeignError)
    ensures AfterAttempt(a, r) == Rescue(a.c, r, ForeignError, a.rest)
  {
  }

  /** The acknowledgement raises, and the failure is replied too. */
  lemma FreedReceive(c: Client, r: Request, d: Destination)
    requires CanReceive(c, r, d)
    ensures
      var o := Process(c, r, [STILL] + ([STILL] + AnsweringTicks(d.address, FREED)));
      var msg := Message(d.address, 7, c.m.gen);
      && o.out.Rescued?
      && o.c.replies == c.replies + [Reply(r, Delivered(msg)), Reply(r, Failure(ForeignError))]
  {
    var s := AnsweringTicks(d.address, FREED);
    GoesStraight(c, r, [STILL] + s);
    GoesStraight(c, r, s);
    Answers(c, r, d, FREED, []);
    assert s + [] == s && [FREED] + [] == [FREED];
    FreedAcknowledgement(Answered(c, r, d), d);
    IsRescued(Perform(c, r, s), r);
  }

  /** So an acknowledged receive can be answered twice, at QoS 1 as well as at QoS 0, if a call on a messenger that is
      nil raises an exception. */
  lemma FreedReceiveAnswersTwice(d: Destination)
    requires Settles(d)
    ensures exists s, msg :: AnswersTwice(d, s, msg, Failure(ForeignError))
  {
    FreedReceive(Subscribed(STARTED_CLIENT, SubscribeAndReceive(d)[0], d), SubscribeAndReceive(d)[1], d);
    AnswersAfterSubscribe(d, [STILL] + ([STILL] + AnsweringTicks(d.address, FREED)), Failure(ForeignError));
  }

  // By an accept that reports an error: the client reconnects and the receive is tried again.

  const REFUSED: Tick := STILL.(fault := OtherFault)

  lemma RefusedAccept(c: Client, d: Destination, rest: Script)
    requires d.qos == QOS_AT_MOST_ONCE && c.impl
    ensures Acknowledge(c, d, [REFUSED] + rest) == Run(FailAfterReply(c), rest, Raised(NetworkError))
  {
    EnvOne(c, Free);
    assert ([REFUSED] + rest)[1..] == rest;
  }

  /** The client waits for the reconnect with its receive already answered. */
  function Interrupted(c: Client, r: Request, d: Destination): Client
    requires CanReceive(c, r, d)
  {
    FailAfterReply(Answered(c, r, d)).(state := Retrying)
  }

  lemma IsRetried(c: Client, r: Request, d: Destination, rest: Script)
    requires CanReceive(c, r, d) && d.qos == QOS_AT_MOST_ONCE
    ensures Process(c, r, [STILL] + ([STILL] + (AnsweringTicks(d.address, REFUSED) + rest)))
         == Process(Interrupted(c, r, d), r, rest)
  {
    var s := AnsweringTicks(d.address, REFUSED) + rest;
    GoesStraight(c, r, [STILL] + s);
    GoesStraight(c, r, s);
    Answers(c, r, d, REFUSED, rest);
    RefusedAccept(Answered(c, r, d), d, rest);
  }

  /** The proton thread has connected again, but subscribed to nothing yet. */
  function Connecting(c: Client): Client {
    c.(state := Starting, impl := true, connecting := true, m := FreshMessenger(c.m.gen + 1))
  }

  lemma WaitsOn(c: Client, r: Request, t: Tick, rest: Script)
    requires !r.timed && Env(c, t.events).state == Starting
    ensures Process(c, r, [t] + rest) == Process(Env(c, t.events), r, rest)
  {
    assert ([t] + rest)[1..] == rest;
  }

  lemma IsConnecting(c: Client, a: Address)
    requires c.state == Retrying
    ensures Env(c, RECONNECT.events) == Connecting(c)
    ensures Reconnected(Connecting(c), a) == Reconnecting(c, a).(state := Started, connecting := false)
  {
    EnvReconnect(c);
    assert Connecting(c).m.links[a := Link(0, false)] == map[a := Link(0, false)];
  }

  /** The reconnect, up to the second attempt. */
  lemma ReconnectsForRetry(c: Client, r: Request, a: Address, rest: Script)
    requires !r.timed && c.state == Retrying && IsRecorded(c.destinations, a)
    ensures Process(c, r, [RECONNECT] + ([On(Reinstate(a)), On(Activate)] + rest))
         == StoppedCheck(Reconnecting(c, a).(state := Started, connecting := false), r, rest)
  {
    IsConnecting(c, a);
    WaitsOn(c, r, RECONNECT, [On(Reinstate(a)), On(Activate)] + rest);
    Reconnects(Connecting(c), r, a, rest);
  }

  function RefusedScript(d: Destination): Script {
    var again := [RECONNECT] + ([On(Reinstate(d.address)), On(Activate)] + SecondScript(d));
    [STILL] + ([STILL] + (AnsweringTicks(d.address, REFUSED) + again))
  }

  function SecondScript(d: Destination): Script {
    [STILL] + ([YES, STILL] + ([On(Arrive(d.address, 7))] + Epilogue(d)))
  }

  /** The client at the second attempt. */
  function Returned(c: Client, r: Request, d: Destination): Client
    requires CanReceive(c, r, d)
  {
    Reconnecting(Interrupted(c, r, d), d.address).(state := Started, connecting := false)
  }

  /** The second attempt. */
  lemma AnswersAgain(c: Client, r: Request, d: Destination)
    requires CanReceive(c, r, d)
    ensures
      var o := StoppedCheck(c, r, SecondScript(d));
      o.out.Finished? && o.c.replies == c.replies + [Reply(r, Delivered(Message(d.address, 7, c.m.gen)))]
  {
    var s2 := [On(Arrive(d.address, 7))] + Epilogue(d);
    var s1 := [YES, STILL] + s2;
    GoesStraight(c, r, s1);
    PerformsReceive(c, r, d, s1);
    OpensAndWaits(c, r, d, s2);
    MisledWait(GrantCredit(c, d.address), r, d, d.address);
  }

  /** Its client has a new messenger, and the reply to the first. */
  lemma InterruptedAndBack(c: Client, r: Request, d: Destination)
    requires CanReceive(c, r, d) && IsRecorded(c.destinations, d.address)
    ensures Interrupted(c, r, d).state == Retrying && !Interrupted(c, r, d).connecting
    ensures Interrupted(c, r, d).destinations == c.destinations
    ensures
      var c1 := Returned(c, r, d);
      && CanReceive(c1, r, d) && c1.m.gen == c.m.gen + 1
      && c1.replies == c.replies + [Reply(r, Delivered(Message(d.address, 7, c.m.gen)))]
  {
  }

  lemma AnsweredAgain(c: Client, r: Request, d: Destination)
    requires CanReceive(c, r, d) && IsRecorded(c.destinations, d.address)
    ensures
      var o := StoppedCheck(Returned(c, r, d), r, SecondScript(d));
      var msg, msg1 := Message(d.address, 7, c.m.gen), Message(d.address, 7, c.m.gen + 1);
      o.out.Finished? && o.c.replies == c.replies + [Reply(r, Delivered(msg)), Reply(r, Delivered(msg1))]
  {
    InterruptedAndBack(c, r, d);
    AnswersAgain(Returned(c, r, d), r, d);
  }

  lemma RefusedReceive(c: Client, r: Request, d: Destination)
    requires CanReceive(c, r, d) && d.qos == QOS_AT_MOST_ONCE && IsRecorded(c.destinations, d.address)
    ensures Process(c, r, RefusedScript(d)) == StoppedCheck(Returned(c, r, d), r, SecondScript(d))
  {
    IsRetried(c, r, d, [RECONNECT] + ([On(Reinstate(d.address)), On(Activate)] + SecondScript(d)));
    InterruptedAndBack(c, r, d);
    ReconnectsForRetry(Interrupted(c, r, d), r, d.address, SecondScript(d));
  }

  /** At QoS 0 no such call is needed: an accept that reports an error after the reply has the receive tried again, and
      the caller's one receive is answered with two messages. */
  lemma RefusedAcceptAnswersTwice(d: Destination)
    requires d.qos == QOS_AT_MOST_ONCE
    ensures exists s, msg, msg1 :: AnswersTwice(d, s, msg, Delivered(msg1))
  {
    var rs := SubscribeAndReceive(d);
    var c := Subscribed(STARTED_CLIENT, rs[0], d);
    assert c.destinations == [d] && c.destinations[0].address == d.address;
    RefusedReceive(c, rs[1], d);
    AnsweredAgain(c, rs[1], d);
    AnswersAfterSubscribe(d, RefusedScript(d), Delivered(Message(d.address, 7, 2)));
  }

  // ----- A recorded destination without a link.

  /** The link has come up, but before the subscribe looks the connection is lost and replaced. */
  const REPLACED: Tick := YES.(events := [SetState(Retrying), SetState(Starting), Connect, Activate])

  const REPLACING: Script := [STILL, STILL, REPLACED]

  /** The client after a subscribe that a reconnect overtook. */
  function SubscribedTooEarly(r: Request, d: Destination): Client {
    Record(STARTED_CLIENT.(m := FreshMessenger(2)), r, d, Nothing)
  }

  lemma OvertakenWait(c: Client, r: Request, d: Destination, rest: Script)
    requires !r.timed && c == AddLink(STARTED_CLIENT, d.address)
    ensures AwaitLink(c, r, d, [REPLACED] + rest) == Run(SubscribedTooEarly(r, d), rest, Finished)
  {
    var es := REPLACED.events;
    assert es[1..][1..] == [Connect, Activate] && [Connect, Activate][1..] == [Activate];
    var c1 := Happen(Happen(c, SetState(Retrying)), SetState(Starting));
    EnvOne(Happen(c1, Connect), Activate);
    assert Env(c, es) == Env(c1, [Connect, Activate]) == Happen(Happen(c1, Connect), Activate);
    assert ([REPLACED] + rest)[1..] == rest;
  }

  lemma OvertakenSubscribe(r: Request, d: Destination, rest: Script)
    requires r.op == Subscribe(d) && !r.timed
    ensures StoppedCheck(STARTED_CLIENT, r, REPLACING + rest) == Run(SubscribedTooEarly(r, d), rest, Finished)
  {
    var s2 := [REPLACED] + rest;
    var s1 := [STILL] + s2;
    assert REPLACING + rest == [STILL] + s1 && s1[1..] == s2;
    GoesStraight(STARTED_CLIENT, r, s1);
    EnvOne(STARTED_CLIENT, Free);
    OvertakenWait(AddLink(STARTED_CLIENT, d.address), r, d, rest);
  }

  const RECEIVING: Script := [STILL] + ([STILL] + [YES, STILL])

  /** A receive at a destination without a link fails, and changes nothing else. */
  lemma ReceivesNowhere(c: Client, r: Request, d: Destination)
    requires r.op == Receive(d) && !r.timed && c.state == Started && c.impl && d.address !in c.m.links
    ensures
      var o := Process(c, r, RECEIVING);
      && o.out.Rescued? && o.c.replies == c.replies + [Reply(r, Failure(InternalError))]
      && o.c.state == Started && o.c.destinations == c.destinations && o.c.m == c.m
  {
    GoesStraight(c, r, [STILL] + [YES, STILL]);
    GoesStraight(c, r, [YES, STILL]);
    PerformsReceive(c, r, d, [YES, STILL]);
    assert [YES, STILL][1..] == [STILL];
    EnvOne(c, Free);
    assert CheckForMessages(c, r, d, [YES, STILL]) == OpenForMessage(c, r, d, [STILL]);
  }

  /** The subscribe has succeeded and been recorded, the client is started, and yet there is no link. */
  ghost predicate HasNoLink(d: Destination, s: Script) {
    var rs, c := SubscribeAndReceive(d), Serve(NEW_CLIENT, SubscribeAndReceive(d), s).c;
    && c.state == Started && d in c.destinations && d.address !in c.m.links
    && c.replies == [Reply(rs[0], Nothing), Reply(rs[1], Failure(InternalError))]
  }

  lemma ReceiveAfterReconnect(d: Destination, c: Client, s: Script)
    requires c == SubscribedTooEarly(SubscribeAndReceive(d)[0], d)
    requires Process(NEW_CLIENT, SubscribeAndReceive(d)[0], s) == Run(c, RECEIVING, Finished)
    ensures HasNoLink(d, s)
  {
    var rs := SubscribeAndReceive(d);
    assert c.replies == [Reply(rs[0], Nothing)] && c.destinations == [d];
    ReceivesNowhere(c, rs[1], d);
    ServeBoth(d, s, c, RECEIVING);
  }

  /** A subscribe can be answered as a success and be recorded, and the client be started, while there is no link: a
      receive at the destination then fails. */
  lemma OvertakenSubscribeHasNoLink(d: Destination)
    ensures exists s :: HasNoLink(d, s)
  {
    var rs := SubscribeAndReceive(d);
    StartsUp(rs[0], REPLACING + RECEIVING);
    OvertakenSubscribe(rs[0], d, RECEIVING);
    ReceiveAfterReconnect(d, SubscribedTooEarly(rs[0], d), STARTUP + (REPLACING + RECEIVING));
  }
}
