/** What a receive is answered, by what comes in while it waits and drains. */
module ReceiveVerdicts {
  import opened Wrappers
  import opened Destinations
  import opened ClientState
  import opened ReceivePath
  import opened RequestLoop
  import opened Traces

  /** The ticks of a receive up to the wait for its message: those that lead to the attempt, the check of the sockets,
      the opening of the link, and those at which nothing has come in. */
  datatype Opening = Opening(w: Script, up: Tick, go: Tick, check: Tick, open: Tick, empty: Script)

  function TicksOf(o: Opening): Script {
    o.w + [o.up, o.go] + ([o.check, o.open] + o.empty)
  }

  /** What the check of the messenger makes of the state: a takeover stops a started client, any other error text and
      closed sockets make it retry. */
  function CheckedState(c: Client, t: Tick): State {
    if !c.impl || c.state != Started then c.state
    else if t.text == Takeover then Stopped
    else if t.text == OtherText || !t.flag then Retrying
    else Started
  }

  /** The client after the check, at the opening, just after it, and after the empty wait. */
  function Checked(c: Client, o: Opening): Client {
    var c1 := Env(Ready(c, o.w, o.up, o.go), o.check.events);
    c1.(state := CheckedState(c1, o.check))
  }

  function AtOpen(c: Client, o: Opening): Client {
    Env(Checked(c, o), o.open.events)
  }

  /** The link at `a` has got one credit, out of drain mode, if it had none. */
  function Opened(c: Client, o: Opening, a: Address): Client
    requires a in AtOpen(c, o).m.links
  {
    WithCredit(AtOpen(c, o), a)
  }

  function WithCredit(c: Client, a: Address): Client
    requires a in c.m.links
  {
    var safe := !c.connecting && (c.state == Started ==> c.m.incoming == []);
    var link := if c.m.links[a].credit == 0 then Link(1, false) else c.m.links[a];
    c.(m := c.m.(links := c.m.links[a := link]),
       history := c.history.(unguarded := c.history.unguarded || !safe))
  }

  function Waited(c: Client, o: Opening, a: Address): Client
    requires a in AtOpen(c, o).m.links
  {
    After(Opened(c, o, a), o.empty)
  }

  ghost predicate Opens(c: Client, r: Request, o: Opening, d: Destination) {
    && Reaches(c, r, o.w, o.up, o.go)
    && AtOpen(c, o).impl && d.address in AtOpen(c, o).m.links
    && (o.open.fault == Fine || o.open.fault == TimeoutFault)
  }

  /** Through `s` the client is started, nothing has come in, and no timeout fires. */
  ghost predicate StaysEmpty(c: Client, r: Request, s: Script) {
    forall k :: 0 <= k < |s| ==>
      !Fires(r, s[k]) && At(c, s, k).impl && At(c, s, k).state == Started && At(c, s, k).m.incoming == []
  }

  /** A receive of `d` that has opened its link and waits. */
  ghost predicate Receives(c: Client, r: Request, o: Opening, d: Destination) {
    r.op == Receive(d) && Opens(c, r, o, d) && StaysEmpty(Opened(c, o, d.address), r, o.empty)
  }

  lemma {:induction false} EmptyWait(c: Client, r: Request, d: Destination, g: nat, s: Script, rest: Script)
    requires StaysEmpty(c, r, s)
    ensures AwaitMessage(c, r, d, g, s + rest) == AwaitMessage(After(c, s), r, d, g, rest)
    decreases |s|
  {
    if s == [] {
      assert s + rest == rest;
    } else {
      var c1 := Env(c, s[0].events);
      AtFirst(c, s);
      assert (s + rest)[0] == s[0] && (s + rest)[1..] == s[1..] + rest;
      forall k | 0 <= k < |s[1..]|
        ensures !Fires(r, s[1..][k]) && At(c1, s[1..], k).impl
        ensures At(c1, s[1..], k).state == Started && At(c1, s[1..], k).m.incoming == []
      {
        assert At(c, s, k + 1) == At(c1, s[1..], k);
      }
      EmptyWait(c1, r, d, g, s[1..], rest);
    }
  }

  lemma CheckDecides(c: Client, t: Tick)
    ensures CheckOutOfSequence(c, t) == c.(state := CheckedState(c, t))
  {
  }

  lemma ChecksFirst(c: Client, r: Request, o: Opening, d: Destination, rest: Script)
    requires r.op == Receive(d) && Reaches(c, r, o.w, o.up, o.go)
    ensures Process(c, r, o.w + [o.up, o.go] + ([o.check] + rest))
         == AfterAttempt(OpenForMessage(Checked(c, o), r, d, rest), r)
    ensures Checked(c, o).replies == c.replies
  {
    var c1 := Ready(c, o.w, o.up, o.go);
    Begins(c, r, o.w, o.up, o.go, [o.check] + rest);
    CheckDecides(Env(c1, o.check.events), o.check);
    AfterKeeps(c, o.w);
    assert ([o.check] + rest)[1..] == rest;
  }

  lemma OpensLink(c: Client, r: Request, d: Destination, t: Tick, rest: Script)
    requires
      var c1 := Env(c, t.events);
      c1.impl && d.address in c1.m.links && (t.fault == Fine || t.fault == TimeoutFault)
    ensures
      var c1 := Env(c, t.events);
      OpenForMessage(c, r, d, [t] + rest) == AwaitMessage(WithCredit(c1, d.address), r, d, c1.m.gen, rest)
  {
    assert ([t] + rest)[1..] == rest;
    IsGranted(Env(c, t.events), d.address);
  }

  lemma IsGranted(c: Client, a: Address)
    requires a in c.m.links
    ensures GrantCredit(c, a) == WithCredit(c, a)
  {
    assert c.m.links[a := c.m.links[a]] == c.m.links;
  }

  lemma Attempts(c: Client, r: Request, o: Opening, d: Destination, rest: Script)
    requires Receives(c, r, o, d)
    ensures Process(c, r, TicksOf(o) + rest)
         == AfterAttempt(AwaitMessage(Waited(c, o, d.address), r, d, AtOpen(c, o).m.gen, rest), r)
    ensures Waited(c, o, d.address).replies == c.replies
  {
    var s2 := o.empty + rest;
    var s1 := [o.open] + s2;
    assert TicksOf(o) + rest == o.w + [o.up, o.go] + ([o.check] + s1);
    ChecksFirst(c, r, o, d, s1);
    OpensLink(Checked(c, o), r, d, o.open, s2);
    EmptyWait(Opened(c, o, d.address), r, d, AtOpen(c, o).m.gen, o.empty, rest);
    AfterKeeps(Opened(c, o, d.address), o.empty);
  }

  // ----- The end of the wait.

  /** At `t` the wait is over: something has come in, or the client is started no more. */
  ghost predicate Sees(c: Client, r: Request, t: Tick) {
    var c1 := Env(c, t.events);
    !Fires(r, t) && c1.impl && (c1.m.incoming != [] || c1.state != Started)
  }

  lemma IsSeen(c: Client, r: Request, d: Destination, g: nat, t: Tick, rest: Script)
    requires Sees(c, r, t)
    ensures AwaitMessage(c, r, d, g, [t] + rest) == DecidePresent(Env(c, t.events), r, d, g, rest)
  {
    assert ([t] + rest)[1..] == rest;
  }

  /** And at the next tick the client is started, so that the receive goes on to collect. */
  lemma IsSure(c: Client, r: Request, d: Destination, g: nat, t: Tick, rest: Script)
    requires !Fires(r, t) && Env(c, t.events).state == Started
    ensures DecidePresent(c, r, d, g, [t] + rest) == CollectMessage(Env(c, t.events), r, d, rest)
  {
    assert ([t] + rest)[1..] == rest;
  }

  /** The ticks from the sight of something on. */
  datatype Sight = Sight(seen: Tick, sure: Tick)

  function SightOf(c: Client, x: Sight): Client {
    Env(Env(c, x.seen.events), x.sure.events)
  }

  ghost predicate Sighted(c: Client, r: Request, x: Sight) {
    Sees(c, r, x.seen) && !Fires(r, x.sure) && SightOf(c, x).state == Started
  }

  lemma Collects(c: Client, r: Request, o: Opening, d: Destination, x: Sight, rest: Script)
    requires Receives(c, r, o, d) && Sighted(Waited(c, o, d.address), r, x)
    ensures
      var c1 := SightOf(Waited(c, o, d.address), x);
      Process(c, r, TicksOf(o) + ([x.seen, x.sure] + rest)) == AfterAttempt(CollectMessage(c1, r, d, rest), r)
    ensures SightOf(Waited(c, o, d.address), x).replies == c.replies
  {
    var c0 := Waited(c, o, d.address);
    assert [x.seen, x.sure] + rest == [x.seen] + ([x.sure] + rest);
    Attempts(c, r, o, d, [x.seen] + ([x.sure] + rest));
    IsSeen(c0, r, d, AtOpen(c, o).m.gen, x.seen, [x.sure] + rest);
    IsSure(Env(c0, x.seen.events), r, d, AtOpen(c, o).m.gen, x.sure, rest);
  }

  /** The ticks of the hand-over: the get, the making of the delivery, and the acknowledgement if there is one. */
  datatype Handing = Handing(take: Tick, hand: Tick, ack: Tick)

  /** Whether a message of `d` is acknowledged. */
  predicate Acknowledged(d: Destination) {
    d.qos == 0 || (d.qos == 1 && d.autoConfirm)
  }

  function HandingOf(x: Handing, d: Destination): Script {
    [x.take, x.hand] + if Acknowledged(d) then [x.ack] else []
  }

  /** The client with a message at hand, when it takes it, and with the message taken. */
  function AtTake(c: Client, x: Handing): Client {
    Env(c, x.take.events)
  }

  function WithTaken(c: Client, x: Handing): Client
    requires AtTake(c, x).m.incoming != []
  {
    var c1 := AtTake(c, x);
    c1.(m := c1.m.(incoming := c1.m.incoming[1..], tracker := Some(c1.m.incoming[0])))
  }

  ghost predicate Takes(c: Client, x: Handing) {
    AtTake(c, x).impl && x.take.fault == Fine && AtTake(c, x).m.incoming != [] && !x.take.flag
  }

  ghost predicate Hands(c: Client, x: Handing) {
    Takes(c, x) && Env(WithTaken(c, x), x.hand.events).impl && !x.hand.flag
  }

  lemma TakesHead(c: Client, r: Request, d: Destination, x: Handing, rest: Script)
    requires Takes(c, x)
    ensures CollectMessage(c, r, d, [x.take] + rest)
         == HandOver(WithTaken(c, x), r, d, AtTake(c, x).m.incoming[0], rest)
  {
    assert ([x.take] + rest)[1..] == rest;
  }

  /** The message that is handed over is the head of the queue; it is replied before it is acknowledged. */
  lemma HandsHead(c: Client, r: Request, d: Destination, x: Handing, rest: Script)
    requires Hands(c, x)
    ensures CollectMessage(c, r, d, [x.take, x.hand] + rest) == Acknowledge(Handed(c, r, x), d, rest)
    ensures Handed(c, r, x).replies == c.replies + [Reply(r, Delivered(AtTake(c, x).m.incoming[0]))]
  {
    var s1 := [x.hand] + rest;
    assert [x.take, x.hand] + rest == [x.take] + s1 && s1[1..] == rest;
    TakesHead(c, r, d, x, s1);
  }

  /** The client that has replied with its message. */
  function Handed(c: Client, r: Request, x: Handing): Client
    requires AtTake(c, x).m.incoming != []
  {
    var msg := AtTake(c, x).m.incoming[0];
    var c1 := Env(WithTaken(c, x), x.hand.events);
    var m := if msg.gen == c1.m.gen then c1.m.(handed := c1.m.handed + [msg]) else c1.m;
    c1.(replies := c1.replies + [Reply(r, Delivered(msg))], m := m)
  }

  lemma AcknowledgesFine(c: Client, d: Destination, t: Tick, rest: Script)
    requires Acknowledged(d) ==> Env(c, t.events).impl && t.fault == Fine
    ensures
      var o := Acknowledge(c, d, (if Acknowledged(d) then [t] else []) + rest);
      o.out == Finished && o.rest == rest && o.c.replies == c.replies
  {
    if Acknowledged(d) { assert ([t] + rest)[1..] == rest; } else { assert [] + rest == rest; }
  }

  /** The collect ends with the message at the head of the queue as the reply. */
  lemma Delivers(c: Client, r: Request, d: Destination, x: Handing, rest: Script)
    requires Hands(c, x)
    requires Acknowledged(d) ==> Env(Handed(c, r, x), x.ack.events).impl && x.ack.fault == Fine
    ensures
      var o := CollectMessage(c, r, d, HandingOf(x, d) + rest);
      && o.out == Finished && o.rest == rest
      && o.c.replies == c.replies + [Reply(r, Delivered(AtTake(c, x).m.incoming[0]))]
  {
    var s := (if Acknowledged(d) then [x.ack] else []) + rest;
    assert HandingOf(x, d) + rest == [x.take, x.hand] + s;
    HandsHead(c, r, d, x, s);
    AcknowledgesFine(Handed(c, r, x), d, x.ack, rest);
  }

  lemma StaysFinished(a: Run, r: Request)
    requires a.out == Finished
    ensures AfterAttempt(a, r) == a
  {
  }

  /** It is answered once, by `body`, and its ticks are used up. */
  ghost predicate AnsweredBy(c: Client, r: Request, o: Run, body: Body, rest: Script) {
    o.out == Finished && o.rest == rest && o.c.replies == c.replies + [Reply(r, body)]
  }

  /** A receive that sees a message while it waits is answered with the head of the queue. */
  lemma MessageIsDelivered(c: Client, r: Request, o: Opening, d: Destination, x: Sight, y: Handing, rest: Script)
    requires Receives(c, r, o, d) && Sighted(Waited(c, o, d.address), r, x)
    requires
      var c1 := SightOf(Waited(c, o, d.address), x);
      Hands(c1, y) && (Acknowledged(d) ==> Env(Handed(c1, r, y), y.ack.events).impl && y.ack.fault == Fine)
    ensures
      var msg := AtTake(SightOf(Waited(c, o, d.address), x), y).m.incoming[0];
      AnsweredBy(c, r, Process(c, r, TicksOf(o) + ([x.seen, x.sure] + (HandingOf(y, d) + rest))), Delivered(msg), rest)
  {
    var c1 := SightOf(Waited(c, o, d.address), x);
    Collects(c, r, o, d, x, HandingOf(y, d) + rest);
    Delivers(c1, r, d, y, rest);
    StaysFinished(CollectMessage(c1, r, d, HandingOf(y, d) + rest), r);
  }

  /** One that finds the client not started at the end of its wait is answered nil. */
  lemma LostWaitAnswersNothing(c: Client, r: Request, o: Opening, d: Destination, x: Sight, rest: Script)
    requires Receives(c, r, o, d) && Sees(Waited(c, o, d.address), r, x.seen)
    requires !Fires(r, x.sure) && SightOf(Waited(c, o, d.address), x).state != Started
    ensures AnsweredBy(c, r, Process(c, r, TicksOf(o) + ([x.seen, x.sure] + rest)), Nothing, rest)
  {
    var c0 := Waited(c, o, d.address);
    var g := AtOpen(c, o).m.gen;
    var s := [x.sure] + rest;
    assert [x.seen, x.sure] + rest == [x.seen] + s && s[1..] == rest;
    Attempts(c, r, o, d, [x.seen] + s);
    IsSeen(c0, r, d, g, x.seen, s);
    StaysFinished(DecidePresent(Env(c0, x.seen.events), r, d, g, s), r);
  }

  // ----- The timeout.

  /** The ticks from the end of the empty wait to the timeout: perhaps one that has seen something, then the one at
      which it fires; then the look at the state and, if the client is started, the start of the drain. */
  datatype Timeout = Timeout(seen: Script, fire: Tick, look: Tick, drain: Tick)

  /** The client when the timeout fires, at the look, and at the start of the drain. */
  function AtFire(c: Client, x: Timeout): Client {
    Env(After(c, x.seen), x.fire.events)
  }

  function AtLook(c: Client, x: Timeout): Client {
    Env(AtFire(c, x), x.look.events)
  }

  function AtDrain(c: Client, x: Timeout): Client {
    Env(AtLook(c, x), x.drain.events)
  }

  ghost predicate TimesOut(c: Client, r: Request, x: Timeout) {
    r.timed && x.fire.fires && (x.seen == [] || (|x.seen| == 1 && Sees(c, r, x.seen[0])))
  }

  lemma TimeoutFires(c: Client, r: Request, d: Destination, g: nat, x: Timeout, rest: Script)
    requires TimesOut(c, r, x)
    ensures AwaitMessage(c, r, d, g, x.seen + ([x.fire] + rest)) == OnTimeout(AtFire(c, x), r, d, g, rest)
  {
    var s := [x.fire] + rest;
    assert s[1..] == rest;
    if x.seen == [] {
      assert x.seen + s == s;
    } else {
      AfterOne(c, x.seen[0]);
      assert x.seen == [x.seen[0]];
      IsSeen(c, r, d, g, x.seen[0], s);
    }
  }

  lemma TimedOutAttempt(c: Client, r: Request, o: Opening, d: Destination, x: Timeout, rest: Script)
    requires Receives(c, r, o, d) && TimesOut(Waited(c, o, d.address), r, x)
    ensures
      var c1 := AtFire(Waited(c, o, d.address), x);
      Process(c, r, TicksOf(o) + (x.seen + ([x.fire] + rest)))
        == AfterAttempt(OnTimeout(c1, r, d, AtOpen(c, o).m.gen, rest), r)
    ensures AtFire(Waited(c, o, d.address), x).replies == c.replies
  {
    Attempts(c, r, o, d, x.seen + ([x.fire] + rest));
    TimeoutFires(Waited(c, o, d.address), r, d, AtOpen(c, o).m.gen, x, rest);
    AfterKeeps(Waited(c, o, d.address), x.seen);
  }

  /** A receive that times out when the client is not started any more is answered nil at once. */
  lemma LateTimeoutAnswersNothing(c: Client, r: Request, o: Opening, d: Destination, x: Timeout, rest: Script)
    requires Receives(c, r, o, d) && TimesOut(Waited(c, o, d.address), r, x)
    requires AtLook(Waited(c, o, d.address), x).state != Started
    ensures AnsweredBy(c, r, Process(c, r, TicksOf(o) + (x.seen + ([x.fire] + ([x.look] + rest)))), Nothing, rest)
  {
    var c1 := AtFire(Waited(c, o, d.address), x);
    var g := AtOpen(c, o).m.gen;
    TimedOutAttempt(c, r, o, d, x, [x.look] + rest);
    assert ([x.look] + rest)[1..] == rest;
    StaysFinished(OnTimeout(c1, r, d, g, [x.look] + rest), r);
  }

  /** The receive's link is on messenger `g`. While that is the client's, the link drains if it is in drain mode with
      credit; of a link of an abandoned messenger the binding may answer anything. */
  predicate Drains(c: Client, a: Address, g: nat, answer: bool) {
    && c.impl && c.state == Started
    && if c.m.gen == g && a in c.m.links then c.m.links[a].drain && c.m.links[a].credit > 0 else answer
  }

  /** The drain is over: the link has no credit left, or the client is started no more. */
  predicate IsOver(c: Client, a: Address, g: nat, answer: bool) {
    && c.impl
    && (c.state != Started || if c.m.gen == g && a in c.m.links then c.m.links[a].credit == 0 else !answer)
  }

  /** Through all of `s` but its last tick the link drains. */
  ghost predicate StaysDraining(c: Client, a: Address, g: nat, answer: bool, s: Script) {
    s != [] ==> Drains(c, a, g, answer) && forall k :: 0 <= k < |s| - 1 ==> Drains(At(c, s, k), a, g, s[k].flag)
  }

  function LastAnswer(answer: bool, s: Script): bool {
    if s == [] then answer else s[|s| - 1].flag
  }

  /** What a receive that times out makes of the client at the end of its drain. */
  function DrainResult(c: Client, r: Request, d: Destination, rest: Script): Run {
    if c.m.incoming != [] then CollectMessage(c, r, d, rest)
    else Run(c.(replies := c.replies + [Reply(r, Nothing)]), rest, Finished)
  }

  lemma {:induction false} DrainGoesOn(
    c: Client, r: Request, d: Destination, g: nat, answer: bool, s: Script, rest: Script)
    requires StaysDraining(c, d.address, g, answer, s)
    ensures DrainLoop(c, r, d, g, answer, s + rest) == DrainLoop(After(c, s), r, d, g, LastAnswer(answer, s), rest)
    decreases |s|
  {
    if s == [] {
      assert s + rest == rest;
    } else {
      var c1 := Env(c, s[0].events);
      AtFirst(c, s);
      assert (s + rest)[0] == s[0] && (s + rest)[1..] == s[1..] + rest;
      forall k | 0 <= k < |s[1..]| - 1 ensures Drains(At(c1, s[1..], k), d.address, g, s[1..][k].flag) {
        assert At(c, s, k + 1) == At(c1, s[1..], k);
      }
      DrainGoesOn(c1, r, d, g, s[0].flag, s[1..], rest);
    }
  }

  /** The client with its link in drain mode, if the link is on its messenger. */
  function Draining(c: Client, a: Address, g: nat): Client {
    if g == c.m.gen && a in c.m.links then
      c.(m := c.m.(links := c.m.links[a := c.m.links[a].(drain := true)]))
    else c
  }

  /** The timeout finds the client started; from there on the link drains. */
  ghost predicate DrainsThrough(c: Client, x: Timeout, a: Address, g: nat, drains: Script) {
    && AtLook(c, x).state == Started && AtDrain(c, x).impl
    && StaysDraining(Draining(AtDrain(c, x), a, g), a, g, x.drain.flag, drains)
  }

  /** To the end. */
  ghost predicate DrainsOut(c: Client, x: Timeout, a: Address, g: nat, drains: Script) {
    && DrainsThrough(c, x, a, g, drains)
    && IsOver(After(Draining(AtDrain(c, x), a, g), drains), a, g, LastAnswer(x.drain.flag, drains))
  }

  lemma DrainsAttempt(c: Client, r: Request, d: Destination, g: nat, x: Timeout, drains: Script, rest: Script)
    requires DrainsThrough(c, x, d.address, g, drains)
    ensures
      var c1 := After(Draining(AtDrain(c, x), d.address, g), drains);
      OnTimeout(AtFire(c, x), r, d, g, [x.look, x.drain] + (drains + rest))
        == DrainLoop(c1, r, d, g, LastAnswer(x.drain.flag, drains), rest)
  {
    var s1 := [x.drain] + (drains + rest);
    var s := [x.look, x.drain] + (drains + rest);
    assert s[0] == x.look && s[1..] == s1 && s1[1..] == drains + rest;
    var c2 := Draining(AtDrain(c, x), d.address, g);
    assert DrainMessage(AtLook(c, x), r, d, g, s1) == DrainLoop(c2, r, d, g, x.drain.flag, drains + rest);
    DrainGoesOn(c2, r, d, g, x.drain.flag, drains, rest);
  }

  /** The ticks of a receive that times out and drains. */
  function DrainTicks(o: Opening, x: Timeout, drains: Script): Script {
    TicksOf(o) + (x.seen + ([x.fire] + ([x.look, x.drain] + drains)))
  }

  /** The client when the drain is over. */
  function Drained(c: Client, o: Opening, x: Timeout, a: Address, drains: Script): Client
    requires a in AtOpen(c, o).m.links
  {
    After(Draining(AtDrain(Waited(c, o, a), x), a, AtOpen(c, o).m.gen), drains)
  }

  lemma TimedOutGoesOn(c: Client, r: Request, o: Opening, d: Destination, x: Timeout, drains: Script, rest: Script)
    requires Receives(c, r, o, d) && TimesOut(Waited(c, o, d.address), r, x)
    requires DrainsThrough(Waited(c, o, d.address), x, d.address, AtOpen(c, o).m.gen, drains)
    ensures
      var c1 := Drained(c, o, x, d.address, drains);
      && c1.replies == c.replies
      && Process(c, r, DrainTicks(o, x, drains) + rest)
           == AfterAttempt(
                DrainLoop(c1, r, d, AtOpen(c, o).m.gen, LastAnswer(x.drain.flag, drains), rest), r)
  {
    var s := [x.look, x.drain] + (drains + rest);
    var g := AtOpen(c, o).m.gen;
    assert DrainTicks(o, x, drains) + rest == TicksOf(o) + (x.seen + ([x.fire] + s));
    TimedOutAttempt(c, r, o, d, x, s);
    DrainsAttempt(Waited(c, o, d.address), r, d, g, x, drains, rest);
    AfterKeeps(Draining(AtDrain(Waited(c, o, d.address), x), d.address, g), drains);
  }

  lemma DrainIsOver(c: Client, r: Request, d: Destination, g: nat, answer: bool, rest: Script)
    requires IsOver(c, d.address, g, answer)
    ensures DrainLoop(c, r, d, g, answer, rest) == DrainResult(c, r, d, rest)
  {
  }

  lemma TimedOutDrains(c: Client, r: Request, o: Opening, d: Destination, x: Timeout, drains: Script, rest: Script)
    requires Receives(c, r, o, d) && TimesOut(Waited(c, o, d.address), r, x)
    requires DrainsOut(Waited(c, o, d.address), x, d.address, AtOpen(c, o).m.gen, drains)
    ensures
      var c1 := Drained(c, o, x, d.address, drains);
      && c1.replies == c.replies
      && Process(c, r, DrainTicks(o, x, drains) + rest) == AfterAttempt(DrainResult(c1, r, d, rest), r)
  {
    var c1 := Drained(c, o, x, d.address, drains);
    TimedOutGoesOn(c, r, o, d, x, drains, rest);
    DrainIsOver(c1, r, d, AtOpen(c, o).m.gen, LastAnswer(x.drain.flag, drains), rest);
  }

  /** A receive on a started client that times out, and whose drain then completes without a message, is answered once,
      with nil; and so is one whose client is started no more while it drains. */
  lemma TimedOutAnswersNothing(
    c: Client, r: Request, o: Opening, d: Destination, x: Timeout, drains: Script, rest: Script)
    requires Receives(c, r, o, d) && TimesOut(Waited(c, o, d.address), r, x)
    requires DrainsOut(Waited(c, o, d.address), x, d.address, AtOpen(c, o).m.gen, drains)
    requires Drained(c, o, x, d.address, drains).m.incoming == []
    ensures AnsweredBy(c, r, Process(c, r, DrainTicks(o, x, drains) + rest), Nothing, rest)
  {
    TimedOutDrains(c, r, o, d, x, drains, rest);
  }

  /** If a message has come in by the end of the drain, it is answered with that. */
  lemma TimedOutAnswersMessage(
    c: Client, r: Request, o: Opening, d: Destination, x: Timeout, drains: Script, y: Handing, rest: Script)
    requires Receives(c, r, o, d) && TimesOut(Waited(c, o, d.address), r, x)
    requires DrainsOut(Waited(c, o, d.address), x, d.address, AtOpen(c, o).m.gen, drains)
    requires
      var c1 := Drained(c, o, x, d.address, drains);
      && c1.m.incoming != [] && Hands(c1, y)
      && (Acknowledged(d) ==> Env(Handed(c1, r, y), y.ack.events).impl && y.ack.fault == Fine)
    ensures
      var msg := AtTake(Drained(c, o, x, d.address, drains), y).m.incoming[0];
      AnsweredBy(c, r, Process(c, r, DrainTicks(o, x, drains) + (HandingOf(y, d) + rest)), Delivered(msg), rest)
  {
    var c1 := Drained(c, o, x, d.address, drains);
    TimedOutDrains(c, r, o, d, x, drains, HandingOf(y, d) + rest);
    Delivers(c1, r, d, y, rest);
    StaysFinished(CollectMessage(c1, r, d, HandingOf(y, d) + rest), r);
  }

  // ----- Receives that fail, or are tried again.

  /** The request fails for `e`, after the replies `news`. */
  ghost predicate FailsAfter(c: Client, r: Request, o: Run, news: seq<Reply>, e: Error, rest: Script) {
    o.out == Rescued(e) && o.rest == rest && o.c.replies == c.replies + news + [Reply(r, Failure(e))]
  }

  lemma Fails(c: Client, a: Run, r: Request, news: seq<Reply>, e: Error)
    requires a.out == Raised(e) && e in {ForeignError, InternalError, QpidError, QpidTimeoutError}
    requires a.c.replies == c.replies + news
    ensures FailsAfter(c, r, AfterAttempt(a, r), news, e, a.rest)
  {
  }

  /** The ticks up to the opening of the link. */
  function OpeningTicks(o: Opening): Script {
    o.w + [o.up, o.go] + ([o.check] + [o.open])
  }

  /** What a receive fails for when its link cannot be opened: no messenger, no link, an error of the messenger. A
      timeout is no failure, and a state error has it tried again. */
  lemma FailedOpen(c: Client, r: Request, o: Opening, d: Destination, rest: Script)
    requires r.op == Receive(d) && Reaches(c, r, o.w, o.up, o.go)
    ensures
      var x, c1 := Process(c, r, OpeningTicks(o) + rest), AtOpen(c, o);
      && (!c1.impl ==> FailsAfter(c, r, x, [], ForeignError, rest))
      && (c1.impl && d.address !in c1.m.links ==> FailsAfter(c, r, x, [], InternalError, rest))
      && (c1.impl && d.address in c1.m.links && o.open.fault == OtherFault ==>
            FailsAfter(c, r, x, [], QpidError, rest))
  {
    var s := [o.open] + rest;
    assert OpeningTicks(o) + rest == o.w + [o.up, o.go] + ([o.check] + s) && s[1..] == rest;
    ChecksFirst(c, r, o, d, s);
    var a, c1 := OpenForMessage(Checked(c, o), r, d, s), AtOpen(c, o);
    if !c1.impl || d.address !in c1.m.links || o.open.fault == OtherFault {
      OpenRaises(Checked(c, o), r, d, o.open, rest);
      assert a.c.replies == c.replies + [];
      Fails(c, a, r, [], a.out.error);
    }
  }

  lemma OpenRaises(c: Client, r: Request, d: Destination, t: Tick, rest: Script)
    requires
      var c1 := Env(c, t.events);
      !c1.impl || d.address !in c1.m.links || t.fault == OtherFault || t.fault == StateFault
    ensures
      var a, c1 := OpenForMessage(c, r, d, [t] + rest), Env(c, t.events);
      && a.rest == rest && a.c.replies == c1.replies
      && a.out == Raised(
           if !c1.impl then ForeignError
           else if d.address !in c1.m.links then InternalError
           else if t.fault == OtherFault then QpidError
           else QpidStateError)
  {
    assert ([t] + rest)[1..] == rest;
  }

  /** The client after a check at `t`. */
  function Rechecked(c: Client, t: Tick): Client {
    var c1 := Env(c, t.events);
    c1.(state := CheckedState(c1, t))
  }

  lemma StateErrorGoesBack(a: Run, r: Request, t: Tick, rest: Script)
    requires a.out == Raised(QpidStateError) && a.rest == [t] + rest
    ensures AfterAttempt(a, r) == Process(Rechecked(a.c, t), r, rest)
  {
    CheckDecides(Env(a.c, t.events), t);
    assert a.rest[1..] == rest;
  }

  /** A state error at the opening of the link: the credit is issued, the messenger is checked, and the receive goes on
      in the state that the check leaves, without a reply. */
  lemma StateErrorIsChecked(c: Client, r: Request, o: Opening, d: Destination, t: Tick, rest: Script)
    requires r.op == Receive(d) && Reaches(c, r, o.w, o.up, o.go) && o.open.fault == StateFault
    requires AtOpen(c, o).impl && d.address in AtOpen(c, o).m.links
    ensures
      var c1 := Rechecked(WithCredit(AtOpen(c, o), d.address), t);
      Process(c, r, OpeningTicks(o) + ([t] + rest)) == Process(c1, r, rest) && c1.replies == c.replies
  {
    var s := [o.open] + ([t] + rest);
    assert OpeningTicks(o) + ([t] + rest) == o.w + [o.up, o.go] + ([o.check] + s) && s[1..] == [t] + rest;
    ChecksFirst(c, r, o, d, s);
    IsGranted(AtOpen(c, o), d.address);
    StateErrorGoesBack(OpenForMessage(Checked(c, o), r, d, s), r, t, rest);
  }

  /** A receive that finds its messenger gone while it waits fails for the exception of a nil messenger. */
  lemma WaitLosesMessenger(c: Client, r: Request, o: Opening, d: Destination, t: Tick, rest: Script)
    requires Receives(c, r, o, d) && !Fires(r, t) && !Env(Waited(c, o, d.address), t.events).impl
    ensures FailsAfter(c, r, Process(c, r, TicksOf(o) + ([t] + rest)), [], ForeignError, rest)
  {
    var s := [t] + rest;
    Attempts(c, r, o, d, s);
    assert s[1..] == rest;
    var a := AwaitMessage(Waited(c, o, d.address), r, d, AtOpen(c, o).m.gen, s);
    assert a.c.replies == c.replies + [];
    Fails(c, a, r, [], ForeignError);
  }

  /** And so does one that finds it gone when it starts to drain, */
  lemma DrainFindsNoMessenger(c: Client, r: Request, o: Opening, d: Destination, x: Timeout, rest: Script)
    requires Receives(c, r, o, d) && TimesOut(Waited(c, o, d.address), r, x)
    requires AtLook(Waited(c, o, d.address), x).state == Started && !AtDrain(Waited(c, o, d.address), x).impl
    ensures FailsAfter(c, r, Process(c, r, DrainTicks(o, x, []) + rest), [], ForeignError, rest)
  {
    var c0 := Waited(c, o, d.address);
    var s1 := [x.drain] + rest;
    var s := [x.look] + s1;
    assert DrainTicks(o, x, []) + rest == TicksOf(o) + (x.seen + ([x.fire] + s));
    TimedOutAttempt(c, r, o, d, x, s);
    assert s[1..] == s1 && s1[1..] == rest;
    var a := OnTimeout(AtFire(c0, x), r, d, AtOpen(c, o).m.gen, s);
    assert a == DrainMessage(AtLook(c0, x), r, d, AtOpen(c, o).m.gen, s1);
    assert a.c.replies == c.replies + [];
    Fails(c, a, r, [], ForeignError);
  }

  /** Or while it drains. */
  lemma DrainLosesMessenger(
    c: Client, r: Request, o: Opening, d: Destination, x: Timeout, drains: Script, rest: Script)
    requires Receives(c, r, o, d) && TimesOut(Waited(c, o, d.address), r, x)
    requires DrainsThrough(Waited(c, o, d.address), x, d.address, AtOpen(c, o).m.gen, drains)
    requires !Drained(c, o, x, d.address, drains).impl
    ensures FailsAfter(c, r, Process(c, r, DrainTicks(o, x, drains) + rest), [], ForeignError, rest)
  {
    TimedOutGoesOn(c, r, o, d, x, drains, rest);
    var c1 := Drained(c, o, x, d.address, drains);
    var a := DrainLoop(c1, r, d, AtOpen(c, o).m.gen, LastAnswer(x.drain.flag, drains), rest);
    assert a.c.replies == c.replies + [];
    Fails(c, a, r, [], ForeignError);
  }

  /** What a receive fails for at the get, before any reply: no messenger, a timeout, another error or an empty queue,
      or a message that cannot be decoded. */
  lemma FailedTake(c: Client, r: Request, o: Opening, d: Destination, x: Sight, t: Tick, rest: Script)
    requires Receives(c, r, o, d) && Sighted(Waited(c, o, d.address), r, x)
    ensures
      var p := Process(c, r, TicksOf(o) + ([x.seen, x.sure] + ([t] + rest)));
      var c1 := Env(SightOf(Waited(c, o, d.address), x), t.events);
      && (!c1.impl ==> FailsAfter(c, r, p, [], ForeignError, rest))
      && (c1.impl && t.fault == TimeoutFault ==> FailsAfter(c, r, p, [], QpidTimeoutError, rest))
      && (c1.impl && t.fault == OtherFault ==> FailsAfter(c, r, p, [], QpidError, rest))
      && (c1.impl && t.fault == Fine && c1.m.incoming == [] ==> FailsAfter(c, r, p, [], QpidError, rest))
      && (c1.impl && t.fault == Fine && c1.m.incoming != [] && t.flag ==>
            FailsAfter(c, r, p, [], ForeignError, rest))
  {
    var s := [t] + rest;
    var c0 := SightOf(Waited(c, o, d.address), x);
    var c1 := Env(c0, t.events);
    assert s[1..] == rest;
    Collects(c, r, o, d, x, s);
    if !(c1.impl && t.fault == Fine && c1.m.incoming != [] && !t.flag) && t.fault != StateFault {
      TakeRaises(c0, r, d, t, rest);
      assert c1.replies == c.replies + [];
      var a := CollectMessage(c0, r, d, s);
      Fails(c, a, r, [], a.out.error);
    } else if !c1.impl {
      TakeRaises(c0, r, d, t, rest);
      assert c1.replies == c.replies + [];
      Fails(c, CollectMessage(c0, r, d, s), r, [], ForeignError);
    }
  }

  lemma TakeRaises(c: Client, r: Request, d: Destination, t: Tick, rest: Script)
    requires var c1 := Env(c, t.events); !(c1.impl && t.fault == Fine && c1.m.incoming != [] && !t.flag)
    ensures
      var a, c1 := CollectMessage(c, r, d, [t] + rest), Env(c, t.events);
      && a.rest == rest && a.c.replies == c1.replies
      && a.out == Raised(
           if !c1.impl then ForeignError
           else if t.fault == TimeoutFault then QpidTimeoutError
           else if t.fault == StateFault then QpidStateError
           else if t.fault == OtherFault || c1.m.incoming == [] then QpidError
           else ForeignError)
  {
    assert ([t] + rest)[1..] == rest;
  }

  /** A state error at the get has it tried again, in the state that the check of the messenger leaves. */
  lemma StateErrorAtTake(
    c: Client, r: Request, o: Opening, d: Destination, x: Sight, t: Tick, u: Tick, rest: Script)
    requires Receives(c, r, o, d) && Sighted(Waited(c, o, d.address), r, x)
    requires Env(SightOf(Waited(c, o, d.address), x), t.events).impl && t.fault == StateFault
    ensures
      var c1 := Rechecked(Env(SightOf(Waited(c, o, d.address), x), t.events), u);
      && Process(c, r, TicksOf(o) + ([x.seen, x.sure] + ([t] + ([u] + rest)))) == Process(c1, r, rest)
      && c1.replies == c.replies
  {
    var c0 := SightOf(Waited(c, o, d.address), x);
    var s := [t] + ([u] + rest);
    assert s[1..] == [u] + rest;
    Collects(c, r, o, d, x, s);
    StateErrorGoesBack(CollectMessage(c0, r, d, s), r, u, rest);
  }

  /** The ticks of a receive that has seen a message, up to its reply. */
  function RepliedTicks(o: Opening, x: Sight, y: Handing): Script {
    TicksOf(o) + ([x.seen, x.sure] + [y.take, y.hand])
  }

  /** It has replied with a message. */
  ghost predicate Replies(c: Client, r: Request, o: Opening, d: Destination, x: Sight, y: Handing) {
    && Receives(c, r, o, d) && Sighted(Waited(c, o, d.address), r, x)
    && Hands(SightOf(Waited(c, o, d.address), x), y)
  }

  function Replied(c: Client, r: Request, o: Opening, d: Destination, x: Sight, y: Handing): Client
    requires Replies(c, r, o, d, x, y)
  {
    Handed(SightOf(Waited(c, o, d.address), x), r, y)
  }

  function MessageOf(c: Client, r: Request, o: Opening, d: Destination, x: Sight, y: Handing): Message
    requires Replies(c, r, o, d, x, y)
  {
    AtTake(SightOf(Waited(c, o, d.address), x), y).m.incoming[0]
  }

  lemma RepliesFirst(c: Client, r: Request, o: Opening, d: Destination, x: Sight, y: Handing, rest: Script)
    requires Replies(c, r, o, d, x, y)
    ensures Process(c, r, RepliedTicks(o, x, y) + rest)
         == AfterAttempt(Acknowledge(Replied(c, r, o, d, x, y), d, rest), r)
    ensures Replied(c, r, o, d, x, y).replies == c.replies + [Reply(r, Delivered(MessageOf(c, r, o, d, x, y)))]
  {
    var c1 := SightOf(Waited(c, o, d.address), x);
    assert RepliedTicks(o, x, y) + rest == TicksOf(o) + ([x.seen, x.sure] + ([y.take, y.hand] + rest));
    Collects(c, r, o, d, x, [y.take, y.hand] + rest);
    HandsHead(c1, r, d, y, rest);
  }

  /** An acknowledgement that finds no messenger fails after the reply. */
  lemma AcknowledgementRaises(
    c: Client, r: Request, o: Opening, d: Destination, x: Sight, y: Handing, t: Tick, rest: Script)
    requires Replies(c, r, o, d, x, y) && Acknowledged(d) && !Env(Replied(c, r, o, d, x, y), t.events).impl
    ensures
      var news := [Reply(r, Delivered(MessageOf(c, r, o, d, x, y)))];
      FailsAfter(c, r, Process(c, r, RepliedTicks(o, x, y) + ([t] + rest)), news, ForeignError, rest)
  {
    var s := [t] + rest;
    RepliesFirst(c, r, o, d, x, y, s);
    assert s[1..] == rest;
    var a := Acknowledge(Replied(c, r, o, d, x, y), d, s);
    Fails(c, a, r, [Reply(r, Delivered(MessageOf(c, r, o, d, x, y)))], ForeignError);
  }

  /** An accept that reports an error at QoS 0 sets :retrying and has the receive tried again, its reply pushed. */
  lemma RefusedAcceptGoesBack(
    c: Client, r: Request, o: Opening, d: Destination, x: Sight, y: Handing, t: Tick, rest: Script)
    requires Replies(c, r, o, d, x, y) && d.qos == 0 && t.fault != Fine
    requires Env(Replied(c, r, o, d, x, y), t.events).impl
    ensures Process(c, r, RepliedTicks(o, x, y) + ([t] + rest))
         == Process(Refused(Replied(c, r, o, d, x, y), t), r, rest)
  {
    var c0 := Replied(c, r, o, d, x, y);
    RepliesFirst(c, r, o, d, x, y, [t] + rest);
    AcceptGoesBack(c0, r, d, t, rest);
  }

  /** The client after an accept at `t` that reports an error. */
  function Refused(c: Client, t: Tick): Client {
    var c1 := Env(c, t.events);
    c1.(state := Retrying, history := c1.history.(failedAfterReply := c1.history.failedAfterReply + 1))
  }

  lemma AcceptGoesBack(c: Client, r: Request, d: Destination, t: Tick, rest: Script)
    requires d.qos == 0 && t.fault != Fine && Env(c, t.events).impl
    ensures AfterAttempt(Acknowledge(c, d, [t] + rest), r) == Process(Refused(c, t), r, rest)
  {
    AcceptRaises(c, d, t, rest);
    LostGoesBack(Acknowledge(c, d, [t] + rest), r);
  }

  lemma AcceptRaises(c: Client, d: Destination, t: Tick, rest: Script)
    requires d.qos == 0 && t.fault != Fine && Env(c, t.events).impl
    ensures
      var c1 := Env(c, t.events);
      var c2 := c1.(history := c1.history.(failedAfterReply := c1.history.failedAfterReply + 1));
      Acknowledge(c, d, [t] + rest) == Run(c2, rest, Raised(NetworkError))
  {
    assert ([t] + rest)[1..] == rest;
  }

  lemma LostGoesBack(a: Run, r: Request)
    requires a.out == Raised(NetworkError)
    ensures AfterAttempt(a, r) == Process(a.c.(state := Retrying), r, a.rest)
  {
  }

  /** A settle that reports an error at QoS 1 changes nothing for the caller; the error text may stop the client or make
      it retry. */
  lemma RefusedSettleIsFinished(
    c: Client, r: Request, o: Opening, d: Destination, x: Sight, y: Handing, t: Tick, rest: Script)
    requires Replies(c, r, o, d, x, y) && d.qos == 1 && d.autoConfirm && t.fault != Fine
    requires Env(Replied(c, r, o, d, x, y), t.events).impl
    ensures
      var p, c1 := Process(c, r, RepliedTicks(o, x, y) + ([t] + rest)), Env(Replied(c, r, o, d, x, y), t.events);
      && AnsweredBy(c, r, p, Delivered(MessageOf(c, r, o, d, x, y)), rest)
      && p.c.state == (match t.text
                       case Takeover => Stopped
                       case OtherText => Retrying
                       case _ => c1.state)
  {
    var s := [t] + rest;
    RepliesFirst(c, r, o, d, x, y, s);
    assert s[1..] == rest;
    StaysFinished(Acknowledge(Replied(c, r, o, d, x, y), d, s), r);
  }
}
