/** The credit and drain protocol of the receive path (OASIS AMQP 1.0 Part 2, sections 2.6.7 and 2.6.8): what makes
    `message?`, which asks the whole messenger, find only messages of the link a receive asked for.

    Between requests nothing is out (`Boundary`). A receive that is under way has one credit or one message out, on
    its own link (`InFlight`), until it has taken the message (`InHand`); after a lost connection it may come back to
    the same link with its credit still there (`Between`). A connect starts from a messenger on which nothing is out.
    Each of these is kept by whatever the others do, and each step of the receive path leads from one to the next. */
module CreditProtocol {
  import opened Wrappers
  import opened Destinations
  import opened ClientState
  import opened ReceivePath
  import opened SendPath
  import opened SubscriptionPath
  import opened RequestLoop

  function Credit(m: Messenger, a: Address): nat {
    if a in m.links then m.links[a].credit else 0
  }

  ghost predicate NoCreditBut(m: Messenger, a: Address) {
    forall b :: b != a ==> Credit(m, b) == 0
  }

  /** No link has credit and nothing is buffered. */
  ghost predicate Quiet(m: Messenger) {
    m.incoming == [] && forall b :: Credit(m, b) == 0
  }

  /** At most one credit or one message is out, and it belongs to the link at `a`. */
  ghost predicate OnlyMine(m: Messenger, a: Address) {
    && NoCreditBut(m, a)
    && Credit(m, a) + |m.incoming| <= 1
    && forall i :: 0 <= i < |m.incoming| ==> m.incoming[i].link == a && m.incoming[i].gen == m.gen
  }

  /** Every message that came in was handed over, in order, or is still buffered. */
  predicate Accounted(m: Messenger) {
    m.arrived == m.handed + m.incoming
  }

  /** What holds between requests. */
  ghost predicate Boundary(c: Client) {
    Accounted(c.m) && (c.state == Started || c.connecting ==> Quiet(c.m))
  }

  /** What holds between the attempts of one receive at `a`. */
  ghost predicate Between(c: Client, a: Address) {
    && Accounted(c.m)
    && (c.connecting ==> Quiet(c.m))
    && (c.state == Started ==> OnlyMine(c.m, a))
  }

  /** What holds while a receive at `a` that was opened on messenger `g` is under way; `live` says that the client
      was started when it opened. */
  ghost predicate InFlight(c: Client, a: Address, g: nat, live: bool) {
    && Accounted(c.m)
    && c.m.gen >= g
    && (c.m.gen > g ==> Quiet(c.m))
    && (c.m.gen == g ==> !c.connecting && if live then OnlyMine(c.m, a) else c.state != Started)
  }

  /** What holds while `msg` has been taken from the messenger but not yet handed over. */
  ghost predicate InHand(c: Client, msg: Message) {
    && Quiet(c.m)
    && msg.gen <= c.m.gen
    && c.m.arrived == if msg.gen == c.m.gen then c.m.handed + [msg] else c.m.handed
  }

  /** Every message replied to a receive came over the link of the destination asked for. */
  ghost predicate Routed(replies: seq<Reply>) {
    forall i :: 0 <= i < |replies| && replies[i].body.Delivered? ==> RoutedReply(replies[i])
  }

  predicate RoutedReply(r: Reply)
    requires r.body.Delivered?
  {
    r.request.op.Receive? && r.body.message.link == r.request.op.destination.address
  }

  // ----- What the others do keeps each of these.

  lemma HappenKeepsQuiet(c: Client, e: Event)
    requires Quiet(c.m)
    ensures Quiet(Happen(c, e).m)
  {
    match e {
      case Arrive(a, _) => assert Credit(c.m, a) == 0;
      case Drained(a) => assert Credit(c.m, a) == 0;
      case Reinstate(a) =>
        forall b ensures Credit(Happen(c, e).m, b) == 0 { assert Credit(c.m, b) == 0; }
      case _ =>
    }
  }

  lemma {:induction false} EnvKeepsBoundary(c: Client, es: seq<Event>)
    requires Boundary(c)
    ensures Boundary(Env(c, es))
    decreases |es|
  {
    if es == [] {
    } else {
      if Quiet(c.m) { HappenKeepsQuiet(c, es[0]); }
      EnvKeepsBoundary(Happen(c, es[0]), es[1..]);
    }
  }

  lemma HappenKeepsOnlyMine(c: Client, e: Event, a: Address)
    requires OnlyMine(c.m, a) && !c.connecting
    ensures Happen(c, e).m.gen == c.m.gen ==> OnlyMine(Happen(c, e).m, a)
  {
    match e {
      case Arrive(b, _) =>
        assert b != a ==> Credit(c.m, b) == 0;
        forall x | x != a ensures Credit(Happen(c, e).m, x) == 0 { assert Credit(c.m, x) == 0; }
      case Drained(b) =>
        forall x | x != a ensures Credit(Happen(c, e).m, x) == 0 { assert Credit(c.m, x) == 0; }
      case _ =>
    }
  }

  lemma HappenKeepsBetween(c: Client, e: Event, a: Address)
    requires Between(c, a)
    ensures Between(Happen(c, e), a)
  {
    if Quiet(c.m) {
      HappenKeepsQuiet(c, e);
    } else {
      if c.state == Started { HappenKeepsOnlyMine(c, e, a); }
    }
  }

  lemma {:induction false} EnvKeepsBetween(c: Client, es: seq<Event>, a: Address)
    requires Between(c, a)
    ensures Between(Env(c, es), a)
    decreases |es|
  {
    if es == [] {
    } else {
      HappenKeepsBetween(c, es[0], a);
      EnvKeepsBetween(Happen(c, es[0]), es[1..], a);
    }
  }

  lemma HappenKeepsInFlight(c: Client, e: Event, a: Address, g: nat, live: bool)
    requires InFlight(c, a, g, live)
    ensures InFlight(Happen(c, e), a, g, live)
  {
    if c.m.gen > g {
      HappenKeepsQuiet(c, e);
    } else if live {
      HappenKeepsOnlyMine(c, e, a);
    }
  }

  lemma {:induction false} EnvKeepsInFlight(c: Client, es: seq<Event>, a: Address, g: nat, live: bool)
    requires InFlight(c, a, g, live)
    ensures InFlight(Env(c, es), a, g, live)
    decreases |es|
  {
    if es == [] {
    } else {
      HappenKeepsInFlight(c, es[0], a, g, live);
      EnvKeepsInFlight(Happen(c, es[0]), es[1..], a, g, live);
    }
  }

  lemma {:induction false} EnvKeepsInHand(c: Client, es: seq<Event>, msg: Message)
    requires InHand(c, msg)
    ensures InHand(Env(c, es), msg)
    decreases |es|
  {
    if es == [] {
    } else {
      HappenKeepsQuiet(c, es[0]);
      EnvKeepsInHand(Happen(c, es[0]), es[1..], msg);
    }
  }

  // ----- The receive, from its last step to its first.

  /** What a receive leaves behind: a clean boundary, or something its next attempt can start from. */
  ghost predicate Sound(o: Run, a: Address) {
    && Routed(o.c.replies)
    && (o.out.Finished? ==> Boundary(o.c))
    && (o.out.Raised? ==> o.out.error != RetryError)
    && (o.out == Raised(NetworkError) || o.out == Raised(QpidStateError) ==> Between(o.c, a))
    && !o.out.TimedOut? && !o.out.Halted? && !o.out.Rescued?
  }

  lemma AcknowledgeIsSound(c: Client, d: Destination, s: Script)
    requires Quiet(c.m) && Accounted(c.m) && Routed(c.replies)
    ensures Sound(Acknowledge(c, d, s), d.address)
  {
    if s != [] {
      EnvKeepsQuiet(c, s[0].events);
    }
  }

  lemma {:induction false} EnvKeepsQuiet(c: Client, es: seq<Event>)
    requires Quiet(c.m) && Accounted(c.m)
    ensures Quiet(Env(c, es).m) && Accounted(Env(c, es).m)
    decreases |es|
  {
    if es == [] {
    } else {
      HappenKeepsQuiet(c, es[0]);
      EnvKeepsQuiet(Happen(c, es[0]), es[1..]);
    }
  }

  lemma HandOverIsSound(c: Client, r: Request, d: Destination, msg: Message, s: Script)
    requires r.op == Receive(d) && InHand(c, msg) && msg.link == d.address && Routed(c.replies)
    ensures Sound(HandOver(c, r, d, msg, s), d.address)
  {
    if s != [] {
      EnvKeepsInHand(c, s[0].events, msg);
      var c1 := Env(c, s[0].events);
      if c1.impl && !s[0].flag {
        assert forall b :: Credit(Hand(c1, r, msg).m, b) == Credit(c1.m, b);
        AcknowledgeIsSound(Hand(c1, r, msg), d, s[1..]);
      }
    }
  }

  lemma CollectIsSound(c: Client, r: Request, d: Destination, g: nat, live: bool, s: Script)
    requires r.op == Receive(d) && InFlight(c, d.address, g, live) && (live || c.m.gen > g) && Routed(c.replies)
    ensures Sound(CollectMessage(c, r, d, s), d.address)
  {
    if s != [] {
      EnvKeepsInFlight(c, s[0].events, d.address, g, live);
      var c1 := Env(c, s[0].events);
      if c1.impl && s[0].fault == Fine && c1.m.incoming != [] && !s[0].flag {
        forall b ensures Credit(Get(c1).m, b) == 0 { assert b != d.address ==> Credit(c1.m, b) == 0; }
        HandOverIsSound(Get(c1), r, d, c1.m.incoming[0], s[1..]);
      }
    }
  }

  lemma AnswerNothingIsSound(c: Client, r: Request, a: Address, s: Script)
    requires Boundary(c) && Routed(c.replies)
    ensures Sound(AnswerNothing(c, r, s), a)
  {
  }

  lemma {:induction false} DrainLoopIsSound(
    c: Client, r: Request, d: Destination, g: nat, live: bool, stale: bool, s: Script)
    requires r.op == Receive(d) && InFlight(c, d.address, g, live) && (live || c.m.gen > g) && Routed(c.replies)
    requires g == c.m.gen && d.address in c.m.links ==> c.m.links[d.address].drain
    ensures Sound(DrainLoop(c, r, d, g, stale, s), d.address)
    decreases |s|
  {
    if !c.impl {
    } else if StillDraining(c, d.address, g, stale) && c.state == Started {
      if s != [] {
        EnvKeepsInFlight(c, s[0].events, d.address, g, live);
        EnvKeepsDrain(c, s[0].events, d.address, g);
        DrainLoopIsSound(Env(c, s[0].events), r, d, g, live, s[0].flag, s[1..]);
      }
    } else if c.m.incoming != [] {
      CollectIsSound(c, r, d, g, live, s);
    } else {
      assert c.state == Started && c.m.gen == g ==> Credit(c.m, d.address) == 0;
      AnswerNothingIsSound(c, r, d.address, s);
    }
  }

  /** Drain mode lasts until the next pn_link_flow, which only an open issues. */
  lemma {:induction false} EnvKeepsDrain(c: Client, es: seq<Event>, a: Address, g: nat)
    requires c.m.gen >= g
    requires g == c.m.gen ==> !c.connecting
    requires g == c.m.gen && a in c.m.links ==> c.m.links[a].drain
    ensures var c' := Env(c, es); g == c'.m.gen && a in c'.m.links ==> c'.m.links[a].drain
    decreases |es|
  {
    if es == [] {
    } else {
      EnvKeepsDrain(Happen(c, es[0]), es[1..], a, g);
    }
  }

  lemma DrainIsSound(c: Client, r: Request, d: Destination, g: nat, live: bool, s: Script)
    requires r.op == Receive(d) && InFlight(c, d.address, g, live) && (live || c.m.gen > g) && Routed(c.replies)
    ensures Sound(DrainMessage(c, r, d, g, s), d.address)
  {
    if s != [] {
      EnvKeepsInFlight(c, s[0].events, d.address, g, live);
      var c1 := Env(c, s[0].events);
      if c1.impl {
        var c2 := StartDrain(c1, d.address, g);
        assert forall b :: Credit(c2.m, b) == Credit(c1.m, b);
        DrainLoopIsSound(c2, r, d, g, live, s[0].flag, s[1..]);
      }
    }
  }

  lemma OnTimeoutIsSound(c: Client, r: Request, d: Destination, g: nat, live: bool, s: Script)
    requires r.op == Receive(d) && InFlight(c, d.address, g, live) && Routed(c.replies)
    ensures Sound(OnTimeout(c, r, d, g, s), d.address)
  {
    if s != [] {
      EnvKeepsInFlight(c, s[0].events, d.address, g, live);
      var c1 := Env(c, s[0].events);
      if c1.state == Started {
        DrainIsSound(c1, r, d, g, live, s[1..]);
      } else {
        AnswerNothingIsSound(c1, r, d.address, s[1..]);
      }
    }
  }

  lemma DecideIsSound(c: Client, r: Request, d: Destination, g: nat, live: bool, s: Script)
    requires r.op == Receive(d) && InFlight(c, d.address, g, live) && Routed(c.replies)
    ensures Sound(DecidePresent(c, r, d, g, s), d.address)
  {
    if s != [] {
      EnvKeepsInFlight(c, s[0].events, d.address, g, live);
      var c1 := Env(c, s[0].events);
      if r.timed && s[0].fires {
        OnTimeoutIsSound(c1, r, d, g, live, s[1..]);
      } else if c1.state == Started {
        CollectIsSound(c1, r, d, g, live, s[1..]);
      } else {
        AnswerNothingIsSound(c1, r, d.address, s[1..]);
      }
    }
  }

  lemma {:induction false} AwaitIsSound(c: Client, r: Request, d: Destination, g: nat, live: bool, s: Script)
    requires r.op == Receive(d) && InFlight(c, d.address, g, live) && Routed(c.replies)
    ensures Sound(AwaitMessage(c, r, d, g, s), d.address)
    decreases |s|
  {
    if s == [] {
    } else {
      EnvKeepsInFlight(c, s[0].events, d.address, g, live);
      var c1 := Env(c, s[0].events);
      if r.timed && s[0].fires {
        OnTimeoutIsSound(c1, r, d, g, live, s[1..]);
      } else if c1.impl {
        if c1.m.incoming != [] || c1.state != Started {
          DecideIsSound(c1, r, d, g, live, s[1..]);
        } else {
          AwaitIsSound(c1, r, d, g, live, s[1..]);
        }
      }
    }
  }

  lemma OpenIsSound(c: Client, r: Request, d: Destination, s: Script)
    requires r.op == Receive(d) && Between(c, d.address) && Routed(c.replies)
    requires Clean(OpenForMessage(c, r, d, s).c.history)
    ensures Sound(OpenForMessage(c, r, d, s), d.address)
  {
    if s != [] {
      EnvKeepsBetween(c, s[0].events, d.address);
      var c1 := Env(c, s[0].events);
      if c1.impl && d.address in c1.m.links {
        var c2 := GrantCredit(c1, d.address);
        assert forall b :: b != d.address ==> Credit(c2.m, b) == Credit(c1.m, b);
        if s[0].fault == Fine || s[0].fault == TimeoutFault {
          AwaitIsSound(c2, r, d, c2.m.gen, c1.state == Started, s[1..]);
        }
      }
    }
  }

  lemma CheckIsSound(c: Client, r: Request, d: Destination, s: Script)
    requires r.op == Receive(d) && Between(c, d.address) && Routed(c.replies)
    requires Clean(CheckForMessages(c, r, d, s).c.history)
    ensures Sound(CheckForMessages(c, r, d, s), d.address)
  {
    if s != [] {
      EnvKeepsBetween(c, s[0].events, d.address);
      OpenIsSound(CheckOutOfSequence(Env(c, s[0].events), s[0]), r, d, s[1..]);
    }
  }

  // ----- The other requests leave credit and messages alone.

  ghost predicate Undisturbed(o: Run) {
    Boundary(o.c) && Routed(o.c.replies)
  }

  lemma {:induction false} AwaitOutboundUndisturbed(c: Client, r: Request, g: nat, s: Script)
    requires Boundary(c) && Routed(c.replies)
    ensures Undisturbed(AwaitOutbound(c, r, g, s))
    decreases |s|
  {
    if s == [] {
    } else {
      EnvKeepsBoundary(c, s[0].events);
      var c1 := Env(c, s[0].events);
      if c1.m.hasPut && s[0].flag {
        AwaitOutboundUndisturbed(c1, r, g, s[1..]);
      } else {
        AwaitStatusUndisturbed(c1, r, g, s[1..]);
      }
    }
  }

  lemma JudgeStatusUndisturbed(c: Client, r: Request, g: nat, st: Status, reader: nat, s: Script)
    requires Boundary(c) && Routed(c.replies)
    ensures Undisturbed(JudgeStatus(c, r, g, st, reader, s))
  {
    if s != [] {
      EnvKeepsBoundary(c, s[0].events);
      var o := JudgeStatus(c, r, g, st, reader, s);
      assert o.c.m == Env(c, s[0].events).m && o.c.state == Env(c, s[0].events).state;
    }
  }

  lemma {:induction false} AwaitStatusUndisturbed(c: Client, r: Request, g: nat, s: Script)
    requires Boundary(c) && Routed(c.replies)
    ensures Undisturbed(AwaitStatus(c, r, g, s))
    decreases |s|
  {
    if s == [] {
    } else {
      EnvKeepsBoundary(c, s[0].events);
      var c1 := Env(c, s[0].events);
      if TrackerStatus(c1, s[0]) == Pending && c1.state == Started {
        AwaitStatusUndisturbed(c1, r, g, s[1..]);
      } else {
        JudgeStatusUndisturbed(c1, r, g, TrackerStatus(c1, s[0]), c1.m.gen, s[1..]);
      }
    }
  }

  lemma SendUndisturbed(c: Client, r: Request, s: Script)
    requires Boundary(c) && Routed(c.replies)
    ensures Undisturbed(ProcessQueuedSend(c, r, s))
  {
    if s != [] {
      EnvKeepsBoundary(c, s[0].events);
      var c1 := Env(c, s[0].events);
      assert forall b :: Credit(MarkPut(c1).m, b) == Credit(c1.m, b);
      if c1.impl && s[0].fault == Fine { AwaitOutboundUndisturbed(MarkPut(c1), r, c1.m.gen, s[1..]); }
    }
  }

  lemma {:induction false} AwaitLinkUndisturbed(c: Client, r: Request, d: Destination, s: Script)
    requires Boundary(c) && Routed(c.replies)
    ensures Undisturbed(AwaitLink(c, r, d, s))
    decreases |s|
  {
    if s == [] {
    } else {
      EnvKeepsBoundary(c, s[0].events);
      AwaitLinkUndisturbed(Env(c, s[0].events), r, d, s[1..]);
    }
  }

  lemma SubscribeUndisturbed(c: Client, r: Request, d: Destination, s: Script)
    requires Boundary(c) && Routed(c.replies)
    ensures Undisturbed(ProcessQueuedSubscription(c, r, d, s))
  {
    if s != [] {
      EnvKeepsBoundary(c, s[0].events);
      var c1 := Env(c, s[0].events);
      assert forall b :: Credit(AddLink(c1, d.address).m, b) == Credit(c1.m, b);
      AwaitLinkUndisturbed(AddLink(c1, d.address), r, d, s[1..]);
    }
  }

  lemma {:induction false} AwaitClosedUndisturbed(c: Client, r: Request, d: Destination, g: nat, s: Script)
    requires Boundary(c) && Routed(c.replies)
    ensures Undisturbed(AwaitClosed(c, r, d, g, s))
    decreases |s|
  {
    if s == [] {
    } else {
      EnvKeepsBoundary(c, s[0].events);
      var c1 := Env(c, s[0].events);
      assert forall b :: Credit(RemoveLink(c1, d.address, g).m, b) <= Credit(c1.m, b);
      AwaitClosedUndisturbed(c1, r, d, g, s[1..]);
    }
  }

  lemma PerformUndisturbed(c: Client, r: Request, s: Script)
    requires !r.op.Receive? && Boundary(c) && Routed(c.replies)
    ensures Undisturbed(Perform(c, r, s))
  {
    match r.op {
      case Send(_) => SendUndisturbed(c, r, s);
      case Subscribe(d) => SubscribeUndisturbed(c, r, d, s);
      case Unsubscribe(d) =>
        if s != [] {
          EnvKeepsBoundary(c, s[0].events);
          AwaitClosedUndisturbed(Env(c, s[0].events), r, d, Env(c, s[0].events).m.gen, s[1..]);
        }
    }
  }
}
