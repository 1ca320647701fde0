/** What the credit protocol guarantees over whole runs, and exactly when it does not. */
module ReceiveTheorems {
  import opened Wrappers
  import opened Destinations
  import opened ClientState
  import opened ReceivePath
  import opened SubscriptionPath
  import opened RequestLoop
  import opened CreditProtocol
  import opened Scenarios

  // ----- A request with all its attempts.

  /** What holds between the attempts of a request. */
  ghost predicate Standing(c: Client, r: Request) {
    Routed(c.replies) && if r.op.Receive? then Between(c, r.op.destination.address) else Boundary(c)
  }

  lemma EnvKeepsStanding(c: Client, es: seq<Event>, r: Request)
    requires Standing(c, r)
    ensures Standing(Env(c, es), r)
  {
    if r.op.Receive? { EnvKeepsBetween(c, es, r.op.destination.address); } else { EnvKeepsBoundary(c, es); }
  }

  lemma CheckKeepsStanding(c: Client, t: Tick, r: Request)
    requires Standing(c, r)
    ensures Standing(CheckOutOfSequence(c, t), r)
  {
  }

  lemma {:induction false} ProcessIsSound(c: Client, r: Request, s: Script)
    requires Standing(c, r) && Clean(Process(c, r, s).c.history)
    ensures var o := Process(c, r, s); Routed(o.c.replies) && (o.out.Blocked? || Boundary(o.c))
    decreases |s|
  {
    if s == [] {
    } else {
      EnvKeepsStanding(c, s[0].events, r);
      var c1 := Env(c, s[0].events);
      if c1.state == Retrying || c1.state == Starting {
        if !(r.timed && !r.op.Receive? && s[0].fires) { ProcessIsSound(c1, r, s[1..]); }
      } else if s[1..] != [] {
        EnvKeepsStanding(c1, s[1].events, r);
        var c2 := Env(c1, s[1].events);
        if c2.state != Stopped {
          var a := Perform(c2, r, s[2..]);
          assert s[1..][1..] == s[2..];
          assert Process(c, r, s) == AfterAttempt(a, r);
          if r.op.Receive? {
            CheckIsSound(c2, r, r.op.destination, s[2..]);
          } else {
            PerformUndisturbed(c2, r, s[2..]);
          }
          AfterAttemptIsSound(a, r, s);
        }
      }
    }
  }

  lemma {:induction false} AfterAttemptIsSound(a: Run, r: Request, s: Script)
    requires |a.rest| < |s| && Clean(AfterAttempt(a, r).c.history)
    requires if r.op.Receive? then Sound(a, r.op.destination.address) else Undisturbed(a)
    ensures var o := AfterAttempt(a, r); Routed(o.c.replies) && (o.out.Blocked? || Boundary(o.c))
    decreases |s|, 1
  {
    if a.out == Raised(NetworkError) {
      ProcessIsSound(a.c.(state := Retrying), r, a.rest);
    } else if a.out == Raised(QpidStateError) {
      if a.rest != [] { StateErrorIsSound(a, r, s); }
    } else if a.out == Raised(RetryError) {
      ProcessIsSound(a.c, r, a.rest);
    } else {
      EndedIsSound(a, r);
    }
  }

  lemma {:induction false} StateErrorIsSound(a: Run, r: Request, s: Script)
    requires |a.rest| < |s| && a.rest != [] && a.out == Raised(QpidStateError) && Standing(a.c, r)
    requires Clean(AfterAttempt(a, r).c.history)
    ensures var o := AfterAttempt(a, r); Routed(o.c.replies) && (o.out.Blocked? || Boundary(o.c))
    decreases |s|, 0
  {
    var c := Env(a.c, a.rest[0].events);
    EnvKeepsStanding(a.c, a.rest[0].events, r);
    CheckKeepsStanding(c, a.rest[0], r);
    ProcessIsSound(CheckOutOfSequence(c, a.rest[0]), r, a.rest[1..]);
  }

  /** An attempt that is not tried again. */
  lemma EndedIsSound(a: Run, r: Request)
    requires !(a.out.Raised? && a.out.error in {NetworkError, QpidStateError, RetryError})
    requires Clean(AfterAttempt(a, r).c.history)
    requires if r.op.Receive? then Sound(a, r.op.destination.address) else Undisturbed(a)
    ensures var o := AfterAttempt(a, r); Routed(o.c.replies) && (o.out.Blocked? || Boundary(o.c))
  {
  }

  // ----- A whole run.

  /** In any run of requests of any kind, from any boundary, in which no receive was opened at a wrong moment or
      ended in an unexpected exception: every message a receive returned came over the link of the destination asked
      for; and at the end, if the client is started, no link has credit, nothing is buffered, and every message that
      came in on the current messenger has been handed over, in order. */
  lemma {:induction false} ReceivesAreRouted(c: Client, rs: seq<Request>, s: Script)
    requires Boundary(c) && Routed(c.replies) && Clean(Serve(c, rs, s).c.history)
    ensures Routed(Serve(c, rs, s).c.replies)
    ensures var o := Serve(c, rs, s); o.out.Finished? ==>
      Boundary(o.c) && (o.c.state == Started ==> Quiet(o.c.m) && o.c.m.arrived == o.c.m.handed)
    decreases |rs|
  {
    if rs == [] {
    } else {
      var o := Process(c, rs[0], s);
      ProcessIsSound(c, rs[0], s);
      if !o.out.Blocked? { ReceivesAreRouted(o.c, rs[1..], o.rest); }
    }
  }

  /** So it is from the first request of a new client on. */
  lemma NewClientIsRouted(rs: seq<Request>, s: Script)
    requires Clean(Serve(NEW_CLIENT, rs, s).c.history)
    ensures Routed(Serve(NEW_CLIENT, rs, s).c.replies)
    ensures var o := Serve(NEW_CLIENT, rs, s); o.out.Finished? ==>
      Boundary(o.c) && (o.c.state == Started ==> Quiet(o.c.m) && o.c.m.arrived == o.c.m.handed)
  {
    ReceivesAreRouted(NEW_CLIENT, rs, s);
  }

  /** A receive that answers nil while the client is still started strands nothing: the drain is over, the credit is
      gone and the queue is empty, so a message that raced with the timeout has been returned instead. */
  lemma NilStrandsNothing(c: Client, r: Request, s: Script)
    requires r.op.Receive? && Boundary(c) && Routed(c.replies)
    requires var o := Process(c, r, s); Clean(o.c.history) && o.out.Finished? && o.c.state == Started
    ensures var m := Process(c, r, s).c.m; m.incoming == [] && m.arrived == m.handed && forall a :: Credit(m, a) == 0
  {
    ProcessIsSound(c, r, s);
  }

  // ----- The guard is exact.

  /** Opening a receive keeps every way it can finish at a clean boundary exactly when the client is openable: no
      connect in progress and, while started, nothing left to be collected. */
  lemma OpenIsSafeIff(c: Client, r: Request, d: Destination)
    requires r.op == Receive(d) && c.impl && d.address in c.m.links
    requires Between(c, d.address) && Routed(c.replies) && (c.state == Started ==> !c.connecting)
    ensures (forall s: Script :: var o := AwaitMessage(GrantCredit(c, d.address), r, d, c.m.gen, s);
                                 o.out.Finished? ==> Boundary(o.c))
        <==> Openable(c)
  {
    var c1 := GrantCredit(c, d.address);
    assert forall b :: b != d.address ==> Credit(c1.m, b) == Credit(c.m, b);
    if Openable(c) {
      forall s: Script
        ensures var o := AwaitMessage(c1, r, d, c.m.gen, s); o.out.Finished? ==> Boundary(o.c)
      {
        AwaitIsSound(c1, r, d, c.m.gen, c.state == Started, s);
      }
    } else if c.connecting {
      ConnectingLeavesCredit(c, c1, r, d);
    } else {
      BufferedLeavesCredit(c, c1, r, d);
    }
  }

  /** Opened while connecting, a receive sees that the client is not started and leaves its credit behind. */
  lemma ConnectingLeavesCredit(c: Client, c1: Client, r: Request, d: Destination)
    requires c.impl && d.address in c.m.links && c1 == GrantCredit(c, d.address)
    requires c.connecting && c.state != Started && Quiet(c.m)
    ensures exists s: Script :: var o := AwaitMessage(c1, r, d, c.m.gen, s); o.out.Finished? && !Boundary(o.c)
  {
    var s := [STILL, STILL];
    assert s[1..] == [STILL];
    assert Env(c1, []) == c1;
    assert AwaitMessage(c1, r, d, c.m.gen, s) == DecidePresent(c1, r, d, c.m.gen, [STILL]);
    var o := AwaitMessage(c1, r, d, c.m.gen, s);
    assert Credit(c.m, d.address) == 0;
    assert o.c.m == c1.m && Credit(c1.m, d.address) == 1;
    assert o.out.Finished? && !Boundary(o.c);
  }

  /** Opened with a message left to be collected, a receive takes that message and leaves its new credit behind. */
  lemma BufferedLeavesCredit(c: Client, c1: Client, r: Request, d: Destination)
    requires c.impl && d.address in c.m.links && c1 == GrantCredit(c, d.address)
    requires c.state == Started && c.m.incoming != [] && OnlyMine(c.m, d.address)
    ensures exists s: Script :: var o := AwaitMessage(c1, r, d, c.m.gen, s); o.out.Finished? && !Boundary(o.c)
  {
    var s := [STILL, STILL, STILL, STILL, STILL];
    assert Env(c1, []) == c1;
    assert s[1..] == [STILL, STILL, STILL, STILL];
    assert s[1..][1..] == [STILL, STILL, STILL];
    assert s[1..][1..][1..] == [STILL, STILL];
    assert s[1..][1..][1..][1..] == [STILL];
    assert AwaitMessage(c1, r, d, c.m.gen, s) == DecidePresent(c1, r, d, c.m.gen, s[1..]);
    assert DecidePresent(c1, r, d, c.m.gen, s[1..]) == CollectMessage(c1, r, d, s[1..][1..]);
    var c2 := Get(c1);
    assert CollectMessage(c1, r, d, s[1..][1..]) == HandOver(c2, r, d, c1.m.incoming[0], [STILL, STILL]);
    var c3 := Hand(c2, r, c1.m.incoming[0]);
    assert Env(c2, []) == c2 && Env(c3, []) == c3;
    assert HandOver(c2, r, d, c1.m.incoming[0], [STILL, STILL]) == Acknowledge(c3, d, [STILL]);
    var o := Acknowledge(c3, d, [STILL]);
    assert Credit(c1.m, d.address) == 1;
    assert o.c.m == c3.m && Credit(c3.m, d.address) == 1;
    assert o.out.Finished? && !Boundary(o.c);
  }
}
