/** Which calls are refused and which are pushed, and what those return. */
module CallOutcomes {
  import opened Wrappers
  import opened Destinations
  import opened ClientState
  import opened RequestLoop
  import opened BlockingClients
  import opened Traces
  import S = SendVerdicts
  import R = ReceiveVerdicts

  /** The client at the guard, and when the request is pushed. */
  function Guarded(c: Client, a: Asked): Client {
    Env(c, a.before)
  }

  function Pushed(c: Client, a: Asked): Client {
    Env(Env(c, a.before), a.meanwhile)
  }

  /** A send, a subscribe and a receive are refused for not being started exactly if the client is stopped, an
      unsubscribe exactly if it is not started. */
  lemma NotStartedIff(c: Client, a: Asked, s: Script)
    ensures Call(c, a, s).outcome == Refused(NotStarted) <==>
      if a.request.op.Unsubscribe? then Guarded(c, a).state != Started else Guarded(c, a).state == Stopped
    ensures Call(c, a, s).outcome == Refused(NotStarted) ==>
      Call(c, a, s).c == Guarded(c, a) && Call(c, a, s).rest == s
  {
  }

  /** The guard lets the call pass. */
  predicate Passes(c: Client, a: Asked) {
    if a.request.op.Unsubscribe? then Guarded(c, a).state == Started else Guarded(c, a).state != Stopped
  }

  /** The QoS a call asks for, if it sets the settle modes. */
  function QosOf(op: Op): Option<int> {
    match op
    case Send(qos) => Some(qos)
    case Subscribe(d) => Some(d.qos)
    case _ => None
  }

  /** A destination the call can mean has been recorded. */
  predicate HasMatch(ds: seq<Destination>, op: Op) {
    (op.Receive? || op.Unsubscribe?) ==>
      exists d :: d in ds && d.topicPattern == op.destination.topicPattern && d.share == op.destination.share
  }

  /** Why a call that the guard lets pass is refused after all: a QoS that is neither 0 nor 1; no messenger to set the
      modes of; no such destination; or the shutdown flag. */
  lemma RefusedIff(c: Client, a: Asked, s: Script)
    requires Passes(c, a)
    ensures
      var o, qos := Call(c, a, s).outcome, QosOf(a.request.op);
      var wrong := qos.Some? && qos.value != 0 && qos.value != 1;
      var bare := qos.Some? && !Pushed(c, a).impl;
      var unknown := !HasMatch(Pushed(c, a).destinations, a.request.op);
      && (o == Refused(UnknownQos) <==> wrong)
      && (o == Refused(NoMessenger) <==> !wrong && bare)
      && (o == Refused(Unsubscribed) <==> unknown)
      && (o == Refused(ShutDown) <==> !wrong && !bare && !unknown && a.shutdown)
  {
    var c1 := Pushed(c, a);
    var op := a.request.op;
    if op.Receive? || op.Unsubscribe? {
      var found := FirstMatch(c1.destinations, op.destination.topicPattern, op.destination.share);
      if found.Some? { assert found.value in c1.destinations; }
    }
  }

  /** Nothing stands in the way of the call. */
  ghost predicate IsPushed(c: Client, a: Asked) {
    && Passes(c, a) && !a.shutdown
    && (QosOf(a.request.op).Some? ==> QosOf(a.request.op).value in {0, 1} && Pushed(c, a).impl)
    && HasMatch(Pushed(c, a).destinations, a.request.op)
  }

  /** The first recorded destination with the pattern and the share. */
  ghost predicate IsFirst(ds: seq<Destination>, d: Destination, i: nat) {
    && i < |ds| && ds[i].topicPattern == d.topicPattern && ds[i].share == d.share
    && forall j :: 0 <= j < i ==> !(ds[j].topicPattern == d.topicPattern && ds[j].share == d.share)
  }

  lemma {:induction false} FindsFirst(ds: seq<Destination>, d: Destination) returns (i: nat)
    requires exists e :: e in ds && e.topicPattern == d.topicPattern && e.share == d.share
    ensures IsFirst(ds, d, i) && FirstMatch(ds, d.topicPattern, d.share) == Some(ds[i])
    decreases |ds|
  {
    if ds[0].Match(d.topicPattern, d.share) {
      i := 0;
    } else {
      var e :| e in ds && e.topicPattern == d.topicPattern && e.share == d.share;
      assert e in ds[1..];
      var k := FindsFirst(ds[1..], d);
      i := k + 1;
      forall j | 0 <= j < i ensures !(ds[j].topicPattern == d.topicPattern && ds[j].share == d.share) {
        if j > 0 { assert ds[j] == ds[1..][j - 1]; }
      }
    }
  }

  lemma {:induction false} DeletesFirst(ds: seq<Destination>, i: nat)
    requires i < |ds| && forall j :: 0 <= j < i ==> ds[j] != ds[i]
    ensures Delete(ds, ds[i]) == ds[..i] + ds[i + 1..]
    decreases i
  {
    if i == 0 {
    } else {
      assert ds[0] != ds[i] && ds[1..][i - 1] == ds[i];
      forall j | 0 <= j < i - 1 ensures ds[1..][j] != ds[1..][i - 1] {
        assert ds[j + 1] != ds[i];
      }
      DeletesFirst(ds[1..], i - 1);
    }
  }

  /** A call that nothing stands in the way of is pushed, a send after clearing the reply queue, and returns what the
      command thread answers: the reply at the head of the queue, which is taken off it. A receive is for the first
      recorded destination that matches. It does not return while the request is not done, nor while the queue is empty.
      */
  lemma PushedIsAnswered(c: Client, a: Asked, s: Script)
    requires IsPushed(c, a) && !a.request.op.Unsubscribe?
    ensures
      exists r: Request :: Meant(Pushed(c, a), a.request, r)
        && var o := Process(if r.op.Send? then Pushed(c, a).(replies := []) else Pushed(c, a), r, s);
           var call := Call(c, a, s);
           if o.out.Blocked? then call == CallRun(o.c, o.rest, Outcome.Running)
           else if o.c.replies == [] then call == CallRun(o.c, o.rest, Outcome.Waits)
           else
             && call.outcome == Popped(o.c.replies[0]) && call.rest == o.rest
             && call.c == o.c.(replies := o.c.replies[1..])
  {
    var c1, d := Pushed(c, a), a.request;
    if d.op.Receive? {
      var i := FindsFirst(c1.destinations, d.op.destination);
      assert Meant(c1, d, d.(op := Receive(c1.destinations[i])));
    } else {
      assert Meant(c1, d, d);
    }
  }

  /** The request that is pushed. */
  ghost predicate Meant(c: Client, asked: Request, r: Request) {
    && r.id == asked.id && r.timed == asked.timed
    && match asked.op
       case Receive(d) =>
         r.op.Receive? && exists i: nat :: IsFirst(c.destinations, d, i) && r.op.destination == c.destinations[i]
       case Unsubscribe(d) =>
         r.op.Unsubscribe? && exists i: nat :: IsFirst(c.destinations, d, i) && r.op.destination == c.destinations[i]
       case _ => r.op == asked.op
  }

  /** An unsubscribe pops no reply; when it is over, whether it failed or not, the first destination that matches is no
      longer recorded, and the others are, in their order. */
  lemma UnsubscribeForgets(c: Client, a: Asked, s: Script)
    requires IsPushed(c, a) && a.request.op.Unsubscribe?
    ensures
      exists i: nat :: IsFirst(Pushed(c, a).destinations, a.request.op.destination, i)
        && var ds := Pushed(c, a).destinations;
           var o := Process(Pushed(c, a), a.request.(op := Unsubscribe(ds[i])), s);
           var call := Call(c, a, s);
           if o.out.Blocked? then call.outcome == Outcome.Running
           else
             && call.outcome == Done && call.rest == o.rest
             && call.c == o.c.(destinations := ds[..i] + ds[i + 1..])
  {
    var ds := Pushed(c, a).destinations;
    var i := FindsFirst(ds, a.request.op.destination);
    DeletesFirst(ds, i);
    assert IsFirst(ds, a.request.op.destination, i);
  }

  // ----- From the call to the network and back.

  /** A send whose messenger reports this status returns nil, or raises this. */
  lemma SendReturns(c: Client, a: Asked, w: Script, up: Tick, go: Tick, x: S.Ticks, rest: Script)
    requires IsPushed(c, a) && a.request.op.Send?
    requires
      var c1 := Pushed(c, a).(replies := []);
      var c2 := Ready(c1, w, up, go);
      && Reaches(c1, a.request, w, up, go) && S.Decides(c2, a.request, x) && S.Judged(c2, x).state == Started
      && x.read.status != Aborted
    ensures
      var call := Call(c, a, S.Through(w, up, go, x) + rest);
      && call.rest == rest && call.c.replies == []
      && call.outcome == Popped(Reply(a.request,
           if x.read.status in {Accepted, Settled, Status.Pending, Unknown} then Nothing
           else if x.read.status == Rejected then Failure(RangeError)
           else Failure(InternalError)))
  {
    var c1 := Pushed(c, a).(replies := []);
    S.AnsweredByStatus(c1, a.request, w, up, go, x, rest);
    var o := Process(c1, a.request, S.Through(w, up, go, x) + rest);
    assert o.c.replies[1..] == [];
  }

  /** The request of a receive, for the first recorded destination that matches. */
  ghost predicate IsReceive(c: Client, asked: Request, r: Request, d: Destination) {
    && asked.op.Receive? && r == asked.(op := Receive(d))
    && exists i: nat :: IsFirst(c.destinations, asked.op.destination, i) && d == c.destinations[i]
  }

  lemma ReceiveIsPushed(c: Client, a: Asked, r: Request, d: Destination, s: Script)
    requires IsPushed(c, a) && IsReceive(Pushed(c, a), a.request, r, d) && Pushed(c, a).replies == []
    requires var o := Process(Pushed(c, a), r, s); o.out.Finished? && |o.c.replies| == 1
    ensures
      var o := Process(Pushed(c, a), r, s);
      var call := Call(c, a, s);
      call.outcome == Popped(o.c.replies[0]) && call.c.replies == [] && call.rest == o.rest
  {
    var ds := Pushed(c, a).destinations;
    var i: nat :| IsFirst(ds, a.request.op.destination, i) && d == ds[i];
    var k := FindsFirst(ds, a.request.op.destination);
    assert k == i;
    assert Process(Pushed(c, a), r, s).c.replies[1..] == [];
  }

  /** A receive that times out with nothing to be drained returns nil, */
  lemma TimedOutReceiveReturnsNil(
    c: Client, a: Asked, r: Request, d: Destination, o: R.Opening, x: R.Timeout, drains: Script, rest: Script)
    requires IsPushed(c, a) && IsReceive(Pushed(c, a), a.request, r, d) && Pushed(c, a).replies == []
    requires R.Receives(Pushed(c, a), r, o, d) && R.TimesOut(R.Waited(Pushed(c, a), o, d.address), r, x)
    requires
      R.DrainsOut(R.Waited(Pushed(c, a), o, d.address), x, d.address, R.AtOpen(Pushed(c, a), o).m.gen, drains)
    requires R.Drained(Pushed(c, a), o, x, d.address, drains).m.incoming == []
    ensures
      var call := Call(c, a, R.DrainTicks(o, x, drains) + rest);
      call.outcome == Popped(Reply(r, Nothing)) && call.c.replies == [] && call.rest == rest
  {
    R.TimedOutAnswersNothing(Pushed(c, a), r, o, d, x, drains, rest);
    ReceiveIsPushed(c, a, r, d, R.DrainTicks(o, x, drains) + rest);
  }

  /** And one that sees a message returns it. */
  lemma ReceiveReturnsMessage(
    c: Client, a: Asked, r: Request, d: Destination, o: R.Opening, x: R.Sight, y: R.Handing, rest: Script)
    requires IsPushed(c, a) && IsReceive(Pushed(c, a), a.request, r, d) && Pushed(c, a).replies == []
    requires R.Receives(Pushed(c, a), r, o, d) && R.Sighted(R.Waited(Pushed(c, a), o, d.address), r, x)
    requires
      var c1 := R.SightOf(R.Waited(Pushed(c, a), o, d.address), x);
      && R.Hands(c1, y)
      && (R.Acknowledged(d) ==> Env(R.Handed(c1, r, y), y.ack.events).impl && y.ack.fault == Fine)
    ensures
      var msg := R.AtTake(R.SightOf(R.Waited(Pushed(c, a), o, d.address), x), y).m.incoming[0];
      var call := Call(c, a, R.TicksOf(o) + ([x.seen, x.sure] + (R.HandingOf(y, d) + rest)));
      call.outcome == Popped(Reply(r, Delivered(msg))) && call.c.replies == [] && call.rest == rest
  {
    R.MessageIsDelivered(Pushed(c, a), r, o, d, x, y, rest);
    ReceiveIsPushed(c, a, r, d, R.TicksOf(o) + ([x.seen, x.sure] + (R.HandingOf(y, d) + rest)));
  }
}
