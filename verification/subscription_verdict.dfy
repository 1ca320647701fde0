/** What a subscribe and an unsubscribe are answered, and what they leave recorded. */
module SubscriptionVerdicts {
  import opened Wrappers
  import opened Destinations
  import opened ClientState
  import opened SubscriptionPath
  import opened RequestLoop
  import opened Traces

  /** The ticks of an attempt: those that lead to it, the call on the messenger, and those of the wait. */
  datatype Asking = Asking(w: Script, up: Tick, go: Tick, ask: Tick, waits: Script)

  function TicksOf(x: Asking): Script {
    x.w + [x.up, x.go] + ([x.ask] + x.waits)
  }

  function AtAsk(c: Client, x: Asking): Client {
    Env(Ready(c, x.w, x.up, x.go), x.ask.events)
  }

  /** Through `s` the answer is neither yes nor an error. */
  ghost predicate StaysOpen(c: Client, r: Request, s: Script) {
    forall k :: 0 <= k < |s| ==> !Fires(r, s[k]) && At(c, s, k).impl && !s[k].flag && s[k].fault == Fine
  }

  /** The request fails for `e`, and records nothing. */
  ghost predicate FailsFor(c: Client, r: Request, o: Run, e: Error) {
    && o.out == Rescued(e) && o.c.replies == c.replies + [Reply(r, Failure(e))]
    && o.c.destinations == c.destinations
  }

  lemma Fails(c: Client, a: Run, r: Request, e: Error)
    requires (a.out == Raised(e) && e in {ForeignError, InternalError}) || (a.out == TimedOut && e == TimeoutError)
    requires a.c.replies == c.replies && a.c.destinations == c.destinations
    ensures FailsFor(c, r, AfterAttempt(a, r), e)
  {
  }

  lemma ReadyKeeps(c: Client, w: Script, up: Tick, go: Tick)
    ensures Ready(c, w, up, go).replies == c.replies && Ready(c, w, up, go).destinations == c.destinations
  {
    AfterKeeps(c, w);
  }

  // ----- Subscribe.

  /** The messenger has a link at the address, a new one if it had none. */
  function Linked(c: Client, a: Address): Client {
    if a in c.m.links then c else c.(m := c.m.(links := c.m.links[a := Link(0, false)]))
  }

  /** The client at the end of the wait for the link. */
  function AtEnd(c: Client, x: Asking, d: Destination, t: Tick): Client {
    Env(After(Linked(AtAsk(c, x), d.address), x.waits), t.events)
  }

  ghost predicate Subscribes(c: Client, r: Request, x: Asking, d: Destination) {
    && r.op == Subscribe(d) && Reaches(c, r, x.w, x.up, x.go)
    && AtAsk(c, x).impl && StaysOpen(Linked(AtAsk(c, x), d.address), r, x.waits)
  }

  lemma {:induction false} LinkStaysDown(c: Client, r: Request, d: Destination, s: Script, rest: Script)
    requires StaysOpen(c, r, s)
    ensures AwaitLink(c, r, d, s + rest) == AwaitLink(After(c, s), r, d, rest)
    decreases |s|
  {
    if s == [] {
      assert s + rest == rest;
    } else {
      var c1 := Env(c, s[0].events);
      AtFirst(c, s);
      assert (s + rest)[0] == s[0] && (s + rest)[1..] == s[1..] + rest;
      OpenLater(c, r, s);
      LinkStaysDown(c1, r, d, s[1..], rest);
    }
  }

  lemma OpenLater(c: Client, r: Request, s: Script)
    requires s != [] && StaysOpen(c, r, s)
    ensures StaysOpen(Env(c, s[0].events), r, s[1..])
  {
    AtFirst(c, s);
    var c1, s1 := Env(c, s[0].events), s[1..];
    forall k | 0 <= k < |s1| ensures !Fires(r, s1[k]) && At(c1, s1, k).impl && !s1[k].flag && s1[k].fault == Fine {
      assert At(c, s, k + 1) == At(c1, s1, k);
    }
  }

  lemma SubscribeAttempt(c: Client, r: Request, x: Asking, d: Destination, rest: Script)
    requires Subscribes(c, r, x, d)
    ensures
      var c1 := After(Linked(AtAsk(c, x), d.address), x.waits);
      && Process(c, r, TicksOf(x) + rest) == AfterAttempt(AwaitLink(c1, r, d, rest), r)
      && c1.replies == c.replies && c1.destinations == c.destinations
  {
    var s := x.waits + rest;
    assert TicksOf(x) + rest == x.w + [x.up, x.go] + ([x.ask] + s);
    Begins(c, r, x.w, x.up, x.go, [x.ask] + s);
    assert ([x.ask] + s)[1..] == s;
    LinkStaysDown(Linked(AtAsk(c, x), d.address), r, d, x.waits, rest);
    ReadyKeeps(c, x.w, x.up, x.go);
    AfterKeeps(Linked(AtAsk(c, x), d.address), x.waits);
  }

  /** A subscribe is answered nil when its link comes up, with a SubscribedError when the messenger reports an error
      first, and with the exception of a nil messenger when that is gone. All three record it. One that times out fails
      for that and is not recorded, even if the link comes up at that moment. */
  lemma SubscribeIsAnswered(c: Client, r: Request, x: Asking, d: Destination, t: Tick, rest: Script)
    requires Subscribes(c, r, x, d)
    requires Fires(r, t) || !AtEnd(c, x, d, t).impl || t.flag || t.fault != Fine
    ensures
      var o, c1 := Process(c, r, TicksOf(x) + ([t] + rest)), AtEnd(c, x, d, t);
      if r.timed && t.fires then FailsFor(c, r, o, TimeoutError)
      else
        && o.out == Finished && o.rest == rest && o.c.destinations == c.destinations + [d]
        && o.c.replies == c.replies + [Reply(r,
             if !c1.impl then Failure(ForeignError)
             else if t.flag then Nothing
             else Failure(SubscribedError))]
        && o.c.m == c1.m && o.c.state == c1.state
  {
    var c0 := After(Linked(AtAsk(c, x), d.address), x.waits);
    SubscribeAttempt(c, r, x, d, [t] + rest);
    assert ([t] + rest)[1..] == rest;
    var a := AwaitLink(c0, r, d, [t] + rest);
    if r.timed && t.fires {
      Fails(c, a, r, TimeoutError);
    } else {
      assert a.out == Finished && AfterAttempt(a, r) == a;
    }
  }

  /** Without a messenger to subscribe on, it fails and is not recorded. */
  lemma SubscribeNeedsMessenger(c: Client, r: Request, x: Asking, d: Destination, rest: Script)
    requires r.op == Subscribe(d) && Reaches(c, r, x.w, x.up, x.go) && !AtAsk(c, x).impl
    ensures FailsFor(c, r, Process(c, r, x.w + [x.up, x.go] + ([x.ask] + rest)), ForeignError)
  {
    var c1 := Ready(c, x.w, x.up, x.go);
    Begins(c, r, x.w, x.up, x.go, [x.ask] + rest);
    ReadyKeeps(c, x.w, x.up, x.go);
    assert ([x.ask] + rest)[1..] == rest;
    Fails(c, ProcessQueuedSubscription(c1, r, d, [x.ask] + rest), r, ForeignError);
  }

  // ----- Unsubscribe.

  ghost predicate Unsubscribes(c: Client, r: Request, x: Asking, d: Destination) {
    && r.op == Unsubscribe(d) && Reaches(c, r, x.w, x.up, x.go)
    && AtAsk(c, x).impl && d.address in AtAsk(c, x).m.links && StaysOpen(AtAsk(c, x), r, x.waits)
  }

  lemma {:induction false} LinkStaysUp(c: Client, r: Request, d: Destination, g: nat, s: Script, rest: Script)
    requires StaysOpen(c, r, s)
    ensures AwaitClosed(c, r, d, g, s + rest) == AwaitClosed(After(c, s), r, d, g, rest)
    decreases |s|
  {
    if s == [] {
      assert s + rest == rest;
    } else {
      var c1 := Env(c, s[0].events);
      AtFirst(c, s);
      assert (s + rest)[0] == s[0] && (s + rest)[1..] == s[1..] + rest;
      OpenLater(c, r, s);
      LinkStaysUp(c1, r, d, g, s[1..], rest);
    }
  }

  lemma UnsubscribeAttempt(c: Client, r: Request, x: Asking, d: Destination, rest: Script)
    requires Unsubscribes(c, r, x, d)
    ensures
      var c1 := After(AtAsk(c, x), x.waits);
      && Process(c, r, TicksOf(x) + rest) == AfterAttempt(AwaitClosed(c1, r, d, AtAsk(c, x).m.gen, rest), r)
      && c1.replies == c.replies && c1.destinations == c.destinations
  {
    var s := x.waits + rest;
    assert TicksOf(x) + rest == x.w + [x.up, x.go] + ([x.ask] + s);
    Begins(c, r, x.w, x.up, x.go, [x.ask] + s);
    assert ([x.ask] + s)[1..] == s;
    LinkStaysUp(AtAsk(c, x), r, d, AtAsk(c, x).m.gen, x.waits, rest);
    ReadyKeeps(c, x.w, x.up, x.go);
    AfterKeeps(AtAsk(c, x), x.waits);
  }

  /** An unsubscribe is done, without a reply, when the remote end has closed its link, which is then gone from the
      messenger it was on; it fails for its timeout, or for the exception of a nil messenger. */
  lemma UnsubscribeIsDone(c: Client, r: Request, x: Asking, d: Destination, t: Tick, rest: Script)
    requires Unsubscribes(c, r, x, d)
    ensures
      var o, c1 := Process(c, r, TicksOf(x) + ([t] + rest)), Env(After(AtAsk(c, x), x.waits), t.events);
      if r.timed && t.fires then FailsFor(c, r, o, TimeoutError)
      else if t.flag then
        && o.out == Finished && o.rest == rest && o.c.replies == c.replies && o.c.destinations == c.destinations
        && o.c.m.links == if c1.m.gen == AtAsk(c, x).m.gen then c1.m.links - {d.address} else c1.m.links
      else !c1.impl ==> FailsFor(c, r, o, ForeignError)
  {
    var c0 := After(AtAsk(c, x), x.waits);
    UnsubscribeAttempt(c, r, x, d, [t] + rest);
    assert ([t] + rest)[1..] == rest;
    var a := AwaitClosed(c0, r, d, AtAsk(c, x).m.gen, [t] + rest);
    if r.timed && t.fires {
      Fails(c, a, r, TimeoutError);
    } else if t.flag {
      assert a.out == Finished && AfterAttempt(a, r) == a;
    } else if !Env(c0, t.events).impl {
      Fails(c, a, r, ForeignError);
    }
  }

  /** It fails at once without a messenger, and with an InternalError without a link. */
  lemma UnsubscribeNeedsLink(c: Client, r: Request, x: Asking, d: Destination, rest: Script)
    requires r.op == Unsubscribe(d) && Reaches(c, r, x.w, x.up, x.go)
    requires !AtAsk(c, x).impl || d.address !in AtAsk(c, x).m.links
    ensures
      var e := if AtAsk(c, x).impl then InternalError else ForeignError;
      FailsFor(c, r, Process(c, r, x.w + [x.up, x.go] + ([x.ask] + rest)), e)
  {
    var c1 := Ready(c, x.w, x.up, x.go);
    Begins(c, r, x.w, x.up, x.go, [x.ask] + rest);
    ReadyKeeps(c, x.w, x.up, x.go);
    assert ([x.ask] + rest)[1..] == rest;
    var a := ProcessQueuedUnsubscribe(c1, r, d, [x.ask] + rest);
    Fails(c, a, r, if AtAsk(c, x).impl then InternalError else ForeignError);
  }
}
