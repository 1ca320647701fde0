/** Command#process_queued_subscription and #process_queued_unsubscribe with the ProtonContainer methods they call. */
module SubscriptionPath {
  import opened Wrappers
  import opened Destinations
  import opened ClientState

  function ProcessQueuedSubscription(c: Client, r: Request, d: Destination, s: Script): (o: Run)
    ensures |o.rest| <= |s| && SameFlags(c.history, o.c.history)
    ensures o.c.destinations == if o.out.Finished? then c.destinations + [d] else c.destinations
  {
    if s == [] then Run(c, s, Blocked)
    else
      var c1 := Env(c, s[0].events);
      if !c1.impl then Run(c1, s[1..], Raised(ForeignError))
      else AwaitLink(AddLink(c1, d.address), r, d, s[1..])
  }

  /** The reply, and the destination is recorded whatever the reply says. */
  function Record(c: Client, r: Request, d: Destination, b: Body): Client {
    Push(c, r, b).(destinations := c.destinations + [d])
  }

  /** sleep 0.1 until link_up?; the flag says that the link is remotely active, a fault is the messenger's errno. */
  function AwaitLink(c: Client, r: Request, d: Destination, s: Script): (o: Run)
    ensures |o.rest| <= |s| && SameFlags(c.history, o.c.history)
    ensures o.c.destinations == if o.out.Finished? then c.destinations + [d] else c.destinations
    decreases |s|
  {
    if s == [] then Run(c, s, Blocked)
    else
      var c1 := Env(c, s[0].events);
      if r.timed && s[0].fires then Run(c1, s[1..], TimedOut)
      else if !c1.impl then Run(Record(c1, r, d, Failure(ForeignError)), s[1..], Finished)
      else if s[0].flag then Run(Record(c1, r, d, Nothing), s[1..], Finished)
      else if s[0].fault != Fine then Run(Record(c1, r, d, Failure(SubscribedError)), s[1..], Finished)
      else AwaitLink(c1, r, d, s[1..])
  }

  function RemoveLink(c: Client, a: Address, g: nat): Client {
    if g == c.m.gen then c.(m := c.m.(links := c.m.links - {a})) else c
  }

  /** close_link. */
  function ProcessQueuedUnsubscribe(c: Client, r: Request, d: Destination, s: Script): (o: Run)
    ensures |o.rest| <= |s| && SameFlags(c.history, o.c.history) && o.c.destinations == c.destinations
  {
    if s == [] then Run(c, s, Blocked)
    else
      var c1 := Env(c, s[0].events);
      if !c1.impl then Run(c1, s[1..], Raised(ForeignError))
      else if d.address !in c1.m.links then Run(c1, s[1..], Raised(InternalError))
      else AwaitClosed(c1, r, d, c1.m.gen, s[1..])
  }

  /** The wait for the remote detach or close, which the flag reports. */
  function AwaitClosed(c: Client, r: Request, d: Destination, g: nat, s: Script): (o: Run)
    ensures |o.rest| <= |s| && SameFlags(c.history, o.c.history) && o.c.destinations == c.destinations
    decreases |s|
  {
    if s == [] then Run(c, s, Blocked)
    else
      var c1 := Env(c, s[0].events);
      if r.timed && s[0].fires then Run(c1, s[1..], TimedOut)
      else if s[0].flag then Run(RemoveLink(c1, d.address, g), s[1..], Finished)
      else if !c1.impl then Run(c1, s[1..], Raised(ForeignError))
      else AwaitClosed(c1, r, d, g, s[1..])
  }

  // ----- The link of a destination that has been recorded.

  lemma {:induction false} EnvKeepsLinkIffSame(c: Client, es: seq<Event>, a: Address, g: nat)
    requires !IsRecorded(c.destinations, a) && c.m.gen >= g && (a in c.m.links <==> c.m.gen == g)
    ensures var c' := Env(c, es); c'.m.gen >= g && (a in c'.m.links <==> c'.m.gen == g)
    decreases |es|
  {
    if es == [] {
    } else {
      EnvKeepsLinkIffSame(Happen(c, es[0]), es[1..], a, g);
    }
  }

  lemma {:induction false} AwaitLinkHasLinkIff(c: Client, r: Request, d: Destination, g: nat, s: Script)
    requires !IsRecorded(c.destinations, d.address) && c.m.gen >= g && (d.address in c.m.links <==> c.m.gen == g)
    ensures var o := AwaitLink(c, r, d, s); o.out.Finished? ==> (d.address in o.c.m.links <==> o.c.m.gen == g)
    decreases |s|
  {
    if s == [] {
    } else {
      EnvKeepsLinkIffSame(c, s[0].events, d.address, g);
      AwaitLinkHasLinkIff(Env(c, s[0].events), r, d, g, s[1..]);
    }
  }

  /** A destination that a subscribe has just recorded, and that was not recorded before, has a link on the current
      messenger exactly if the messenger is still the one that the subscribe made the link on. */
  lemma RecordedHasLinkIff(c: Client, r: Request, d: Destination, s: Script)
    requires !IsRecorded(c.destinations, d.address)
    ensures
      var o := AwaitLink(AddLink(c, d.address), r, d, s);
      o.out.Finished? ==>
        o.c.destinations == c.destinations + [d] && (d.address in o.c.m.links <==> o.c.m.gen == c.m.gen)
  {
    AwaitLinkHasLinkIff(AddLink(c, d.address), r, d, c.m.gen, s);
  }
}
