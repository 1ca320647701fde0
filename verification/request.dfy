/** Command#process_request_queue for one popped request, and the requests of a whole run. */
module RequestLoop {
  import opened Wrappers
  import opened Destinations
  import opened ClientState
  import opened ReceivePath
  import opened SendPath
  import opened SubscriptionPath

  /** The recorded destinations once a request has ended in this way. */
  function Recorded(ds: seq<Destination>, r: Request, out: Out): seq<Destination> {
    if r.op.Subscribe? && out.Finished? then ds + [r.op.destination] else ds
  }

  function Perform(c: Client, r: Request, s: Script): (o: Run)
    ensures |o.rest| <= |s| && (Clean(o.c.history) ==> Clean(c.history))
    ensures o.c.destinations == Recorded(c.destinations, r, o.out)
  {
    match r.op
    case Send(_) => ProcessQueuedSend(c, r, s)
    case Subscribe(d) => ProcessQueuedSubscription(c, r, d, s)
    case Unsubscribe(d) => ProcessQueuedUnsubscribe(c, r, d, s)
    case Receive(d) => CheckForMessages(c, r, d, s)
  }

  /** Waits while the client is retrying or starting. A receive has no timeout of its own here. Over all retries a
      subscribe records its destination once if it is answered, even with an error, and not at all if it times out or is
      rescued or stopped; no other request records one. */
  function Process(c: Client, r: Request, s: Script): (o: Run)
    ensures |o.rest| <= |s| && (Clean(o.c.history) ==> Clean(c.history)) && !o.out.Raised? && !o.out.TimedOut?
    ensures o.c.destinations == Recorded(c.destinations, r, o.out)
    decreases |s|, 1
  {
    if s == [] then Run(c, s, Blocked)
    else
      var c1 := Env(c, s[0].events);
      if c1.state == Retrying || c1.state == Starting then
        if r.timed && !r.op.Receive? && s[0].fires then Rescue(c1, r, TimeoutError, s[1..])
        else Process(c1, r, s[1..])
      else StoppedCheck(c1, r, s[1..])
  }

  /** return if stopped?, then the request itself. */
  function StoppedCheck(c: Client, r: Request, s: Script): (o: Run)
    ensures |o.rest| <= |s| && (Clean(o.c.history) ==> Clean(c.history)) && !o.out.Raised? && !o.out.TimedOut?
    ensures o.c.destinations == Recorded(c.destinations, r, o.out)
    decreases |s|, 1
  {
    if s == [] then Run(c, s, Blocked)
    else
      var c1 := Env(c, s[0].events);
      if c1.state == Stopped then Run(c1, s[1..], Halted)
      else AfterAttempt(Perform(c1, r, s[1..]), r)
  }

  /** The rescue clauses: a lost connection is waited for and the request tried again. */
  function AfterAttempt(a: Run, r: Request): (o: Run)
    ensures |o.rest| <= |a.rest| && (Clean(o.c.history) ==> Clean(a.c.history)) && !o.out.Raised? && !o.out.TimedOut?
    ensures o.c.destinations == if a.out.Finished? then a.c.destinations else Recorded(a.c.destinations, r, o.out)
    decreases |a.rest|, 2
  {
    match a.out
    case Raised(NetworkError) => Process(a.c.(state := Retrying), r, a.rest)
    case Raised(QpidStateError) =>
      if a.rest == [] then Run(a.c, [], Blocked)
      else Process(CheckOutOfSequence(Env(a.c, a.rest[0].events), a.rest[0]), r, a.rest[1..])
    case Raised(RetryError) => Process(a.c, r, a.rest)
    case Raised(e) => Rescue(a.c, r, e, a.rest)
    case TimedOut => Rescue(a.c, r, TimeoutError, a.rest)
    case _ => a
  }

  /** The reply to a request that timed out or ended in an exception nothing else rescues. */
  function Rescue(c: Client, r: Request, e: Error, s: Script): Run {
    var h := c.history.(faulted := c.history.faulted || r.op.Receive?);
    Run(Push(c, r, Failure(e)).(history := h), s, Rescued(e))
  }

  /** A run of the command thread over the requests it pops. */
  function Serve(c: Client, rs: seq<Request>, s: Script): (o: Run)
    ensures |o.rest| <= |s| && (Clean(o.c.history) ==> Clean(c.history))
    decreases |rs|
  {
    if rs == [] then Run(c, s, Finished)
    else
      var o := Process(c, rs[0], s);
      if o.out.Blocked? then o else Serve(o.c, rs[1..], o.rest)
  }
}
