/** Command#process_queued_send with the ProtonContainer methods it calls. */
module SendPath {
  import opened Wrappers
  import opened ClientState

  function Log(c: Client, r: Request, put: Option<nat>, end: SendEnd): Client {
    c.(history := c.history.(sends := c.history.sends + [Attempt(r, put, end)]))
  }

  function MarkPut(c: Client): Client {
    c.(m := c.m.(hasPut := true))
  }

  /** The rescue clauses: every Qpid error is answered, a timeout as a timeout. */
  function AnswerFault(c: Client, r: Request, put: Option<nat>, f: Fault, s: Script): Run
    requires f != Fine
  {
    var e := if f == TimeoutFault then TimeoutError else InternalError;
    Run(Push(Log(c, r, put, AnsweredError(e)), r, Failure(e)), s, Finished)
  }

  /** put_message; the flag says that the put itself went through when a later call in it fails. */
  function ProcessQueuedSend(c: Client, r: Request, s: Script): (o: Run)
    ensures |o.rest| <= |s| && SameFlags(c.history, o.c.history) && o.c.destinations == c.destinations
  {
    if s == [] then Run(c, s, Blocked)
    else
      var c1 := Env(c, s[0].events);
      if !c1.impl then Run(c1, s[1..], Raised(ForeignError))
      else if s[0].fault == Fine then AwaitOutbound(MarkPut(c1), r, c1.m.gen, s[1..])
      else if s[0].flag then AnswerFault(MarkPut(c1), r, Some(c1.m.gen), s[0].fault, s[1..])
      else AnswerFault(c1, r, None, s[0].fault, s[1..])
  }

  /** sleep(0.02) while outbound_pending? */
  function AwaitOutbound(c: Client, r: Request, g: nat, s: Script): (o: Run)
    ensures |o.rest| <= |s| && SameFlags(c.history, o.c.history) && o.c.destinations == c.destinations
    decreases |s|
  {
    if s == [] then Run(c, s, Blocked)
    else
      var c1 := Env(c, s[0].events);
      if r.timed && s[0].fires then Run(c1, s[1..], TimedOut)
      else if !c1.impl then Run(c1, s[1..], Raised(ForeignError))
      else if c1.m.hasPut && s[0].flag then AwaitOutbound(c1, r, g, s[1..])
      else AwaitStatus(c1, r, g, s[1..])
  }

  /** tracker_status: the last put of the current messenger. */
  function TrackerStatus(c: Client, t: Tick): Status {
    if c.m.hasPut then t.status else Unknown
  }

  /** The status is read again while it is pending and the client started. */
  function AwaitStatus(c: Client, r: Request, g: nat, s: Script): (o: Run)
    ensures |o.rest| <= |s| && SameFlags(c.history, o.c.history) && o.c.destinations == c.destinations
    decreases |s|
  {
    if s == [] then Run(c, s, Blocked)
    else
      var c1 := Env(c, s[0].events);
      if r.timed && s[0].fires then Run(c1, s[1..], TimedOut)
      else if !c1.impl then Run(c1, s[1..], Raised(ForeignError))
      else if TrackerStatus(c1, s[0]) == Pending && c1.state == Started then AwaitStatus(c1, r, g, s[1..])
      else JudgeStatus(c1, r, g, TrackerStatus(c1, s[0]), c1.m.gen, s[1..])
  }

  function AnswerStatus(c: Client, r: Request, g: nat, e: Error): Client {
    Push(Log(c, r, Some(g), AnsweredError(e)), r, Failure(e))
  }

  /** fail RetryError unless started?, then the case on the status. */
  function JudgeStatus(c: Client, r: Request, g: nat, st: Status, reader: nat, s: Script): (o: Run)
    ensures |o.rest| <= |s| && SameFlags(c.history, o.c.history) && o.c.destinations == c.destinations
  {
    if s == [] then Run(c, s, Blocked)
    else
      var c1 := Env(c, s[0].events);
      var rest := s[1..];
      if c1.state != Started then Run(Log(c1, r, Some(g), LostStarted), rest, Raised(RetryError))
      else
        match st
        case Rejected => Run(AnswerStatus(c1, r, g, RangeError), rest, Finished)
        case Released => Run(AnswerStatus(c1, r, g, InternalError), rest, Finished)
        case Modified => Run(AnswerStatus(c1, r, g, InternalError), rest, Finished)
        case Strange => Run(AnswerStatus(c1, r, g, InternalError), rest, Finished)
        case Aborted => Run(Log(c1, r, Some(g), AbortedEnd), rest, Raised(NetworkError))
        case _ => Run(Push(Log(c1, r, Some(g), AnsweredNil(st, reader)), r, Nothing), rest, Finished)
  }
}
