/** The command thread in its own form: lib/mqlight/proton_container.rb and command.rb. Each method works on its objects
    step by step, takes a tick wherever others may act, and is proved to be the specified stretch of a run. */
module Commands {
  import opened Wrappers
  import opened Destinations
  import opened ClientState
  import opened ThreadVariables
  import opened ReceivePath
  import opened SendPath
  import opened SubscriptionPath
  import opened RequestLoop

  /** The texts of two reasons, which nothing here looks at. */
  const ERROR_TEXT := "pn_error_text"

  const CLOSED_TEXT := "Connection terminated"

  class ProtonContainer {
    const threadVars: ThreadVars
    var impl: bool
    var connecting: bool
    var m: Messenger
    var history: History

    constructor (threadVars: ThreadVars)
      requires threadVars.state == Stopped && threadVars.destinations == [] && threadVars.replyQueue == []
      ensures this.threadVars == threadVars && View() == NEW_CLIENT
    {
      this.threadVars := threadVars;
      impl, connecting, m, history := NEW_CLIENT.impl, NEW_CLIENT.connecting, NEW_CLIENT.m, NEW_CLIENT.history;
    }

    /** What this container and the shared variables hold, as one value. */
    function View(): Client
      reads this, threadVars
    {
      Client(threadVars.state, threadVars.destinations, threadVars.replyQueue, impl, connecting, m, history)
    }

    predicate Started()
      reads this, threadVars
    {
      threadVars.state == State.Started
    }

    /** One thing another thread or the server does. */
    method Happens(e: Event)
      modifies this, threadVars
      ensures View() == Happen(old(View()), e)
    {
      match e {
        case Arrive(a, id) =>
          if impl && a in m.links && m.links[a].credit > 0 {
            var l := m.links[a];
            var msg := Message(a, id, m.gen);
            m := m.(links := m.links[a := l.(credit := l.credit - 1)], incoming := m.incoming + [msg],
                    arrived := m.arrived + [msg]);
          }
        case Drained(a) =>
          if impl && a in m.links && m.links[a].Draining() { m := m.(links := m.links[a := Link(0, true)]); }
        case SetState(to) =>
          if to != State.Started { threadVars.ChangeState(to, None); }
        case Connect =>
          if !Started() { impl, connecting, m := true, true, FreshMessenger(m.gen + 1); }
        case Reinstate(a) =>
          if connecting && IsRecorded(threadVars.destinations, a) { Subscribe(a); }
        case Activate =>
          if connecting {
            connecting := false;
            threadVars.ChangeState(State.Started, None);
          }
        case GiveUp =>
          connecting := false;
        case Free =>
          impl, connecting, m := false, false, FreshMessenger(m.gen + 1);
      }
    }

    method Subscribe(a: Address)
      modifies this
      ensures View() == AddLink(old(View()), a)
    {
      if a !in m.links { m := m.(links := m.links[a := Link(0, false)]); }
    }

    /** A point at which others act. */
    method Interlude(es: seq<Event>)
      modifies this, threadVars
      ensures View() == Env(old(View()), es)
    {
      var i := 0;
      while i < |es|
        invariant i <= |es|
        invariant Env(old(View()), es) == Env(View(), es[i..])
      {
        assert es[i..][1..] == es[i + 1..];
        Happens(es[i]);
        i := i + 1;
      }
    }

    method InterpretError(text: ErrorText)
      modifies threadVars
      ensures View() == InterpretMessage(old(View()), text)
    {
      match text
      case Takeover => threadVars.ChangeState(Stopped, Some(Cause(ReplacedError, ERROR_TEXT)));
      case OtherText => threadVars.ChangeState(Retrying, Some(Cause(NetworkError, ERROR_TEXT)));
      case _ =>
    }

    method CheckForOutOfSequenceMessages(t: Tick)
      modifies this, threadVars
      ensures View() == CheckOutOfSequence(Env(old(View()), t.events), t)
    {
      Interlude(t.events);
      if !impl { return; }
      if Started() { InterpretError(t.text); }
      if !t.flag && Started() { threadVars.ChangeState(Retrying, Some(Cause(NetworkError, CLOSED_TEXT))); }
    }

    /** Returns the exception raised, if any, and the messenger the link belongs to. */
    method OpenForMessage(d: Destination, t: Tick) returns (error: Option<Error>, g: nat)
      modifies this, threadVars
      ensures
        var c := Env(old(View()), t.events);
        if !c.impl then View() == c && error == Some(ForeignError)
        else if d.address !in c.m.links then View() == c && error == Some(InternalError)
        else
          && View() == GrantCredit(c, d.address) && g == c.m.gen
          && error == if t.fault == Fine || t.fault == TimeoutFault then None else Some(Raise(t.fault))
    {
      Interlude(t.events);
      g := m.gen;
      if !impl { return Some(ForeignError), g; }
      if d.address !in m.links { return Some(InternalError), g; }
      history := history.(unguarded := history.unguarded || !Openable(View()));
      if m.links[d.address].credit == 0 { m := m.(links := m.links[d.address := Link(1, false)]); }
      error := if t.fault == Fine || t.fault == TimeoutFault then None else Some(Raise(t.fault));
    }

    /** pn_link_drain and the wait for the drain to complete; the result says whether a message is there. */
    method DrainMessage(r: Request, d: Destination, g: nat, s: Script) returns (rest: Script, out: Out, present: bool)
      modifies this, threadVars
      ensures ReceivePath.DrainMessage(old(View()), r, d, g, s)
           == if out != Finished then Run(View(), rest, out)
              else if present then ReceivePath.CollectMessage(View(), r, d, rest)
              else AnswerNothing(View(), r, rest)
    {
      present := false;
      if s == [] { return s, Blocked, false; }
      Interlude(s[0].events);
      rest := s[1..];
      if !impl { return rest, Raised(ForeignError), false; }
      var stale := s[0].flag;
      if g == m.gen && d.address in m.links {
        m := m.(links := m.links[d.address := m.links[d.address].(drain := true)]);
      }
      while impl && StillDraining(View(), d.address, g, stale) && Started()
        invariant ReceivePath.DrainMessage(old(View()), r, d, g, s) == DrainLoop(View(), r, d, g, stale, rest)
        decreases |rest|
      {
        if rest == [] { return rest, Blocked, false; }
        stale := rest[0].flag;
        Interlude(rest[0].events);
        rest := rest[1..];
      }
      if !impl { return rest, Raised(ForeignError), false; }
      return rest, Finished, m.incoming != [];
    }

    /** pn_messenger_get; the message, or the exception raised. */
    method CollectMessage(t: Tick) returns (msg: Result<Message, Error>)
      modifies this, threadVars
      ensures
        var c := Env(old(View()), t.events);
        if !c.impl then View() == c && msg == Err(ForeignError)
        else if t.fault != Fine then View() == c && msg == Err(Raise(t.fault))
        else if c.m.incoming == [] then View() == c && msg == Err(QpidError)
        else View() == Get(c) && msg == if t.flag then Err(ForeignError) else Ok(c.m.incoming[0])
    {
      Interlude(t.events);
      if !impl { return Err(ForeignError); }
      if t.fault != Fine { return Err(Raise(t.fault)); }
      if m.incoming == [] { return Err(QpidError); }
      var head := m.incoming[0];
      m := m.(incoming := m.incoming[1..], tracker := Some(head));
      return if t.flag then Err(ForeignError) else Ok(head);
    }

    method SettleIncoming()
      modifies this
      ensures View() == SettleTracker(old(View()))
    {
      match m.tracker
      case Some(msg) => history := history.(settled := history.settled + [msg]);
      case None =>
    }

    /** accept: an error number is a lost connection. */
    method Accept(t: Tick) returns (error: Option<Error>)
      modifies this, threadVars
      ensures
        var c := Env(old(View()), t.events);
        if !c.impl then View() == FailAfterReply(c) && error == Some(ForeignError)
        else if t.fault == Fine then View() == SettleTracker(c) && error == None
        else View() == FailAfterReply(c) && error == Some(NetworkError)
    {
      Interlude(t.events);
      if impl && t.fault == Fine {
        SettleIncoming();
        return None;
      }
      history := history.(failedAfterReply := history.failedAfterReply + 1);
      return Some(if impl then NetworkError else ForeignError);
    }

    /** settle: an error number is only interpreted. */
    method Settle(t: Tick) returns (error: Option<Error>)
      modifies this, threadVars
      ensures
        var c := Env(old(View()), t.events);
        if !c.impl then View() == FailAfterReply(c) && error == Some(ForeignError)
        else if t.fault == Fine then View() == SettleTracker(c) && error == None
        else View() == InterpretMessage(FailSettle(c), t.text) && error == None
    {
      Interlude(t.events);
      if !impl {
        history := history.(failedAfterReply := history.failedAfterReply + 1);
        return Some(ForeignError);
      }
      if t.fault == Fine {
        SettleIncoming();
      } else {
        history := history.(failedSettles := history.failedSettles + 1);
        InterpretError(t.text);
      }
      return None;
    }

    /** put_message; `put` says whether the message was put, and `g` on which messenger. */
    method PutMessage(t: Tick) returns (put: bool, g: nat)
      modifies this, threadVars
      ensures
        var c := Env(old(View()), t.events);
        && g == c.m.gen && put == (c.impl && (t.fault == Fine || t.flag))
        && View() == if put then MarkPut(c) else c
    {
      Interlude(t.events);
      g := m.gen;
      put := impl && (t.fault == Fine || t.flag);
      if put { m := m.(hasPut := true); }
    }
  }

  class Command {
    const threadVars: ThreadVars
    const proton: ProtonContainer

    constructor (proton: ProtonContainer)
      ensures this.proton == proton && threadVars == proton.threadVars
    {
      this.proton := proton;
      this.threadVars := proton.threadVars;
    }

    ghost predicate Valid() {
      threadVars == proton.threadVars
    }

    method Reply(r: Request, b: Body)
      requires Valid()
      modifies threadVars
      ensures proton.View() == Push(old(proton.View()), r, b)
    {
      threadVars.replyQueue := threadVars.replyQueue + [ClientState.Reply(r, b)];
    }

    /** Collects the message, replies with it and acknowledges it as its destination asks. */
    method HandOverMessage(r: Request, d: Destination, s: Script) returns (rest: Script, out: Out)
      requires Valid()
      modifies proton, threadVars
      ensures Run(proton.View(), rest, out) == ReceivePath.CollectMessage(old(proton.View()), r, d, s)
    {
      if s == [] { return s, Blocked; }
      var msg := proton.CollectMessage(s[0]);
      rest := s[1..];
      if msg.Err? { return rest, Raised(msg.error); }
      if rest == [] { return rest, Blocked; }
      proton.Interlude(rest[0].events);
      if !proton.impl || rest[0].flag { return rest[1..], Raised(ForeignError); }
      rest := rest[1..];
      Reply(r, Delivered(msg.value));
      if msg.value.gen == proton.m.gen { proton.m := proton.m.(handed := proton.m.handed + [msg.value]); }
      if d.qos == QOS_AT_MOST_ONCE {
        if rest == [] { return rest, Blocked; }
        var error := proton.Accept(rest[0]);
        return rest[1..], if error.Some? then Raised(error.value) else Finished;
      }
      if d.qos == QOS_AT_LEAST_ONCE && d.autoConfirm {
        if rest == [] { return rest, Blocked; }
        var error := proton.Settle(rest[0]);
        return rest[1..], if error.Some? then Raised(error.value) else Finished;
      }
      return rest, Finished;
    }

    /** rescue Timeout::Error inside check_for_messages. */
    method TimedOutWaiting(r: Request, d: Destination, g: nat, s: Script) returns (rest: Script, out: Out)
      requires Valid()
      modifies proton, threadVars
      ensures Run(proton.View(), rest, out) == OnTimeout(old(proton.View()), r, d, g, s)
    {
      if s == [] { return s, Blocked; }
      proton.Interlude(s[0].events);
      rest := s[1..];
      var present := false;
      if proton.Started() {
        rest, out, present := proton.DrainMessage(r, d, g, rest);
        if out != Finished { return; }
      }
      if present {
        rest, out := HandOverMessage(r, d, rest);
      } else {
        Reply(r, Nothing);
        out := Finished;
      }
    }

    method CheckForMessages(r: Request, d: Destination, s: Script) returns (rest: Script, out: Out)
      requires Valid()
      modifies proton, threadVars
      ensures Run(proton.View(), rest, out) == ReceivePath.CheckForMessages(old(proton.View()), r, d, s)
    {
      if s == [] { return s, Blocked; }
      proton.CheckForOutOfSequenceMessages(s[0]);
      rest := s[1..];
      if rest == [] { return rest, Blocked; }
      var error, g := proton.OpenForMessage(d, rest[0]);
      rest := rest[1..];
      if error.Some? { return rest, Raised(error.value); }
      var waiting := true;
      while waiting
        invariant ReceivePath.CheckForMessages(old(proton.View()), r, d, s)
               == if waiting then AwaitMessage(proton.View(), r, d, g, rest)
                  else DecidePresent(proton.View(), r, d, g, rest)
        decreases waiting, |rest|
      {
        if rest == [] { return rest, Blocked; }
        proton.Interlude(rest[0].events);
        var fires := r.timed && rest[0].fires;
        rest := rest[1..];
        if fires {
          rest, out := TimedOutWaiting(r, d, g, rest);
          return;
        }
        if !proton.impl { return rest, Raised(ForeignError); }
        waiting := proton.m.incoming == [] && proton.Started();
      }
      if rest == [] { return rest, Blocked; }
      proton.Interlude(rest[0].events);
      if r.timed && rest[0].fires {
        rest, out := TimedOutWaiting(r, d, g, rest[1..]);
      } else if proton.Started() {
        rest, out := HandOverMessage(r, d, rest[1..]);
      } else {
        Reply(r, Nothing);
        rest, out := rest[1..], Finished;
      }
    }

    method LogAttempt(r: Request, put: Option<nat>, end: SendEnd)
      requires Valid()
      modifies proton
      ensures proton.View() == Log(old(proton.View()), r, put, end)
    {
      proton.history := proton.history.(sends := proton.history.sends + [Attempt(r, put, end)]);
    }

    method ProcessQueuedSend(r: Request, s: Script) returns (rest: Script, out: Out)
      requires Valid()
      modifies proton, threadVars
      ensures Run(proton.View(), rest, out) == SendPath.ProcessQueuedSend(old(proton.View()), r, s)
    {
      if s == [] { return s, Blocked; }
      var put, g := proton.PutMessage(s[0]);
      rest := s[1..];
      if !proton.impl { return rest, Raised(ForeignError); }
      if s[0].fault != Fine {
        var e := if s[0].fault == TimeoutFault then TimeoutError else InternalError;
        LogAttempt(r, if put then Some(g) else None, AnsweredError(e));
        Reply(r, Failure(e));
        return rest, Finished;
      }
      var buffered := true;
      while buffered
        invariant SendPath.ProcessQueuedSend(old(proton.View()), r, s)
               == if buffered then AwaitOutbound(proton.View(), r, g, rest) else AwaitStatus(proton.View(), r, g, rest)
        decreases buffered, |rest|
      {
        if rest == [] { return rest, Blocked; }
        proton.Interlude(rest[0].events);
        var t := rest[0];
        rest := rest[1..];
        if r.timed && t.fires { return rest, TimedOut; }
        if !proton.impl { return rest, Raised(ForeignError); }
        buffered := proton.m.hasPut && t.flag;
      }
      rest, out := PollStatus(r, g, rest);
    }

    /** Reads the status of the tracker until it is decided or the client is no longer started. */
    method PollStatus(r: Request, g: nat, s: Script) returns (rest: Script, out: Out)
      requires Valid()
      modifies proton, threadVars
      ensures Run(proton.View(), rest, out) == AwaitStatus(old(proton.View()), r, g, s)
    {
      rest := s;
      var status, reader := Pending, proton.m.gen;
      var polling := true;
      while polling
        invariant AwaitStatus(old(proton.View()), r, g, s)
               == if polling then AwaitStatus(proton.View(), r, g, rest)
                  else JudgeStatus(proton.View(), r, g, status, reader, rest)
        decreases polling, |rest|
      {
        if rest == [] { return rest, Blocked; }
        proton.Interlude(rest[0].events);
        var t := rest[0];
        rest := rest[1..];
        if r.timed && t.fires { return rest, TimedOut; }
        if !proton.impl { return rest, Raised(ForeignError); }
        status, reader := TrackerStatus(proton.View(), t), proton.m.gen;
        polling := status == Pending && proton.Started();
      }
      rest, out := AnswerStatus(r, g, status, reader, rest);
    }

    method AnswerStatus(r: Request, g: nat, status: Status, reader: nat, s: Script) returns (rest: Script, out: Out)
      requires Valid()
      modifies proton, threadVars
      ensures Run(proton.View(), rest, out) == JudgeStatus(old(proton.View()), r, g, status, reader, s)
    {
      if s == [] { return s, Blocked; }
      proton.Interlude(s[0].events);
      rest := s[1..];
      if !proton.Started() {
        LogAttempt(r, Some(g), LostStarted);
        return rest, Raised(RetryError);
      }
      var error: Option<Error> := None;
      match status {
        case Rejected => error := Some(RangeError);
        case Released => error := Some(InternalError);
        case Modified => error := Some(InternalError);
        case Strange => error := Some(InternalError);
        case Aborted =>
          LogAttempt(r, Some(g), AbortedEnd);
          return rest, Raised(NetworkError);
        case _ =>
      }
      if error.Some? {
        LogAttempt(r, Some(g), AnsweredError(error.value));
        Reply(r, Failure(error.value));
      } else {
        LogAttempt(r, Some(g), AnsweredNil(status, reader));
        Reply(r, Nothing);
      }
      return rest, Finished;
    }

    method ProcessQueuedSubscription(r: Request, d: Destination, s: Script) returns (rest: Script, out: Out)
      requires Valid()
      modifies proton, threadVars
      ensures Run(proton.View(), rest, out) == SubscriptionPath.ProcessQueuedSubscription(old(proton.View()), r, d, s)
    {
      if s == [] { return s, Blocked; }
      proton.Interlude(s[0].events);
      rest := s[1..];
      if !proton.impl { return rest, Raised(ForeignError); }
      proton.Subscribe(d.address);
      var body: Option<Body> := None;
      while body.None?
        invariant SubscriptionPath.ProcessQueuedSubscription(old(proton.View()), r, d, s)
               == if body.None? then AwaitLink(proton.View(), r, d, rest)
                  else Run(Record(proton.View(), r, d, body.value), rest, Finished)
        decreases body.None?, |rest|
      {
        if rest == [] { return rest, Blocked; }
        proton.Interlude(rest[0].events);
        var t := rest[0];
        rest := rest[1..];
        if r.timed && t.fires { return rest, TimedOut; }
        if !proton.impl {
          body := Some(Failure(ForeignError));
        } else if t.flag {
          body := Some(Nothing);
        } else if t.fault != Fine {
          body := Some(Failure(SubscribedError));
        }
      }
      Reply(r, body.value);
      threadVars.destinations := threadVars.destinations + [d];
      return rest, Finished;
    }

    method ProcessQueuedUnsubscribe(r: Request, d: Destination, s: Script) returns (rest: Script, out: Out)
      requires Valid()
      modifies proton, threadVars
      ensures Run(proton.View(), rest, out) == SubscriptionPath.ProcessQueuedUnsubscribe(old(proton.View()), r, d, s)
    {
      if s == [] { return s, Blocked; }
      proton.Interlude(s[0].events);
      rest := s[1..];
      if !proton.impl { return rest, Raised(ForeignError); }
      if d.address !in proton.m.links { return rest, Raised(InternalError); }
      var g := proton.m.gen;
      while true
        invariant SubscriptionPath.ProcessQueuedUnsubscribe(old(proton.View()), r, d, s)
               == AwaitClosed(proton.View(), r, d, g, rest)
        decreases |rest|
      {
        if rest == [] { return rest, Blocked; }
        proton.Interlude(rest[0].events);
        var t := rest[0];
        rest := rest[1..];
        if r.timed && t.fires { return rest, TimedOut; }
        if t.flag {
          if g == proton.m.gen { proton.m := proton.m.(links := proton.m.links - {d.address}); }
          return rest, Finished;
        }
        if !proton.impl { return rest, Raised(ForeignError); }
      }
    }

    /** One popped request with all its attempts. */
    method ProcessRequestQueue(r: Request, s: Script) returns (rest: Script, out: Out)
      requires Valid()
      modifies proton, threadVars
      ensures Run(proton.View(), rest, out) == Process(old(proton.View()), r, s)
    {
      rest, out := s, Blocked;
      var again := true;
      while again
        invariant Process(old(proton.View()), r, s)
               == if again then Process(proton.View(), r, rest) else Run(proton.View(), rest, out)
        decreases |rest|, again
      {
        if rest == [] { return rest, Blocked; }
        proton.Interlude(rest[0].events);
        var t := rest[0];
        rest := rest[1..];
        if threadVars.state == Retrying || threadVars.state == Starting {
          if r.timed && !r.op.Receive? && t.fires {
            ReplyFailure(r, TimeoutError, rest);
            return rest, Rescued(TimeoutError);
          }
        } else {
          if rest == [] { return rest, Blocked; }
          proton.Interlude(rest[0].events);
          rest := rest[1..];
          if threadVars.state == Stopped { return rest, Halted; }
          rest, out, again := TryRequest(r, rest);
        }
      }
    }

    /** One attempt and what the rescue clauses make of it; `again` says that the request is to be tried again. */
    method TryRequest(r: Request, s: Script) returns (rest: Script, out: Out, again: bool)
      requires Valid()
      modifies proton, threadVars
      ensures |rest| <= |s|
      ensures AfterAttempt(Perform(old(proton.View()), r, s), r)
           == if again then Process(proton.View(), r, rest) else Run(proton.View(), rest, out)
    {
      rest, out := PerformRequest(r, s);
      rest, out, again := AfterRescue(r, rest, out);
    }

    /** The rescue clauses. */
    method AfterRescue(r: Request, s: Script, ended: Out) returns (rest: Script, out: Out, again: bool)
      requires Valid()
      modifies proton, threadVars
      ensures |rest| <= |s|
      ensures AfterAttempt(Run(old(proton.View()), s, ended), r)
           == if again then Process(proton.View(), r, rest) else Run(proton.View(), rest, out)
    {
      rest, out := s, ended;
      if out == Raised(NetworkError) {
        threadVars.ChangeState(Retrying, None);
        return rest, out, true;
      }
      if out == Raised(QpidStateError) {
        if rest == [] { return rest, Blocked, false; }
        proton.CheckForOutOfSequenceMessages(rest[0]);
        return rest[1..], out, true;
      }
      if out == Raised(RetryError) { return rest, out, true; }
      if out.Raised? || out.TimedOut? {
        var e := if out.Raised? then out.error else TimeoutError;
        ReplyFailure(r, e, rest);
        out := Rescued(e);
      }
      again := false;
    }

    method PerformRequest(r: Request, s: Script) returns (rest: Script, out: Out)
      requires Valid()
      modifies proton, threadVars
      ensures Run(proton.View(), rest, out) == Perform(old(proton.View()), r, s)
    {
      match r.op
      case Send(_) => rest, out := ProcessQueuedSend(r, s);
      case Subscribe(d) => rest, out := ProcessQueuedSubscription(r, d, s);
      case Unsubscribe(d) => rest, out := ProcessQueuedUnsubscribe(r, d, s);
      case Receive(d) => rest, out := CheckForMessages(r, d, s);
    }

    method ReplyFailure(r: Request, e: Error, ghost rest: Script)
      requires Valid()
      modifies proton, threadVars
      ensures Run(proton.View(), rest, Rescued(e)) == Rescue(old(proton.View()), r, e, rest)
    {
      proton.history := proton.history.(faulted := proton.history.faulted || r.op.Receive?);
      Reply(r, Failure(e));
    }
  }
}
