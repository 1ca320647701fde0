/** With which exceptions a request can end, over all its retries. */
module Rescues {
  import opened Wrappers
  import opened Destinations
  import opened ClientState
  import opened ReceivePath
  import opened SendPath
  import opened SubscriptionPath
  import opened RequestLoop

  /** What one attempt can raise besides what has it tried again. */
  predicate CanRaise(r: Request, e: Error) {
    match r.op
    case Send(_) => e == ForeignError
    case Subscribe(_) => e == ForeignError
    case Unsubscribe(_) => e == ForeignError || e == InternalError
    case Receive(_) => e in {ForeignError, InternalError, QpidError, QpidTimeoutError}
  }

  /** And what has it tried again. */
  predicate HasRetry(r: Request, e: Error) {
    match r.op
    case Send(_) => e == NetworkError || e == RetryError
    case Receive(_) => e == NetworkError || e == QpidStateError
    case _ => false
  }

  predicate Fair(r: Request, out: Out) {
    && (out.Raised? ==> CanRaise(r, out.error) || HasRetry(r, out.error))
    && (out.TimedOut? ==> r.timed && !r.op.Receive?)
    && !out.Rescued?
  }

  lemma {:induction false} OutboundIsFair(c: Client, r: Request, g: nat, s: Script)
    requires r.op.Send?
    ensures Fair(r, AwaitOutbound(c, r, g, s).out)
    decreases |s|
  {
    if s == [] {
    } else {
      OutboundIsFair(Env(c, s[0].events), r, g, s[1..]);
      StatusIsFair(Env(c, s[0].events), r, g, s[1..]);
    }
  }

  lemma {:induction false} StatusIsFair(c: Client, r: Request, g: nat, s: Script)
    requires r.op.Send?
    ensures Fair(r, AwaitStatus(c, r, g, s).out)
    decreases |s|
  {
    if s == [] {
    } else {
      StatusIsFair(Env(c, s[0].events), r, g, s[1..]);
    }
  }

  lemma {:induction false} LinkIsFair(c: Client, r: Request, d: Destination, s: Script)
    requires r.op.Subscribe?
    ensures Fair(r, AwaitLink(c, r, d, s).out)
    decreases |s|
  {
    if s == [] {
    } else {
      LinkIsFair(Env(c, s[0].events), r, d, s[1..]);
    }
  }

  lemma {:induction false} ClosedIsFair(c: Client, r: Request, d: Destination, g: nat, s: Script)
    requires r.op.Unsubscribe?
    ensures Fair(r, AwaitClosed(c, r, d, g, s).out)
    decreases |s|
  {
    if s == [] {
    } else {
      ClosedIsFair(Env(c, s[0].events), r, d, g, s[1..]);
    }
  }

  lemma HandOverIsFair(c: Client, r: Request, d: Destination, msg: Message, s: Script)
    requires r.op.Receive?
    ensures Fair(r, HandOver(c, r, d, msg, s).out)
  {
    if s != [] { assert Fair(r, Acknowledge(Hand(Env(c, s[0].events), r, msg), d, s[1..]).out); }
  }

  lemma CollectIsFair(c: Client, r: Request, d: Destination, s: Script)
    requires r.op.Receive?
    ensures Fair(r, CollectMessage(c, r, d, s).out)
  {
    if s != [] {
      var c1 := Env(c, s[0].events);
      if c1.m.incoming != [] { HandOverIsFair(Get(c1), r, d, c1.m.incoming[0], s[1..]); }
    }
  }

  lemma {:induction false} DrainIsFair(c: Client, r: Request, d: Destination, g: nat, stale: bool, s: Script)
    requires r.op.Receive?
    ensures Fair(r, DrainLoop(c, r, d, g, stale, s).out)
    decreases |s|
  {
    CollectIsFair(c, r, d, s);
    if s != [] { DrainIsFair(Env(c, s[0].events), r, d, g, s[0].flag, s[1..]); }
  }

  lemma TimeoutIsFair(c: Client, r: Request, d: Destination, g: nat, s: Script)
    requires r.op.Receive?
    ensures Fair(r, OnTimeout(c, r, d, g, s).out)
  {
    if s != [] {
      var s1 := s[1..];
      var c1 := Env(c, s[0].events);
      if s1 != [] {
        DrainIsFair(StartDrain(Env(c1, s1[0].events), d.address, g), r, d, g, s1[0].flag, s1[1..]);
      }
    }
  }

  lemma {:induction false} MessageIsFair(c: Client, r: Request, d: Destination, g: nat, s: Script)
    requires r.op.Receive?
    ensures Fair(r, AwaitMessage(c, r, d, g, s).out)
    decreases |s|
  {
    if s == [] {
    } else {
      var c1 := Env(c, s[0].events);
      TimeoutIsFair(c1, r, d, g, s[1..]);
      DecideIsFair(c1, r, d, g, s[1..]);
      MessageIsFair(c1, r, d, g, s[1..]);
    }
  }

  lemma DecideIsFair(c: Client, r: Request, d: Destination, g: nat, s: Script)
    requires r.op.Receive?
    ensures Fair(r, DecidePresent(c, r, d, g, s).out)
  {
    if s != [] {
      TimeoutIsFair(Env(c, s[0].events), r, d, g, s[1..]);
      CollectIsFair(Env(c, s[0].events), r, d, s[1..]);
    }
  }

  lemma ReceiveIsFair(c: Client, r: Request, d: Destination, s: Script)
    requires r.op.Receive?
    ensures Fair(r, CheckForMessages(c, r, d, s).out)
  {
    if s != [] && s[1..] != [] {
      var c1 := Env(CheckOutOfSequence(Env(c, s[0].events), s[0]), s[1..][0].events);
      if c1.impl && d.address in c1.m.links {
        var c2 := GrantCredit(c1, d.address);
        MessageIsFair(c2, r, d, c2.m.gen, s[1..][1..]);
      }
    }
  }

  lemma PerformIsFair(c: Client, r: Request, s: Script)
    ensures Fair(r, Perform(c, r, s).out)
  {
    match r.op
    case Send(_) => if s != [] {
      var c1 := Env(c, s[0].events);
      OutboundIsFair(MarkPut(c1), r, c1.m.gen, s[1..]);
    }
    case Subscribe(d) => if s != [] { LinkIsFair(AddLink(Env(c, s[0].events), d.address), r, d, s[1..]); }
    case Unsubscribe(d) => if s != [] {
      var c1 := Env(c, s[0].events);
      ClosedIsFair(c1, r, d, c1.m.gen, s[1..]);
    }
    case Receive(d) => ReceiveIsFair(c, r, d, s);
  }

  /** Which exceptions a request fails for, over any number of retries: never for one that has it tried again, and for
      a timeout only if it carries one. */
  ghost predicate Expected(r: Request, out: Out) {
    out.Rescued? ==> CanRaise(r, out.error) || (out.error == TimeoutError && r.timed && !r.op.Receive?)
  }

  lemma {:induction false} ProcessExpected(c: Client, r: Request, s: Script)
    ensures Expected(r, Process(c, r, s).out)
    decreases |s|, 1
  {
    if s == [] {
    } else {
      var c1 := Env(c, s[0].events);
      if c1.state == Retrying || c1.state == Starting {
        ProcessExpected(c1, r, s[1..]);
      } else if s[1..] != [] {
        var s1 := s[1..];
        var a := Perform(Env(c1, s1[0].events), r, s1[1..]);
        PerformIsFair(Env(c1, s1[0].events), r, s1[1..]);
        AfterExpected(a, r);
      }
    }
  }

  lemma {:induction false} AfterExpected(a: Run, r: Request)
    requires Fair(r, a.out)
    ensures Expected(r, AfterAttempt(a, r).out)
    decreases |a.rest|, 2
  {
    match a.out
    case Raised(NetworkError) => ProcessExpected(a.c.(state := Retrying), r, a.rest);
    case Raised(QpidStateError) =>
      if a.rest != [] {
        ProcessExpected(CheckOutOfSequence(Env(a.c, a.rest[0].events), a.rest[0]), r, a.rest[1..]);
      }
    case Raised(RetryError) => ProcessExpected(a.c, r, a.rest);
    case _ =>
  }

  /** A send fails only for its timeout or for an exception that the source does not tell apart; a receive never for a
      timeout, and no request for a lost connection, a state error or a retry. */
  lemma FailsOnlyFor(c: Client, r: Request, s: Script)
    requires Process(c, r, s).out.Rescued?
    ensures
      var e := Process(c, r, s).out.error;
      match r.op
      case Send(_) => (e == TimeoutError && r.timed) || e == ForeignError
      case Subscribe(_) => (e == TimeoutError && r.timed) || e == ForeignError
      case Unsubscribe(_) => (e == TimeoutError && r.timed) || e == ForeignError || e == InternalError
      case Receive(_) => e in {ForeignError, InternalError, QpidError, QpidTimeoutError}
  {
    ProcessExpected(c, r, s);
  }
}
