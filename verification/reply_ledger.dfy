/** How many replies a request pushes over all its attempts, and which message a receive settles. */
module ReplyLedger {
  import opened Wrappers
  import opened Destinations
  import opened ClientState
  import opened ReceivePath
  import opened SendPath
  import opened SubscriptionPath
  import opened RequestLoop
  import opened AttemptShapes

  /** Replies pushed that an acknowledgement failed after. */
  function Failures(c: Client, c': Client): int {
    c'.history.failedAfterReply - c.history.failedAfterReply
  }

  /** How many replies a request owes when it ends in this way, failures after a reply aside. */
  function Owed(r: Request, out: Out): nat {
    if out.Halted? || (out.Finished? && r.op.Unsubscribe?) then 0 else 1
  }

  /** Only a receive whose destination asks for an acknowledgement can have one fail after the reply, and only at QoS 0
      more than one. */
  predicate CanFail(r: Request, failures: int) {
    && (failures > 0 ==> r.op.Receive? && Settles(r.op.destination))
    && (failures > 1 ==> r.op.Receive? && r.op.destination.qos == QOS_AT_MOST_ONCE)
  }

  function SettledBy(c: Client, r: Request, o: Run): seq<Message>
    requires |c.replies| <= |o.c.replies|
  {
    var news := News(c, o.c);
    if r.op.Receive? && o.out.Finished? && o.c.history.failedSettles == c.history.failedSettles && news != [] then
      Settlement(r.op.destination, news[|news| - 1].body, o.c.m)
    else []
  }

  ghost predicate Balanced(c: Client, r: Request, o: Run) {
    && Tagged(o.c.m)
    && Adds(c, o.c, r)
    && 0 <= Failures(c, o.c) && CanFail(r, Failures(c, o.c))
    && (!o.out.Blocked? ==> |News(c, o.c)| == Owed(r, o.out) + Failures(c, o.c))
    && (!r.op.Receive? ==> o.c.history == c.history.(sends := o.c.history.sends))
    && o.c.history.settled == c.history.settled + SettledBy(c, r, o)
  }

  /** One or more attempts have pushed a reply for each acknowledgement that failed, and have settled nothing. */
  ghost predicate Attempted(c: Client, c1: Client, r: Request) {
    && Tagged(c1.m)
    && Adds(c, c1, r) && |News(c, c1)| == Failures(c, c1) && CanFail(r, Failures(c, c1))
    && c1.history.settled == c.history.settled && c1.history.failedSettles == c.history.failedSettles
    && (!r.op.Receive? ==> c1.history == c.history.(sends := c1.history.sends))
  }

  /** The same on the way to a retry, where only an acknowledgement at QoS 0 can have failed. */
  ghost predicate Retried(c: Client, c1: Client, r: Request) {
    && Attempted(c, c1, r)
    && (Failures(c, c1) > 0 ==> r.op.Receive? && r.op.destination.qos == QOS_AT_MOST_ONCE)
  }

  lemma RetriedSame(c: Client, c1: Client, c2: Client, r: Request)
    requires Retried(c, c1, r) && c2.replies == c1.replies && c2.history == c1.history && Tagged(c2.m)
    ensures Retried(c, c2, r)
  {
  }

  lemma RetriedHere(c: Client, c1: Client, r: Request)
    requires c1.replies == c.replies && c1.history == c.history && Tagged(c1.m)
    ensures Retried(c, c1, r)
  {
  }

  /** What leads to a retry, followed by a balanced rest, is balanced. */
  lemma BalancedAfter(c: Client, c1: Client, r: Request, o: Run)
    requires Retried(c, c1, r) && Balanced(c1, r, o)
    ensures Balanced(c, r, o)
  {
    assert News(c, o.c) == News(c, c1) + News(c1, o.c);
  }

  /** The reply ledger: a popped send, subscribe or receive that ends pushes exactly one reply, none when it returns
      at the stopped check, and one more for every acknowledgement that failed after its message was replied. A
      successful unsubscribe pushes none and a failed one pushes one. A receive that finishes settles the message it
      handed over, once, unless the messenger it came from has been replaced or reported an error. */
  lemma {:induction false} RequestIsBalanced(c: Client, r: Request, s: Script)
    requires Tagged(c.m)
    ensures Balanced(c, r, Process(c, r, s))
    decreases |s|, 1
  {
    if s == [] {
    } else {
      EnvKeepsTagged(c, s[0].events);
      var c1 := Env(c, s[0].events);
      if c1.state == Retrying || c1.state == Starting {
        if !(r.timed && !r.op.Receive? && s[0].fires) {
          RetriedHere(c, c1, r);
          RequestIsBalanced(c1, r, s[1..]);
          BalancedAfter(c, c1, r, Process(c1, r, s[1..]));
        }
      } else {
        RetriedHere(c, c1, r);
        StoppedCheckIsBalanced(c1, r, s[1..]);
        BalancedAfter(c, c1, r, StoppedCheck(c1, r, s[1..]));
      }
    }
  }

  lemma {:induction false} StoppedCheckIsBalanced(c: Client, r: Request, s: Script)
    requires Tagged(c.m)
    ensures Balanced(c, r, StoppedCheck(c, r, s))
    decreases |s|, 2
  {
    if s == [] {
    } else {
      EnvKeepsTagged(c, s[0].events);
      var c1 := Env(c, s[0].events);
      if c1.state != Stopped {
        var a := Perform(c1, r, s[1..]);
        if r.op.Receive? {
          CheckShape(c1, r, r.op.destination, s[1..]);
        } else {
          PlainPerformShape(c1, r, s[1..]);
        }
        AttemptIsBalanced(c1, r, a);
        RetriedHere(c, c1, r);
        BalancedAfter(c, c1, r, AfterAttempt(a, r));
      }
    }
  }

  ghost predicate Shaped(c: Client, r: Request, a: Run) {
    if r.op.Receive? then ReceiveShape(c, r, r.op.destination, a) else PlainShape(c, r, a)
  }

  lemma RaisedAttempt(c: Client, r: Request, a: Run)
    requires Shaped(c, r, a) && a.out.Raised?
    ensures Attempted(c, a.c, r)
    ensures a.out.error in {NetworkError, QpidStateError, RetryError} ==> Retried(c, a.c, r)
  {
  }

  lemma {:induction false} AttemptIsBalanced(c: Client, r: Request, a: Run)
    requires Shaped(c, r, a)
    ensures Balanced(c, r, AfterAttempt(a, r))
    decreases |a.rest|, 4
  {
    if a.out.Raised? {
      RaisedIsBalanced(c, r, a);
    } else if a.out.TimedOut? {
      RescueIsBalanced(c, a.c, r, TimeoutError, a.rest);
    }
  }

  lemma RescueIsBalanced(c: Client, c1: Client, r: Request, e: Error, s: Script)
    requires Attempted(c, c1, r)
    ensures Balanced(c, r, Rescue(c1, r, e, s))
  {
    var o := Rescue(c1, r, e, s);
    assert News(c, o.c) == News(c, c1) + [Reply(r, Failure(e))];
  }

  lemma {:induction false} RetryIsBalanced(c: Client, c1: Client, r: Request, s: Script)
    requires Retried(c, c1, r)
    ensures Balanced(c, r, Process(c1, r, s))
    decreases |s|, 2
  {
    RequestIsBalanced(c1, r, s);
    BalancedAfter(c, c1, r, Process(c1, r, s));
  }

  lemma RaisedIsBalanced(c: Client, r: Request, a: Run)
    requires Shaped(c, r, a) && a.out.Raised?
    ensures Balanced(c, r, AfterAttempt(a, r))
    decreases |a.rest|, 3
  {
    RaisedAttempt(c, r, a);
    var e := a.out.error;
    if e == NetworkError {
      RetriedSame(c, a.c, a.c.(state := Retrying), r);
      RetryIsBalanced(c, a.c.(state := Retrying), r, a.rest);
    } else if e == QpidStateError {
      RaisedStateIsBalanced(c, r, a);
    } else if e == RetryError {
      RetryIsBalanced(c, a.c, r, a.rest);
    } else {
      RescueIsBalanced(c, a.c, r, e, a.rest);
    }
  }

  lemma RaisedStateIsBalanced(c: Client, r: Request, a: Run)
    requires a.out == Raised(QpidStateError) && Retried(c, a.c, r)
    ensures Balanced(c, r, AfterAttempt(a, r))
    decreases |a.rest|, 2
  {
    if a.rest != [] {
      EnvKeepsTagged(a.c, a.rest[0].events);
      var c1 := CheckOutOfSequence(Env(a.c, a.rest[0].events), a.rest[0]);
      RetriedSame(c, a.c, c1, r);
      RetryIsBalanced(c, c1, r, a.rest[1..]);
    }
  }

  /** A request that has ended has been answered more than once only if it is a receive at a destination that is
      acknowledged, and more than twice only at QoS 0. */
  lemma ManyRepliesOnlyIfAcknowledged(c: Client, r: Request, s: Script)
    requires Tagged(c.m) && !Process(c, r, s).out.Blocked?
    ensures c.replies <= Process(c, r, s).c.replies
    ensures
      var count := |Process(c, r, s).c.replies| - |c.replies|;
      && (count > 1 ==> r.op.Receive? && Settles(r.op.destination))
      && (count > 2 ==> r.op.Receive? && r.op.destination.qos == QOS_AT_MOST_ONCE)
  {
    RequestIsBalanced(c, r, s);
  }
}
