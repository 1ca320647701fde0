/** What an answer to a send is worth over any number of retries. */
module AtLeastOnce {
  import opened Wrappers
  import opened Destinations
  import opened ClientState
  import opened SendPath
  import opened RequestLoop
  import opened Scenarios

  /** While the attempt that put on messenger `g` goes on, no newer messenger has a put. */
  ghost predicate PutOn(c: Client, g: nat) {
    g <= c.m.gen && (c.m.hasPut <==> c.m.gen == g)
  }

  lemma {:induction false} EnvKeepsPutOn(c: Client, es: seq<Event>, g: nat)
    requires PutOn(c, g)
    ensures PutOn(Env(c, es), g)
    decreases |es|
  {
    if es == [] {
    } else {
      EnvKeepsPutOn(Happen(c, es[0]), es[1..], g);
    }
  }

  /** An attempt whose message was put and that ended in an abort or in the loss of :started. */
  predicate Retryable(a: Attempt) {
    a.put.Some? && (a.end.AbortedEnd? || a.end.LostStarted?)
  }

  /** An attempt answered nil was put; the status that allowed it is none of the refusals; it was read on the put's own
      messenger, or on a newer one, which had no status to report. */
  predicate Answered(a: Attempt) {
    && a.end.AnsweredNil? && a.put.Some? && a.put.value <= a.end.reader
    && a.end.status in {Unknown, Pending, Accepted, Settled}
    && (a.end.reader != a.put.value ==> a.end.status == Unknown)
  }

  /** The attempts logged between two histories. */
  function Logged(h: History, h': History): seq<Attempt>
    requires |h.sends| <= |h'.sends|
  {
    h'.sends[|h.sends|..]
  }

  ghost predicate Logs(c: Client, o: Run, r: Request) {
    && c.history.sends <= o.c.history.sends
    && forall i :: 0 <= i < |Logged(c.history, o.c.history)| ==> Logged(c.history, o.c.history)[i].request == r
  }

  /** The reply that an attempt which ended so has pushed. */
  function BodyOf(end: SendEnd): Body
    requires end.AnsweredNil? || end.AnsweredError?
  {
    if end.AnsweredNil? then Nothing else Failure(end.error)
  }

  /** The attempt `a` has answered the request on the way from `c` to `c'`. */
  ghost predicate Answers(c: Client, c': Client, r: Request, a: Attempt) {
    && (a.end.AnsweredNil? || a.end.AnsweredError?)
    && (a.end.AnsweredNil? ==> Answered(a) && a.end.reader <= c'.m.gen)
    && c'.replies == c.replies + [Reply(r, BodyOf(a.end))]
  }

  /** One attempt at a send, put on messenger `g` or a newer one. */
  ghost predicate AttemptTrail(c: Client, r: Request, g: nat, o: Run) {
    && Logs(c, o, r) && c.m.gen <= o.c.m.gen
    && var log := Logged(c.history, o.c.history);
    && (forall a :: a in log && a.put.Some? ==> g <= a.put.value)
    && (o.out.Finished? ==> |log| == 1 && Answers(c, o.c, r, log[0]))
    && (!o.out.Finished? ==> o.c.replies == c.replies)
    && (o.out.Raised? && o.out.error != ForeignError ==> |log| == 1 && Retryable(log[0]))
    && (o.out == Raised(ForeignError) || o.out.TimedOut? || o.out.Blocked? ==> log == [])
    && !o.out.Halted? && !o.out.Rescued? && o.out != Raised(QpidStateError)
  }

  /** An attempt that logs `a` as its only entry, and answers or is to be retried. */
  lemma OneEntryTrail(c: Client, r: Request, g: nat, o: Run, a: Attempt)
    requires o.c.history.sends == c.history.sends + [a] && a.request == r && a.put == Some(g) && c.m.gen <= o.c.m.gen
    requires
      || (o.out.Finished? && Answers(c, o.c, r, a))
      || ((o.out == Raised(RetryError) || o.out == Raised(NetworkError)) && Retryable(a) && o.c.replies == c.replies)
    ensures AttemptTrail(c, r, g, o)
  {
    assert Logged(c.history, o.c.history) == [a];
  }

  lemma JudgeTrail(c: Client, r: Request, g: nat, st: Status, reader: nat, s: Script)
    requires g <= reader <= c.m.gen && (reader != g ==> st == Unknown)
    ensures AttemptTrail(c, r, g, JudgeStatus(c, r, g, st, reader, s))
  {
    if s != [] {
      var o := JudgeStatus(c, r, g, st, reader, s);
      if o.out.Finished? {
        var end := if st in {Rejected, Released, Modified, Strange}
          then AnsweredError(if st == Rejected then RangeError else InternalError) else AnsweredNil(st, reader);
        OneEntryTrail(c, r, g, o, Attempt(r, Some(g), end));
      } else {
        var aborted := st == Aborted && Env(c, s[0].events).state == Started;
        OneEntryTrail(c, r, g, o, Attempt(r, Some(g), if aborted then AbortedEnd else LostStarted));
      }
    }
  }

  lemma {:induction false} AwaitStatusTrail(c: Client, r: Request, g: nat, s: Script)
    requires PutOn(c, g)
    ensures AttemptTrail(c, r, g, AwaitStatus(c, r, g, s))
    decreases |s|
  {
    if s == [] {
    } else {
      EnvKeepsPutOn(c, s[0].events, g);
      var c1 := Env(c, s[0].events);
      if TrackerStatus(c1, s[0]) == Pending && c1.state == Started {
        AwaitStatusTrail(c1, r, g, s[1..]);
      } else {
        JudgeTrail(c1, r, g, TrackerStatus(c1, s[0]), c1.m.gen, s[1..]);
      }
    }
  }

  lemma {:induction false} AwaitOutboundTrail(c: Client, r: Request, g: nat, s: Script)
    requires PutOn(c, g)
    ensures AttemptTrail(c, r, g, AwaitOutbound(c, r, g, s))
    decreases |s|
  {
    if s == [] {
    } else {
      EnvKeepsPutOn(c, s[0].events, g);
      AwaitOutboundTrail(Env(c, s[0].events), r, g, s[1..]);
      AwaitStatusTrail(Env(c, s[0].events), r, g, s[1..]);
    }
  }

  lemma SendTrail(c: Client, r: Request, s: Script)
    ensures AttemptTrail(c, r, c.m.gen, ProcessQueuedSend(c, r, s))
  {
    if s != [] {
      var c1 := Env(c, s[0].events);
      if c1.impl && s[0].fault == Fine { AwaitOutboundTrail(MarkPut(c1), r, c1.m.gen, s[1..]); }
    }
  }

  // ----- A send with all its attempts.

  /** All attempts but the last ended in an abort or the loss of :started, and the last one gave the reply. */
  ghost predicate RequestTrail(c: Client, r: Request, o: Run) {
    && Logs(c, o, r)
    && var log := Logged(c.history, o.c.history);
    && (forall a :: a in log && a.put.Some? ==> c.m.gen <= a.put.value)
    && (o.out.Finished? ==> log != [] && Answers(c, o.c, r, log[|log| - 1]))
    && forall i :: 0 <= i < |log| - (if o.out.Finished? then 1 else 0) ==> Retryable(log[i])
  }

  lemma TrailAfter(c: Client, c1: Client, r: Request, o: Run)
    requires c1.replies == c.replies && c.history.sends <= c1.history.sends && c.m.gen <= c1.m.gen
    requires forall a :: a in Logged(c.history, c1.history) ==> a.request == r && Retryable(a) && c.m.gen <= a.put.value
    requires RequestTrail(c1, r, o)
    ensures RequestTrail(c, r, o)
  {
    assert Logged(c.history, o.c.history) == Logged(c.history, c1.history) + Logged(c1.history, o.c.history);
  }

  /** At least once: a send that finishes was put in every attempt that was retried, each of those ended in an abort or
      in the loss of :started, and a nil answer comes from an attempt that put the message and read no refusal. */
  lemma {:induction false} RetriesUntilAnswered(c: Client, r: Request, s: Script)
    requires r.op.Send?
    ensures RequestTrail(c, r, Process(c, r, s))
    decreases |s|, 1
  {
    if s == [] {
    } else {
      var c1 := Env(c, s[0].events);
      if c1.state == Retrying || c1.state == Starting {
        if !(r.timed && s[0].fires) {
          RetriesUntilAnswered(c1, r, s[1..]);
          TrailAfter(c, c1, r, Process(c1, r, s[1..]));
        }
      } else if s[1..] != [] {
        var c2 := Env(c1, s[1].events);
        if c2.state != Stopped {
          var a := ProcessQueuedSend(c2, r, s[1..][1..]);
          SendTrail(c2, r, s[1..][1..]);
          AfterAttemptTrail(c2, r, a);
          TrailAfter(c, c2, r, AfterAttempt(a, r));
        }
      }
    }
  }

  lemma {:induction false} AfterAttemptTrail(c: Client, r: Request, a: Run)
    requires r.op.Send? && AttemptTrail(c, r, c.m.gen, a)
    ensures RequestTrail(c, r, AfterAttempt(a, r))
    decreases |a.rest|, 2
  {
    if a.out == Raised(NetworkError) {
      var c1 := a.c.(state := Retrying);
      RetriesUntilAnswered(c1, r, a.rest);
      TrailAfter(c, c1, r, Process(c1, r, a.rest));
    } else if a.out == Raised(RetryError) {
      RetriesUntilAnswered(a.c, r, a.rest);
      TrailAfter(c, a.c, r, Process(a.c, r, a.rest));
    } else {
      EndedTrail(c, r, a);
    }
  }

  /** An attempt that is not tried again. */
  lemma EndedTrail(c: Client, r: Request, a: Run)
    requires r.op.Send? && AttemptTrail(c, r, c.m.gen, a) && a.out !in {Raised(NetworkError), Raised(RetryError)}
    ensures RequestTrail(c, r, AfterAttempt(a, r))
  {
  }

  /** A nil answer, after any number of retries, comes from an attempt that put the message and read no refusal; and if
      the messenger of that put is still the client's, the status was its own report. */
  lemma NilIsOwnReport(c: Client, r: Request, s: Script)
    requires r.op.Send? && Process(c, r, s).out.Finished?
    requires Process(c, r, s).c.replies == c.replies + [Reply(r, Nothing)]
    ensures
      var o := Process(c, r, s);
      && |o.c.history.sends| > 0
      && var last := LastEntry(o.c);
      && last.request == r && last.put.Some? && last.end.AnsweredNil?
      && last.end.status in {Unknown, Pending, Accepted, Settled}
      && (last.put.value == o.c.m.gen ==> last.end.reader == last.put.value)
  {
    RetriesUntilAnswered(c, r, s);
    var o := Process(c, r, s);
    var log := Logged(c.history, o.c.history);
    assert log[|log| - 1] == LastEntry(o.c);
    assert o.c.replies[|c.replies|] == Reply(r, BodyOf(LastEntry(o.c).end));
  }

  function LastEntry(c: Client): Attempt
    requires |c.history.sends| > 0
  {
    c.history.sends[|c.history.sends| - 1]
  }

  // ----- When the messenger is replaced under a send.

  /** A send whose messenger has been replaced is answered nil as soon as the client is started again: the newer
      messenger knows of no put, and its answer, unknown, counts as success. */
  lemma ReplacedSendIsAnsweredNil(c: Client, r: Request, g: nat, t1: Tick, t2: Tick)
    requires g < c.m.gen && PutOn(c, g)
    requires var c1 := Env(c, t1.events); c1.impl && !(r.timed && t1.fires) && Env(c1, t2.events).state == Started
    ensures
      var o := AwaitStatus(c, r, g, [t1, t2]);
      && o.out.Finished? && o.c.replies == c.replies + [Reply(r, Nothing)]
      && o.c.history.sends == c.history.sends + [Attempt(r, Some(g), AnsweredNil(Unknown, Env(c, t1.events).m.gen))]
  {
    EnvKeepsPutOn(c, t1.events, g);
    var c1 := Env(c, t1.events);
    assert [t1, t2][1..] == [t2];
    assert AwaitStatus(c, r, g, [t1, t2]) == JudgeStatus(c1, r, g, Unknown, c1.m.gen, [t2]);
  }

  /** A client that has lost its connection, and whose proton thread has made a new messenger. */
  const REPLACED_CLIENT: Client := STARTED_CLIENT.(state := Starting, connecting := true, m := FreshMessenger(2))

  /** The connection is lost while the put is still buffered, and replaced. */
  lemma LosesItsBuffer(c: Client, r: Request, rest: Script)
    requires !r.timed && c == MarkPut(STARTED_CLIENT)
    ensures AwaitOutbound(c, r, 1, [YesOn(SetState(Retrying)), RECONNECT] + rest)
         == AwaitStatus(REPLACED_CLIENT, r, 1, rest)
  {
    var s1 := [YesOn(SetState(Retrying)), RECONNECT] + rest;
    var s2 := [RECONNECT] + rest;
    assert s1[1..] == s2 && s2[1..] == rest;
    var c2 := Happen(c, SetState(Retrying));
    EnvOne(c, SetState(Retrying));
    assert AwaitOutbound(c, r, 1, s1) == AwaitOutbound(c2, r, 1, s2);
    EnvReconnect(c2);
  }

  lemma LosesItsMessenger(r: Request, rest: Script)
    requires r.op.Send? && !r.timed
    ensures
      var s := [STILL, YesOn(SetState(Retrying)), RECONNECT] + rest;
      ProcessQueuedSend(STARTED_CLIENT, r, s)
        == AwaitStatus(REPLACED_CLIENT, r, 1, rest)
  {
    var s := [STILL, YesOn(SetState(Retrying)), RECONNECT] + rest;
    var s1 := [YesOn(SetState(Retrying)), RECONNECT] + rest;
    assert s[1..] == s1;
    EnvOne(STARTED_CLIENT, Free);
    assert ProcessQueuedSend(STARTED_CLIENT, r, s) == AwaitOutbound(MarkPut(STARTED_CLIENT), r, 1, s1);
    LosesItsBuffer(MarkPut(STARTED_CLIENT), r, rest);
  }

  lemma PassesCheck(r: Request, rest: Script)
    requires r.op.Send?
    ensures StoppedCheck(STARTED_CLIENT, r, [STILL] + rest)
         == AfterAttempt(ProcessQueuedSend(STARTED_CLIENT, r, rest), r)
  {
    assert ([STILL] + rest)[1..] == rest;
    EnvOne(STARTED_CLIENT, Free);
  }

  const LOSING: Script := [STILL, YesOn(SetState(Retrying)), RECONNECT] + [On(Activate), STILL]

  /** An attempt that loses its messenger and is answered nil by the next one. */
  lemma LostAttempt(r: Request)
    requires r.op.Send? && !r.timed
    ensures
      var a := ProcessQueuedSend(STARTED_CLIENT, r, LOSING);
      && a.out.Finished? && a.c.replies == [Reply(r, Nothing)]
      && a.c.history.sends == [Attempt(r, Some(1), AnsweredNil(Unknown, 2))]
  {
    LosesItsMessenger(r, [On(Activate), STILL]);
    var c := REPLACED_CLIENT;
    EnvOne(c, Activate);
    EnvOne(Happen(c, Activate), Free);
    ReplacedSendIsAnsweredNil(c, r, 1, On(Activate), STILL);
  }

  lemma FinishedStays(a: Run, r: Request)
    requires a.out.Finished?
    ensures AfterAttempt(a, r) == a
  {
  }

  /** So a send can be answered nil without any messenger having reported on it. */
  lemma LostSendIsAnsweredNil(r: Request)
    requires r.op.Send? && !r.timed
    ensures exists s: Script :: var o := Process(NEW_CLIENT, r, s);
      && o.out.Finished? && o.c.replies == [Reply(r, Nothing)]
      && o.c.history.sends == [Attempt(r, Some(1), AnsweredNil(Unknown, 2))]
  {
    var s := [On(SetState(Starting)), On(Connect), On(Activate)] + ([STILL] + LOSING);
    StartsUp(r, [STILL] + LOSING);
    PassesCheck(r, LOSING);
    LostAttempt(r);
    FinishedStays(ProcessQueuedSend(STARTED_CLIENT, r, LOSING), r);
    assert Process(NEW_CLIENT, r, s) == ProcessQueuedSend(STARTED_CLIENT, r, LOSING);
  }
}
