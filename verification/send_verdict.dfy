/** What a send is answered for each status its messenger reports, and when it is put again. */
module SendVerdicts {
  import opened Wrappers
  import opened Destinations
  import opened ClientState
  import opened SendPath
  import opened RequestLoop
  import opened Traces
  import opened AtLeastOnce

  /** The ticks of one attempt: the put, the waits for the buffer to be sent and the look that finds it sent, the reads
      of a pending status, the read that decides, and the look at the state before the verdict. */
  datatype Ticks = Ticks(put: Tick, buffered: Script, sent: Tick, pending: Script, read: Tick, judged: Tick)

  function Of(x: Ticks): Script {
    [x.put] + x.buffered + [x.sent] + x.pending + [x.read, x.judged]
  }

  /** The client that has put, then the one at the look that finds the buffer sent, at the last read of a pending
      status, at the deciding read, and at the verdict. */
  function Put(c: Client, x: Ticks): Client {
    var c1 := Env(c, x.put.events);
    c1.(m := c1.m.(hasPut := true))
  }

  function Sent(c: Client, x: Ticks): Client {
    Env(After(Put(c, x), x.buffered), x.sent.events)
  }

  function Read(c: Client, x: Ticks): Client {
    Env(After(Sent(c, x), x.pending), x.read.events)
  }

  function Judged(c: Client, x: Ticks): Client {
    Env(Read(c, x), x.judged.events)
  }

  /** Through `s` the buffer is not sent; the client may come and go. */
  ghost predicate StaysBuffered(c: Client, r: Request, s: Script) {
    forall k :: 0 <= k < |s| ==> !Fires(r, s[k]) && At(c, s, k).impl && At(c, s, k).m.hasPut && s[k].flag
  }

  /** Through `s` the messenger of the put reports a pending status and the client is started. */
  ghost predicate StaysPending(c: Client, r: Request, s: Script) {
    forall k :: 0 <= k < |s| ==>
      && !Fires(r, s[k]) && s[k].status == Pending
      && At(c, s, k).impl && At(c, s, k).m.hasPut && At(c, s, k).state == Started
  }

  /** An attempt that is put and goes on, without a timeout, to a deciding read on the put's own messenger. */
  ghost predicate Decides(c: Client, r: Request, x: Ticks) {
    && Env(c, x.put.events).impl && x.put.fault == Fine
    && StaysBuffered(Put(c, x), r, x.buffered)
    && !Fires(r, x.sent) && Sent(c, x).impl && !x.sent.flag
    && StaysPending(Sent(c, x), r, x.pending)
    && !Fires(r, x.read) && Read(c, x).impl && Read(c, x).m.gen == Put(c, x).m.gen
    && (x.read.status == Pending ==> Read(c, x).state != Started)
  }

  lemma {:induction false} Buffers(c: Client, r: Request, g: nat, s: Script, rest: Script)
    requires StaysBuffered(c, r, s)
    ensures AwaitOutbound(c, r, g, s + rest) == AwaitOutbound(After(c, s), r, g, rest)
    decreases |s|
  {
    if s == [] {
      assert s + rest == rest;
    } else {
      var c1 := Env(c, s[0].events);
      AtFirst(c, s);
      assert (s + rest)[0] == s[0] && (s + rest)[1..] == s[1..] + rest;
      forall k | 0 <= k < |s[1..]|
        ensures !Fires(r, s[1..][k]) && At(c1, s[1..], k).impl && At(c1, s[1..], k).m.hasPut && s[1..][k].flag
      {
        assert At(c, s, k + 1) == At(c1, s[1..], k);
      }
      Buffers(c1, r, g, s[1..], rest);
    }
  }

  lemma {:induction false} Pends(c: Client, r: Request, g: nat, s: Script, rest: Script)
    requires StaysPending(c, r, s)
    ensures AwaitStatus(c, r, g, s + rest) == AwaitStatus(After(c, s), r, g, rest)
    decreases |s|
  {
    if s == [] {
      assert s + rest == rest;
    } else {
      var c1 := Env(c, s[0].events);
      AtFirst(c, s);
      assert (s + rest)[0] == s[0] && (s + rest)[1..] == s[1..] + rest;
      forall k | 0 <= k < |s[1..]|
        ensures !Fires(r, s[1..][k]) && At(c1, s[1..], k).impl && At(c1, s[1..], k).m.hasPut
        ensures s[1..][k].status == Pending && At(c1, s[1..], k).state == Started
      {
        assert At(c, s, k + 1) == At(c1, s[1..], k);
      }
      Pends(c1, r, g, s[1..], rest);
    }
  }

  lemma {:induction false} AfterKeepsPutOn(c: Client, s: Script, g: nat)
    requires PutOn(c, g)
    ensures PutOn(After(c, s), g)
    decreases |s|
  {
    if s == [] {
    } else {
      EnvKeepsPutOn(c, s[0].events, g);
      AfterKeepsPutOn(Env(c, s[0].events), s[1..], g);
    }
  }

  /** The deciding read is on a messenger with a put. */
  lemma ReadHasPut(c: Client, x: Ticks)
    requires Read(c, x).m.gen == Put(c, x).m.gen
    ensures Read(c, x).m.hasPut
  {
    var g := Put(c, x).m.gen;
    AfterKeepsPutOn(Put(c, x), x.buffered, g);
    EnvKeepsPutOn(After(Put(c, x), x.buffered), x.sent.events, g);
    AfterKeepsPutOn(Sent(c, x), x.pending, g);
    EnvKeepsPutOn(After(Sent(c, x), x.pending), x.read.events, g);
  }

  lemma IsPut(c: Client, r: Request, x: Ticks, rest: Script)
    requires Env(c, x.put.events).impl && x.put.fault == Fine
    ensures ProcessQueuedSend(c, r, [x.put] + rest) == AwaitOutbound(Put(c, x), r, Put(c, x).m.gen, rest)
  {
    assert ([x.put] + rest)[1..] == rest;
  }

  lemma IsSent(c: Client, r: Request, g: nat, t: Tick, rest: Script)
    requires !Fires(r, t) && Env(c, t.events).impl && !t.flag
    ensures AwaitOutbound(c, r, g, [t] + rest) == AwaitStatus(Env(c, t.events), r, g, rest)
  {
    assert ([t] + rest)[1..] == rest;
  }

  lemma IsRead(c: Client, r: Request, g: nat, t: Tick, rest: Script)
    requires !Fires(r, t) && Env(c, t.events).impl && Env(c, t.events).m.hasPut
    requires t.status == Pending ==> Env(c, t.events).state != Started
    ensures
      var c1 := Env(c, t.events);
      AwaitStatus(c, r, g, [t] + rest) == JudgeStatus(c1, r, g, t.status, c1.m.gen, rest)
  {
    assert ([t] + rest)[1..] == rest;
  }

  lemma ReachesVerdict(c: Client, r: Request, x: Ticks, rest: Script)
    requires Decides(c, r, x)
    ensures
      var g := Put(c, x).m.gen;
      ProcessQueuedSend(c, r, Of(x) + rest) == JudgeStatus(Read(c, x), r, g, x.read.status, g, [x.judged] + rest)
  {
    var g := Put(c, x).m.gen;
    var s4 := [x.read] + ([x.judged] + rest);
    var s3 := x.pending + s4;
    var s2 := [x.sent] + s3;
    var s1 := x.buffered + s2;
    assert Of(x) + rest == [x.put] + s1;
    IsPut(c, r, x, s1);
    Buffers(Put(c, x), r, g, x.buffered, s2);
    IsSent(After(Put(c, x), x.buffered), r, g, x.sent, s3);
    Pends(Sent(c, x), r, g, x.pending, s4);
    ReadHasPut(c, x);
    IsRead(After(Sent(c, x), x.pending), r, g, x.read, [x.judged] + rest);
  }

  /** The client is as it was when the attempt was judged, with `end` logged and `news` replied. */
  function Ended(c: Client, r: Request, x: Ticks, end: SendEnd, news: seq<Reply>): Client {
    var c1 := Judged(c, x);
    c1.(replies := c.replies + news,
        history := c.history.(sends := c.history.sends + [Attempt(r, Some(Put(c, x).m.gen), end)]))
  }

  lemma JudgedKeeps(c: Client, x: Ticks)
    ensures Judged(c, x).replies == c.replies && Judged(c, x).history == c.history
  {
    AfterKeeps(Put(c, x), x.buffered);
    AfterKeeps(Sent(c, x), x.pending);
  }

  lemma Verdict(c: Client, r: Request, x: Ticks, rest: Script)
    requires Decides(c, r, x)
    ensures
      var o := ProcessQueuedSend(c, r, Of(x) + rest);
      var st := x.read.status;
      if Judged(c, x).state != Started then o == Run(Ended(c, r, x, LostStarted, []), rest, Raised(RetryError))
      else if st == Aborted then o == Run(Ended(c, r, x, AbortedEnd, []), rest, Raised(NetworkError))
      else if st == Rejected then
        o == Run(Ended(c, r, x, AnsweredError(RangeError), [Reply(r, Failure(RangeError))]), rest, Finished)
      else if st in {Released, Modified, Strange} then
        o == Run(Ended(c, r, x, AnsweredError(InternalError), [Reply(r, Failure(InternalError))]), rest, Finished)
      else o == Run(Ended(c, r, x, AnsweredNil(st, Put(c, x).m.gen), [Reply(r, Nothing)]), rest, Finished)
  {
    ReachesVerdict(c, r, x, rest);
    JudgedKeeps(c, x);
    assert ([x.judged] + rest)[1..] == rest;
    assert Judged(c, x).replies + [] == c.replies;
  }

  // ----- The verdicts.

  /** The ticks of a request up to the verdict on its first attempt. */
  function Through(w: Script, up: Tick, go: Tick, x: Ticks): Script {
    w + [up, go] + Of(x)
  }

  lemma FirstAttempt(c: Client, r: Request, w: Script, up: Tick, go: Tick, x: Ticks, rest: Script)
    requires r.op.Send? && Reaches(c, r, w, up, go)
    ensures Process(c, r, Through(w, up, go, x) + rest)
         == AfterAttempt(ProcessQueuedSend(Ready(c, w, up, go), r, Of(x) + rest), r)
  {
    assert Through(w, up, go, x) + rest == w + [up, go] + (Of(x) + rest);
    Begins(c, r, w, up, go, Of(x) + rest);
  }

  lemma ReadyKeeps(c: Client, w: Script, up: Tick, go: Tick)
    ensures Ready(c, w, up, go).replies == c.replies && Ready(c, w, up, go).history == c.history
  {
    AfterKeeps(c, w);
  }

  /** A send that is accepted, settled, still pending or without a status is answered nil, one that is rejected with a
      RangeError, and one that is released, modified or has a strange status with an InternalError: whatever else goes
      on while it waits, provided that the deciding read is on its own messenger and the client is started after it. */
  lemma AnsweredByStatus(c: Client, r: Request, w: Script, up: Tick, go: Tick, x: Ticks, rest: Script)
    requires r.op.Send? && Reaches(c, r, w, up, go)
    requires var c1 := Ready(c, w, up, go); Decides(c1, r, x) && Judged(c1, x).state == Started
    requires x.read.status != Aborted
    ensures
      var o := Process(c, r, Through(w, up, go, x) + rest);
      && o.out == Finished && o.rest == rest
      && |o.c.history.sends| == |c.history.sends| + 1
      && LastEntry(o.c).put == Some(Put(Ready(c, w, up, go), x).m.gen)
      && o.c.replies == c.replies + [Reply(r,
           if x.read.status in {Accepted, Settled, Pending, Unknown} then Nothing
           else if x.read.status == Rejected then Failure(RangeError)
           else Failure(InternalError))]
  {
    FirstAttempt(c, r, w, up, go, x, rest);
    ReadyKeeps(c, w, up, go);
    Verdict(Ready(c, w, up, go), r, x, rest);
  }

  // ----- Sends without a verdict.

  /** A put that fails is answered, with a TimeoutError or an InternalError, and not tried again; whether the message
      was put is logged. */
  lemma FailedPutIsAnswered(c: Client, r: Request, w: Script, up: Tick, go: Tick, put: Tick, rest: Script)
    requires r.op.Send? && Reaches(c, r, w, up, go)
    requires Env(Ready(c, w, up, go), put.events).impl && put.fault != Fine
    ensures
      var o := Process(c, r, w + [up, go] + ([put] + rest));
      var e := if put.fault == TimeoutFault then TimeoutError else InternalError;
      var g := Env(Ready(c, w, up, go), put.events).m.gen;
      && o.out == Finished && o.rest == rest && o.c.replies == c.replies + [Reply(r, Failure(e))]
      && o.c.history.sends
           == c.history.sends + [Attempt(r, if put.flag then Some(g) else None, AnsweredError(e))]
  {
    var c1 := Ready(c, w, up, go);
    Begins(c, r, w, up, go, [put] + rest);
    ReadyKeeps(c, w, up, go);
    assert ([put] + rest)[1..] == rest;
    FinishedStays(ProcessQueuedSend(c1, r, [put] + rest), r);
  }

  /** The request fails for `e`: the reply is `e`, and nothing is logged. */
  ghost predicate FailsFor(c: Client, r: Request, o: Run, e: Error) {
    && o.out == Rescued(e) && o.c.replies == c.replies + [Reply(r, Failure(e))]
    && o.c.history.sends == c.history.sends
  }

  lemma RescuedFor(a: Run, r: Request, e: Error)
    requires (a.out == Raised(ForeignError) && e == ForeignError) || (a.out == TimedOut && e == TimeoutError)
    ensures var o := AfterAttempt(a, r);
      && o.out == Rescued(e) && o.c.replies == a.c.replies + [Reply(r, Failure(e))]
      && o.c.history.sends == a.c.history.sends && o.rest == a.rest
  {
  }

  /** Without a messenger to put on, a send fails for the exception that a nil messenger raises. */
  lemma NoMessengerFails(c: Client, r: Request, w: Script, up: Tick, go: Tick, put: Tick, rest: Script)
    requires r.op.Send? && Reaches(c, r, w, up, go) && !Env(Ready(c, w, up, go), put.events).impl
    ensures FailsFor(c, r, Process(c, r, w + [up, go] + ([put] + rest)), ForeignError)
  {
    var c1 := Ready(c, w, up, go);
    Begins(c, r, w, up, go, [put] + rest);
    ReadyKeeps(c, w, up, go);
    assert ([put] + rest)[1..] == rest;
    RescuedFor(ProcessQueuedSend(c1, r, [put] + rest), r, ForeignError);
  }

  /** A tick at which a send stops waiting: its timeout fires, or else its messenger is found gone. */
  ghost predicate Breaks(c: Client, r: Request, t: Tick) {
    Fires(r, t) || !Env(c, t.events).impl
  }

  function BreakError(r: Request, t: Tick): Error {
    if r.timed && t.fires then TimeoutError else ForeignError
  }

  /** A send that times out, or loses its messenger, while its message is buffered fails for that. */
  lemma BufferedBreaks(c: Client, r: Request, w: Script, up: Tick, go: Tick, x: Ticks, t: Tick, rest: Script)
    requires r.op.Send? && Reaches(c, r, w, up, go)
    requires
      var c1 := Ready(c, w, up, go);
      && Env(c1, x.put.events).impl && x.put.fault == Fine && StaysBuffered(Put(c1, x), r, x.buffered)
      && Breaks(After(Put(c1, x), x.buffered), r, t)
    ensures
      FailsFor(c, r, Process(c, r, w + [up, go] + ([x.put] + (x.buffered + ([t] + rest)))), BreakError(r, t))
  {
    var c1 := Ready(c, w, up, go);
    var s1 := x.buffered + ([t] + rest);
    Begins(c, r, w, up, go, [x.put] + s1);
    ReadyKeeps(c, w, up, go);
    IsPut(c1, r, x, s1);
    Buffers(Put(c1, x), r, Put(c1, x).m.gen, x.buffered, [t] + rest);
    AfterKeeps(Put(c1, x), x.buffered);
    assert ([t] + rest)[1..] == rest;
    RescuedFor(ProcessQueuedSend(c1, r, [x.put] + s1), r, BreakError(r, t));
  }

  /** And so does one that waits for its status. */
  lemma PendingBreaks(c: Client, r: Request, w: Script, up: Tick, go: Tick, x: Ticks, t: Tick, rest: Script)
    requires r.op.Send? && Reaches(c, r, w, up, go)
    requires
      var c1 := Ready(c, w, up, go);
      && Env(c1, x.put.events).impl && x.put.fault == Fine && StaysBuffered(Put(c1, x), r, x.buffered)
      && !Fires(r, x.sent) && Sent(c1, x).impl && !x.sent.flag && StaysPending(Sent(c1, x), r, x.pending)
      && Breaks(After(Sent(c1, x), x.pending), r, t)
    ensures
      var s := [x.put] + (x.buffered + ([x.sent] + (x.pending + ([t] + rest))));
      FailsFor(c, r, Process(c, r, w + [up, go] + s), BreakError(r, t))
  {
    var c1 := Ready(c, w, up, go);
    var g := Put(c1, x).m.gen;
    var s2 := [x.sent] + (x.pending + ([t] + rest));
    var s := [x.put] + (x.buffered + s2);
    Begins(c, r, w, up, go, s);
    ReadyKeeps(c, w, up, go);
    IsPut(c1, r, x, x.buffered + s2);
    Buffers(Put(c1, x), r, g, x.buffered, s2);
    AfterKeeps(Put(c1, x), x.buffered);
    IsSent(After(Put(c1, x), x.buffered), r, g, x.sent, x.pending + ([t] + rest));
    Pends(Sent(c1, x), r, g, x.pending, [t] + rest);
    AfterKeeps(Sent(c1, x), x.pending);
    assert ([t] + rest)[1..] == rest;
    RescuedFor(ProcessQueuedSend(c1, r, s), r, BreakError(r, t));
  }

  // ----- Retries.

  /** An attempt of a request, with the ticks that lead up to it. */
  datatype Round = Round(w: Script, up: Tick, go: Tick, x: Ticks)

  function RoundTicks(b: Round): Script {
    Through(b.w, b.up, b.go, b.x)
  }

  /** The attempt is made and its message put, but it is judged while the client is not started, or aborted. */
  ghost predicate Lost(c: Client, r: Request, b: Round) {
    var c1 := Ready(c, b.w, b.up, b.go);
    && Reaches(c, r, b.w, b.up, b.go) && Decides(c1, r, b.x)
    && (Judged(c1, b.x).state != Started || b.x.read.status == Aborted)
  }

  /** What it leaves in the log. */
  function LostEntry(c: Client, r: Request, b: Round): Attempt {
    var c1 := Ready(c, b.w, b.up, b.go);
    Attempt(r, Some(Put(c1, b.x).m.gen), if Judged(c1, b.x).state != Started then LostStarted else AbortedEnd)
  }

  /** The client after it, not answered: an abort sets :retrying. */
  function Unanswered(c: Client, r: Request, b: Round): Client {
    var c1 := Judged(Ready(c, b.w, b.up, b.go), b.x);
    c1.(state := if c1.state == Started then Retrying else c1.state,
        history := c.history.(sends := c.history.sends + [LostEntry(c, r, b)]))
  }

  lemma TriedAgain(c: Client, r: Request, b: Round, rest: Script)
    requires r.op.Send? && Lost(c, r, b)
    ensures Process(c, r, RoundTicks(b) + rest) == Process(Unanswered(c, r, b), r, rest)
    ensures Unanswered(c, r, b).replies == c.replies
  {
    var c1 := Ready(c, b.w, b.up, b.go);
    FirstAttempt(c, r, b.w, b.up, b.go, b.x, rest);
    ReadyKeeps(c, b.w, b.up, b.go);
    JudgedKeeps(c1, b.x);
    Verdict(c1, r, b.x, rest);
    assert c.replies + [] == c.replies;
    var a := ProcessQueuedSend(c1, r, Of(b.x) + rest);
    GoesBack(a, r, Unanswered(c, r, b));
  }

  lemma GoesBack(a: Run, r: Request, c: Client)
    requires
      || (a.out == Raised(RetryError) && c == a.c)
      || (a.out == Raised(NetworkError) && c == a.c.(state := Retrying))
    ensures AfterAttempt(a, r) == Process(c, r, a.rest)
  {
  }

  /** All rounds are lost, one after the other. */
  ghost predicate AllLost(c: Client, r: Request, bs: seq<Round>)
    decreases |bs|
  {
    bs != [] ==> Lost(c, r, bs[0]) && AllLost(Unanswered(c, r, bs[0]), r, bs[1..])
  }

  function AllTicks(bs: seq<Round>): Script {
    if bs == [] then [] else RoundTicks(bs[0]) + AllTicks(bs[1..])
  }

  function AfterAll(c: Client, r: Request, bs: seq<Round>): Client
    decreases |bs|
  {
    if bs == [] then c else AfterAll(Unanswered(c, r, bs[0]), r, bs[1..])
  }

  lemma {:induction false} TriedUntil(c: Client, r: Request, bs: seq<Round>, rest: Script)
    requires r.op.Send? && AllLost(c, r, bs)
    ensures Process(c, r, AllTicks(bs) + rest) == Process(AfterAll(c, r, bs), r, rest)
    ensures
      var c1 := AfterAll(c, r, bs);
      c1.replies == c.replies && |c1.history.sends| == |c.history.sends| + |bs| && c.history.sends <= c1.history.sends
    decreases |bs|
  {
    if bs == [] {
      assert [] + rest == rest;
    } else {
      var c1 := Unanswered(c, r, bs[0]);
      assert AllTicks(bs) + rest == RoundTicks(bs[0]) + (AllTicks(bs[1..]) + rest);
      TriedAgain(c, r, bs[0], AllTicks(bs[1..]) + rest);
      TriedUntil(c1, r, bs[1..], rest);
      assert c1.history.sends == c.history.sends + [LostEntry(c, r, bs[0])];
    }
  }

  /** However many attempts are lost, a send is put again after each of them once the client is up again and not
      stopped, and answered once, by the status of the last. */
  lemma PutAgainUntilAnswered(c: Client, r: Request, bs: seq<Round>, b: Round, rest: Script)
    requires r.op.Send? && AllLost(c, r, bs)
    requires
      var c1 := AfterAll(c, r, bs);
      var c2 := Ready(c1, b.w, b.up, b.go);
      && Reaches(c1, r, b.w, b.up, b.go) && Decides(c2, r, b.x) && Judged(c2, b.x).state == Started
      && b.x.read.status != Aborted
    ensures
      var o := Process(c, r, AllTicks(bs) + (RoundTicks(b) + rest));
      && o.out == Finished && o.rest == rest
      && |o.c.history.sends| == |c.history.sends| + |bs| + 1
      && LastEntry(o.c).put == Some(Put(Ready(AfterAll(c, r, bs), b.w, b.up, b.go), b.x).m.gen)
      && o.c.replies == c.replies + [Reply(r,
           if b.x.read.status in {Accepted, Settled, Pending, Unknown} then Nothing
           else if b.x.read.status == Rejected then Failure(RangeError)
           else Failure(InternalError))]
  {
    var c1 := AfterAll(c, r, bs);
    TriedUntil(c, r, bs, RoundTicks(b) + rest);
    AnsweredByStatus(c1, r, b.w, b.up, b.go, b.x, rest);
  }
}
