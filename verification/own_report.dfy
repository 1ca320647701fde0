/** On whose report a nil answer to a send rests. */
module OwnReports {
  import opened Wrappers
  import opened ClientState
  import opened SendPath
  import opened RequestLoop
  import opened AtLeastOnce

  /** The events of some ticks, in order. */
  function EventsOf(s: Script): seq<Event> {
    if s == [] then [] else s[0].events + EventsOf(s[1..])
  }

  /** The messenger is freed, or the proton thread makes a new one. */
  predicate Replaces(c: Client, e: Event) {
    e.Free? || (e.Connect? && c.state != Started)
  }

  /** Whether one of the events replaces the messenger. */
  predicate Replaced(c: Client, es: seq<Event>)
    decreases |es|
  {
    es != [] && (Replaces(c, es[0]) || Replaced(Happen(c, es[0]), es[1..]))
  }

  lemma {:induction false} ReplacedIffNewer(c: Client, es: seq<Event>)
    ensures Env(c, es).m.gen != c.m.gen <==> Replaced(c, es)
    decreases |es|
  {
    if es == [] {
    } else {
      ReplacedIffNewer(Happen(c, es[0]), es[1..]);
    }
  }

  lemma {:induction false} EnvInTwo(c: Client, es: seq<Event>, fs: seq<Event>)
    ensures Env(c, es + fs) == Env(Env(c, es), fs)
    decreases |es|
  {
    if es == [] {
      assert es + fs == fs;
    } else {
      assert (es + fs)[1..] == es[1..] + fs;
      EnvInTwo(Happen(c, es[0]), es[1..], fs);
    }
  }

  /** The ticks of a finished attempt from after `from` of them to its deciding read, which is the last but one. */
  function ToTheRead(s: Script, o: Run, from: nat): Script
    requires from + |o.rest| < |s|
  {
    s[from..|s| - |o.rest| - 1]
  }

  lemma EnvOverTicks(c: Client, t: Tick, s: Script)
    ensures Env(c, EventsOf([t] + s)) == Env(Env(c, t.events), EventsOf(s))
  {
    assert ([t] + s)[1..] == s;
    EnvInTwo(c, t.events, EventsOf(s));
  }

  /** The messenger that reported the status of an attempt is the one current after what has happened up to the read. */
  ghost predicate ReadsThen(c: Client, s: Script, o: Run) {
    o.out.Finished? ==>
      && |o.rest| < |s| && |o.c.history.sends| > 0
      && (LastEntry(o.c).end.AnsweredNil? ==>
            LastEntry(o.c).end.reader == Env(c, EventsOf(ToTheRead(s, o, 0))).m.gen)
  }

  lemma OneTickEarlier(c: Client, s: Script, o: Run)
    requires s != [] && ReadsThen(Env(c, s[0].events), s[1..], o)
    ensures ReadsThen(c, s, o)
  {
    if o.out.Finished? {
      assert ToTheRead(s, o, 0) == [s[0]] + ToTheRead(s[1..], o, 0);
      EnvOverTicks(c, s[0], ToTheRead(s[1..], o, 0));
    }
  }

  /** The entry that a judged status leaves. */
  lemma JudgedEntry(c: Client, r: Request, g: nat, st: Status, reader: nat, s: Script)
    ensures
      var o := JudgeStatus(c, r, g, st, reader, s);
      o.out.Finished? ==>
        && s != [] && o.rest == s[1..] && |o.c.history.sends| > 0 && LastEntry(o.c).put == Some(g)
        && (LastEntry(o.c).end.AnsweredNil? ==> LastEntry(o.c).end.reader == reader)
  {
  }

  lemma {:induction false} StatusReadThen(c: Client, r: Request, g: nat, s: Script)
    ensures ReadsThen(c, s, AwaitStatus(c, r, g, s))
    decreases |s|
  {
    if s == [] {
    } else {
      var c1 := Env(c, s[0].events);
      if TrackerStatus(c1, s[0]) == Pending && c1.state == Started {
        StatusReadThen(c1, r, g, s[1..]);
        OneTickEarlier(c, s, AwaitStatus(c1, r, g, s[1..]));
      } else {
        JudgedEntry(c1, r, g, TrackerStatus(c1, s[0]), c1.m.gen, s[1..]);
        var o := AwaitStatus(c, r, g, s);
        if o.out.Finished? {
          assert ToTheRead(s, o, 0) == [s[0]];
          EnvOverTicks(c, s[0], []);
        }
      }
    }
  }

  lemma {:induction false} OutboundReadThen(c: Client, r: Request, g: nat, s: Script)
    ensures ReadsThen(c, s, AwaitOutbound(c, r, g, s))
    decreases |s|
  {
    if s == [] {
    } else {
      var c1 := Env(c, s[0].events);
      if c1.m.hasPut && s[0].flag {
        OutboundReadThen(c1, r, g, s[1..]);
        OneTickEarlier(c, s, AwaitOutbound(c1, r, g, s[1..]));
      } else {
        StatusReadThen(c1, r, g, s[1..]);
        OneTickEarlier(c, s, AwaitStatus(c1, r, g, s[1..]));
      }
    }
  }

  /** The client right after the put of an attempt that starts with `s`. */
  function AfterPut(c: Client, s: Script): Client
    requires s != []
  {
    MarkPut(Env(c, s[0].events))
  }

  /** An attempt answered nil rests on its own put exactly if the messenger is not replaced between put and read. */
  lemma AttemptOwnReportIff(c: Client, r: Request, s: Script)
    requires
      var o := ProcessQueuedSend(c, r, s);
      o.out.Finished? && |o.c.history.sends| > 0 && LastEntry(o.c).end.AnsweredNil?
    ensures
      var o := ProcessQueuedSend(c, r, s);
      && 1 + |o.rest| < |s|
      && var last, c1 := LastEntry(o.c), AfterPut(c, s);
      && last.put == Some(c1.m.gen)
      && (last.end.reader == c1.m.gen <==> !Replaced(c1, EventsOf(ToTheRead(s, o, 1))))
  {
    var o := ProcessQueuedSend(c, r, s);
    var c1 := AfterPut(c, s);
    SendTrail(c, r, s);
    assert LastEntry(o.c) == Logged(c.history, o.c.history)[0];
    assert o == AwaitOutbound(c1, r, c1.m.gen, s[1..]);
    OutboundReadThen(c1, r, c1.m.gen, s[1..]);
    AwaitOutboundPut(c1, r, c1.m.gen, s[1..]);
    assert ToTheRead(s[1..], o, 0) == ToTheRead(s, o, 1);
    ReplacedIffNewer(c1, EventsOf(ToTheRead(s, o, 1)));
  }

  lemma {:induction false} AwaitStatusPut(c: Client, r: Request, g: nat, s: Script)
    ensures
      var o := AwaitStatus(c, r, g, s);
      o.out.Finished? ==> |o.c.history.sends| > 0 && LastEntry(o.c).put == Some(g)
    decreases |s|
  {
    if s == [] {
    } else {
      var c1 := Env(c, s[0].events);
      if TrackerStatus(c1, s[0]) == Pending && c1.state == Started {
        AwaitStatusPut(c1, r, g, s[1..]);
      } else {
        JudgedEntry(c1, r, g, TrackerStatus(c1, s[0]), c1.m.gen, s[1..]);
      }
    }
  }

  lemma {:induction false} AwaitOutboundPut(c: Client, r: Request, g: nat, s: Script)
    ensures
      var o := AwaitOutbound(c, r, g, s);
      o.out.Finished? ==> |o.c.history.sends| > 0 && LastEntry(o.c).put == Some(g)
    decreases |s|
  {
    if s == [] {
    } else {
      AwaitOutboundPut(Env(c, s[0].events), r, g, s[1..]);
      AwaitStatusPut(Env(c, s[0].events), r, g, s[1..]);
    }
  }

  /** The run ends with an attempt that starts from `c1` when `s1` of the ticks are left. */
  ghost predicate EndsWithAttempt(c: Client, r: Request, s: Script, c1: Client, s1: Script) {
    IsSuffix(s1, s) && Process(c, r, s) == ProcessQueuedSend(c1, r, s1)
  }

  /** A request that does not wait for the connection goes on to an attempt. */
  lemma StartsAttempt(c: Client, r: Request, s: Script)
    requires r.op.Send? && s != [] && Process(c, r, s).out.Finished?
    requires var st := Env(c, s[0].events).state; st != Retrying && st != Starting
    ensures |s| >= 2
    ensures
      var c2 := Env(Env(c, s[0].events), s[1].events);
      Process(c, r, s) == AfterAttempt(ProcessQueuedSend(c2, r, s[2..]), r)
  {
    var c1 := Env(c, s[0].events);
    assert Process(c, r, s) == StoppedCheck(c1, r, s[1..]);
    assert |s| >= 2 ==> s[1..][1..] == s[2..];
  }

  lemma {:induction false} FinishesWithAttempt(c: Client, r: Request, s: Script) returns (c1: Client, s1: Script)
    requires r.op.Send? && Process(c, r, s).out.Finished?
    ensures EndsWithAttempt(c, r, s, c1, s1)
    decreases |s|, 1
  {
    var c0 := Env(c, s[0].events);
    if c0.state == Retrying || c0.state == Starting {
      WaitsFirst(c, r, s);
      c1, s1 := FinishesWithAttempt(c0, r, s[1..]);
    } else {
      StartsAttempt(c, r, s);
      c1, s1 := AttemptFinishes(Env(c0, s[1].events), r, s[2..]);
    }
  }

  /** A request that waits for the connection goes on waiting. */
  lemma WaitsFirst(c: Client, r: Request, s: Script)
    requires r.op.Send? && s != [] && Process(c, r, s).out.Finished?
    requires var st := Env(c, s[0].events).state; st == Retrying || st == Starting
    ensures Process(c, r, s) == Process(Env(c, s[0].events), r, s[1..])
  {
  }

  lemma NoStateError(c: Client, r: Request, s: Script)
    ensures ProcessQueuedSend(c, r, s).out != Raised(QpidStateError) && |ProcessQueuedSend(c, r, s).rest| <= |s|
    ensures s != [] ==> |ProcessQueuedSend(c, r, s).rest| < |s|
  {
    SendTrail(c, r, s);
  }

  /** An attempt that has not finished, though the request has, is tried again. */
  lemma TriedAgain(a: Run, r: Request)
    requires AfterAttempt(a, r).out.Finished? && !a.out.Finished? && a.out != Raised(QpidStateError)
    ensures
      AfterAttempt(a, r)
        == Process(if a.out == Raised(NetworkError) then a.c.(state := Retrying) else a.c, r, a.rest)
  {
  }

  lemma {:induction false} AttemptFinishes(c: Client, r: Request, s: Script) returns (c1: Client, s1: Script)
    requires r.op.Send? && AfterAttempt(ProcessQueuedSend(c, r, s), r).out.Finished?
    ensures IsSuffix(s1, s) && AfterAttempt(ProcessQueuedSend(c, r, s), r) == ProcessQueuedSend(c1, r, s1)
    decreases |s|, 2
  {
    var a := ProcessQueuedSend(c, r, s);
    NoStateError(c, r, s);
    SendLeavesSuffix(c, r, s);
    if a.out.Finished? {
      c1, s1 := c, s;
    } else {
      TriedAgain(a, r);
      var lost := if a.out == Raised(NetworkError) then a.c.(state := Retrying) else a.c;
      c1, s1 := FinishesWithAttempt(lost, r, a.rest);
    }
  }

  ghost predicate IsSuffix(t: Script, s: Script) {
    |t| <= |s| && t == s[|s| - |t|..]
  }

  lemma {:induction false} StatusLeavesSuffix(c: Client, r: Request, g: nat, s: Script)
    ensures IsSuffix(AwaitStatus(c, r, g, s).rest, s)
    decreases |s|
  {
    if s == [] {
    } else {
      StatusLeavesSuffix(Env(c, s[0].events), r, g, s[1..]);
    }
  }

  lemma {:induction false} OutboundLeavesSuffix(c: Client, r: Request, g: nat, s: Script)
    ensures IsSuffix(AwaitOutbound(c, r, g, s).rest, s)
    decreases |s|
  {
    if s == [] {
    } else {
      OutboundLeavesSuffix(Env(c, s[0].events), r, g, s[1..]);
      StatusLeavesSuffix(Env(c, s[0].events), r, g, s[1..]);
    }
  }

  lemma SendLeavesSuffix(c: Client, r: Request, s: Script)
    ensures IsSuffix(ProcessQueuedSend(c, r, s).rest, s)
  {
    if s != [] {
      var c1 := MarkPut(Env(c, s[0].events));
      OutboundLeavesSuffix(c1, r, c1.m.gen, s[1..]);
    }
  }

  /** The attempt from `c1` on, answered nil with `o`, rests on the report of its own put exactly if the messenger is
      not replaced between that put and the read that decided. */
  ghost predicate OwnIffKept(o: Run, c1: Client, s1: Script) {
    && 1 + |o.rest| < |s1| && |o.c.history.sends| > 0
    && var last, c2 := LastEntry(o.c), AfterPut(c1, s1);
    && last.end.AnsweredNil? && last.put == Some(c2.m.gen)
    && (last.end.reader == c2.m.gen <==> !Replaced(c2, EventsOf(ToTheRead(s1, o, 1))))
  }

  /** Exactly when: over any number of retries, a nil answer is a report on the last put if and only if no messenger was
      freed or made between that put and the read that decided. */
  lemma NilIsOwnReportIff(c: Client, r: Request, s: Script)
    requires r.op.Send? && Process(c, r, s).out.Finished?
    requires Process(c, r, s).c.replies == c.replies + [Reply(r, Nothing)]
    ensures exists c1, s1 :: EndsWithAttempt(c, r, s, c1, s1)
    ensures forall c1, s1 :: EndsWithAttempt(c, r, s, c1, s1) ==> OwnIffKept(Process(c, r, s), c1, s1)
  {
    NilIsOwnReport(c, r, s);
    var _, _ := FinishesWithAttempt(c, r, s);
    forall c1, s1 | EndsWithAttempt(c, r, s, c1, s1) ensures OwnIffKept(Process(c, r, s), c1, s1) {
      AttemptOwnReportIff(c1, r, s1);
    }
  }
}
