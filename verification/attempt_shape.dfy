/** What a single attempt at a request does to the replies and the settled messages.

    `ReceiveShape` says it of a receive and `PlainShape` of any other request, and each function on the way from the
    request to the proton messenger has a lemma that its runs have the shape: whatever other threads and the server do
    between its steps, and however it ends. An attempt at a receive may raise before its reply or after it. The second
    case is what a count of the replies has to single out: it needs a destination whose messages are acknowledged, and
    only at QoS 0 does it lead to a retry. What settles a message is the acknowledgement of the one just replied, since
    the incoming tracker names that message until its messenger is replaced (`Tracks`). */
module AttemptShapes {
  import opened Wrappers
  import opened Destinations
  import opened ClientState
  import opened ReceivePath
  import opened SendPath
  import opened SubscriptionPath
  import opened RequestLoop

  /** The replies pushed on the way from `c` to `c'`. */
  function News(c: Client, c': Client): seq<Reply>
    requires |c.replies| <= |c'.replies|
  {
    c'.replies[|c.replies|..]
  }

  /** The replies so far are kept, and what is added answers `r`. */
  ghost predicate Adds(c: Client, c': Client, r: Request) {
    && c.replies <= c'.replies
    && forall i :: 0 <= i < |News(c, c')| ==> News(c, c')[i].request == r
  }

  /** Buffered messages, and the one the incoming tracker names, belong to the messenger. */
  ghost predicate Tagged(m: Messenger) {
    && (forall i :: 0 <= i < |m.incoming| ==> m.incoming[i].gen == m.gen)
    && (m.tracker.Some? ==> m.tracker.value.gen == m.gen)
  }

  /** The incoming tracker names `msg` until the messenger is replaced, and nothing after that. */
  ghost predicate Tracks(m: Messenger, msg: Message) {
    && msg.gen <= m.gen
    && m.tracker == if msg.gen == m.gen then Some(msg) else None
  }

  /** What one completed hand-over settles: that message, unless its messenger has been replaced. */
  function Settlement(d: Destination, body: Body, m: Messenger): seq<Message> {
    if body.Delivered? && Settles(d) && body.message.gen == m.gen then [body.message] else []
  }

  lemma {:induction false} EnvKeepsTagged(c: Client, es: seq<Event>)
    requires Tagged(c.m)
    ensures Tagged(Env(c, es).m)
    decreases |es|
  {
    if es == [] {
    } else {
      EnvKeepsTagged(Happen(c, es[0]), es[1..]);
    }
  }

  lemma {:induction false} EnvKeepsTracks(c: Client, es: seq<Event>, msg: Message)
    requires Tracks(c.m, msg)
    ensures Tracks(Env(c, es).m, msg)
    decreases |es|
  {
    if es == [] {
    } else {
      EnvKeepsTracks(Happen(c, es[0]), es[1..], msg);
    }
  }

  // ----- One attempt at a receive.

  /** One attempt at a receive pushes one reply if it finishes; one that raises has pushed one only if what failed
      was the acknowledgement, and only a finished one settles, its own message. */
  ghost predicate ReceiveShape(c: Client, r: Request, d: Destination, o: Run) {
    var h, h' := c.history, o.c.history;
    && Tagged(o.c.m)
    && Adds(c, o.c, r) && |News(c, o.c)| <= 1
    && (forall i :: 0 <= i < |News(c, o.c)| ==> !News(c, o.c)[i].body.Failure?)
    && (o.out.Raised? && |News(c, o.c)| > 0 ==>
          Settles(d) && (o.out.error == ForeignError || (o.out.error == NetworkError && d.qos == QOS_AT_MOST_ONCE)))
    && (o.out.Finished? || o.out.Raised? || o.out.Blocked?)
    && (o.out.Raised? ==> o.out.error != RetryError)
    && h'.failedAfterReply == h.failedAfterReply + (if o.out.Raised? then |News(c, o.c)| else 0)
    && (o.out.Finished? ==> |News(c, o.c)| == 1)
    && h.failedSettles <= h'.failedSettles
    && (!o.out.Finished? ==> h'.failedSettles == h.failedSettles)
    && h'.settled == h.settled +
        if o.out.Finished? && h'.failedSettles == h.failedSettles then Settlement(d, News(c, o.c)[0].body, o.c.m)
        else []
  }

  lemma ShapeFromHere(c: Client, c1: Client, r: Request, d: Destination, o: Run)
    requires c1.replies == c.replies && c1.history == c.history.(unguarded := c1.history.unguarded)
    requires ReceiveShape(c1, r, d, o)
    ensures ReceiveShape(c, r, d, o)
  {
  }

  lemma AcknowledgeShape(c: Client, c1: Client, r: Request, d: Destination, msg: Message, s: Script)
    requires c1.replies == c.replies + [Reply(r, Delivered(msg))] && c1.history == c.history
    requires Tracks(c1.m, msg) && Tagged(c1.m)
    ensures ReceiveShape(c, r, d, Acknowledge(c1, d, s))
  {
    if Settles(d) && s != [] {
      EnvKeepsTracks(c1, s[0].events, msg);
      EnvKeepsTagged(c1, s[0].events);
    }
    var o := Acknowledge(c1, d, s);
    assert o.c.replies == c1.replies;
    assert News(c, o.c) == [Reply(r, Delivered(msg))];
  }

  lemma HandOverShape(c: Client, r: Request, d: Destination, msg: Message, s: Script)
    requires Tracks(c.m, msg) && Tagged(c.m)
    ensures ReceiveShape(c, r, d, HandOver(c, r, d, msg, s))
  {
    if s != [] {
      var c1 := Env(c, s[0].events);
      EnvKeepsTracks(c, s[0].events, msg);
      EnvKeepsTagged(c, s[0].events);
      if c1.impl && !s[0].flag {
        AcknowledgeShape(c, Hand(c1, r, msg), r, d, msg, s[1..]);
      }
    }
  }

  lemma CollectShape(c: Client, r: Request, d: Destination, s: Script)
    requires Tagged(c.m)
    ensures ReceiveShape(c, r, d, CollectMessage(c, r, d, s))
  {
    if s != [] {
      EnvKeepsTagged(c, s[0].events);
      var c1 := Env(c, s[0].events);
      if c1.impl && s[0].fault == Fine && c1.m.incoming != [] && !s[0].flag {
        HandOverShape(Get(c1), r, d, c1.m.incoming[0], s[1..]);
      }
    }
  }

  lemma {:induction false} DrainLoopShape(c: Client, r: Request, d: Destination, g: nat, stale: bool, s: Script)
    requires Tagged(c.m)
    ensures ReceiveShape(c, r, d, DrainLoop(c, r, d, g, stale, s))
    decreases |s|
  {
    if !c.impl {
    } else if StillDraining(c, d.address, g, stale) && c.state == Started {
      if s != [] {
        EnvKeepsTagged(c, s[0].events);
        var c1 := Env(c, s[0].events);
        DrainLoopShape(c1, r, d, g, s[0].flag, s[1..]);
        ShapeFromHere(c, c1, r, d, DrainLoop(c1, r, d, g, s[0].flag, s[1..]));
      }
    } else if c.m.incoming != [] {
      CollectShape(c, r, d, s);
    }
  }

  lemma DrainShape(c: Client, r: Request, d: Destination, g: nat, s: Script)
    requires Tagged(c.m)
    ensures ReceiveShape(c, r, d, DrainMessage(c, r, d, g, s))
  {
    if s != [] {
      EnvKeepsTagged(c, s[0].events);
      var c1 := Env(c, s[0].events);
      if c1.impl {
        var c2 := StartDrain(c1, d.address, g);
        DrainLoopShape(c2, r, d, g, s[0].flag, s[1..]);
        ShapeFromHere(c, c2, r, d, DrainLoop(c2, r, d, g, s[0].flag, s[1..]));
      }
    }
  }

  lemma OnTimeoutShape(c: Client, r: Request, d: Destination, g: nat, s: Script)
    requires Tagged(c.m)
    ensures ReceiveShape(c, r, d, OnTimeout(c, r, d, g, s))
  {
    if s != [] {
      EnvKeepsTagged(c, s[0].events);
      var c1 := Env(c, s[0].events);
      if c1.state == Started {
        DrainShape(c1, r, d, g, s[1..]);
        ShapeFromHere(c, c1, r, d, DrainMessage(c1, r, d, g, s[1..]));
      }
    }
  }

  lemma DecideShape(c: Client, r: Request, d: Destination, g: nat, s: Script)
    requires Tagged(c.m)
    ensures ReceiveShape(c, r, d, DecidePresent(c, r, d, g, s))
  {
    if s != [] {
      EnvKeepsTagged(c, s[0].events);
      var c1 := Env(c, s[0].events);
      if r.timed && s[0].fires {
        OnTimeoutShape(c1, r, d, g, s[1..]);
        ShapeFromHere(c, c1, r, d, OnTimeout(c1, r, d, g, s[1..]));
      } else if c1.state == Started {
        CollectShape(c1, r, d, s[1..]);
        ShapeFromHere(c, c1, r, d, CollectMessage(c1, r, d, s[1..]));
      }
    }
  }

  lemma {:induction false} AwaitShape(c: Client, r: Request, d: Destination, g: nat, s: Script)
    requires Tagged(c.m)
    ensures ReceiveShape(c, r, d, AwaitMessage(c, r, d, g, s))
    decreases |s|
  {
    if s == [] {
    } else {
      EnvKeepsTagged(c, s[0].events);
      var c1 := Env(c, s[0].events);
      if r.timed && s[0].fires {
        OnTimeoutShape(c1, r, d, g, s[1..]);
      } else if c1.impl && (c1.m.incoming != [] || c1.state != Started) {
        DecideShape(c1, r, d, g, s[1..]);
      } else if c1.impl {
        AwaitShape(c1, r, d, g, s[1..]);
      }
    }
  }

  lemma OpenShape(c: Client, r: Request, d: Destination, s: Script)
    requires Tagged(c.m)
    ensures ReceiveShape(c, r, d, OpenForMessage(c, r, d, s))
  {
    if s != [] {
      EnvKeepsTagged(c, s[0].events);
      var c1 := Env(c, s[0].events);
      if c1.impl && d.address in c1.m.links {
        var c2 := GrantCredit(c1, d.address);
        var o := AwaitMessage(c2, r, d, c2.m.gen, s[1..]);
        AwaitShape(c2, r, d, c2.m.gen, s[1..]);
        ShapeFromHere(c, c2, r, d, o);
      }
    }
  }

  lemma OpenShapeFrom(c: Client, c1: Client, r: Request, d: Destination, s: Script)
    requires Tagged(c1.m) && c1.replies == c.replies && c1.history == c.history
    ensures ReceiveShape(c, r, d, OpenForMessage(c1, r, d, s))
  {
    OpenShape(c1, r, d, s);
    ShapeFromHere(c, c1, r, d, OpenForMessage(c1, r, d, s));
  }

  lemma CheckShape(c: Client, r: Request, d: Destination, s: Script)
    requires Tagged(c.m)
    ensures ReceiveShape(c, r, d, CheckForMessages(c, r, d, s))
  {
    if s != [] {
      EnvKeepsTagged(c, s[0].events);
      OpenShapeFrom(c, CheckOutOfSequence(Env(c, s[0].events), s[0]), r, d, s[1..]);
    }
  }

  // ----- One attempt at another request.

  /** Such an attempt pushes its reply as it finishes, and settles nothing. */
  ghost predicate PlainShape(c: Client, r: Request, o: Run) {
    && Tagged(o.c.m)
    && Adds(c, o.c, r)
    && |News(c, o.c)| == (if o.out.Finished? && !r.op.Unsubscribe? then 1 else 0)
    && !o.out.Halted? && !o.out.Rescued?
    && o.c.history == c.history.(sends := o.c.history.sends)
  }

  lemma AnswerShape(c: Client, r: Request, o: Run, b: Body)
    requires Tagged(o.c.m) && o.out.Finished? && !r.op.Unsubscribe? && o.c.replies == c.replies + [Reply(r, b)]
    requires o.c.history == c.history.(sends := o.c.history.sends)
    ensures PlainShape(c, r, o)
  {
    assert News(c, o.c) == [Reply(r, b)];
  }

  lemma JudgeStatusShape(c: Client, r: Request, g: nat, st: Status, reader: nat, s: Script)
    requires Tagged(c.m) && r.op.Send?
    ensures PlainShape(c, r, JudgeStatus(c, r, g, st, reader, s))
  {
    if s != [] {
      EnvKeepsTagged(c, s[0].events);
      var o := JudgeStatus(c, r, g, st, reader, s);
      if o.out.Finished? { AnswerShape(c, r, o, o.c.replies[|c.replies|].body); }
    }
  }

  lemma {:induction false} AwaitStatusShape(c: Client, r: Request, g: nat, s: Script)
    requires Tagged(c.m) && r.op.Send?
    ensures PlainShape(c, r, AwaitStatus(c, r, g, s))
    decreases |s|
  {
    if s == [] {
    } else {
      EnvKeepsTagged(c, s[0].events);
      var c1 := Env(c, s[0].events);
      if TrackerStatus(c1, s[0]) == Pending && c1.state == Started {
        AwaitStatusShape(c1, r, g, s[1..]);
      } else {
        JudgeStatusShape(c1, r, g, TrackerStatus(c1, s[0]), c1.m.gen, s[1..]);
      }
    }
  }

  lemma {:induction false} AwaitOutboundShape(c: Client, r: Request, g: nat, s: Script)
    requires Tagged(c.m) && r.op.Send?
    ensures PlainShape(c, r, AwaitOutbound(c, r, g, s))
    decreases |s|
  {
    if s == [] {
    } else {
      EnvKeepsTagged(c, s[0].events);
      AwaitOutboundShape(Env(c, s[0].events), r, g, s[1..]);
      AwaitStatusShape(Env(c, s[0].events), r, g, s[1..]);
    }
  }

  lemma {:induction false} AwaitLinkShape(c: Client, r: Request, d: Destination, s: Script)
    requires Tagged(c.m) && r.op.Subscribe?
    ensures PlainShape(c, r, AwaitLink(c, r, d, s))
    decreases |s|
  {
    if s == [] {
    } else {
      EnvKeepsTagged(c, s[0].events);
      var c1 := Env(c, s[0].events);
      if !(r.timed && s[0].fires) && c1.impl && !s[0].flag && s[0].fault == Fine { AwaitLinkShape(c1, r, d, s[1..]); }
    }
  }

  lemma {:induction false} AwaitClosedShape(c: Client, r: Request, d: Destination, g: nat, s: Script)
    requires Tagged(c.m) && r.op.Unsubscribe?
    ensures PlainShape(c, r, AwaitClosed(c, r, d, g, s))
    decreases |s|
  {
    if s == [] {
    } else {
      EnvKeepsTagged(c, s[0].events);
      AwaitClosedShape(Env(c, s[0].events), r, d, g, s[1..]);
    }
  }

  lemma SendShape(c: Client, r: Request, s: Script)
    requires Tagged(c.m) && r.op.Send?
    ensures PlainShape(c, r, ProcessQueuedSend(c, r, s))
  {
    if s != [] {
      EnvKeepsTagged(c, s[0].events);
      var c1 := Env(c, s[0].events);
      if c1.impl && s[0].fault == Fine { AwaitOutboundShape(MarkPut(c1), r, c1.m.gen, s[1..]); }
    }
  }

  lemma PlainPerformShape(c: Client, r: Request, s: Script)
    requires Tagged(c.m) && !r.op.Receive?
    ensures PlainShape(c, r, Perform(c, r, s))
  {
    match r.op
    case Send(_) => SendShape(c, r, s);
    case Subscribe(d) =>
      if s != [] {
        EnvKeepsTagged(c, s[0].events);
        AwaitLinkShape(AddLink(Env(c, s[0].events), d.address), r, d, s[1..]);
      }
    case Unsubscribe(d) =>
      if s != [] {
        EnvKeepsTagged(c, s[0].events);
        AwaitClosedShape(Env(c, s[0].events), r, d, Env(c, s[0].events).m.gen, s[1..]);
      }
  }
}
