/** The caller's side of a request: lib/mqlight/blocking_client.rb pushes it, waits until it has been taken, and pops
    a reply. Between requests `replies` is the reply queue. */
module BlockingClients {
  import opened Wrappers
  import opened Destinations
  import opened ClientState
  import opened ReceivePath
  import opened RequestLoop
  import opened AttemptShapes
  import opened ReplyLedger
  import opened Commands

  /** Why a call is refused before its request is pushed. */
  datatype Refusal = NotStarted | UnknownQos | NoMessenger | Unsubscribed | ShutDown

  /** What a call gives its caller: a reply, nothing to wait for, a refusal, or a wait without end. */
  datatype Outcome = Popped(reply: Reply) | Done | Refused(reason: Refusal) | Waits | Running

  /** A call: the request it makes, what others do before it and after its guard, and whether push_request finds the
      shutdown flag set. Of the destination of a receive or an unsubscribe the caller names the topic pattern and the
      share. */
  datatype Asked = Asked(request: Request, before: seq<Event>, meanwhile: seq<Event>, shutdown: bool)

  datatype CallRun = CallRun(c: Client, rest: Script, outcome: Outcome)

  /** destinations.find { |dest| dest.match?(pattern, share) } */
  function FirstMatch(ds: seq<Destination>, pattern: string, share: Option<string>): (r: Option<Destination>)
    ensures r.Some? ==> r.value in ds && r.value.Match(pattern, share)
    ensures r.None? ==> forall d :: d in ds ==> !d.Match(pattern, share)
  {
    if ds == [] then None
    else if ds[0].Match(pattern, share) then Some(ds[0])
    else FirstMatch(ds[1..], pattern, share)
  }

  /** Array#delete of an object that is in the array once. */
  function Delete(ds: seq<Destination>, d: Destination): seq<Destination> {
    if ds == [] then [] else if ds[0] == d then ds[1..] else [ds[0]] + Delete(ds[1..], d)
  }

  /** The state guard of a call. */
  predicate Admits(state: State, op: Op) {
    if op.Unsubscribe? then state == Started else state != Stopped
  }

  /** settle_mode=, which sets two modes of the messenger. */
  function SettleMode(c: Client, qos: int): Option<Refusal> {
    if qos != QOS_AT_MOST_ONCE && qos != QOS_AT_LEAST_ONCE then Some(UnknownQos)
    else if !c.impl then Some(NoMessenger)
    else None
  }

  function Moded(c: Client, r: Request, qos: int): Result<Request, Refusal> {
    match SettleMode(c, qos)
    case Some(e) => Err(e)
    case None => Ok(r)
  }

  /** The settle modes or the look-up: the request as it is pushed. */
  function Resolve(c: Client, r: Request): Result<Request, Refusal> {
    match r.op
    case Send(qos) => Moded(c, r, qos)
    case Subscribe(d) => Moded(c, r, d.qos)
    case Receive(d) =>
      (match FirstMatch(c.destinations, d.topicPattern, d.share)
       case Some(found) => Ok(r.(op := Receive(found)))
       case None => Err(Unsubscribed))
    case Unsubscribe(d) =>
      (match FirstMatch(c.destinations, d.topicPattern, d.share)
       case Some(found) => Ok(r.(op := Unsubscribe(found)))
       case None => Err(Unsubscribed))
  }

  /** The guard and what follows it. */
  function Prepared(c: Client, a: Asked): (Client, Result<Request, Refusal>) {
    var c1 := Env(c, a.before);
    if !Admits(c1.state, a.request.op) then (c1, Err(NotStarted))
    else
      var c2 := Env(c1, a.meanwhile);
      (c2, Resolve(c2, a.request))
  }

  lemma PreparedKeeps(c: Client, a: Asked)
    requires Tagged(c.m)
    ensures
      var (c1, p) := Prepared(c, a);
      && Tagged(c1.m) && c1.replies == c.replies && c1.destinations == c.destinations
      && (p.Ok? ==>
            && p.value.id == a.request.id && (p.value.op.Send? <==> a.request.op.Send?)
            && (p.value.op.Unsubscribe? <==> a.request.op.Unsubscribe?)
            && (a.request.op.Subscribe? ==> p.value == a.request)
            && (p.value.op.Receive? ==> p.value.op.destination in c.destinations))
  {
    EnvKeepsTagged(c, a.before);
    EnvKeepsTagged(Env(c, a.before), a.meanwhile);
  }

  /** send clears the reply queue before it pushes. */
  function Cleared(c: Client, r: Request): Client {
    if r.op.Send? then c.(replies := []) else c
  }

  /** One call: unsubscribe pops no reply, the others pop one and wait for it if there is none. */
  function Call(c: Client, a: Asked, s: Script): CallRun {
    var (c1, prepared) := Prepared(c, a);
    match prepared
    case Err(e) => CallRun(c1, s, Refused(e))
    case Ok(r) =>
      if a.shutdown then CallRun(Cleared(c1, r), s, Refused(ShutDown)) else CallPushed(Cleared(c1, r), r, s)
  }

  function CallPushed(c: Client, r: Request, s: Script): CallRun {
    var o := Process(c, r, s);
    if o.out.Blocked? then CallRun(o.c, o.rest, Running)
    else if r.op.Unsubscribe? then
      CallRun(o.c.(destinations := Delete(o.c.destinations, r.op.destination)), o.rest, Done)
    else if o.c.replies == [] then CallRun(o.c, o.rest, Waits)
    else CallRun(o.c.(replies := o.c.replies[1..]), o.rest, Popped(o.c.replies[0]))
  }

  datatype Session = Session(c: Client, rest: Script, outcomes: seq<Outcome>)

  predicate Returns(outcome: Outcome) {
    !outcome.Waits? && !outcome.Running?
  }

  /** The calls of one thread, one after the other, until one of them does not return. */
  function Calls(c: Client, asked: seq<Asked>, s: Script): Session
    decreases |asked|
  {
    if asked == [] then Session(c, s, [])
    else
      var call := Call(c, asked[0], s);
      if !Returns(call.outcome) then Session(call.c, call.rest, [call.outcome])
      else
        var rest := Calls(call.c, asked[1..], call.rest);
        rest.(outcomes := [call.outcome] + rest.outcomes)
  }

  /** The pushed request leaves a reply nobody pops: an unsubscribe that fails, or an acknowledgement that fails. */
  predicate Litters(c: Client, r: Request, o: Run) {
    (r.op.Unsubscribe? && o.out.Rescued?) || Failures(c, o.c) != 0
  }

  predicate CallLitters(c: Client, a: Asked, s: Script) {
    var (c1, prepared) := Prepared(c, a);
    match prepared
    case Err(_) => false
    case Ok(r) => !a.shutdown && Litters(Cleared(c1, r), r, Process(Cleared(c1, r), r, s))
  }

  /** No call of the thread leaves a reply behind. */
  predicate Tidy(c: Client, asked: seq<Asked>, s: Script)
    decreases |asked|
  {
    asked != [] ==>
      var call := Call(c, asked[0], s);
      !CallLitters(c, asked[0], s) && (Returns(call.outcome) ==> Tidy(call.c, asked[1..], call.rest))
  }

  /** The outcome that belongs to a request. */
  predicate Own(a: Asked, outcome: Outcome) {
    outcome.Popped? ==> outcome.reply.request.id == a.request.id
  }

  /** Every call that returned a reply returned the one to its own request. */
  predicate AllOwn(asked: seq<Asked>, outcomes: seq<Outcome>)
    decreases |outcomes|
  {
    |outcomes| <= |asked| && (outcomes != [] ==> Own(asked[0], outcomes[0]) && AllOwn(asked[1..], outcomes[1..]))
  }

  predicate AllReturn(outcomes: seq<Outcome>) {
    outcomes != [] ==> Returns(outcomes[0]) && AllReturn(outcomes[1..])
  }

  lemma TidyPushed(c: Client, r: Request, s: Script)
    requires Tagged(c.m) && c.replies == [] && !Litters(c, r, Process(c, r, s))
    ensures
      var call := CallPushed(c, r, s);
      && (call.outcome.Popped? ==> call.outcome.reply.request == r)
      && (Returns(call.outcome) ==> Tagged(call.c.m) && call.c.replies == [])
  {
    RequestIsBalanced(c, r, s);
    assert News(c, Process(c, r, s).c) == Process(c, r, s).c.replies;
  }

  lemma TidyCall(c: Client, a: Asked, s: Script)
    requires Tagged(c.m) && c.replies == [] && !CallLitters(c, a, s)
    ensures
      var call := Call(c, a, s);
      Own(a, call.outcome) && (Returns(call.outcome) ==> Tagged(call.c.m) && call.c.replies == [])
  {
    PreparedKeeps(c, a);
    var (c1, prepared) := Prepared(c, a);
    match prepared
    case Err(_) =>
    case Ok(r) => if !a.shutdown { TidyPushed(Cleared(c1, r), r, s); }
  }

  /** With one calling thread whose calls leave no reply behind, the reply queue is empty between calls and every
      call that returns a reply returns the reply to its own request, a refused call included, which pops none. */
  lemma {:induction false} EachCallPopsItsOwnReply(c: Client, asked: seq<Asked>, s: Script)
    requires Tagged(c.m) && c.replies == [] && Tidy(c, asked, s)
    ensures var x := Calls(c, asked, s);
      && AllOwn(asked, x.outcomes)
      && (|x.outcomes| == |asked| && AllReturn(x.outcomes) ==> x.c.replies == [])
    decreases |asked|
  {
    if asked == [] {
    } else {
      TidyCall(c, asked[0], s);
      var call := Call(c, asked[0], s);
      if Returns(call.outcome) {
        var rest := Calls(call.c, asked[1..], call.rest);
        EachCallPopsItsOwnReply(call.c, asked[1..], call.rest);
        assert Calls(c, asked, s).outcomes == [call.outcome] + rest.outcomes;
        assert [call.outcome] + rest.outcomes != [] && ([call.outcome] + rest.outcomes)[1..] == rest.outcomes;
      }
    }
  }

  /** No destination is acknowledged: neither the recorded ones nor those subscribed to. */
  predicate AllPlain(ds: seq<Destination>, asked: seq<Asked>) {
    && (forall i :: 0 <= i < |ds| ==> !Settles(ds[i]))
    && (forall i :: 0 <= i < |asked| ==> match asked[i].request.op
                                          case Unsubscribe(_) => false
                                          case Subscribe(d) => !Settles(d)
                                          case _ => true)
  }

  lemma PlainCallIsTidy(c: Client, asked: seq<Asked>, s: Script)
    requires asked != [] && Tagged(c.m) && AllPlain(c.destinations, asked)
    ensures !CallLitters(c, asked[0], s)
    ensures
      var call := Call(c, asked[0], s);
      Returns(call.outcome) ==> Tagged(call.c.m) && AllPlain(call.c.destinations, asked[1..])
  {
    var a := asked[0];
    PreparedKeeps(c, a);
    var (c1, prepared) := Prepared(c, a);
    match prepared
    case Err(_) =>
    case Ok(r) => if !a.shutdown { RequestIsBalanced(Cleared(c1, r), r, s); }
  }

  /** A thread that never unsubscribes and subscribes only without acknowledgement leaves no reply behind, whatever
      happens to its requests. */
  lemma {:induction false} PlainCallsAreTidy(c: Client, asked: seq<Asked>, s: Script)
    requires Tagged(c.m) && AllPlain(c.destinations, asked)
    ensures Tidy(c, asked, s)
    decreases |asked|
  {
    if asked == [] {
    } else {
      PlainCallIsTidy(c, asked, s);
      var call := Call(c, asked[0], s);
      if Returns(call.outcome) { PlainCallsAreTidy(call.c, asked[1..], call.rest); }
    }
  }

  /** Exactly when: a call that returns a reply returns its own if and only if it is a send, which clears the queue, or
      finds the queue empty. A reply left behind goes to the next subscribe or receive. */
  lemma PopsItsOwnIffQueueEmpty(c: Client, a: Asked, s: Script)
    requires Tagged(c.m) && Call(c, a, s).outcome.Popped?
    requires forall i :: 0 <= i < |c.replies| ==> c.replies[i].request.id != a.request.id
    ensures Call(c, a, s).outcome.reply.request.id == a.request.id <==> a.request.op.Send? || c.replies == []
  {
    PreparedKeeps(c, a);
    var (c1, prepared) := Prepared(c, a);
    PushedPopsOwn(Cleared(c1, prepared.value), prepared.value, s);
  }

  lemma PushedPopsOwn(c: Client, r: Request, s: Script)
    requires Tagged(c.m) && CallPushed(c, r, s).outcome.Popped?
    requires forall i :: 0 <= i < |c.replies| ==> c.replies[i].request.id != r.id
    ensures CallPushed(c, r, s).outcome.reply.request.id == r.id <==> c.replies == []
  {
    var o := Process(c, r, s);
    RequestIsBalanced(c, r, s);
    assert o.c.replies == c.replies + News(c, o.c);
  }

  /** A failed unsubscribe leaves exactly one reply, its own failure, at the end of the queue. */
  lemma FailedUnsubscribeLeavesReply(c: Client, r: Request, s: Script)
    requires Tagged(c.m) && r.op.Unsubscribe? && !Process(c, r, s).out.Blocked?
    ensures var q := CallPushed(c, r, s).c.replies;
      if Process(c, r, s).out.Rescued? then
        |q| == |c.replies| + 1 && q[..|c.replies|] == c.replies && q[|c.replies|].request == r
      else q == c.replies
  {
    RequestIsBalanced(c, r, s);
    var o := Process(c, r, s);
    assert o.c.replies == c.replies + News(c, o.c);
  }

  class BlockingClient {
    const command: Command

    constructor (command: Command)
      ensures this.command == command
    {
      this.command := command;
    }

    function View(): Client
      reads command.proton, command.proton.threadVars
    {
      command.proton.View()
    }

    method Find(pattern: string, share: Option<string>) returns (found: Option<Destination>)
      requires command.Valid()
      ensures found == FirstMatch(command.threadVars.destinations, pattern, share)
    {
      var ds := command.threadVars.destinations;
      for i := 0 to |ds|
        invariant FirstMatch(ds, pattern, share) == FirstMatch(ds[i..], pattern, share)
      {
        if ds[i].Match(pattern, share) { return Some(ds[i]); }
        assert ds[i..][1..] == ds[i + 1..];
      }
      found := None;
    }

    /** The state guard. */
    method Refuses(op: Op) returns (refuses: bool)
      requires command.Valid()
      ensures refuses == !Admits(View().state, op)
    {
      var state := command.threadVars.state;
      refuses := state == Stopped || (op.Unsubscribe? && state != Started);
    }

    /** settle_mode= for a send or a subscribe, the look-up of the destination for a receive or an unsubscribe. */
    method Prepare(r: Request) returns (prepared: Result<Request, Refusal>)
      requires command.Valid()
      ensures prepared == Resolve(View(), r)
    {
      if r.op.Send? || r.op.Subscribe? {
        var qos := if r.op.Send? then r.op.sendQos else r.op.destination.qos;
        if qos != QOS_AT_MOST_ONCE && qos != QOS_AT_LEAST_ONCE { return Err(UnknownQos); }
        return if command.proton.impl then Ok(r) else Err(NoMessenger);
      }
      var found := Find(r.op.destination.topicPattern, r.op.destination.share);
      if found.None? { return Err(Unsubscribed); }
      prepared := Ok(r.(op := if r.op.Receive? then Receive(found.value) else Unsubscribe(found.value)));
    }

    /** send, subscribe, receive and unsubscribe: the guards, push_request and, except for unsubscribe, the pop. */
    method Request(a: Asked, s: Script) returns (rest: Script, outcome: Outcome)
      requires command.Valid()
      modifies command.proton, command.threadVars
      ensures CallRun(View(), rest, outcome) == Call(old(View()), a, s)
    {
      var vars := command.threadVars;
      command.proton.Interlude(a.before);
      var refuses := Refuses(a.request.op);
      if refuses { return s, Refused(NotStarted); }
      command.proton.Interlude(a.meanwhile);
      var prepared := Prepare(a.request);
      if prepared.Err? { return s, Refused(prepared.error); }
      var r := prepared.value;
      if r.op.Send? { vars.replyQueue := []; }
      if a.shutdown { return s, Refused(ShutDown); }
      var out;
      rest, out := command.ProcessRequestQueue(r, s);
      if out.Blocked? { return rest, Running; }
      if r.op.Unsubscribe? {
        vars.destinations := Delete(vars.destinations, r.op.destination);
        return rest, Done;
      }
      if vars.replyQueue == [] { return rest, Waits; }
      outcome := Popped(vars.replyQueue[0]);
      vars.replyQueue := vars.replyQueue[1..];
    }
  }
}
