/** Command#check_for_messages with the ProtonContainer methods it calls: one credit, a wait, then a drain. */
module ReceivePath {
  import opened Wrappers
  import opened Destinations
  import opened ClientState

  function CheckForMessages(c: Client, r: Request, d: Destination, s: Script): (o: Run)
    ensures |o.rest| <= |s| && (Clean(o.c.history) ==> Clean(c.history)) && o.c.destinations == c.destinations
  {
    if s == [] then Run(c, s, Blocked)
    else OpenForMessage(CheckOutOfSequence(Env(c, s[0].events), s[0]), r, d, s[1..])
  }

  /** A receive may open when no connect is in progress and, while started, nothing is left to be collected. */
  predicate Openable(c: Client) {
    !c.connecting && (c.state == Started ==> c.m.incoming == [])
  }

  /** pn_link_flow(link, 1), unless the link has credit. */
  function GrantCredit(c: Client, a: Address): Client
    requires a in c.m.links
  {
    var l := c.m.links[a];
    var m := if l.credit == 0 then c.m.(links := c.m.links[a := Link(1, false)]) else c.m;
    c.(m := m, history := c.history.(unguarded := c.history.unguarded || !Openable(c)))
  }

  function OpenForMessage(c: Client, r: Request, d: Destination, s: Script): (o: Run)
    ensures |o.rest| <= |s| && (Clean(o.c.history) ==> Clean(c.history)) && o.c.destinations == c.destinations
  {
    if s == [] then Run(c, s, Blocked)
    else
      var c1 := Env(c, s[0].events);
      if !c1.impl then Run(c1, s[1..], Raised(ForeignError))
      else if d.address !in c1.m.links then Run(c1, s[1..], Raised(InternalError))
      else
        var c2 := GrantCredit(c1, d.address);
        if s[0].fault == Fine || s[0].fault == TimeoutFault then AwaitMessage(c2, r, d, c2.m.gen, s[1..])
        else Run(c2, s[1..], Raised(Raise(s[0].fault)))
  }

  /** sleep(0.1) until message? || !started?; `g` is the messenger the link handle belongs to. */
  function AwaitMessage(c: Client, r: Request, d: Destination, g: nat, s: Script): (o: Run)
    ensures |o.rest| <= |s| && SameFlags(c.history, o.c.history) && o.c.destinations == c.destinations
    decreases |s|
  {
    if s == [] then Run(c, s, Blocked)
    else
      var c1 := Env(c, s[0].events);
      if r.timed && s[0].fires then OnTimeout(c1, r, d, g, s[1..])
      else if !c1.impl then Run(c1, s[1..], Raised(ForeignError))
      else if c1.m.incoming != [] || c1.state != Started then DecidePresent(c1, r, d, g, s[1..])
      else AwaitMessage(c1, r, d, g, s[1..])
  }

  /** message_present = true if started? */
  function DecidePresent(c: Client, r: Request, d: Destination, g: nat, s: Script): (o: Run)
    ensures |o.rest| <= |s| && SameFlags(c.history, o.c.history) && o.c.destinations == c.destinations
  {
    if s == [] then Run(c, s, Blocked)
    else
      var c1 := Env(c, s[0].events);
      if r.timed && s[0].fires then OnTimeout(c1, r, d, g, s[1..])
      else if c1.state == Started then CollectMessage(c1, r, d, s[1..])
      else AnswerNothing(c1, r, s[1..])
  }

  /** rescue Timeout::Error: drain_message(link) if started? */
  function OnTimeout(c: Client, r: Request, d: Destination, g: nat, s: Script): (o: Run)
    ensures |o.rest| <= |s| && SameFlags(c.history, o.c.history) && o.c.destinations == c.destinations
  {
    if s == [] then Run(c, s, Blocked)
    else
      var c1 := Env(c, s[0].events);
      if c1.state == Started then DrainMessage(c1, r, d, g, s[1..]) else AnswerNothing(c1, r, s[1..])
  }

  /** pn_link_drain(link, 0): it has no effect on a messenger the link does not belong to. */
  function StartDrain(c: Client, a: Address, g: nat): Client {
    if g == c.m.gen && a in c.m.links then
      c.(m := c.m.(links := c.m.links[a := c.m.links[a].(drain := true)]))
    else c
  }

  function DrainMessage(c: Client, r: Request, d: Destination, g: nat, s: Script): (o: Run)
    ensures |o.rest| <= |s| && SameFlags(c.history, o.c.history) && o.c.destinations == c.destinations
  {
    if s == [] then Run(c, s, Blocked)
    else
      var c1 := Env(c, s[0].events);
      if !c1.impl then Run(c1, s[1..], Raised(ForeignError))
      else DrainLoop(StartDrain(c1, d.address, g), r, d, g, s[0].flag, s[1..])
  }

  /** pn_link_draining(link); a link of an abandoned messenger answers `stale`. */
  predicate StillDraining(c: Client, a: Address, g: nat, stale: bool) {
    if g == c.m.gen && a in c.m.links then c.m.links[a].Draining() else stale
  }

  function DrainLoop(c: Client, r: Request, d: Destination, g: nat, stale: bool, s: Script): (o: Run)
    ensures |o.rest| <= |s| && SameFlags(c.history, o.c.history) && o.c.destinations == c.destinations
    decreases |s|
  {
    if !c.impl then Run(c, s, Raised(ForeignError))
    else if StillDraining(c, d.address, g, stale) && c.state == Started then
      if s == [] then Run(c, s, Blocked)
      else DrainLoop(Env(c, s[0].events), r, d, g, s[0].flag, s[1..])
    else if c.m.incoming != [] then CollectMessage(c, r, d, s)
    else AnswerNothing(c, r, s)
  }

  function AnswerNothing(c: Client, r: Request, s: Script): Run {
    Run(Push(c, r, Nothing), s, Finished)
  }

  /** pn_messenger_get: the head of the incoming queue, which becomes the incoming tracker. */
  function Get(c: Client): Client
    requires c.m.incoming != []
  {
    c.(m := c.m.(incoming := c.m.incoming[1..], tracker := Some(c.m.incoming[0])))
  }

  function CollectMessage(c: Client, r: Request, d: Destination, s: Script): (o: Run)
    ensures |o.rest| <= |s| && SameFlags(c.history, o.c.history) && o.c.destinations == c.destinations
  {
    if s == [] then Run(c, s, Blocked)
    else
      var c1 := Env(c, s[0].events);
      if !c1.impl then Run(c1, s[1..], Raised(ForeignError))
      else if s[0].fault != Fine then Run(c1, s[1..], Raised(Raise(s[0].fault)))
      else if c1.m.incoming == [] then Run(c1, s[1..], Raised(QpidError))
      else if s[0].flag then Run(Get(c1), s[1..], Raised(ForeignError))
      else HandOver(Get(c1), r, d, c1.m.incoming[0], s[1..])
  }

  /** Delivery.new, then the reply. */
  function HandOver(c: Client, r: Request, d: Destination, msg: Message, s: Script): (o: Run)
    ensures |o.rest| <= |s| && SameFlags(c.history, o.c.history) && o.c.destinations == c.destinations
  {
    if s == [] then Run(c, s, Blocked)
    else
      var c1 := Env(c, s[0].events);
      if !c1.impl || s[0].flag then Run(c1, s[1..], Raised(ForeignError))
      else Acknowledge(Hand(c1, r, msg), d, s[1..])
  }

  function Hand(c: Client, r: Request, msg: Message): Client {
    var m := if msg.gen == c.m.gen then c.m.(handed := c.m.handed + [msg]) else c.m;
    Push(c, r, Delivered(msg)).(m := m)
  }

  /** Settles the message of the incoming tracker of the current messenger, if it has one. */
  function SettleTracker(c: Client): Client {
    match c.m.tracker
    case Some(msg) => c.(history := c.history.(settled := c.history.settled + [msg]))
    case None => c
  }

  function FailSettle(c: Client): Client {
    c.(history := c.history.(failedSettles := c.history.failedSettles + 1))
  }

  function FailAfterReply(c: Client): Client {
    c.(history := c.history.(failedAfterReply := c.history.failedAfterReply + 1))
  }

  /** Whether a message handed over is acknowledged: for QoS 0, and for QoS 1 with auto-confirm. */
  predicate Settles(d: Destination) {
    d.qos == QOS_AT_MOST_ONCE || (d.qos == QOS_AT_LEAST_ONCE && d.autoConfirm)
  }

  /** accept for QoS 0, settle for QoS 1 with auto-confirm, nothing for QoS 1 without. That a call on a nil messenger
      raises is an assumption: the binding does not check for it here. */
  function Acknowledge(c: Client, d: Destination, s: Script): (o: Run)
    ensures |o.rest| <= |s| && SameFlags(c.history, o.c.history) && o.c.destinations == c.destinations
  {
    if !Settles(d) then Run(c, s, Finished)
    else if s == [] then Run(c, s, Blocked)
    else
      var c1 := Env(c, s[0].events);
      if !c1.impl then Run(FailAfterReply(c1), s[1..], Raised(ForeignError))
      else if s[0].fault == Fine then Run(SettleTracker(c1), s[1..], Finished)
      else if d.qos == QOS_AT_MOST_ONCE then Run(FailAfterReply(c1), s[1..], Raised(NetworkError))
      else Run(InterpretMessage(FailSettle(c1), s[0].text), s[1..], Finished)
  }
}
