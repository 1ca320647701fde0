/** The confirm procedure of a delivery, lib/mqlight/delivery.rb: its guard counts calls of start. */
module Confirms {
  import opened Wrappers
  import opened Destinations
  import opened ClientState
  import opened ReceivePath
  import opened Scenarios
  import opened AttemptShapes
  import opened ReplyLedger

  /** NoMessenger is what settle raises while @messenger_impl is nil. */
  datatype Refusal = NotStarted | HasReconnected | NoMessenger

  /** What happens to a client between a delivery and its confirm: a start, or what other threads do. */
  datatype Happening = Start | Others(events: seq<Event>)

  /** start does nothing unless the client is stopped; otherwise it counts. */
  function After(c: Client, connectId: nat, hs: seq<Happening>): (Client, nat)
    decreases |hs|
  {
    if hs == [] then (c, connectId)
    else
      match hs[0]
      case Start =>
        if c.state != Stopped then After(c, connectId, hs[1..])
        else After(c.(state := Starting), connectId + 1, hs[1..])
      case Others(es) => After(Env(c, es), connectId, hs[1..])
  }

  /** The starts that count. */
  function Starts(c: Client, hs: seq<Happening>): nat
    decreases |hs|
  {
    if hs == [] then 0
    else
      match hs[0]
      case Start => if c.state == Stopped then 1 + Starts(c.(state := Starting), hs[1..]) else Starts(c, hs[1..])
      case Others(es) => Starts(Env(c, es), hs[1..])
  }

  /** confirm: refused, or the incoming tracker is settled. */
  function Confirm(c: Client, connectId: nat, received: nat): Result<Client, Refusal> {
    if c.state != Started then Err(NotStarted)
    else if received != connectId then Err(HasReconnected)
    else if !c.impl then Err(NoMessenger)
    else Ok(SettleTracker(c))
  }

  lemma {:induction false} AfterCounts(c: Client, connectId: nat, hs: seq<Happening>, msg: Message)
    requires Tracks(c.m, msg)
    ensures
      var (c', id) := After(c, connectId, hs);
      id == connectId + Starts(c, hs) && Tracks(c'.m, msg) && c'.history == c.history
    decreases |hs|
  {
    if hs == [] {
    } else {
      match hs[0]
      case Start =>
        AfterCounts(if c.state == Stopped then c.(state := Starting) else c,
                    if c.state == Stopped then connectId + 1 else connectId, hs[1..], msg);
      case Others(es) =>
        EnvKeepsTracks(c, es, msg);
        AfterCounts(Env(c, es), connectId, hs[1..], msg);
    }
  }

  /** A confirm passes exactly if the client is started, has not been started anew and has a messenger, and then it
      settles the message exactly if the messenger has not been replaced meanwhile; no other message is collected in
      between. */
  lemma ConfirmSettlesIffSameMessenger(c: Client, received: nat, hs: seq<Happening>, msg: Message)
    requires c.m.tracker == Some(msg) && msg.gen == c.m.gen
    ensures
      var (c', id) := After(c, received, hs);
      var r := Confirm(c', id, received);
      && (r.Ok? <==> c'.state == Started && Starts(c, hs) == 0 && c'.impl)
      && (r.Ok? ==> r.value.history.settled == c.history.settled + if c'.m.gen == msg.gen then [msg] else [])
  {
    AfterCounts(c, received, hs, msg);
  }

  /** An automatic reconnect is no start: a confirm after it is not refused, and settles nothing. */
  lemma ReconnectIsNotRefused(c: Client, received: nat, msg: Message)
    requires c.state == Started && c.impl && c.m.tracker == Some(msg) && msg.gen == c.m.gen
    ensures exists hs: seq<Happening> ::
      var (c', id) := After(c, received, hs);
      && Confirm(c', id, received).Ok? && c'.m.gen != msg.gen
      && Confirm(c', id, received).value.history.settled == c.history.settled
  {
    var c1 := Happen(c, SetState(Retrying));
    var c2 := Env(c1, RECONNECT.events);
    var c3 := Happen(c2, Activate);
    EnvOne(c, SetState(Retrying));
    EnvReconnect(c1);
    EnvOne(c2, Activate);
    var hs := [Others([SetState(Retrying)]), Others(RECONNECT.events), Others([Activate])];
    var hs1 := [Others(RECONNECT.events), Others([Activate])];
    var hs2 := [Others([Activate])];
    assert hs[1..] == hs1 && hs1[1..] == hs2 && hs2[1..] == [];
    assert After(c2, received, hs2) == (c3, received);
    assert After(c, received, hs) == (c3, received);
    ConfirmSettlesIffSameMessenger(c, received, hs, msg);
  }
}
