/** A receive that times out on a started client, tick by tick: the server gives the credit back, or sends a message. */
module TimeoutRuns {
  import opened Wrappers
  import opened Destinations
  import opened ClientState
  import opened RequestLoop
  import opened Scenarios
  import opened Traces
  import opened ReceiveVerdicts

  /** The timeout fires. */
  const FIRING: Tick := STILL.(fires := true)

  const OPENING: Opening := Opening([], STILL, STILL, YES, STILL, [])

  const TIMEOUT: Timeout := Timeout([], FIRING, STILL, STILL)

  /** A started client without anything out, and a receive with a timeout. */
  predicate Starts(c: Client, r: Request, d: Destination) {
    && r.op == Receive(d) && r.timed && c.state == Started && c.impl && !c.connecting && c.m.incoming == []
    && d.address in c.m.links && c.m.links[d.address] == Link(0, false)
  }

  /** The client whose link at `a` has one credit, and is drained or not. */
  function WithLink(c: Client, a: Address, drain: bool): Client {
    c.(m := c.m.(links := c.m.links[a := Link(1, drain)]))
  }

  lemma RunsToTheDrain(c: Client, r: Request, d: Destination)
    requires Starts(c, r, d)
    ensures Receives(c, r, OPENING, d) && TimesOut(Waited(c, OPENING, d.address), r, TIMEOUT)
    ensures Waited(c, OPENING, d.address) == WithLink(c, d.address, false) && AtOpen(c, OPENING) == c
    ensures
      var c1 := WithLink(c, d.address, false);
      && AtLook(c1, TIMEOUT) == c1 && AtDrain(c1, TIMEOUT) == c1
      && Draining(c1, d.address, c.m.gen) == WithLink(c, d.address, true)
  {
    var a := d.address;
    var c1 := WithLink(c, a, false);
    EnvOne(c, Free);
    EnvOne(c1, Free);
    assert c1.m.links[a := Link(1, true)] == c.m.links[a := Link(1, true)];
  }

  lemma DrainsByOne(c: Client, r: Request, d: Destination, e: Event)
    requires Starts(c, r, d) && (e == Drained(d.address) || (e.Arrive? && e.link == d.address))
    ensures DrainsOut(WithLink(c, d.address, false), TIMEOUT, d.address, c.m.gen, [On(e)])
    ensures
      ReceiveVerdicts.Drained(c, OPENING, TIMEOUT, d.address, [On(e)]) == Happen(WithLink(c, d.address, true), e)
  {
    var c2 := WithLink(c, d.address, true);
    RunsToTheDrain(c, r, d);
    AfterOne(c2, On(e));
    EnvOne(c2, e);
  }

  /** The server gives the credit back: nil. */
  lemma CreditGivenBack(c: Client, r: Request, d: Destination)
    requires Starts(c, r, d)
    ensures
      var s := [STILL, STILL, YES, STILL, FIRING, STILL, STILL, On(Event.Drained(d.address))];
      AnsweredBy(c, r, Process(c, r, s), Nothing, [])
  {
    var drains := [On(Event.Drained(d.address))];
    RunsToTheDrain(c, r, d);
    DrainsByOne(c, r, d, Event.Drained(d.address));
    TimedOutAnswersNothing(c, r, OPENING, d, TIMEOUT, drains, []);
    assert DrainTicks(OPENING, TIMEOUT, drains) + []
        == [STILL, STILL, YES, STILL, FIRING, STILL, STILL, On(Event.Drained(d.address))];
  }

  /** A message takes the credit: that message, however late. */
  lemma MessageTakesCredit(c: Client, r: Request, d: Destination, id: nat)
    requires Starts(c, r, d)
    ensures
      var s := [STILL, STILL, YES, STILL, FIRING, STILL, STILL, On(Arrive(d.address, id)), STILL, STILL]
        + if Acknowledged(d) then [STILL] else [];
      AnsweredBy(c, r, Process(c, r, s), Delivered(Message(d.address, id, c.m.gen)), [])
  {
    var y := Handing(STILL, STILL, STILL);
    var drains := [On(Arrive(d.address, id))];
    RunsToTheDrain(c, r, d);
    DrainsByOne(c, r, d, Arrive(d.address, id));
    var c1 := Happen(WithLink(c, d.address, true), Arrive(d.address, id));
    EnvOne(c1, Free);
    EnvOne(WithTaken(c1, y), Free);
    EnvOne(Handed(c1, r, y), Free);
    TimedOutAnswersMessage(c, r, OPENING, d, TIMEOUT, drains, y, []);
    assert DrainTicks(OPENING, TIMEOUT, drains) + (HandingOf(y, d) + [])
        == [STILL, STILL, YES, STILL, FIRING, STILL, STILL, On(Arrive(d.address, id)), STILL, STILL]
           + if Acknowledged(d) then [STILL] else [];
  }
}
