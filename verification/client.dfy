/** What the command thread shares with the network and with the other threads of a client, as one value:
    the fields of ThreadVars and ProtonContainer, and the proton messenger with its links.

    The other threads and the server act only where the command thread sleeps, waits, or does not hold the
    container mutex. What they do at such a point, and what the proton library and the clock answer there, is one
    `Tick`. A run of the command thread is a sequence of ticks, and a statement about every such sequence is a
    statement about every interleaving. */
module ClientState {
  import opened Wrappers
  import opened Destinations

  datatype State = Starting | Started | Retrying | Stopping | Stopped

  /** A message, the link it came over and the messenger that link belonged to. */
  datatype Message = Message(link: Address, id: nat, gen: nat)

  /** A receiving link: credit only grows by pn_link_flow, which also ends drain mode. */
  datatype Link = Link(credit: nat, drain: bool)
  {
    predicate Draining() { drain && credit > 0 }
  }

  /** A proton messenger. `arrived` and `handed` record the messages that came in and those given to callers. */
  datatype Messenger = Messenger(
    gen: nat,
    links: map<Address, Link>,
    incoming: seq<Message>,
    tracker: Option<Message>,
    hasPut: bool,
    arrived: seq<Message>,
    handed: seq<Message>)

  function FreshMessenger(gen: nat): Messenger {
    Messenger(gen, map[], [], None, false, [], [])
  }

  /** The exceptions the source tells apart when it rescues. ForeignError stands for every other one. */
  datatype Error =
    | NetworkError | SecurityError | ReplacedError | SubscribedError | RetryError
    | InternalError | RangeError | TimeoutError
    | QpidTimeoutError | QpidStateError | QpidError | ForeignError

  datatype Op =
    | Send(sendQos: int)
    | Subscribe(destination: Destination)
    | Unsubscribe(destination: Destination)
    | Receive(destination: Destination)

  /** A request; `timed` says that it carries a timeout that can fire. */
  datatype Request = Request(id: nat, timed: bool, op: Op)

  datatype Body = Nothing | Delivered(message: Message) | Failure(error: Error)

  datatype Reply = Reply(request: Request, body: Body)

  /** PN_STATUS_*; Unknown is the code 0, which a messenger without a put answers. */
  datatype Status = Unknown | Pending | Accepted | Rejected | Released | Modified | Aborted | Settled | Strange

  /** How one attempt at a send ended; `AnsweredNil` keeps the status read and the messenger that reported it. */
  datatype SendEnd = AbortedEnd | LostStarted | AnsweredNil(status: Status, reader: nat) | AnsweredError(error: Error)

  datatype Attempt = Attempt(request: Request, put: Option<nat>, end: SendEnd)

  /** What has happened so far: messages settled by the receive path, attempts at sends, receives opened while the
      messenger was still connecting or held a message, receives that ended in an unexpected exception, failures
      that came after the reply had been pushed, and settles that the messenger reported an error for. */
  datatype History = History(
    settled: seq<Message>, sends: seq<Attempt>, unguarded: bool, faulted: bool, failedAfterReply: nat,
    failedSettles: nat)

  /** No receive so far was opened at a wrong moment or ended in an unexpected exception. */
  predicate Clean(h: History) {
    !h.unguarded && !h.faulted
  }

  predicate SameFlags(h: History, h': History) {
    h.unguarded == h'.unguarded && h.faulted == h'.faulted
  }

  /** `impl` is false while @messenger_impl is nil; `connecting` holds from proton.connect to change_state(:started)
      or to the failure of the attempt. */
  datatype Client = Client(
    state: State, destinations: seq<Destination>, replies: seq<Reply>,
    impl: bool, connecting: bool, m: Messenger, history: History)

  /** A new ThreadVars with its ProtonContainer. */
  const NEW_CLIENT: Client :=
    Client(Stopped, [], [], false, false, FreshMessenger(0), History([], [], false, false, 0, 0))

  datatype Event =
    | Arrive(link: Address, id: nat)   // the server sends a message, which takes a credit
    | Drained(link: Address)           // the server gives the credit of a draining link back
    | SetState(to: State)              // change_state by another thread, to anything but :started
    | Connect                          // the proton thread creates a messenger
    | Reinstate(link: Address)         // and subscribes on it again to a recorded destination
    | Activate                         // and sets :started
    | GiveUp                           // or its attempt fails, and the messenger is kept
    | Free                             // free_messenger or stop

  /** pn_messenger_subscribe_ttl: a link starts without credit, and one that exists is kept. */
  function AddLink(c: Client, a: Address): Client {
    if a in c.m.links then c else c.(m := c.m.(links := c.m.links[a := Link(0, false)]))
  }

  predicate IsRecorded(ds: seq<Destination>, a: Address) {
    exists i :: 0 <= i < |ds| && ds[i].address == a
  }

  /** The others never touch the replies, the destinations or the history, and a messenger is only ever replaced by a
      newer one. */
  function Happen(c: Client, e: Event): (r: Client)
    ensures r.replies == c.replies && r.history == c.history && r.destinations == c.destinations && r.m.gen >= c.m.gen
  {
    match e
    case Arrive(a, id) =>
      if c.impl && a in c.m.links && c.m.links[a].credit > 0 then
        var l := c.m.links[a];
        var msg := Message(a, id, c.m.gen);
        c.(m := c.m.(links := c.m.links[a := l.(credit := l.credit - 1)],
                     incoming := c.m.incoming + [msg], arrived := c.m.arrived + [msg]))
      else c
    case Drained(a) =>
      if c.impl && a in c.m.links && c.m.links[a].Draining() then
        c.(m := c.m.(links := c.m.links[a := Link(0, true)]))
      else c
    case SetState(to) => if to == Started then c else c.(state := to)
    case Connect =>
      if c.state == Started then c
      else c.(impl := true, connecting := true, m := FreshMessenger(c.m.gen + 1))
    case Reinstate(a) =>
      if c.connecting && IsRecorded(c.destinations, a) then AddLink(c, a) else c
    case Activate =>
      if c.connecting then c.(state := Started, connecting := false) else c
    case GiveUp => c.(connecting := false)
    case Free => c.(impl := false, connecting := false, m := FreshMessenger(c.m.gen + 1))
  }

  function Env(c: Client, es: seq<Event>): (r: Client)
    ensures r.replies == c.replies && r.history == c.history && r.destinations == c.destinations && r.m.gen >= c.m.gen
    decreases |es|
  {
    if es == [] then c else Env(Happen(c, es[0]), es[1..])
  }

  /** What a failing proton call reports. */
  datatype Fault = Fine | TimeoutFault | StateFault | OtherFault

  /** The error text interpret_message finds, if the messenger reports an error number at all. */
  datatype ErrorText = NoErrno | NoText | Takeover | OtherText

  /** One point at which others act: their `events`, then what the command thread is told.
      `fires` says that the Timeout around the point fires; `flag` answers the yes-no question asked there. */
  datatype Tick = Tick(events: seq<Event>, fires: bool, fault: Fault, status: Status, text: ErrorText, flag: bool)

  type Script = seq<Tick>

  /** How a stretch of the command thread ended: `Blocked` when its ticks ran out. */
  datatype Out =
    | Finished | Rescued(error: Error) | Halted | Raised(error: Error) | TimedOut | Blocked

  datatype Run = Run(c: Client, rest: Script, out: Out)

  /** Error handler: the exception check_for_error raises for a fault. */
  function Raise(f: Fault): Error
    requires f != Fine
  {
    match f
    case TimeoutFault => QpidTimeoutError
    case StateFault => QpidStateError
    case OtherFault => QpidError
  }

  function Push(c: Client, r: Request, b: Body): Client {
    c.(replies := c.replies + [Reply(r, b)])
  }

  /** ProtonContainer#interpret_message. */
  function InterpretMessage(c: Client, text: ErrorText): Client {
    match text
    case Takeover => c.(state := Stopped)
    case OtherText => c.(state := Retrying)
    case _ => c
  }

  /** ProtonContainer#check_for_out_of_sequence_messages; the flag says that the sockets are open. */
  function CheckOutOfSequence(c: Client, t: Tick): Client {
    if !c.impl then c
    else
      var c1 := if c.state == Started then InterpretMessage(c, t.text) else c;
      if !t.flag && c1.state == Started then c1.(state := Retrying) else c1
  }

  /** The condition under which proton_loop connects. */
  predicate WantsConnect(state: State, subscriptions: bool, processing: bool) {
    state == Starting || (state == Retrying && (subscriptions || processing))
  }
}
