/** Connecting to one of several services: lib/mqlight/connection.rb, with connect, wait_messenger_started and
    reinstate_links of lib/mqlight/proton_container.rb. */
module Connections {
  import opened Wrappers
  import opened Destinations
  import opened ClientState
  import opened ThreadVariables

  /** What other threads do to the recorded destinations: a subscribe records one, an unsubscribe deletes one. */
  datatype Edit = Added(destination: Destination) | Removed(index: nat)

  function Apply(ds: seq<Destination>, changes: seq<Edit>): seq<Destination>
    decreases |changes|
  {
    if changes == [] then ds
    else
      var ds1 :=
        match changes[0]
        case Added(d) => ds + [d]
        case Removed(k) => if k < |ds| then ds[..k] + ds[k + 1..] else ds;
      Apply(ds1, changes[1..])
  }

  datatype Answer = Active | Pending | Errno(text: string)

  /** What reinstate_links finds at a link, and what others have done to the destinations until then. */
  datatype Poll = Poll(changes: seq<Edit>, answer: Answer)

  /** connect raises a Qpid error or an InternalError, none of which connect_to_a_server rescues. */
  type ConnectCause = c: Cause | c.error in {InternalError, QpidError, QpidStateError, QpidTimeoutError}
    witness Cause(InternalError, "")

  /** How a service answers: an error from the end point's constructor, from connect or from the wait for the start,
      then the polls of its links. The others may change the state during the attempt, before the ensure clause and
      before the test that ends the loop, and the destinations before the links are reinstated. */
  datatype Service = Service(
    open: Option<Cause>, connect: Option<ConnectCause>, wait: Option<Cause>, polls: seq<Poll>,
    during: Option<State>, beforeEnsure: Option<State>, beforeTest: Option<State>, recorded: seq<Edit>)

  /** Util.generate_services: a list, a failed look-up, or another failure. */
  datatype Lookup = Services(list: seq<Service>) | Unreachable(text: string) | Refused(cause: Cause)

  /** What is done, in order. */
  datatype Entry =
    | Opened(service: nat)       // an end point
    | Closed                     // stop_threads
    | Connected(service: nat)    // a new messenger, and the threads of the end point
    | Subscribed(link: Address)
    | BecameActive(link: Address)
    | Listed(links: seq<Address>) // the recorded destinations, when the loop over them starts and when it ends
    | Set(state: State)          // change_state by this thread

  /** @end_point: nil, one whose threads have not been started, or one that runs. */
  datatype EndPoint = Absent | Bare | Running

  datatype Net = Net(
    state: State, reason: Option<Cause>, registered: bool, callbacks: seq<Transition>, destinations: seq<Destination>,
    service: Option<nat>, endPoint: EndPoint, log: seq<Entry>)

  datatype Attempted = Succeeded | Failed(cause: Cause) | Hung

  /** @incoming.kill of an end point without threads. */
  const NO_THREADS: Cause := Cause(ForeignError, "undefined method `kill' for nil")

  /** A state change by this thread. */
  function Change(n: Net, to: State, why: Option<Cause>): Net {
    n.(state := to, reason := why, callbacks := n.callbacks + Callbacks(n.registered, n.state, to, why),
       log := n.log + [Set(to)])
  }

  /** A state change by another thread, if there is one. */
  function Meddle(n: Net, to: Option<State>): Net {
    match to
    case Some(st) =>
      n.(state := st, reason := None, callbacks := n.callbacks + Callbacks(n.registered, n.state, st, None))
    case None => n
  }

  function Note(n: Net, e: Entry): Net {
    n.(log := n.log + [e])
  }

  /** close_end_point unless @end_point.nil?, which raises for an end point without threads and leaves it. */
  function CloseEndPoint(n: Net): Net {
    if n.endPoint.Running? then Note(n, Closed).(endPoint := Absent) else n
  }

  function Addresses(ds: seq<Destination>): (r: seq<Address>)
    ensures |r| == |ds|
  {
    seq(|ds|, i requires 0 <= i < |ds| => ds[i].address)
  }

  /** The list as it stands. */
  function List(n: Net): Net {
    Note(n, Listed(Addresses(n.destinations)))
  }

  /** reinstate_links from the destination at `i` on: each subscribes the destination that stands at the index then, and
      its link is polled until it is active; the first error ends it. */
  function ReinstateAll(n: Net, i: nat, polls: seq<Poll>): (Net, Attempted)
    decreases |polls|, 1
  {
    if i >= |n.destinations| then (List(n), Succeeded)
    else AwaitActive(Note(n, Subscribed(n.destinations[i].address)), i, n.destinations[i].address, polls)
  }

  function AwaitActive(n: Net, i: nat, a: Address, polls: seq<Poll>): (Net, Attempted)
    decreases |polls|, 0
  {
    if polls == [] then (n, Hung)
    else
      var n1 := n.(destinations := Apply(n.destinations, polls[0].changes));
      match polls[0].answer
      case Active => ReinstateAll(Note(n1, BecameActive(a)), i + 1, polls[1..])
      case Pending => AwaitActive(n1, i, a, polls[1..])
      case Errno(text) => (n1, Failed(Cause(SubscribedError, text)))
  }

  /** A new end point, a messenger for service `i`, and what the others do meanwhile. */
  function Reach(n: Net, i: nat, during: Option<State>): Net {
    Meddle(Note(Note(n, Opened(i)).(endPoint := Bare), Connected(i)).(endPoint := Running), during)
  }

  /** One service, up to the change of state that its outcome asks for. */
  function Try(n: Net, i: nat, p: Service): (Net, Attempted) {
    var n1 := CloseEndPoint(n.(service := Some(i)));
    if n1.endPoint.Bare? then (Meddle(n1, p.during), Failed(NO_THREADS))
    else if p.open.Some? then (Meddle(n1, p.during), Failed(p.open.value))
    else
      var n2 := Note(n1, Opened(i)).(endPoint := Bare);
      if p.connect.Some? then (Meddle(n2, p.during), Failed(p.connect.value))
      else
        var n3 := Reach(n1, i, p.during);
        if p.wait.Some? then (n3, Failed(p.wait.value))
        else ReinstateAll(List(n3.(destinations := Apply(n3.destinations, p.recorded))), 0, p.polls)
  }

  predicate Final(e: Error) {
    e == SecurityError || e == ReplacedError || e == SubscribedError
  }

  predicate IsRescued(e: Error) {
    e == NetworkError || Final(e)
  }

  /** The change of state after an attempt; `last` says that no service is left. */
  function Conclude(n: Net, a: Attempted, last: bool): Net {
    match a
    case Succeeded => Change(n, Started, None)
    case Failed(c) =>
      if c.error == NetworkError then (if last then Change(n, Retrying, Some(c)) else n)
      else if Final(c.error) then Change(n, Stopped, Some(c))
      else n
    case Hung => n
  }

  datatype Ending = Returned | Threw(cause: Cause) | StillConnecting

  /** The ensure clause. */
  function CloseIfStopped(n: Net): Net {
    if n.state == Stopped then CloseEndPoint(n) else n
  }

  /** What leaves the loop after the ensure clause: what it raised itself, or what was not rescued. */
  function Escapes(n: Net, a: Attempted): Option<Cause> {
    if n.state == Stopped && n.endPoint.Bare? then Some(NO_THREADS)
    else if a.Failed? && !IsRescued(a.cause.error) then Some(a.cause)
    else None
  }

  /** The loop over the services from number `i`. */
  function ConnectFrom(n: Net, ps: seq<Service>, i: nat): (Net, Ending)
    requires i <= |ps|
    decreases |ps| - i
  {
    if i == |ps| then (n, Returned)
    else
      var (n1, a) := Try(n, i, ps[i]);
      if a.Hung? then (n1, StillConnecting)
      else
        var n2 := CloseIfStopped(Meddle(Conclude(n1, a, i + 1 == |ps|), ps[i].beforeEnsure));
        match Escapes(n2, a)
        case Some(c) => (n2, Threw(c))
        case None =>
          var n3 := Meddle(n2, ps[i].beforeTest);
          if n3.state == Stopped || n3.state == Started then (n3, Returned) else ConnectFrom(n3, ps, i + 1)
  }

  function ConnectToAServer(n: Net, lookup: Lookup): (Net, Ending) {
    match lookup
    case Services(ps) => if ps == [] then (n, Returned) else ConnectFrom(Change(n, Starting, None), ps, 0)
    case Unreachable(text) => (Change(n, Retrying, Some(Cause(NetworkError, text))), Returned)
    case Refused(c) => (Change(n, Stopped, Some(c)), Returned)
  }

  // ----- End points.

  /** How many end points are live after a log. */
  function Live(log: seq<Entry>): int
    decreases |log|
  {
    if log == [] then 0
    else
      var k := |log| - 1;
      Live(log[..k]) + match log[k] case Opened(_) => 1 case Closed => -1 case _ => 0
  }

  /** At every moment no end point is live, or one, and the field knows which. */
  ghost predicate OneLive(n: Net) {
    && (forall k :: 0 <= k <= |n.log| ==> 0 <= Live(n.log[..k]) <= 1)
    && Live(n.log) == if n.endPoint.Absent? then 0 else 1
  }

  lemma NoteKeepsOneLive(n: Net, e: Entry, endPoint: EndPoint)
    requires OneLive(n) && (e.Closed? ==> !n.endPoint.Absent?) && (e.Opened? ==> n.endPoint.Absent?)
    requires endPoint.Absent? <==> e.Closed? || (n.endPoint.Absent? && !e.Opened?)
    ensures OneLive(Note(n, e).(endPoint := endPoint))
  {
    var log := n.log + [e];
    assert log[..|n.log|] == n.log && log[..|log|] == log && n.log[..|n.log|] == n.log;
    forall k | 0 <= k <= |log| ensures 0 <= Live(log[..k]) <= 1 {
      if k <= |n.log| { assert log[..k] == n.log[..k]; }
    }
  }

  /** Only the log and the end point matter. */
  lemma OneLiveSame(n: Net, n': Net)
    requires OneLive(n) && n'.log == n.log && n'.endPoint == n.endPoint
    ensures OneLive(n')
  {
  }

  lemma {:induction false} ReinstateKeepsOneLive(n: Net, i: nat, polls: seq<Poll>)
    requires OneLive(n)
    ensures OneLive(ReinstateAll(n, i, polls).0)
    decreases |polls|, 1
  {
    if i >= |n.destinations| {
      NoteKeepsOneLive(n, Listed(Addresses(n.destinations)), n.endPoint);
    } else {
      var a := n.destinations[i].address;
      NoteKeepsOneLive(n, Subscribed(a), n.endPoint);
      AwaitKeepsOneLive(Note(n, Subscribed(a)), i, a, polls);
    }
  }

  lemma {:induction false} AwaitKeepsOneLive(n: Net, i: nat, a: Address, polls: seq<Poll>)
    requires OneLive(n)
    ensures OneLive(AwaitActive(n, i, a, polls).0)
    decreases |polls|, 0
  {
    if polls == [] {
    } else {
      var n1 := n.(destinations := Apply(n.destinations, polls[0].changes));
      OneLiveSame(n, n1);
      if polls[0].answer.Active? {
        NoteKeepsOneLive(n1, BecameActive(a), n1.endPoint);
        ReinstateKeepsOneLive(Note(n1, BecameActive(a)), i + 1, polls[1..]);
      } else if polls[0].answer.Pending? {
        AwaitKeepsOneLive(n1, i, a, polls[1..]);
      }
    }
  }

  lemma CloseKeepsOneLive(n: Net)
    requires OneLive(n)
    ensures OneLive(CloseEndPoint(n)) && !CloseEndPoint(n).endPoint.Running?
  {
    if n.endPoint.Running? { NoteKeepsOneLive(n, Closed, Absent); }
  }

  lemma OpenedKeepsOneLive(n: Net, i: nat)
    requires OneLive(n) && n.endPoint.Absent?
    ensures
      var n' := Note(n, Opened(i)).(endPoint := Bare);
      OneLive(n') && OneLive(Note(n', Connected(i)).(endPoint := Running))
  {
    NoteKeepsOneLive(n, Opened(i), Bare);
    NoteKeepsOneLive(Note(n, Opened(i)).(endPoint := Bare), Connected(i), Running);
  }

  lemma ReachKeepsOneLive(n: Net, i: nat, p: Service)
    requires OneLive(n) && n.endPoint.Absent?
    ensures OneLive(Reach(n, i, p.during))
    ensures
      var n3 := Reach(n, i, p.during);
      OneLive(List(n3.(destinations := Apply(n3.destinations, p.recorded))))
  {
    OpenedKeepsOneLive(n, i);
    var n2 := Note(Note(n, Opened(i)).(endPoint := Bare), Connected(i)).(endPoint := Running);
    var n3 := Reach(n, i, p.during);
    OneLiveSame(n2, n3);
    var n4 := n3.(destinations := Apply(n3.destinations, p.recorded));
    OneLiveSame(n3, n4);
    NoteKeepsOneLive(n4, Listed(Addresses(n4.destinations)), n4.endPoint);
  }

  lemma TryKeepsOneLive(n: Net, i: nat, p: Service)
    requires OneLive(n)
    ensures OneLive(Try(n, i, p).0)
  {
    OneLiveSame(n, n.(service := Some(i)));
    CloseKeepsOneLive(n.(service := Some(i)));
    var n1 := CloseEndPoint(n.(service := Some(i)));
    if n1.endPoint.Bare? || p.open.Some? {
      OneLiveSame(n1, Meddle(n1, p.during));
    } else {
      OpenedKeepsOneLive(n1, i);
      var n2 := Note(n1, Opened(i)).(endPoint := Bare);
      if p.connect.Some? {
        OneLiveSame(n2, Meddle(n2, p.during));
      } else {
        ReachKeepsOneLive(n1, i, p);
        var n3 := Reach(n1, i, p.during);
        ReinstateKeepsOneLive(List(n3.(destinations := Apply(n3.destinations, p.recorded))), 0, p.polls);
      }
    }
  }

  lemma ConcludeKeepsOneLive(n: Net, a: Attempted, last: bool)
    requires OneLive(n)
    ensures OneLive(Conclude(n, a, last))
  {
    NoteKeepsOneLive(n, Set(Started), n.endPoint);
    NoteKeepsOneLive(n, Set(Retrying), n.endPoint);
    NoteKeepsOneLive(n, Set(Stopped), n.endPoint);
  }

  lemma EnsureKeepsOneLive(n: Net, a: Attempted, last: bool, others: Option<State>)
    requires OneLive(n)
    ensures OneLive(CloseIfStopped(Meddle(Conclude(n, a, last), others)))
  {
    ConcludeKeepsOneLive(n, a, last);
    CloseKeepsOneLive(Meddle(Conclude(n, a, last), others));
  }

  lemma {:induction false} ConnectFromKeepsOneLive(n: Net, ps: seq<Service>, i: nat)
    requires OneLive(n) && i <= |ps|
    ensures OneLive(ConnectFrom(n, ps, i).0)
    decreases |ps| - i
  {
    if i == |ps| {
    } else {
      TryKeepsOneLive(n, i, ps[i]);
      var (n1, a) := Try(n, i, ps[i]);
      var n2 := CloseIfStopped(Meddle(Conclude(n1, a, i + 1 == |ps|), ps[i].beforeEnsure));
      EnsureKeepsOneLive(n1, a, i + 1 == |ps|, ps[i].beforeEnsure);
      var n3 := Meddle(n2, ps[i].beforeTest);
      OneLiveSame(n2, n3);
      ConnectFromKeepsOneLive(n3, ps, i + 1);
    }
  }

  /** At most one end point is live at any moment of any sequence of reconnects, whatever the other threads do to the
      state and the destinations meanwhile. */
  lemma AtMostOneEndPoint(n: Net, lookup: Lookup)
    requires OneLive(n)
    ensures OneLive(ConnectToAServer(n, lookup).0)
  {
    NoteKeepsOneLive(n, Set(Starting), n.endPoint);
    NoteKeepsOneLive(n, Set(Retrying), n.endPoint);
    NoteKeepsOneLive(n, Set(Stopped), n.endPoint);
    match lookup
    case Services(ps) => if ps != [] { ConnectFromKeepsOneLive(Change(n, Starting, None), ps, 0); }
    case _ =>
  }

  // ----- The first service that does not fail for the network decides.

  /** How many destinations there are after some changes. */
  function CountAfter(count: nat, changes: seq<Edit>): nat
    decreases |changes|
  {
    if changes == [] then count
    else
      var count1 :=
        match changes[0]
        case Added(_) => count + 1
        case Removed(k) => if k < count then count - 1 else count;
      CountAfter(count1, changes[1..])
  }

  /** How the links fare, told from the polls alone, when number `i` of `count` is awaited. */
  function LinksOutcome(i: nat, count: nat, polls: seq<Poll>): Attempted
    decreases |polls|
  {
    if i >= count then Succeeded else AwaitedOutcome(i, count, polls)
  }

  function AwaitedOutcome(i: nat, count: nat, polls: seq<Poll>): Attempted
    decreases |polls|
  {
    if polls == [] then Hung
    else
      var count1 := CountAfter(count, polls[0].changes);
      match polls[0].answer
      case Active => if i + 1 >= count1 then Succeeded else AwaitedOutcome(i + 1, count1, polls[1..])
      case Pending => AwaitedOutcome(i, count1, polls[1..])
      case Errno(text) => Failed(Cause(SubscribedError, text))
  }

  /** What an attempt at a service comes to, told from its answers alone. */
  function OutcomeOf(p: Service, count: nat): Attempted {
    if p.open.Some? then Failed(p.open.value)
    else if p.connect.Some? then Failed(p.connect.value)
    else if p.wait.Some? then Failed(p.wait.value)
    else LinksOutcome(0, CountAfter(count, p.recorded), p.polls)
  }

  predicate IsNetworkFailure(a: Attempted) {
    a.Failed? && a.cause.error == NetworkError
  }

  /** The number of the first service whose outcome is not a network error. */
  function FirstDecisive(ps: seq<Service>, count: nat, i: nat): (k: nat)
    requires i <= |ps|
    ensures i <= k <= |ps|
    ensures forall j :: i <= j < k ==> IsNetworkFailure(OutcomeOf(ps[j], count))
    ensures k < |ps| ==> !IsNetworkFailure(OutcomeOf(ps[k], count))
    decreases |ps| - i
  {
    if i == |ps| || !IsNetworkFailure(OutcomeOf(ps[i], count)) then i else FirstDecisive(ps, count, i + 1)
  }

  /** What is left of the end point when the attempt is over. */
  function EndPointAfter(p: Service): EndPoint {
    if p.open.Some? then Absent else if p.connect.Some? then Bare else Running
  }

  predicate Alone(p: Service) {
    p.during == None && p.beforeEnsure == None && p.beforeTest == None
  }

  /** From entry `from` on, a log names no service beyond number `k`. */
  ghost predicate TriesUpTo(log: seq<Entry>, from: nat, k: nat) {
    && from <= |log|
    && forall j :: from <= j < |log| && (log[j].Opened? || log[j].Connected?) ==> log[j].service <= k
  }

  /** What an attempt leaves besides the log. */
  predicate SameStanding(n: Net, n': Net) {
    && n'.state == n.state && n'.reason == n.reason && n'.service == n.service && n'.endPoint == n.endPoint
    && n'.registered == n.registered && n'.callbacks == n.callbacks
  }

  lemma {:induction false} ApplyCounts(ds: seq<Destination>, changes: seq<Edit>)
    ensures |Apply(ds, changes)| == CountAfter(|ds|, changes)
    decreases |changes|
  {
    if changes == [] {
    } else {
      match changes[0]
      case Added(d) => ApplyCounts(ds + [d], changes[1..]);
      case Removed(k) => ApplyCounts(if k < |ds| then ds[..k] + ds[k + 1..] else ds, changes[1..]);
    }
  }

  lemma {:induction false} ReinstateOutcome(n: Net, i: nat, polls: seq<Poll>, from: nat, k: nat)
    requires TriesUpTo(n.log, from, k)
    ensures var (n', a) := ReinstateAll(n, i, polls);
      a == LinksOutcome(i, |n.destinations|, polls) && SameStanding(n, n') && TriesUpTo(n'.log, from, k)
    decreases |polls|, 1
  {
    if i >= |n.destinations| {
    } else {
      var a := n.destinations[i].address;
      AwaitOutcome(Note(n, Subscribed(a)), i, a, polls, from, k);
    }
  }

  lemma {:induction false} AwaitOutcome(n: Net, i: nat, a: Address, polls: seq<Poll>, from: nat, k: nat)
    requires TriesUpTo(n.log, from, k)
    ensures var (n', o) := AwaitActive(n, i, a, polls);
      o == AwaitedOutcome(i, |n.destinations|, polls) && SameStanding(n, n') && TriesUpTo(n'.log, from, k)
    decreases |polls|, 0
  {
    if polls == [] {
    } else {
      ApplyCounts(n.destinations, polls[0].changes);
      var n1 := n.(destinations := Apply(n.destinations, polls[0].changes));
      if polls[0].answer.Active? {
        ReinstateOutcome(Note(n1, BecameActive(a)), i + 1, polls[1..], from, k);
      } else if polls[0].answer.Pending? {
        AwaitOutcome(n1, i, a, polls[1..], from, k);
      }
    }
  }

  lemma TryOutcome(n: Net, i: nat, p: Service, from: nat)
    requires Alone(p) && TriesUpTo(n.log, from, i) && !n.endPoint.Bare?
    ensures var (n', a) := Try(n, i, p);
      && a == OutcomeOf(p, |n.destinations|) && TriesUpTo(n'.log, from, i)
      && n'.state == n.state && n'.service == Some(i) && n'.endPoint == EndPointAfter(p)
      && (IsNetworkFailure(a) ==> n'.destinations == n.destinations)
  {
    var n1 := CloseEndPoint(n.(service := Some(i)));
    var n2 := Note(n1, Opened(i)).(endPoint := Bare);
    var n3 := Note(n2, Connected(i)).(endPoint := Running);
    var n4 := n3.(destinations := Apply(n3.destinations, p.recorded));
    ApplyCounts(n3.destinations, p.recorded);
    if p.open.None? && p.connect.None? && p.wait.None? {
      ReinstateOutcome(List(n4), 0, p.polls, from, i);
      LinksNeverFailForTheNetwork(0, |n4.destinations|, p.polls);
    }
  }

  lemma {:induction false} LinksNeverFailForTheNetwork(i: nat, count: nat, polls: seq<Poll>)
    ensures !IsNetworkFailure(LinksOutcome(i, count, polls)) && !IsNetworkFailure(AwaitedOutcome(i, count, polls))
    decreases |polls|
  {
    if polls == [] {
    } else {
      var count1 := CountAfter(count, polls[0].changes);
      LinksNeverFailForTheNetwork(i + 1, count1, polls[1..]);
      LinksNeverFailForTheNetwork(i, count1, polls[1..]);
    }
  }

  /** The end of a search whose first decisive service is number `k` of `ps`. */
  ghost predicate EndsAt(n: Net, ending: Ending, ps: seq<Service>, count: nat, from: nat, k: nat)
    requires ps != [] && k <= |ps|
  {
    if k == |ps| then
      && ending == Returned && n.state == Retrying && n.service == Some(k - 1)
      && OutcomeOf(ps[k - 1], count).Failed? && n.reason == Some(OutcomeOf(ps[k - 1], count).cause)
      && n.endPoint == EndPointAfter(ps[k - 1])
    else
      && n.service == Some(k) && TriesUpTo(n.log, from, k)
      && match OutcomeOf(ps[k], count)
         case Succeeded => ending == Returned && n.state == Started && n.reason == None && n.endPoint == Running
         case Failed(c) =>
           if Final(c.error) then
             ending == Returned && n.state == Stopped && n.reason == Some(c) && n.endPoint == Absent
           else ending == Threw(c) && n.state == Starting && n.endPoint == EndPointAfter(ps[k])
         case Hung => ending == StillConnecting && n.state == Starting
  }

  lemma {:induction false} FirstMatchFrom(n: Net, ps: seq<Service>, i: nat, from: nat)
    requires i < |ps| && n.state == Starting && TriesUpTo(n.log, from, i) && !n.endPoint.Bare?
    requires forall j :: i <= j < |ps| ==> Alone(ps[j])
    ensures var (n', ending) := ConnectFrom(n, ps, i);
      EndsAt(n', ending, ps, |n.destinations|, from, FirstDecisive(ps, |n.destinations|, i))
    decreases |ps| - i
  {
    TryOutcome(n, i, ps[i], from);
    var (n1, a) := Try(n, i, ps[i]);
    if IsNetworkFailure(a) && i + 1 < |ps| {
      assert Conclude(n1, a, false) == n1 && CloseIfStopped(n1) == n1;
      FirstMatchFrom(n1, ps, i + 1, from);
    } else {
      DecidesHere(n, n1, a, ps, i, from);
    }
  }

  /** The service at `i` decides, or is the last. */
  lemma DecidesHere(n: Net, n1: Net, a: Attempted, ps: seq<Service>, i: nat, from: nat)
    requires i < |ps| && Alone(ps[i]) && (n1, a) == Try(n, i, ps[i]) && a == OutcomeOf(ps[i], |n.destinations|)
    requires IsNetworkFailure(a) ==> i + 1 == |ps|
    requires n1.state == Starting && n1.service == Some(i) && n1.endPoint == EndPointAfter(ps[i])
    requires TriesUpTo(n1.log, from, i)
    ensures var (n', ending) := ConnectFrom(n, ps, i);
      EndsAt(n', ending, ps, |n.destinations|, from, FirstDecisive(ps, |n.destinations|, i))
  {
    if a.Succeeded? { LinksSucceedRunning(ps[i], |n.destinations|); }
    if IsNetworkFailure(a) { assert FirstDecisive(ps, |n.destinations|, i) == |ps|; }
  }

  lemma LinksSucceedRunning(p: Service, count: nat)
    requires OutcomeOf(p, count).Succeeded?
    ensures EndPointAfter(p) == Running
  {
  }

  /** Failover is a first-match search: whatever the outcomes of the services, the final state, reason and service are
      those of the first one that is not a network error, and no later service is tried; if there is none the client
      is retrying for the last network error. One end point runs when it is started and none when it is stopped. After
      a connect has raised, no service is reached. */
  lemma FailoverIsFirstMatch(n: Net, ps: seq<Service>)
    requires ps != [] && forall p :: p in ps ==> Alone(p)
    ensures var (n', ending) := ConnectToAServer(n, Services(ps));
      if n.endPoint.Bare? then
        ending == Threw(NO_THREADS) && n'.state == Starting && n'.service == Some(0) && n'.endPoint == Bare
      else EndsAt(n', ending, ps, |n.destinations|, |n.log|, FirstDecisive(ps, |n.destinations|, 0))
  {
    assert ps[0] in ps;
    if !n.endPoint.Bare? { FirstMatchFrom(Change(n, Starting, None), ps, 0, |n.log|); }
  }

  /** When the list of services cannot even be made the client is stopped, and an end point it has stays live: none is
      live after a stop exactly if there was a list to go through, or no end point before. */
  lemma StoppedLeavesEndPointIff(n: Net, lookup: Lookup)
    requires lookup.Services? ==> n.state != Stopped && forall p :: p in lookup.list ==> Alone(p)
    requires ConnectToAServer(n, lookup).0.state == Stopped
    ensures ConnectToAServer(n, lookup).0.endPoint.Absent? <==> lookup.Services? || n.endPoint.Absent?
  {
    match lookup
    case Services(ps) => if ps != [] { FailoverIsFirstMatch(n, ps); }
    case _ =>
  }

  // ----- After a connect has raised.

  /** Connect after connect. */
  function Connects(n: Net, lookups: seq<Lookup>): Net
    decreases |lookups|
  {
    if lookups == [] then n else Connects(ConnectToAServer(n, lookups[0]).0, lookups[1..])
  }

  /** The end point is still there, and on the way no end point was opened, no messenger made and :started not set. */
  ghost predicate StaysBare(n: Net, n': Net) {
    && n'.endPoint.Bare? && n.log <= n'.log
    && forall k :: |n.log| <= k < |n'.log| ==>
         !n'.log[k].Connected? && !n'.log[k].Opened? && n'.log[k] != Set(Started)
  }

  /** Its end point has no threads and cannot be closed, so that no later connect ever makes a messenger again, whatever
      the services answer and the other threads do. */
  lemma {:induction false} BareEndPointIsForever(n: Net, lookups: seq<Lookup>)
    requires n.endPoint.Bare?
    ensures StaysBare(n, Connects(n, lookups))
    decreases |lookups|
  {
    if lookups == [] {
    } else {
      BareConnect(n, lookups[0]);
      BareEndPointIsForever(ConnectToAServer(n, lookups[0]).0, lookups[1..]);
    }
  }

  lemma BareConnect(n: Net, lookup: Lookup)
    requires n.endPoint.Bare?
    ensures StaysBare(n, ConnectToAServer(n, lookup).0)
  {
    if lookup.Services? && lookup.list != [] {
      var ps := lookup.list;
      var n1 := Change(n, Starting, None);
      assert ConnectFrom(n1, ps, 0).0.log == n1.log && ConnectFrom(n1, ps, 0).0.endPoint == Bare;
    }
  }

  // ----- Started only after every subscription has been reinstated.

  /** What the log shows of reinstating `links` in order. */
  function Reinstated(links: seq<Address>): seq<Entry> {
    if links == [] then []
    else Reinstated(links[..|links| - 1]) + [Subscribed(links[|links| - 1]), BecameActive(links[|links| - 1])]
  }

  /** No destination is removed at or before the one at `i`, of `count`, whose link is awaited. */
  predicate NoneBefore(i: nat, count: nat, changes: seq<Edit>)
    decreases |changes|
  {
    changes != [] ==>
      match changes[0]
      case Added(_) => NoneBefore(i, count + 1, changes[1..])
      case Removed(k) =>
        if k < count then i < k && NoneBefore(i, count - 1, changes[1..]) else NoneBefore(i, count, changes[1..])
  }

  /** The same from the wait for the link at `i` to the end of the reinstatement. */
  predicate Forward(i: nat, count: nat, polls: seq<Poll>)
    decreases |polls|
  {
    polls != [] ==>
      && NoneBefore(i, count, polls[0].changes)
      && var count1 := CountAfter(count, polls[0].changes);
      match polls[0].answer
      case Active => i + 1 < count1 ==> Forward(i + 1, count1, polls[1..])
      case Pending => Forward(i, count1, polls[1..])
      case Errno(_) => true
  }

  /** And for a whole reinstatement. */
  predicate AllForward(count: nat, polls: seq<Poll>) {
    count > 0 ==> Forward(0, count, polls)
  }

  function AddedOf(changes: seq<Edit>): seq<Address> {
    if changes == [] then []
    else (if changes[0].Added? then [changes[0].destination.address] else []) + AddedOf(changes[1..])
  }

  /** The addresses that are recorded during some polls. */
  function AddedIn(polls: seq<Poll>): seq<Address> {
    if polls == [] then [] else AddedOf(polls[0].changes) + AddedIn(polls[1..])
  }

  predicate Distinct(links: seq<Address>) {
    forall i, j :: 0 <= i < j < |links| ==> links[i] != links[j]
  }

  /** The whole of a successful attempt at service `i`, in which `links0` stood recorded at the start, `visited` were
      subscribed again and `links` stood recorded at the end. */
  function Whole(i: nat, links0: seq<Address>, visited: seq<Address>, links: seq<Address>): seq<Entry> {
    [Opened(i), Connected(i), Listed(links0)] + Reinstated(visited) + [Listed(links)]
  }

  predicate EndsWith(log: seq<Entry>, tail: seq<Entry>) {
    |tail| <= |log| && log[|log| - |tail|..] == tail
  }

  /** One was subscribed again and is recorded no more. */
  ghost predicate Apart(visited: seq<Address>, links: seq<Address>) {
    exists x :: x in visited && x !in links
  }

  /** What was subscribed again is what stands recorded if no destination was removed at or before the awaited one; and
      only then, provided that no address was recorded twice: otherwise the removed one sets the two apart. */
  ghost predicate VisitsAllIff(links0: seq<Address>, visited: seq<Address>, links: seq<Address>, polls: seq<Poll>) {
    && (AllForward(|links0|, polls) ==> visited == links)
    && (Distinct(links0 + AddedIn(polls)) && !AllForward(|links0|, polls) ==> Apart(visited, links))
  }

  /** A log that ends with such an attempt at one of the services. */
  ghost predicate EndsWhole(log: seq<Entry>, ps: seq<Service>) {
    exists i, links0, visited, links ::
      && 0 <= i < |ps| && EndsWith(log, Whole(i, links0, visited, links))
      && VisitsAllIff(links0, visited, links, ps[i].polls)
  }

  /** Wherever the log from `from` on sets :started, a whole successful attempt comes right before. */
  ghost predicate StartsReinstated(log: seq<Entry>, from: nat, ps: seq<Service>) {
    forall k :: from <= k < |log| && log[k] == Set(Started) ==> EndsWhole(log[..k], ps)
  }

  /** `log'` continues `log` without a change of state. */
  ghost predicate Continues(log: seq<Entry>, log': seq<Entry>) {
    log <= log' && forall k :: |log| <= k < |log'| ==> !log'[k].Set?
  }

  lemma ContinuesTransitive(log: seq<Entry>, log1: seq<Entry>, log2: seq<Entry>)
    requires Continues(log, log1) && Continues(log1, log2)
    ensures Continues(log, log2)
  {
  }

  lemma {:induction false} NoSetReinstated(head: seq<Entry>, visited: seq<Address>)
    ensures Continues(head, head + Reinstated(visited))
    decreases |visited|
  {
    if visited == [] {
    } else {
      var init, a := visited[..|visited| - 1], visited[|visited| - 1];
      NoSetReinstated(head, init);
      assert head + Reinstated(visited) == (head + Reinstated(init)) + [Subscribed(a), BecameActive(a)];
    }
  }

  // What changes do to the list.

  lemma {:induction false} LaterKeepsPrefix(ds: seq<Destination>, changes: seq<Edit>, i: nat)
    requires i < |ds| && NoneBefore(i, |ds|, changes)
    ensures i < |Apply(ds, changes)| && Apply(ds, changes)[..i + 1] == ds[..i + 1]
    decreases |changes|
  {
    if changes == [] {
    } else {
      match changes[0]
      case Added(d) => LaterKeepsPrefix(ds + [d], changes[1..], i);
      case Removed(k) => LaterKeepsPrefix(if k < |ds| then ds[..k] + ds[k + 1..] else ds, changes[1..], i);
    }
  }

  lemma {:induction false} StaysGone(ds: seq<Destination>, changes: seq<Edit>, x: Address)
    requires x !in Addresses(ds) && x !in AddedOf(changes)
    ensures x !in Addresses(Apply(ds, changes))
    decreases |changes|
  {
    if changes == [] {
    } else {
      match changes[0]
      case Added(d) =>
        assert AddedOf(changes)[0] == d.address;
        assert Addresses(ds + [d]) == Addresses(ds) + [d.address];
        StaysGone(ds + [d], changes[1..], x);
      case Removed(k) =>
        var ds1 := if k < |ds| then ds[..k] + ds[k + 1..] else ds;
        assert forall j :: 0 <= j < |ds1| ==> ds1[j].address == Addresses(ds)[if j < k then j else j + 1] || ds1 == ds;
        StaysGone(ds1, changes[1..], x);
    }
  }

  /** Removing one keeps the rest distinct. */
  lemma DistinctWithout(ds: seq<Destination>, k: nat, more: seq<Address>)
    requires k < |ds| && Distinct(Addresses(ds) + more)
    ensures Distinct(Addresses(ds[..k] + ds[k + 1..]) + more)
    ensures ds[k].address !in Addresses(ds[..k] + ds[k + 1..]) + more
  {
    var all, left := Addresses(ds) + more, Addresses(ds[..k] + ds[k + 1..]) + more;
    assert forall j :: 0 <= j < |left| ==> left[j] == all[if j < k then j else j + 1];
    assert all[k] == ds[k].address;
  }

  lemma DistinctAdded(ds: seq<Destination>, d: Destination, more: seq<Address>)
    ensures Addresses(ds + [d]) + more == Addresses(ds) + ([d.address] + more)
  {
  }

  lemma {:induction false} DistinctAfter(ds: seq<Destination>, changes: seq<Edit>, more: seq<Address>)
    requires Distinct(Addresses(ds) + (AddedOf(changes) + more))
    ensures Distinct(Addresses(Apply(ds, changes)) + more)
    decreases |changes|
  {
    if changes == [] {
      assert AddedOf(changes) + more == more;
    } else {
      var rest := AddedOf(changes[1..]) + more;
      match changes[0]
      case Added(d) =>
        assert AddedOf(changes) + more == [d.address] + rest;
        DistinctAdded(ds, d, rest);
        DistinctAfter(ds + [d], changes[1..], more);
      case Removed(k) =>
        assert AddedOf(changes) + more == rest;
        if k < |ds| { DistinctWithout(ds, k, rest); }
        DistinctAfter(if k < |ds| then ds[..k] + ds[k + 1..] else ds, changes[1..], more);
    }
  }

  /** A removal at or before `i` takes one of the first `i + 1` away for good. */
  lemma {:induction false} LosesOne(ds: seq<Destination>, changes: seq<Edit>, more: seq<Address>, i: nat)
    returns (x: Address)
    requires i < |ds| && !NoneBefore(i, |ds|, changes)
    requires Distinct(Addresses(ds) + (AddedOf(changes) + more))
    ensures x in Addresses(ds)[..i + 1] && x !in Addresses(Apply(ds, changes)) && x !in more
    decreases |changes|
  {
    var rest := AddedOf(changes[1..]) + more;
    match changes[0]
    case Added(d) =>
      assert AddedOf(changes) + more == [d.address] + rest;
      DistinctAdded(ds, d, rest);
      x := LosesOne(ds + [d], changes[1..], more, i);
      assert Addresses(ds + [d])[..i + 1] == Addresses(ds)[..i + 1];
    case Removed(k) =>
      assert AddedOf(changes) + more == rest;
      if k >= |ds| {
        x := LosesOne(ds, changes[1..], more, i);
      } else {
        DistinctWithout(ds, k, rest);
        var left := ds[..k] + ds[k + 1..];
        if k <= i {
          x := ds[k].address;
          assert Addresses(ds)[..i + 1][k] == x;
          assert x !in Addresses(left) && x !in AddedOf(changes[1..]) && x !in more;
          StaysGone(left, changes[1..], x);
        } else {
          x := LosesOne(left, changes[1..], more, i);
          assert Addresses(left)[..i + 1] == Addresses(ds)[..i + 1];
        }
      }
  }

  // What the log shows.

  /** How a reinstatement ends: if it `keeps` what it has visited, with all that is recorded; and one that has been lost
      stays among the visited and out of the recorded. */
  ghost predicate EndsVisit(head: seq<Entry>, keeps: bool, lost: Option<Address>, n: Net, o: Attempted) {
    && Continues(head, n.log)
    && (o.Succeeded? ==>
          exists visited, links ::
            && n.log == head + Reinstated(visited) + [Listed(links)]
            && (keeps ==> visited == links)
            && (lost.Some? ==> lost.value in visited && lost.value !in links))
  }

  ghost predicate IsLost(lost: Option<Address>, visited: seq<Address>, ds: seq<Destination>, polls: seq<Poll>) {
    lost.Some? ==> lost.value in visited && lost.value !in Addresses(ds) && lost.value !in AddedIn(polls)
  }

  lemma ActiveLog(n: Net, a: Address, head: seq<Entry>, visited: seq<Address>)
    requires n.log == head + Reinstated(visited) + [Subscribed(a)]
    ensures Note(n, BecameActive(a)).log == head + Reinstated(visited + [a])
  {
    assert (visited + [a])[..|visited|] == visited;
  }

  lemma {:induction false} ReinstateLog(
    n: Net, i: nat, polls: seq<Poll>, head: seq<Entry>, visited: seq<Address>, keeps: bool, lost: Option<Address>)
    requires n.log == head + Reinstated(visited) && i == |visited|
    requires keeps ==> i <= |n.destinations| && visited == Addresses(n.destinations)[..i]
    requires keeps && i < |n.destinations| ==> Forward(i, |n.destinations|, polls)
    requires IsLost(lost, visited, n.destinations, polls)
    ensures var (n', o) := ReinstateAll(n, i, polls); EndsVisit(head, keeps, lost, n', o)
    decreases |polls|, 1
  {
    NoSetReinstated(head, visited);
    if i >= |n.destinations| {
      var links := Addresses(n.destinations);
      assert keeps ==> visited == links[..i] == links;
      assert ReinstateAll(n, i, polls).0.log == head + Reinstated(visited) + [Listed(links)];
    } else {
      var a := n.destinations[i].address;
      assert keeps ==> visited + [a] == Addresses(n.destinations)[..i + 1];
      AwaitLog(Note(n, Subscribed(a)), i, a, polls, head, visited, keeps, lost);
    }
  }

  lemma {:induction false} AwaitLog(
    n: Net, i: nat, a: Address, polls: seq<Poll>, head: seq<Entry>, visited: seq<Address>, keeps: bool,
    lost: Option<Address>)
    requires n.log == head + Reinstated(visited) + [Subscribed(a)] && i == |visited|
    requires keeps ==> i < |n.destinations| && visited + [a] == Addresses(n.destinations)[..i + 1]
    requires keeps ==> Forward(i, |n.destinations|, polls)
    requires IsLost(lost, visited + [a], n.destinations, polls)
    ensures var (n', o) := AwaitActive(n, i, a, polls); EndsVisit(head, keeps, lost, n', o)
    decreases |polls|, 0
  {
    NoSetReinstated(head, visited);
    if polls == [] {
    } else {
      var n1 := n.(destinations := Apply(n.destinations, polls[0].changes));
      ApplyCounts(n.destinations, polls[0].changes);
      if keeps { PrefixStays(n.destinations, polls[0].changes, i); }
      if lost.Some? { StaysGone(n.destinations, polls[0].changes, lost.value); }
      if polls[0].answer.Active? {
        ActiveLog(n1, a, head, visited);
        ReinstateLog(Note(n1, BecameActive(a)), i + 1, polls[1..], head, visited + [a], keeps, lost);
      } else if polls[0].answer.Pending? {
        AwaitLog(n1, i, a, polls[1..], head, visited, keeps, lost);
      }
    }
  }

  lemma PrefixStays(ds: seq<Destination>, changes: seq<Edit>, i: nat)
    requires i < |ds| && NoneBefore(i, |ds|, changes)
    ensures i < |Apply(ds, changes)| && Addresses(Apply(ds, changes))[..i + 1] == Addresses(ds)[..i + 1]
  {
    LaterKeepsPrefix(ds, changes, i);
    var ds1 := Apply(ds, changes);
    forall j | 0 <= j <= i ensures Addresses(ds1)[j] == Addresses(ds)[j] {
      assert ds1[..i + 1][j] == ds[..i + 1][j];
    }
  }

  /** A reinstatement during which one is removed at or before the awaited one ends apart from what is recorded. */
  ghost predicate EndsApart(head: seq<Entry>, n: Net, o: Attempted) {
    o.Succeeded? ==>
      exists visited, links :: n.log == head + Reinstated(visited) + [Listed(links)] && Apart(visited, links)
  }

  lemma LostEndsApart(head: seq<Entry>, x: Address, n: Net, o: Attempted)
    requires EndsVisit(head, false, Some(x), n, o)
    ensures EndsApart(head, n, o)
  {
    if o.Succeeded? {
      var visited, links :| n.log == head + Reinstated(visited) + [Listed(links)] && x in visited && x !in links;
      assert Apart(visited, links);
    }
  }

  lemma {:induction false} BackwardLog(
    n: Net, i: nat, a: Address, polls: seq<Poll>, head: seq<Entry>, visited: seq<Address>)
    requires n.log == head + Reinstated(visited) + [Subscribed(a)] && i == |visited|
    requires i < |n.destinations| && visited + [a] == Addresses(n.destinations)[..i + 1]
    requires Distinct(Addresses(n.destinations) + AddedIn(polls)) && !Forward(i, |n.destinations|, polls)
    ensures var (n', o) := AwaitActive(n, i, a, polls); EndsApart(head, n', o)
    decreases |polls|
  {
    var changes := polls[0].changes;
    var n1 := n.(destinations := Apply(n.destinations, changes));
    ApplyCounts(n.destinations, changes);
    DistinctAfter(n.destinations, changes, AddedIn(polls[1..]));
    if NoneBefore(i, |n.destinations|, changes) {
      PrefixStays(n.destinations, changes, i);
      if polls[0].answer.Active? {
        ActiveGoesOn(n1, i, a, polls[1..], head, visited);
        var b := n1.destinations[i + 1].address;
        BackwardLog(Note(Note(n1, BecameActive(a)), Subscribed(b)), i + 1, b, polls[1..], head, visited + [a]);
      } else {
        BackwardLog(n1, i, a, polls[1..], head, visited);
      }
    } else {
      var x := LosesOne(n.destinations, changes, AddedIn(polls[1..]), i);
      if polls[0].answer.Active? {
        LostByActive(n1, i, a, polls[1..], head, visited, x);
      } else if polls[0].answer.Pending? {
        LostByPending(n1, i, a, polls[1..], head, visited, x);
      }
    }
  }

  /** From an active link on to the next. */
  lemma ActiveGoesOn(n: Net, i: nat, a: Address, polls: seq<Poll>, head: seq<Entry>, visited: seq<Address>)
    requires n.log == head + Reinstated(visited) + [Subscribed(a)] && i == |visited|
    requires i + 1 < |n.destinations| && visited + [a] == Addresses(n.destinations)[..i + 1]
    ensures
      var b := n.destinations[i + 1].address;
      var n2 := Note(Note(n, BecameActive(a)), Subscribed(b));
      && n2.log == head + Reinstated(visited + [a]) + [Subscribed(b)]
      && visited + [a] + [b] == Addresses(n2.destinations)[..i + 2]
      && ReinstateAll(Note(n, BecameActive(a)), i + 1, polls) == AwaitActive(n2, i + 1, b, polls)
  {
    ActiveLog(n, a, head, visited);
  }

  /** After the changes of a poll have taken `x` away. */
  lemma LostByActive(n: Net, i: nat, a: Address, polls: seq<Poll>, head: seq<Entry>, visited: seq<Address>, x: Address)
    requires n.log == head + Reinstated(visited) + [Subscribed(a)] && i == |visited|
    requires IsLost(Some(x), visited + [a], n.destinations, polls)
    ensures var (n', o) := ReinstateAll(Note(n, BecameActive(a)), i + 1, polls); EndsApart(head, n', o)
  {
    ActiveLog(n, a, head, visited);
    ReinstateLog(Note(n, BecameActive(a)), i + 1, polls, head, visited + [a], false, Some(x));
    var (n', o) := ReinstateAll(Note(n, BecameActive(a)), i + 1, polls);
    LostEndsApart(head, x, n', o);
  }

  lemma LostByPending(n: Net, i: nat, a: Address, polls: seq<Poll>, head: seq<Entry>, visited: seq<Address>, x: Address)
    requires n.log == head + Reinstated(visited) + [Subscribed(a)] && i == |visited|
    requires IsLost(Some(x), visited + [a], n.destinations, polls)
    ensures var (n', o) := AwaitActive(n, i, a, polls); EndsApart(head, n', o)
  {
    AwaitLog(n, i, a, polls, head, visited, false, Some(x));
    var (n', o) := AwaitActive(n, i, a, polls);
    LostEndsApart(head, x, n', o);
  }

  /** Exactly when: a reinstatement that succeeds has subscribed again all that is recorded at its end, in order and
      nothing else, if no destination was removed at or before the awaited one; and only then, provided that no address
      is recorded twice. */
  lemma ReinstatesAllIff(n: Net, polls: seq<Poll>)
    ensures
      var (n', o) := ReinstateAll(n, 0, polls);
      && Continues(n.log, n'.log)
      && (o.Succeeded? ==>
            exists visited, links ::
              && n'.log == n.log + Reinstated(visited) + [Listed(links)]
              && VisitsAllIff(Addresses(n.destinations), visited, links, polls))
  {
    var count := |n.destinations|;
    assert n.log == n.log + Reinstated([]);
    ReinstateLog(n, 0, polls, n.log, [], AllForward(count, polls), None);
    var (n', o) := ReinstateAll(n, 0, polls);
    if !AllForward(count, polls) && Distinct(Addresses(n.destinations) + AddedIn(polls)) {
      var a := n.destinations[0].address;
      assert n.log + Reinstated([]) + [Subscribed(a)] == Note(n, Subscribed(a)).log;
      assert [] + [a] == Addresses(n.destinations)[..1];
      BackwardLog(Note(n, Subscribed(a)), 0, a, polls, n.log, []);
      if o.Succeeded? {
        var visited, links :| n'.log == n.log + Reinstated(visited) + [Listed(links)] && Apart(visited, links);
        assert VisitsAllIff(Addresses(n.destinations), visited, links, polls);
      }
    } else if o.Succeeded? {
      var visited, links :|
        n'.log == n.log + Reinstated(visited) + [Listed(links)] && (AllForward(count, polls) ==> visited == links);
      assert VisitsAllIff(Addresses(n.destinations), visited, links, polls);
    }
  }

  lemma WholeAtEnd(log: seq<Entry>, i: nat, links0: seq<Address>, visited: seq<Address>, links: seq<Address>)
    ensures
      var all := log + [Opened(i)] + [Connected(i)] + [Listed(links0)] + Reinstated(visited) + [Listed(links)];
      EndsWith(all, Whole(i, links0, visited, links))
  {
    var all := log + [Opened(i)] + [Connected(i)] + [Listed(links0)] + Reinstated(visited) + [Listed(links)];
    assert all == log + Whole(i, links0, visited, links);
  }

  lemma ReachLog(n: Net, i: nat, p: Service)
    ensures
      var n3 := Reach(n, i, p.during);
      var n4 := n3.(destinations := Apply(n3.destinations, p.recorded));
      && List(n4).log == n.log + [Opened(i)] + [Connected(i)] + [Listed(Addresses(n4.destinations))]
      && Continues(n.log, n3.log) && Continues(n.log, List(n4).log)
  {
  }

  lemma TryLog(n: Net, i: nat, ps: seq<Service>)
    requires i < |ps|
    ensures var (n', a) := Try(n, i, ps[i]); Continues(n.log, n'.log) && (a.Succeeded? ==> EndsWhole(n'.log, ps))
  {
    var p := ps[i];
    var n1 := CloseEndPoint(n.(service := Some(i)));
    assert n1.log == n.log || n1.log == n.log + [Closed];
    if !n1.endPoint.Bare? && p.open.None? && p.connect.None? {
      ReachLog(n1, i, p);
      if p.wait.None? {
        var n3 := Reach(n1, i, p.during);
        ReachedLog(n1, i, n3.(destinations := Apply(n3.destinations, p.recorded)), ps);
        ContinuesTransitive(n.log, n1.log, Try(n, i, p).0.log);
      }
    }
  }

  /** From the list that stands when a new messenger has been reached. */
  lemma ReachedLog(n: Net, i: nat, n4: Net, ps: seq<Service>)
    requires i < |ps| && Continues(n.log, List(n4).log)
    requires List(n4).log == n.log + [Opened(i)] + [Connected(i)] + [Listed(Addresses(n4.destinations))]
    ensures
      var (n', a) := ReinstateAll(List(n4), 0, ps[i].polls);
      Continues(n.log, n'.log) && (a.Succeeded? ==> EndsWhole(n'.log, ps))
  {
    var polls, links0 := ps[i].polls, Addresses(n4.destinations);
    ReinstatesAllIff(List(n4), polls);
    var (n', a) := ReinstateAll(List(n4), 0, polls);
    ContinuesTransitive(n.log, List(n4).log, n'.log);
    if a.Succeeded? {
      var visited, links :|
        n'.log == List(n4).log + Reinstated(visited) + [Listed(links)] && VisitsAllIff(links0, visited, links, polls);
      WholeAtEnd(n.log, i, links0, visited, links);
    }
  }

  lemma {:induction false} ConnectFromStartsReinstated(n: Net, ps: seq<Service>, i: nat, from: nat)
    requires i <= |ps| && from <= |n.log| && StartsReinstated(n.log, from, ps)
    ensures StartsReinstated(ConnectFrom(n, ps, i).0.log, from, ps)
    decreases |ps| - i
  {
    if i == |ps| {
    } else {
      TryStarts(n, ps, i, from);
      var (n1, a) := Try(n, i, ps[i]);
      EnsureStarts(n1, a, i + 1 == |ps|, ps[i].beforeEnsure, ps, from);
      var n2 := CloseIfStopped(Meddle(Conclude(n1, a, i + 1 == |ps|), ps[i].beforeEnsure));
      ConnectFromStartsReinstated(Meddle(n2, ps[i].beforeTest), ps, i + 1, from);
    }
  }

  lemma TryStarts(n: Net, ps: seq<Service>, i: nat, from: nat)
    requires i < |ps| && from <= |n.log| && StartsReinstated(n.log, from, ps)
    ensures
      var (n1, a) := Try(n, i, ps[i]);
      && from <= |n1.log| && StartsReinstated(n1.log, from, ps)
      && (a.Succeeded? ==> EndsWhole(n1.log, ps))
  {
    TryLog(n, i, ps);
    ExtendStarts(n.log, Try(n, i, ps[i]).0.log, from, ps);
  }

  lemma EnsureStarts(n: Net, a: Attempted, last: bool, others: Option<State>, ps: seq<Service>, from: nat)
    requires from <= |n.log| && StartsReinstated(n.log, from, ps) && (a.Succeeded? ==> EndsWhole(n.log, ps))
    ensures
      var log := CloseIfStopped(Meddle(Conclude(n, a, last), others)).log;
      from <= |log| && StartsReinstated(log, from, ps)
  {
    ConcludeStarts(n, a, last, ps, from);
    var n2 := Conclude(n, a, last);
    ExtendStarts(n2.log, CloseIfStopped(Meddle(n2, others)).log, from, ps);
  }

  lemma ExtendStarts(log: seq<Entry>, log': seq<Entry>, from: nat, ps: seq<Service>)
    requires StartsReinstated(log, from, ps)
    requires Continues(log, log')
    ensures StartsReinstated(log', from, ps)
  {
    forall k | from <= k < |log'| && log'[k] == Set(Started) ensures EndsWhole(log'[..k], ps) {
      assert log'[k] == log[k] && log'[..k] == log[..k];
    }
  }

  lemma ConcludeStarts(n: Net, a: Attempted, last: bool, ps: seq<Service>, from: nat)
    requires from <= |n.log| && StartsReinstated(n.log, from, ps) && (a.Succeeded? ==> EndsWhole(n.log, ps))
    ensures StartsReinstated(Conclude(n, a, last).log, from, ps)
  {
    var log := Conclude(n, a, last).log;
    forall k | from <= k < |log| && log[k] == Set(Started) ensures EndsWhole(log[..k], ps) {
      assert log[..k] == n.log[..k];
      if k == |n.log| { assert n.log[..k] == n.log; }
    }
  }

  /** Whatever the services answer and the other threads do, :started is set only right after an end point was opened,
      a messenger created for that service, and destinations, in order, subscribed again and seen active on it. These
      are exactly the ones that stand recorded then, unless one was removed at or before the one awaited. */
  lemma StartedOnlyReinstated(n: Net, lookup: Lookup)
    ensures
      StartsReinstated(ConnectToAServer(n, lookup).0.log, |n.log|, if lookup.Services? then lookup.list else [])
  {
    match lookup
    case Services(ps) => if ps != [] { ConnectFromStartsReinstated(Change(n, Starting, None), ps, 0, |n.log|); }
    case _ =>
  }

  /** The first of two destinations is removed while its link is awaited: the second moves to its index and is never
      subscribed on the new messenger, and the client is started. */
  lemma RemovalLeavesOneOut(n: Net, d0: Destination, d1: Destination, p: Service)
    requires Alone(p) && p.open.None? && p.connect.None? && p.wait.None? && p.recorded == []
    requires p.polls == [Poll([Removed(0)], Active)]
    requires n.destinations == [d0, d1] && n.endPoint.Absent?
    ensures var (n', ending) := ConnectToAServer(n, Services([p]));
      && ending == Returned && n'.state == Started && n'.destinations == [d1]
      && n'.log == n.log + ([Set(Starting)] + Whole(0, [d0.address, d1.address], [d0.address], [d1.address])
                            + [Set(Started)])
  {
    var n1 := Change(n, Starting, None);
    var n3 := Reach(CloseEndPoint(n1.(service := Some(0))), 0, p.during);
    var n4 := List(n3);
    assert Apply(n3.destinations, []) == n3.destinations;
    assert n3.(destinations := n3.destinations) == n3;
    assert Addresses([d0, d1]) == [d0.address, d1.address] && Addresses([d1]) == [d1.address];
    var n5 := Note(n4, Subscribed(d0.address));
    assert ReinstateAll(n4, 0, p.polls) == AwaitActive(n5, 0, d0.address, p.polls);
    var changes := [Removed(0)];
    assert Apply([d0, d1], changes) == Apply([d1], changes[1..]) == [d1] by {
      assert [d0, d1][..0] + [d0, d1][1..] == [d1];
    }
    var n6 := Note(n5.(destinations := [d1]), BecameActive(d0.address));
    assert AwaitActive(n5, 0, d0.address, p.polls) == ReinstateAll(n6, 1, p.polls[1..]);
    assert Reinstated([d0.address]) == Reinstated([]) + [Subscribed(d0.address), BecameActive(d0.address)];
    assert Try(n1, 0, p) == (List(n6), Succeeded);
  }

  // ----- The callbacks.

  /** The callback queue tells every change of the state since it was `from`, if a callback is registered. */
  ghost predicate Told(from: State, n: Net) {
    Accounts(n.registered, from, n.callbacks, n.state)
  }

  lemma MeddleTells(from: State, n: Net, to: Option<State>)
    requires Told(from, n)
    ensures Told(from, Meddle(n, to))
  {
    if to.Some? { ChangeKeepsAccount(n.registered, from, n.callbacks, n.state, to.value, None); }
  }

  lemma ChangeTells(from: State, n: Net, to: State, why: Option<Cause>)
    requires Told(from, n)
    ensures Told(from, Change(n, to, why))
  {
    ChangeKeepsAccount(n.registered, from, n.callbacks, n.state, to, why);
  }

  lemma TryTells(from: State, n: Net, i: nat, p: Service)
    requires Told(from, n)
    ensures Told(from, Try(n, i, p).0)
  {
    MeddleTells(from, n, p.during);
    var n1 := CloseEndPoint(n.(service := Some(i)));
    if !n1.endPoint.Bare? && p.open.None? && p.connect.None? {
      var n3 := Reach(n1, i, p.during);
      var n4 := n3.(destinations := Apply(n3.destinations, p.recorded));
      ReinstateOutcome(List(n4), 0, p.polls, |List(n4).log|, 0);
    }
  }

  lemma ConcludeTells(from: State, n: Net, a: Attempted, last: bool)
    requires Told(from, n)
    ensures Told(from, Conclude(n, a, last))
  {
    if a.Succeeded? { ChangeTells(from, n, Started, None); }
    if a.Failed? {
      ChangeTells(from, n, Retrying, Some(a.cause));
      ChangeTells(from, n, Stopped, Some(a.cause));
    }
  }

  lemma {:induction false} ConnectFromTells(from: State, n: Net, ps: seq<Service>, i: nat)
    requires i <= |ps| && Told(from, n)
    ensures Told(from, ConnectFrom(n, ps, i).0)
    decreases |ps| - i
  {
    if i == |ps| {
    } else {
      TryTells(from, n, i, ps[i]);
      var (n1, a) := Try(n, i, ps[i]);
      ConcludeTells(from, n1, a, i + 1 == |ps|);
      MeddleTells(from, Conclude(n1, a, i + 1 == |ps|), ps[i].beforeEnsure);
      var n2 := CloseIfStopped(Meddle(Conclude(n1, a, i + 1 == |ps|), ps[i].beforeEnsure));
      MeddleTells(from, n2, ps[i].beforeTest);
      ConnectFromTells(from, Meddle(n2, ps[i].beforeTest), ps, i + 1);
    }
  }

  /** No change of state is lost or told twice: if the callback queue told every change before a connect, it does so
      after it, the changes by other threads included; without a registered callback it stays empty. */
  lemma CallbacksTellEveryChange(from: State, n: Net, lookup: Lookup)
    requires Accounts(n.registered, from, n.callbacks, n.state)
    ensures var n' := ConnectToAServer(n, lookup).0; Accounts(n'.registered, from, n'.callbacks, n'.state)
  {
    match lookup
    case Services(ps) =>
      ChangeTells(from, n, Starting, None);
      if ps != [] { ConnectFromTells(from, Change(n, Starting, None), ps, 0); }
    case Unreachable(text) => ChangeTells(from, n, Retrying, Some(Cause(NetworkError, text)));
    case Refused(c) => ChangeTells(from, n, Stopped, Some(c));
  }

  // ----- The connection as an object.

  class Connection {
    const threadVars: ThreadVars
    var service: Option<nat>
    var endPoint: EndPoint
    var log: seq<Entry>

    constructor (threadVars: ThreadVars)
      ensures this.threadVars == threadVars && service == None && endPoint == Absent && log == []
    {
      this.threadVars := threadVars;
      service, endPoint, log := None, Absent, [];
    }

    function View(): Net
      reads this, threadVars
    {
      Net(threadVars.state, threadVars.lastStateError, threadVars.hasCallback, threadVars.callbackQueue,
          threadVars.destinations, service, endPoint, log)
    }

    method ChangeState(to: State, why: Option<Cause>)
      modifies this`log, threadVars`state, threadVars`lastStateError, threadVars`callbackQueue
      ensures View() == Change(old(View()), to, why)
    {
      threadVars.ChangeState(to, why);
      log := log + [Set(to)];
    }

    method Others(to: Option<State>)
      modifies threadVars`state, threadVars`lastStateError, threadVars`callbackQueue
      ensures View() == Meddle(old(View()), to)
    {
      match to
      case Some(st) => threadVars.ChangeState(st, None);
      case None =>
    }

    /** What others do to the destinations. */
    method OthersRecord(changes: seq<Edit>)
      modifies threadVars`destinations
      ensures View() == old(View()).(destinations := Apply(old(View()).destinations, changes))
    {
      threadVars.destinations := Apply(threadVars.destinations, changes);
    }

    /** close_end_point unless @end_point.nil?; the result says whether it raises. */
    method CloseTheEndPoint() returns (raises: bool)
      modifies this`endPoint, this`log
      ensures View() == CloseEndPoint(old(View())) && raises == old(endPoint).Bare?
    {
      if endPoint.Bare? { return true; }
      if endPoint.Running? {
        log := log + [Closed];
        endPoint := Absent;
      }
      raises := false;
    }

    /** Subscribes again to the destination at each index in turn, waiting for its link to become active. */
    method ReinstateLinks(polls: seq<Poll>) returns (outcome: Attempted)
      modifies this`log, threadVars`destinations
      ensures (View(), outcome) == ReinstateAll(List(old(View())), 0, polls)
    {
      log := log + [Listed(Addresses(threadVars.destinations))];
      var i, rest := 0, polls;
      while i < |threadVars.destinations|
        invariant ReinstateAll(List(old(View())), 0, polls) == ReinstateAll(View(), i, rest)
        decreases |rest|
      {
        var a := threadVars.destinations[i].address;
        log := log + [Subscribed(a)];
        var active := false;
        ghost var before := |rest|;
        while !active
          invariant ReinstateAll(List(old(View())), 0, polls)
                 == if active then ReinstateAll(View(), i + 1, rest) else AwaitActive(View(), i, a, rest)
          invariant |rest| <= before && (active ==> |rest| < before)
          decreases !active, |rest|
        {
          if rest == [] { return Hung; }
          var poll := rest[0];
          rest := rest[1..];
          OthersRecord(poll.changes);
          if poll.answer.Active? {
            log := log + [BecameActive(a)];
            active := true;
          } else if poll.answer.Errno? {
            return Failed(Cause(SubscribedError, poll.answer.text));
          }
        }
        i := i + 1;
      }
      log := log + [Listed(Addresses(threadVars.destinations))];
      return Succeeded;
    }

    /** One service: its end point, its messenger, the start and the subscriptions. */
    method TryService(i: nat, p: Service) returns (outcome: Attempted)
      modifies this, threadVars`state, threadVars`lastStateError, threadVars`callbackQueue, threadVars`destinations
      ensures (View(), outcome) == Try(old(View()), i, p)
    {
      service := Some(i);
      var raises := CloseTheEndPoint();
      if raises || p.open.Some? {
        Others(p.during);
        return Failed(if raises then NO_THREADS else p.open.value);
      }
      log, endPoint := log + [Opened(i)], Bare;
      if p.connect.Some? {
        Others(p.during);
        return Failed(p.connect.value);
      }
      log, endPoint := log + [Connected(i)], Running;
      Others(p.during);
      if p.wait.Some? { return Failed(p.wait.value); }
      OthersRecord(p.recorded);
      outcome := ReinstateLinks(p.polls);
    }

    method ConcludeAttempt(outcome: Attempted, last: bool)
      modifies this`log, threadVars`state, threadVars`lastStateError, threadVars`callbackQueue
      ensures View() == Conclude(old(View()), outcome, last)
    {
      match outcome
      case Succeeded => ChangeState(Started, None);
      case Failed(c) =>
        if c.error == NetworkError {
          if last { ChangeState(Retrying, Some(c)); }
        } else if Final(c.error) {
          ChangeState(Stopped, Some(c));
        }
      case Hung =>
    }

    method ConnectToServer(lookup: Lookup) returns (ending: Ending)
      modifies this, threadVars`state, threadVars`lastStateError, threadVars`callbackQueue, threadVars`destinations
      ensures (View(), ending) == ConnectToAServer(old(View()), lookup)
    {
      if lookup.Unreachable? {
        ChangeState(Retrying, Some(Cause(NetworkError, lookup.text)));
        return Returned;
      }
      if lookup.Refused? {
        ChangeState(Stopped, Some(lookup.cause));
        return Returned;
      }
      var ps := lookup.list;
      if |ps| > 0 { ChangeState(Starting, None); }
      var left := |ps|;
      for i := 0 to |ps|
        invariant left == |ps| - i
        invariant ConnectToAServer(old(View()), lookup) == ConnectFrom(View(), ps, i)
      {
        left := left - 1;
        var outcome := TryService(i, ps[i]);
        if outcome.Hung? { return StillConnecting; }
        ConcludeAttempt(outcome, left <= 0);
        Others(ps[i].beforeEnsure);
        var raises := false;
        if threadVars.state == Stopped { raises := CloseTheEndPoint(); }
        if raises { return Threw(NO_THREADS); }
        if outcome.Failed? && !IsRescued(outcome.cause.error) { return Threw(outcome.cause); }
        Others(ps[i].beforeTest);
        if threadVars.state == Stopped || threadVars.state == Started { return Returned; }
      }
      return Returned;
    }
  }

  // ----- The pace of reconnects.

  const DEFER_TABLE: seq<nat> := [1, 2, 4, 8, 16, 32, 60]

  /** What an iteration of proton_loop reads. */
  datatype Reading = Reading(state: State, subscriptions: bool, processing: bool)
  {
    predicate Attempts() { WantsConnect(state, subscriptions, processing) }
  }

  function Pow2(k: nat): nat {
    if k == 0 then 1 else 2 * Pow2(k - 1)
  }

  /** How many of the first `n` iterations, counted back from the last of them, have attempted a connect in a row. */
  function Consecutive(rs: seq<Reading>, n: nat): nat
    requires n <= |rs|
  {
    if n == 0 || !rs[n - 1].Attempts() then 0 else 1 + Consecutive(rs, n - 1)
  }

  /** The pause after `k` attempts in a row. */
  function Pause(k: nat): nat {
    if Pow2(k) < 60 then Pow2(k) else 60
  }

  lemma {:induction false} Pow2AtLeast64(k: nat)
    requires k >= 6
    ensures Pow2(k) >= 64
  {
    if k > 6 { Pow2AtLeast64(k - 1); } else { assert Pow2(4) == 16; }
  }

  lemma DeferTableDoubles(k: nat)
    ensures DEFER_TABLE[if k < 6 then k else 6] == Pause(k)
  {
    if k >= 6 { Pow2AtLeast64(k); } else { assert Pow2(3) == 8 && Pow2(5) == 32; }
  }

  /** proton_loop: the pause after k consecutive attempts is min(60, 2^k) seconds, one second after an iteration that
      attempts none, until an iteration finds the client stopped. */
  method ProtonLoop(rs: seq<Reading>) returns (pauses: seq<nat>)
    ensures |pauses| <= |rs|
    ensures forall i :: 0 <= i < |pauses| ==> rs[i].state != Stopped
    ensures |pauses| < |rs| ==> rs[|pauses|].state == Stopped
    ensures forall i :: 0 <= i < |pauses| ==> pauses[i] == Pause(Consecutive(rs, i + 1))
  {
    pauses := [];
    var deferPos := 0;
    var maxDeferIndex := |DEFER_TABLE| - 1;
    ghost var k := 0;
    while |pauses| < |rs| && rs[|pauses|].state != Stopped
      invariant |pauses| <= |rs|
      invariant forall i :: 0 <= i < |pauses| ==> rs[i].state != Stopped
      invariant k == Consecutive(rs, |pauses|)
      invariant deferPos == if k < 6 then k else 6
      invariant forall i :: 0 <= i < |pauses| ==> pauses[i] == Pause(Consecutive(rs, i + 1))
    {
      if rs[|pauses|].Attempts() {
        if deferPos < maxDeferIndex { deferPos := deferPos + 1; }
        k := k + 1;
      } else {
        deferPos := 0;
        k := 0;
      }
      DeferTableDoubles(k);
      assert k == Consecutive(rs, |pauses| + 1);
      pauses := pauses + [DEFER_TABLE[deferPos]];
    }
  }
}
