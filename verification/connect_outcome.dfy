/** In which state a connect leaves the client, by the errors of the look-up and of the services. */
module ConnectOutcomes {
  import opened Wrappers
  import opened Destinations
  import opened ClientState
  import opened ThreadVariables
  import opened Connections

  /** A failed look-up leaves everything but the state, which is :retrying after a network error and :stopped after any
      other failure, with that for a reason; an empty list changes nothing at all. */
  lemma FailedLookUp(n: Net, text: string, cause: Cause)
    ensures
      var (n', ending) := ConnectToAServer(n, Unreachable(text));
      && ending == Returned && n'.state == Retrying && n'.reason == Some(Cause(NetworkError, text))
      && LeavesTheRest(n, n') && TellsOnce(n, n')
    ensures
      var (n', ending) := ConnectToAServer(n, Refused(cause));
      && ending == Returned && n'.state == Stopped && n'.reason == Some(cause)
      && LeavesTheRest(n, n') && TellsOnce(n, n')
    ensures ConnectToAServer(n, Services([])) == (n, Returned)
  {
  }

  /** The service, the end point and the destinations are as they were. */
  predicate LeavesTheRest(n: Net, n': Net) {
    n'.service == n.service && n'.endPoint == n.endPoint && n'.destinations == n.destinations
  }

  /** A registered callback is told the new state with its reason, if the state is new. */
  predicate TellsOnce(n: Net, n': Net) {
    n'.callbacks == n.callbacks
      + if n.registered && n'.state != n.state then [Transition(n'.state, n'.reason)] else []
  }

  /** The attempt fails with `c` in the constructor of the end point, in connect or in the wait for the start. */
  predicate FailsWith(p: Service, c: Cause) {
    || p.open == Some(c)
    || (p.open == None && p.connect == Some(c))
    || (p.open == None && p.connect == None && p.wait == Some(c))
  }

  /** It fails with a network error. */
  predicate LosesNetwork(p: Service) {
    || (p.open.Some? && p.open.value.error == NetworkError)
    || (p.open.None? && p.connect.None? && p.wait.Some? && p.wait.value.error == NetworkError)
  }

  /** The end point that such an attempt leaves: none if it could not be made, one without threads if connect raised. */
  function LeftBy(p: Service): EndPoint {
    if p.open.Some? then Absent else if p.connect.Some? then Bare else Running
  }

  lemma {:induction false} DecisiveAt(ps: seq<Service>, count: nat, i: nat, k: nat)
    requires i <= k <= |ps|
    requires forall j :: i <= j < k ==> IsNetworkFailure(OutcomeOf(ps[j], count))
    requires k < |ps| ==> !IsNetworkFailure(OutcomeOf(ps[k], count))
    ensures FirstDecisive(ps, count, i) == k
    decreases k - i
  {
    if i < k { DecisiveAt(ps, count, i + 1, k); }
  }

  lemma OutcomeIs(p: Service, c: Cause, count: nat)
    requires FailsWith(p, c)
    ensures OutcomeOf(p, count) == Attempted.Failed(c) && EndPointAfter(p) == LeftBy(p)
  {
  }

  predicate IsStoppedFor(n: Net, c: Cause) {
    n.state == Stopped && n.reason == Some(c) && n.endPoint == Absent
  }

  /** When no other thread interferes: after network errors of the services before, a service whose attempt fails with a
      network error leads to the next, and the last one to :retrying; a security error, a takeover or a failed
      subscription stops the client and closes the end point; any other error leaves the loop, with the state still
      :starting. */
  lemma ErrorDecides(n: Net, ps: seq<Service>, k: nat, c: Cause)
    requires k < |ps| && !n.endPoint.Bare? && forall p :: p in ps ==> Alone(p)
    requires forall j :: 0 <= j < k ==> LosesNetwork(ps[j])
    requires FailsWith(ps[k], c) && (c.error == NetworkError ==> k + 1 == |ps|)
    ensures
      var (n', ending) := ConnectToAServer(n, Services(ps));
      && n'.service == Some(k)
      && match c.error
         case NetworkError =>
           ending == Returned && n'.state == Retrying && n'.reason == Some(c) && n'.endPoint == LeftBy(ps[k])
         case SecurityError => ending == Returned && IsStoppedFor(n', c)
         case ReplacedError => ending == Returned && IsStoppedFor(n', c)
         case SubscribedError => ending == Returned && IsStoppedFor(n', c)
         case _ => ending == Threw(c) && n'.state == Starting && n'.endPoint == LeftBy(ps[k])
  {
    var count := |n.destinations|;
    forall j | 0 <= j < k ensures IsNetworkFailure(OutcomeOf(ps[j], count)) {
      OutcomeIs(ps[j], if ps[j].open.Some? then ps[j].open.value else ps[j].wait.value, count);
    }
    OutcomeIs(ps[k], c, count);
    DecisiveAt(ps, count, 0, if c.error == NetworkError then k + 1 else k);
    FailoverIsFirstMatch(n, ps);
  }

  /** A link that reports an error while the links are reinstated stops the client, with that text as the reason, and
      closes the end point; one destination is enough. */
  lemma LinkErrorStops(n: Net, p: Service, d: Destination, pending: seq<Poll>, text: string)
    requires Alone(p) && p.open.None? && p.connect.None? && p.wait.None? && p.recorded == []
    requires n.destinations == [d] && !n.endPoint.Bare?
    requires forall q :: q in pending ==> q == Poll([], Answer.Pending)
    requires p.polls == pending + [Poll([], Errno(text))]
    ensures
      var (n', ending) := ConnectToAServer(n, Services([p]));
      && ending == Returned && n'.state == Stopped && n'.reason == Some(Cause(SubscribedError, text))
      && n'.endPoint == Absent
  {
    var q := Poll([], Errno(text));
    StaysPending(0, 1, pending, [q]);
    assert CountAfter(1, p.recorded) == 1;
    assert OutcomeOf(p, 1) == Attempted.Failed(Cause(SubscribedError, text));
    DecisiveAt([p], 1, 0, 0);
    FailoverIsFirstMatch(n, [p]);
  }

  lemma {:induction false} StaysPending(i: nat, count: nat, pending: seq<Poll>, rest: seq<Poll>)
    requires forall q :: q in pending ==> q == Poll([], Answer.Pending)
    ensures AwaitedOutcome(i, count, pending + rest) == AwaitedOutcome(i, count, rest)
    decreases |pending|
  {
    if pending == [] {
      assert pending + rest == rest;
    } else {
      assert pending[0] in pending && (pending + rest)[0] == pending[0];
      assert (pending + rest)[1..] == pending[1..] + rest;
      assert forall q :: q in pending[1..] ==> q in pending;
      StaysPending(i, count, pending[1..], rest);
    }
  }

  // ----- A stop by another thread.

  /** Another thread stops the client during the attempt or after it, and no other changes its state again before the
      ensure clause. */
  predicate Stops(p: Service) {
    p.beforeEnsure == Some(Stopped) || (p.beforeEnsure == None && p.during == Some(Stopped))
  }

  /** If another thread stops the client during an attempt, and it is the state that the attempt leaves, the search ends
      there: no later service is tried, the end point is closed, and the client stays stopped. */
  lemma StopEndsSearch(n: Net, p: Service, rest: seq<Service>)
    requires !n.endPoint.Bare? && LosesNetwork(p) && rest != []
    requires Stops(p) && p.beforeTest == None
    ensures
      var (n', ending) := ConnectToAServer(n, Services([p] + rest));
      && ending == Returned && n'.state == Stopped && n'.endPoint == Absent && n'.service == Some(0)
      && n'.destinations == n.destinations
  {
    var ps := [p] + rest;
    assert ps[0] == p && |ps| > 1;
    var n0 := Change(n, Starting, None);
    assert ConnectToAServer(n, Services(ps)) == ConnectFrom(n0, ps, 0);
  }

  /** The same when it comes only before the test that ends the loop, where the end point of the attempt is left. */
  lemma LateStopEndsSearch(n: Net, p: Service, rest: seq<Service>)
    requires !n.endPoint.Bare? && LosesNetwork(p) && rest != []
    requires p.during == None && p.beforeEnsure == None && p.beforeTest == Some(Stopped)
    ensures
      var (n', ending) := ConnectToAServer(n, Services([p] + rest));
      && ending == Returned && n'.state == Stopped && n'.endPoint == LeftBy(p) && n'.service == Some(0)
  {
    var ps := [p] + rest;
    assert ps[0] == p && |ps| > 1;
    var n0 := Change(n, Starting, None);
    assert ConnectToAServer(n, Services(ps)) == ConnectFrom(n0, ps, 0);
  }

  /** If the attempt has left an end point without threads, closing it raises instead, and the end point stays. */
  lemma StopRaisesOverBareEndPoint(n: Net, p: Service, rest: seq<Service>)
    requires !n.endPoint.Bare? && p.open.None? && p.connect.Some? && Stops(p)
    ensures
      var (n', ending) := ConnectToAServer(n, Services([p] + rest));
      && ending == Threw(NO_THREADS) && n'.state == Stopped && n'.endPoint == Bare && n'.service == Some(0)
  {
    var ps := [p] + rest;
    assert ps[0] == p;
    var n0 := Change(n, Starting, None);
    assert ConnectToAServer(n, Services(ps)) == ConnectFrom(n0, ps, 0);
  }
}
