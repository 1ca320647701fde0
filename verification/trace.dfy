/** The client at each tick of a script, and the ticks that lead a request to an attempt. */
module Traces {
  import opened Wrappers
  import opened ClientState
  import opened RequestLoop

  /** The client when the ticks of a script have come, if the command thread does nothing to it. */
  function After(c: Client, s: Script): Client
    decreases |s|
  {
    if s == [] then c else After(Env(c, s[0].events), s[1..])
  }

  /** The client at tick `k`. */
  function At(c: Client, s: Script, k: nat): Client
    requires k < |s|
  {
    After(c, s[..k + 1])
  }

  lemma AtFirst(c: Client, s: Script)
    requires s != []
    ensures At(c, s, 0) == Env(c, s[0].events)
    ensures forall k :: 0 <= k < |s| - 1 ==> At(c, s, k + 1) == At(Env(c, s[0].events), s[1..], k)
  {
    var c1 := Env(c, s[0].events);
    assert s[..1] == [s[0]];
    AfterOne(c, s[0]);
    forall k | 0 <= k < |s| - 1 ensures At(c, s, k + 1) == At(c1, s[1..], k) {
      var t := s[..k + 2];
      assert t[0] == s[0] && t[1..] == s[1..][..k + 1];
      assert After(c, t) == After(c1, t[1..]);
    }
  }

  lemma {:induction false} AfterBoth(c: Client, s: Script, t: Script)
    ensures After(c, s + t) == After(After(c, s), t)
    decreases |s|
  {
    if s == [] {
      assert s + t == t;
    } else {
      assert (s + t)[0] == s[0] && (s + t)[1..] == s[1..] + t;
      AfterBoth(Env(c, s[0].events), s[1..], t);
    }
  }

  lemma AfterOne(c: Client, t: Tick)
    ensures After(c, [t]) == Env(c, t.events)
  {
    assert [t][1..] == [];
    assert After(Env(c, t.events), []) == Env(c, t.events);
  }

  /** The Timeout around a request that is no receive fires. */
  predicate Fires(r: Request, t: Tick) {
    r.timed && t.fires
  }

  predicate Waiting(c: Client) {
    c.state == Retrying || c.state == Starting
  }

  /** Through `w` the request waits for the connection. */
  ghost predicate Waits(c: Client, r: Request, w: Script) {
    forall k :: 0 <= k < |w| ==> Waiting(At(c, w, k)) && (r.op.Receive? || !Fires(r, w[k]))
  }

  /** Through `w` the request waits for the connection, if at all; at `up` the wait is over, and at `go` the client is
      not stopped. */
  ghost predicate Reaches(c: Client, r: Request, w: Script, up: Tick, go: Tick) {
    && Waits(c, r, w)
    && !Waiting(Env(After(c, w), up.events))
    && Env(Env(After(c, w), up.events), go.events).state != Stopped
  }

  /** The client at `go`. */
  function Ready(c: Client, w: Script, up: Tick, go: Tick): Client {
    Env(Env(After(c, w), up.events), go.events)
  }

  lemma {:induction false} WaitGoesOn(c: Client, r: Request, w: Script, rest: Script)
    requires Waits(c, r, w)
    ensures Process(c, r, w + rest) == Process(After(c, w), r, rest)
    decreases |w|
  {
    if w == [] {
      assert w + rest == rest;
    } else {
      var c1 := Env(c, w[0].events);
      AtFirst(c, w);
      assert (w + rest)[0] == w[0] && (w + rest)[1..] == w[1..] + rest;
      forall k | 0 <= k < |w[1..]|
        ensures Waiting(At(c1, w[1..], k)) && (r.op.Receive? || !Fires(r, w[1..][k]))
      {
        assert At(c, w, k + 1) == At(c1, w[1..], k);
      }
      WaitGoesOn(c1, r, w[1..], rest);
    }
  }

  /** The first attempt begins. */
  lemma Begins(c: Client, r: Request, w: Script, up: Tick, go: Tick, rest: Script)
    requires Reaches(c, r, w, up, go)
    ensures Process(c, r, w + [up, go] + rest) == AfterAttempt(Perform(Ready(c, w, up, go), r, rest), r)
  {
    var s1 := [go] + rest;
    var s := [up] + s1;
    assert w + [up, go] + rest == w + s && s[1..] == s1 && s1[1..] == rest;
    WaitGoesOn(c, r, w, s);
    PastTheWait(After(c, w), r, s);
  }

  lemma PastTheWait(c: Client, r: Request, s: Script)
    requires s != [] && !Waiting(Env(c, s[0].events))
    ensures Process(c, r, s) == StoppedCheck(Env(c, s[0].events), r, s[1..])
  {
  }

  /** A request finds the client stopped: it ends, and no reply is pushed. */
  lemma StoppedEnds(c: Client, r: Request, w: Script, up: Tick, go: Tick)
    requires Waits(c, r, w) && !Waiting(Env(After(c, w), up.events)) && Ready(c, w, up, go).state == Stopped
    ensures Process(c, r, w + [up, go]) == Run(Ready(c, w, up, go), [], Halted)
  {
    var s := [up] + [go];
    assert w + [up, go] == w + s && s[1..] == [go] && [go][1..] == [];
    WaitGoesOn(c, r, w, s);
    PastTheWait(After(c, w), r, s);
  }

  /** A request other than a receive that times out while it waits for the connection is answered with that. */
  lemma WaitTimesOut(c: Client, r: Request, w: Script, t: Tick)
    requires Waits(c, r, w) && Waiting(Env(After(c, w), t.events)) && r.timed && t.fires && !r.op.Receive?
    ensures
      var o := Process(c, r, w + [t]);
      && o.out == Rescued(TimeoutError) && o.rest == []
      && o.c == Env(After(c, w), t.events).(replies := c.replies + [Reply(r, Failure(TimeoutError))])
  {
    WaitGoesOn(c, r, w, [t]);
    AfterKeeps(c, w);
    assert [t][1..] == [];
  }

  lemma {:induction false} AfterKeeps(c: Client, s: Script)
    ensures
      var c1 := After(c, s);
      && c1.replies == c.replies && c1.history == c.history && c1.destinations == c.destinations
      && c1.m.gen >= c.m.gen
    decreases |s|
  {
    if s == [] {
    } else {
      AfterKeeps(Env(c, s[0].events), s[1..]);
    }
  }
}
