/** Recovering the topic of a message from its address: lib/mqlight/delivery.rb. */
module Delivery {
  import opened Wrappers
  import opened Text

  const AMQP: string := "amqp://"

  /** The end of a match of %r{amqp://[^/]*\/} that starts at `i`. */
  function MatchEnd(s: string, i: nat): (r: Option<nat>)
    requires i <= |s|
    ensures r.Some? ==> i < r.value <= |s|
  {
    if !StartsWith(s[i..], AMQP) then None
    else
      match IndexFrom(s, '/', i + |AMQP|)
      case Some(k) => Some(k + 1)
      case None => None
  }

  /** The last part of String#partition with that pattern: what follows the leftmost match. */
  function PartitionLast(s: string, i: nat): string
    requires i <= |s|
    decreases |s| - i
  {
    match MatchEnd(s, i)
    case Some(end) => s[end..]
    case None => if i == |s| then "" else PartitionLast(s, i + 1)
  }

  function Topic(address: string): string {
    if StartsWith(address, AMQP) then PartitionLast(address, 0) else address
  }

  /** The address BlockingClient#send gives a message. */
  function SendAddress(service: string, topic: string): string {
    service + "/" + topic
  }

  /** A service address whose topics can be told from it: amqp, and an authority without a slash. */
  predicate PlainService(service: string) {
    StartsWith(service, AMQP) && '/' !in service[|AMQP|..]
  }

  lemma TopicOfPlainService(service: string, topic: string)
    requires PlainService(service)
    ensures Topic(SendAddress(service, topic)) == topic
  {
    var a := SendAddress(service, topic);
    assert a[..|AMQP|] == service[..|AMQP|] == AMQP;
    assert a[0..] == a;
    var k := IndexFrom(a, '/', |AMQP|);
    assert a[|service|] == '/';
    assert a[|service|] == a[|AMQP|..][|service| - |AMQP|];
    assert a[|service| + 1..] == topic;
  }

  /** A message whose address yields its own topic was sent through a plain service, the empty topic aside. */
  lemma PlainServiceFromTopic(service: string, topic: string)
    requires topic != "" && Topic(SendAddress(service, topic)) == topic
    requires '/' !in topic
    ensures PlainService(service)
  {
    var a := SendAddress(service, topic);
    assert |a| > |topic|;
    assert a[0..] == a;
    match IndexFrom(a, '/', |AMQP|) {
      case Some(k) =>
        assert |a[k + 1..]| == |topic|;
        assert k == |service|;
        assert a[..|AMQP|] == service[..|AMQP|];
        assert a[|AMQP|..k] == service[|AMQP|..];
      case None =>
        NoMatchWithoutSlash(a, 0);
        assert false;
    }
  }

  /** No slash after the scheme means no match further right either. */
  lemma {:induction false} NoMatchWithoutSlash(s: string, i: nat)
    requires StartsWith(s, AMQP) && '/' !in s[|AMQP|..] && i <= |s|
    ensures PartitionLast(s, i) == ""
    decreases |s| - i
  {
    assert forall k :: |AMQP| <= k < |s| ==> s[k] == s[|AMQP|..][k - |AMQP|];
    if MatchEnd(s, i).Some? {
      assert false;
    } else if i < |s| {
      NoMatchWithoutSlash(s, i + 1);
    }
  }

  /** Delivery recovers every topic sent through a service exactly when the service address is plain. */
  lemma TopicsRecoveredIffPlain(service: string)
    ensures (forall topic: string :: Topic(SendAddress(service, topic)) == topic) <==> PlainService(service)
  {
    if PlainService(service) {
      forall topic: string ensures Topic(SendAddress(service, topic)) == topic {
        TopicOfPlainService(service, topic);
      }
    }
    if Topic(SendAddress(service, "t")) == "t" {
      PlainServiceFromTopic(service, "t");
    }
  }

  /** Over TLS the service address starts with amqps, and the whole address is reported as the topic. */
  lemma SecureServiceKeepsAddress(authority: string, topic: string)
    ensures var a := SendAddress("amqps://" + authority, topic); Topic(a) == a && Topic(a) != topic
  {
    var a := SendAddress("amqps://" + authority, topic);
    assert a[4] == 's';
    assert AMQP[4] == ':';
    assert |a| > |topic|;
  }
}
