/** The subscriptions of a client: lib/mqlight/destination.rb. */
module Destinations {
  import opened Wrappers
  import opened Text

  type Address = string

  const QOS_AT_MOST_ONCE: int := 0
  const QOS_AT_LEAST_ONCE: int := 1
  const MAX_TTL: int := 4_294_967_295

  datatype Options = Options(share: Option<string>, qos: Option<int>, ttl: Option<int>, autoConfirm: Option<bool>)

  datatype ArgumentError = NegativeTtl | InvalidQos | ColonInShare

  datatype Destination = Destination(
    address: Address, topicPattern: string, share: Option<string>, qos: int, ttl: nat, autoConfirm: bool)
  {
    predicate Match(pattern: string, s: Option<string>) {
      topicPattern == pattern && share == s
    }
  }

  /** The part of the address that tells shared and private destinations apart. */
  function UriShare(share: Option<string>): string {
    match share
    case Some(name) => "share:" + name + ":"
    case None => "private:"
  }

  function GetOr<T>(o: Option<T>, default: T): T {
    if o.Some? then o.value else default
  }

  /** Destination#initialize, after the checks on the Ruby types of its arguments. */
  function New(service: string, pattern: string, o: Options): (r: Result<Destination, ArgumentError>)
    ensures r.Ok? <==>
              && (o.ttl.Some? ==> o.ttl.value >= 0)
              && (o.qos.Some? ==> o.qos.value == 0 || o.qos.value == 1)
              && (o.share.Some? ==> ':' !in o.share.value)
    ensures r.Ok? ==> r.value.Match(pattern, o.share) && r.value.ttl <= 4_294_967
  {
    if o.ttl.Some? && o.ttl.value < 0 then Err(NegativeTtl)
    else
      var ttl := if o.ttl.None? then 0 else if o.ttl.value > MAX_TTL then MAX_TTL else o.ttl.value;
      var qos := GetOr(o.qos, QOS_AT_MOST_ONCE);
      if qos != QOS_AT_MOST_ONCE && qos != QOS_AT_LEAST_ONCE then Err(InvalidQos)
      else if o.share.Some? && ':' in o.share.value then Err(ColonInShare)
      else
        Ok(Destination(service + "/" + UriShare(o.share) + pattern, pattern, o.share, qos, ttl / 1000,
                       GetOr(o.autoConfirm, true)))
  }

  /** What a new destination has: a private or a shared address on its service, by default at most once, auto-confirmed
      and without a time to live; a time to live is given in milliseconds, cut to 32 bits and kept in whole seconds. The
      first of the arguments that is wrong is told. */
  lemma NewDestination(service: string, pattern: string, o: Options)
    ensures
      match New(service, pattern, o)
      case Err(NegativeTtl) => o.ttl.Some? && o.ttl.value < 0
      case Err(InvalidQos) => !IsNegative(o.ttl) && o.qos.Some? && o.qos.value !in {0, 1}
      case Err(ColonInShare) => !IsNegative(o.ttl) && (o.qos.Some? ==> o.qos.value in {0, 1})
                                && o.share.Some? && ':' in o.share.value
      case Ok(d) =>
        && d.address == (match o.share
                         case None => service + "/private:" + pattern
                         case Some(name) => service + "/share:" + name + ":" + pattern)
        && d.topicPattern == pattern && d.share == o.share
        && (o.qos == None ==> d.qos == 0) && (o.qos.Some? ==> d.qos == o.qos.value)
        && (o.autoConfirm == None ==> d.autoConfirm) && (o.autoConfirm.Some? ==> d.autoConfirm == o.autoConfirm.value)
        && (o.ttl == None ==> d.ttl == 0)
        && (o.ttl.Some? && o.ttl.value <= 0xFFFF_FFFF ==> 1000 * d.ttl <= o.ttl.value < 1000 * (d.ttl + 1))
        && (o.ttl.Some? && o.ttl.value > 0xFFFF_FFFF ==> d.ttl == 4_294_967)
  {
    var head := service + "/";
    match o.share
    case None => assert head + "private:" == service + "/private:";
    case Some(name) =>
      var prefix := "share:" + name + ":";
      assert head + "share:" == service + "/share:";
      assert head + prefix == service + "/share:" + name + ":";
  }

  predicate IsNegative(ttl: Option<int>) {
    ttl.Some? && ttl.value < 0
  }

  /** The share part and the pattern can be read back from what follows the service address. */
  lemma UriShareCut(s1: Option<string>, p1: string, s2: Option<string>, p2: string)
    requires s1.Some? ==> ':' !in s1.value
    requires s2.Some? ==> ':' !in s2.value
    ensures UriShare(s1) + p1 == UriShare(s2) + p2 <==> s1 == s2 && p1 == p2
  {
    if UriShare(s1) + p1 == UriShare(s2) + p2 {
      var u := UriShare(s1) + p1;
      assert s1.Some? ==> u[0] == 's';
      assert s1.None? ==> u[0] == 'p';
      assert s2.Some? ==> u[0] == 's';
      assert s2.None? ==> u[0] == 'p';
      if s1.Some? {
        assert u[6..] == s1.value + [':'] + p1;
        assert u[6..] == s2.value + [':'] + p2;
        SameCut(s1.value, s2.value, ':', p1, p2);
      } else {
        assert u[8..] == p1;
        assert u[8..] == p2;
      }
    }
  }

  /** Two destinations on one service share an address exactly when each matches the other. */
  lemma AddressesAgreeWithMatch(service: string, p1: string, o1: Options, p2: string, o2: Options)
    requires New(service, p1, o1).Ok? && New(service, p2, o2).Ok?
    ensures
      var d1, d2 := New(service, p1, o1).value, New(service, p2, o2).value;
      d1.address == d2.address <==> d1.Match(d2.topicPattern, d2.share)
  {
    var d1, d2 := New(service, p1, o1).value, New(service, p2, o2).value;
    UriShareCut(o1.share, p1, o2.share, p2);
    var head := service + "/";
    assert d1.address == head + (UriShare(o1.share) + p1);
    assert d2.address == head + (UriShare(o2.share) + p2);
    if d1.address == d2.address {
      assert d1.address[|head|..] == d2.address[|head|..];
    }
  }
}
