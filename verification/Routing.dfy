/**
  Destinations: how the endpoint's prefixes are normalised, which destinations a
  client may SEND to, and which bus channel a destination stands for.
  Sources: stompserver/config.go and the pure parts of bus/fabric_endpoint.go.
 */
module Routing {
  import opened Options

  const INTERNAL_CHANNEL_PREFIX := "_transportInternal/"

  datatype EndpointConfig = EndpointConfig(
    topicPrefix: string,
    userQueuePrefix: string,
    appRequestPrefix: string,
    appRequestQueuePrefix: string,
    heartbeat: int)

  /** A request extracted from a SEND destination. */
  datatype Route = Route(channel: string, isPrivate: bool)

  predicate HasSuffix(s: string, t: string) {
    |t| <= |s| && s[|s| - |t|..] == t
  }

  function AddPrefixIfNotEmpty(s: string, suffix: string): string {
    if s != "" && !HasSuffix(s, suffix) then s + suffix else s
  }

  function Normalise(c: EndpointConfig): EndpointConfig {
    EndpointConfig(
      AddPrefixIfNotEmpty(c.topicPrefix, "/"),
      AddPrefixIfNotEmpty(c.userQueuePrefix, "/"),
      AddPrefixIfNotEmpty(c.appRequestPrefix, "/"),
      AddPrefixIfNotEmpty(c.appRequestQueuePrefix, "/"),
      c.heartbeat)
  }

  /** The prefixes `newFabricEndpoint` hands to the STOMP server. */
  function AppPrefixes(c: EndpointConfig): seq<string> {
    [c.appRequestPrefix, c.appRequestQueuePrefix]
  }

  /** The channel a subscription destination resolves to. */
  function ChannelOf(c: EndpointConfig, destination: string): Option<string> {
    if c.topicPrefix <= destination then Some(destination[|c.topicPrefix|..])
    else if c.userQueuePrefix != "" && c.userQueuePrefix <= destination then
      Some(destination[|c.userQueuePrefix|..])
    else None
  }

  predicate IsProtected(channel: string) {
    INTERNAL_CHANNEL_PREFIX <= channel
  }

  /** The prefix tests of `bridgeMessage`; `None` is its silent return. */
  function RouteOf(c: EndpointConfig, destination: string): Option<Route> {
    if c.appRequestQueuePrefix != "" && c.appRequestQueuePrefix <= destination then
      Some(Route(destination[|c.appRequestQueuePrefix|..], true))
    else if c.appRequestPrefix != "" && c.appRequestPrefix <= destination then
      Some(Route(destination[|c.appRequestPrefix|..], false))
    else None
  }

  /** Some non-empty prefix of the list starts the destination. */
  predicate Accepts(prefixes: seq<string>, destination: string) {
    exists i :: 0 <= i < |prefixes| && prefixes[i] != "" && prefixes[i] <= destination
  }

  predicate EndsInSlash(s: string) { s != "" && s[|s| - 1] == '/' }

  /** Nothing is stored for nothing; anything else is stored with one slash at its end, added if missing. */
  predicate IsSlashed(given: string, stored: string) {
    && (given == "" ==> stored == "")
    && (given != "" ==>
          && EndsInSlash(stored) && given <= stored && |stored| <= |given| + 1
          && (stored == given <==> EndsInSlash(given)))
  }

  lemma SlashIsAdded(s: string)
    ensures IsSlashed(s, AddPrefixIfNotEmpty(s, "/"))
    ensures forall t :: IsSlashed(s, t) ==> t == AddPrefixIfNotEmpty(s, "/")
  {
    if s != "" {
      assert HasSuffix(s, "/") <==> EndsInSlash(s) by {
        assert s[|s| - 1..] == [s[|s| - 1]];
      }
    }
  }

  /** The list `NewStompConfig` stores for the list it is given. */
  ghost predicate Slashed(given: seq<string>, stored: seq<string>) {
    |stored| == |given| && forall i :: 0 <= i < |given| ==> IsSlashed(given[i], stored[i])
  }

  class StompConfig {
    const heartbeat: int
    const appDestPrefix: array<string>

    constructor (heartbeatMs: int, appDestinationPrefix: seq<string>)
      ensures heartbeat == heartbeatMs
      ensures fresh(appDestPrefix)
      ensures Slashed(appDestinationPrefix, appDestPrefix[..])
    {
      var prefixes := new string[|appDestinationPrefix|](_ => "");
      for i := 0 to |appDestinationPrefix|
        invariant forall j :: 0 <= j < i ==> IsSlashed(appDestinationPrefix[j], prefixes[j])
      {
        SlashIsAdded(appDestinationPrefix[i]);
        if appDestinationPrefix[i] != "" && !HasSuffix(appDestinationPrefix[i], "/") {
          prefixes[i] := appDestinationPrefix[i] + "/";
        } else {
          prefixes[i] := appDestinationPrefix[i];
        }
      }
      heartbeat := heartbeatMs;
      appDestPrefix := prefixes;
    }

    method IsAppRequestDestination(destination: string) returns (accepted: bool)
      ensures accepted <==> Accepts(appDestPrefix[..], destination)
    {
      for i := 0 to appDestPrefix.Length
        invariant forall j :: 0 <= j < i ==> !(appDestPrefix[j] != "" && appDestPrefix[j] <= destination)
      {
        if appDestPrefix[i] != "" && appDestPrefix[i] <= destination {
          assert appDestPrefix[..][i] <= destination;
          return true;
        }
      }
      return false;
    }
  }

  /**
    Normalising twice changes nothing, so the second normalisation in
    `NewStompConfig` stores exactly the prefixes the endpoint itself uses.
   */
  lemma NormalisingTwice(raw: EndpointConfig, stored: seq<string>)
    requires Slashed(AppPrefixes(Normalise(raw)), stored)
    ensures Normalise(Normalise(raw)) == Normalise(raw)
    ensures stored == AppPrefixes(Normalise(raw))
  {
    var c := Normalise(raw);
    SlashIsAdded(AppPrefixes(c)[0]);
    SlashIsAdded(AppPrefixes(c)[1]);
    SlashedOnce(raw.topicPrefix);
    SlashedOnce(raw.userQueuePrefix);
    SlashedOnce(raw.appRequestPrefix);
    SlashedOnce(raw.appRequestQueuePrefix);
  }

  /** Every prefix of the endpoint is the given one, ending in a slash unless it is empty. */
  lemma NormalisedPrefixes(raw: EndpointConfig)
    ensures var c := Normalise(raw);
            && IsSlashed(raw.topicPrefix, c.topicPrefix) && IsSlashed(raw.userQueuePrefix, c.userQueuePrefix)
            && IsSlashed(raw.appRequestPrefix, c.appRequestPrefix)
            && IsSlashed(raw.appRequestQueuePrefix, c.appRequestQueuePrefix)
            && c.heartbeat == raw.heartbeat
  {
    SlashIsAdded(raw.topicPrefix);
    SlashIsAdded(raw.userQueuePrefix);
    SlashIsAdded(raw.appRequestPrefix);
    SlashIsAdded(raw.appRequestQueuePrefix);
  }

  /** The prefix of a destination written with a slash between it and the channel. */
  function WithSlash(prefix: string): string { if EndsInSlash(prefix) then prefix else prefix + "/" }

  /**
    For every configuration as given: the topic prefix, a slash and a channel resolve to
    that channel, whether or not the slash was given; likewise for both request prefixes,
    the queue prefix being tried first.
   */
  lemma RawPrefixesResolve(raw: EndpointConfig, ch: string)
    ensures raw.topicPrefix != "" ==> ChannelOf(Normalise(raw), WithSlash(raw.topicPrefix) + ch) == Some(ch)
    ensures raw.appRequestQueuePrefix != "" ==>
              RouteOf(Normalise(raw), WithSlash(raw.appRequestQueuePrefix) + ch) == Some(Route(ch, true))
    ensures var d := WithSlash(raw.appRequestPrefix) + ch;
            raw.appRequestPrefix != ""
            && (raw.appRequestQueuePrefix == "" || !(WithSlash(raw.appRequestQueuePrefix) <= d)) ==>
              RouteOf(Normalise(raw), d) == Some(Route(ch, false))
  {
    NormalisedPrefixes(raw);
    StoredIsWithSlash(raw.topicPrefix, Normalise(raw).topicPrefix);
    StoredIsWithSlash(raw.appRequestPrefix, Normalise(raw).appRequestPrefix);
    StoredIsWithSlash(raw.appRequestQueuePrefix, Normalise(raw).appRequestQueuePrefix);
    ResolvesExactly(Normalise(raw), WithSlash(raw.topicPrefix) + ch, ch);
    RoutesExactly(Normalise(raw), WithSlash(raw.appRequestQueuePrefix) + ch, Route(ch, true));
    RoutesExactly(Normalise(raw), WithSlash(raw.appRequestPrefix) + ch, Route(ch, false));
  }

  lemma StoredIsWithSlash(given: string, stored: string)
    requires IsSlashed(given, stored)
    ensures given != "" ==> stored == WithSlash(given)
  {
    if given != "" && !EndsInSlash(given) {
      assert stored[..|given|] == given && stored[|given|..] == "/";
    }
  }

  /** A destination is the topic prefix and the channel, or else the user-queue prefix and the channel. */
  lemma ResolvesExactly(c: EndpointConfig, destination: string, ch: string)
    ensures ChannelOf(c, destination) == Some(ch) <==>
            || destination == c.topicPrefix + ch
            || (!(c.topicPrefix <= destination) && c.userQueuePrefix != "" && destination == c.userQueuePrefix + ch)
  {
    assert (c.topicPrefix + ch)[|c.topicPrefix|..] == ch && (c.userQueuePrefix + ch)[|c.userQueuePrefix|..] == ch;
  }

  lemma RoutesExactly(c: EndpointConfig, destination: string, r: Route)
    ensures var q, p := c.appRequestQueuePrefix, c.appRequestPrefix;
            RouteOf(c, destination) == Some(r) <==>
            if q != "" && q <= destination then r.isPrivate && destination == q + r.channel
            else !r.isPrivate && p != "" && destination == p + r.channel
  {
    var q, p := c.appRequestQueuePrefix, c.appRequestPrefix;
    assert (q + r.channel)[|q|..] == r.channel && (p + r.channel)[|p|..] == r.channel;
  }

  lemma SlashedOnce(s: string)
    ensures AddPrefixIfNotEmpty(AddPrefixIfNotEmpty(s, "/"), "/") == AddPrefixIfNotEmpty(s, "/")
  {
    assert HasSuffix(s + "/", "/");
  }

  /**
    The SEND filter of a connection and the router of the endpoint accept the same
    destinations, for every configuration and every destination.
   */
  lemma FilterAgreesWithRouter(raw: EndpointConfig, stored: seq<string>, destination: string)
    requires Slashed(AppPrefixes(Normalise(raw)), stored)
    ensures Accepts(stored, destination) <==> RouteOf(Normalise(raw), destination).Some?
  {
    NormalisingTwice(raw, stored);
    var c := Normalise(raw);
    if RouteOf(c, destination).Some? {
      if RouteOf(c, destination).value.isPrivate {
        assert stored[1] == c.appRequestQueuePrefix;
      } else {
        assert stored[0] == c.appRequestPrefix;
      }
    }
  }

  /**
    A routed destination is its prefix followed by the channel, and a request is
    private exactly when the queue prefix matches, also when both prefixes do.
   */
  lemma RouteSplitsDestination(c: EndpointConfig, destination: string)
    requires RouteOf(c, destination).Some?
    ensures var r := RouteOf(c, destination).value;
            && r.isPrivate == (c.appRequestQueuePrefix != "" && c.appRequestQueuePrefix <= destination)
            && destination == (if r.isPrivate then c.appRequestQueuePrefix else c.appRequestPrefix) + r.channel
  {
  }

  /**
    A user-queue destination resolves back to the channel it was built from exactly
    when the topic prefix does not capture it (or is the very same prefix).
   */
  lemma UserQueueResolves(c: EndpointConfig, channel: string)
    requires c.userQueuePrefix != ""
    ensures ChannelOf(c, c.userQueuePrefix + channel) == Some(channel)
       <==> (!(c.topicPrefix <= c.userQueuePrefix + channel) || c.topicPrefix == c.userQueuePrefix)
  {
    var d := c.userQueuePrefix + channel;
    assert d[|c.userQueuePrefix|..] == channel;
    if c.topicPrefix <= d {
      if d[|c.topicPrefix|..] == channel {
        assert |c.topicPrefix| == |c.userQueuePrefix|;
        assert c.topicPrefix == d[..|c.topicPrefix|] == c.userQueuePrefix;
      }
    }
  }
}
