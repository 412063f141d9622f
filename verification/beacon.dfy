/** The beacon held by the connect widget: how a default one is made, how
    user text is normalised before decoding, and how a websocket URL is
    derived from it. The bech32 codec and URL formatting belong to the
    external moneysocket library and are passed in as a `Codec`. */
module Beacons {
  import opened Wrappers

  /** Literal token that may precede a beacon string (src/js/ui/connect.js:14). */
  const PROTOCOL_PREFIX: string := "moneysocket:"

  /** Default relay location of a freshly generated beacon (connect.js:16-18). */
  const DEFAULT_HOST: string := "relay.socket.money"
  const DEFAULT_PORT: int := 443
  const DEFAULT_USE_TLS: bool := true

  /** One connectable endpoint. Only websocket locations are interpreted;
      the library's other location kinds are lumped together. */
  datatype Location =
    | WebsocketLocation(host: string, port: int, useTls: bool)
    | OtherLocation(kind: string)

  /** The shared seed a new beacon carries; drawn inside the library. */
  type Seed = seq<bv8>

  datatype Beacon = Beacon(sharedSeed: Seed, locations: seq<Location>)

  /** The library functions the widget calls but whose code is not modelled:
      `MoneysocketBeacon.fromBech32Str`, `toBech32Str` and
      `WebsocketLocation.toWsUrl`. */
  datatype Codec = Codec(
    decode: string -> Result<Beacon, string>,
    encode: Beacon -> string,
    wsUrl: Location -> string)

  const DEFAULT_LOCATION: Location :=
    WebsocketLocation(DEFAULT_HOST, DEFAULT_PORT, DEFAULT_USE_TLS)

  /** `new MoneysocketBeacon()` followed by one `addLocation` of the default
      relay (connect.js:248-251). */
  function DefaultBeacon(seed: Seed): (b: Beacon)
    ensures |b.locations| == 1
    ensures b.locations[0].WebsocketLocation?
    ensures b.locations[0].host == "relay.socket.money"
    ensures b.locations[0].port == 443 && b.locations[0].useTls
    ensures b.sharedSeed == seed
  {
    Beacon(seed, [DEFAULT_LOCATION])
  }

  /** Removes one leading protocol prefix, if present (connect.js:260-263);
      JavaScript's `startsWith` is the sequence prefix test `<=`. */
  function StripProtocolPrefix(input: string): (r: string)
    ensures PROTOCOL_PREFIX <= input ==> PROTOCOL_PREFIX + r == input
    ensures !(PROTOCOL_PREFIX <= input) ==> r == input
    ensures |r| <= |input| && input[|input| - |r|..] == r
  {
    if PROTOCOL_PREFIX <= input then input[|PROTOCOL_PREFIX|..] else input
  }

  /** A prefixed string loses exactly its first prefix, even when the rest
      starts with the prefix again: at most one prefix is stripped. */
  lemma StripPrefixed(t: string)
    ensures StripProtocolPrefix(PROTOCOL_PREFIX + t) == t
  {
    assert (PROTOCOL_PREFIX + t)[..|PROTOCOL_PREFIX|] == PROTOCOL_PREFIX;
  }

  /** A doubly prefixed string keeps its second prefix. */
  lemma StripOnlyOnce()
    ensures StripProtocolPrefix(PROTOCOL_PREFIX + PROTOCOL_PREFIX) == PROTOCOL_PREFIX
    ensures StripProtocolPrefix(PROTOCOL_PREFIX + PROTOCOL_PREFIX) != ""
  {
    StripPrefixed(PROTOCOL_PREFIX);
  }

  /** Text that does not start with the prefix is passed through unchanged,
      so the prefixed and the bare form of it normalise alike. */
  lemma StripPrefixInsensitive(t: string)
    requires !(PROTOCOL_PREFIX <= t)
    ensures StripProtocolPrefix(PROTOCOL_PREFIX + t) == StripProtocolPrefix(t) == t
  {
    StripPrefixed(t);
  }

  /** Exactly two inputs normalise to the empty string: "" and the bare
      prefix. */
  lemma StripEmptyIff(input: string)
    ensures StripProtocolPrefix(input) == "" <==> input == "" || input == PROTOCOL_PREFIX
  {
    if input == PROTOCOL_PREFIX {
      StripPrefixed("");
      assert PROTOCOL_PREFIX + "" == PROTOCOL_PREFIX;
    }
  }

  /** `getWsUrl` on a beacon (connect.js:295-303): the URL of the first
      location when it is a websocket location, otherwise "". With no
      locations at all, `locations[0]` is `undefined`, which is not a
      `WebsocketLocation` either. */
  function WsUrl(b: Beacon, codec: Codec): (url: string)
    ensures |b.locations| > 0 && b.locations[0].WebsocketLocation? ==>
              url == codec.wsUrl(b.locations[0])
    ensures !(|b.locations| > 0 && b.locations[0].WebsocketLocation?) ==> url == ""
  {
    if |b.locations| == 0 then ""
    else match b.locations[0]
      case WebsocketLocation(_, _, _) => codec.wsUrl(b.locations[0])
      case OtherLocation(_) => ""
  }

  /** A freshly generated beacon always yields the default relay's URL. */
  lemma DefaultBeaconWsUrl(seed: Seed, codec: Codec)
    ensures WsUrl(DefaultBeacon(seed), codec) == codec.wsUrl(WebsocketLocation("relay.socket.money", 443, true))
  {
  }
}
