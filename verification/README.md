# ConnectUi mode state machine, in Dafny

A model of the connection-setup widget `ConnectUi` of a Moneysocket wallet
demo (`src/js/ui/connect.js`). The widget lets the user either generate a
beacon (a shareable connection descriptor) or type one in. It then asks the
host application to connect, and shows one of four modes: ENTER_BEACON,
GENERATED_BEACON, OPERATING or CONNECTED. The connection stack reports
(layer, event) pairs, and the widget routes each pair to at most one mode
switch. Afterwards it forwards the pair to the progress tracker, if one
exists.

The model is functional. The widget's state is an immutable record
(`ConnectUi.UiState`) holding:

- `mode` and `returnMode`, both absent in a new widget and set by `draw()`;
- `stackProgress`, the tracker, reduced to the log of events it was asked to draw;
- `beacon` and `beaconStr`.

Every handler is a pure function from one state to the next. Handlers that
talk to the user or the host return a list of effects: a message shown,
`doConnect(beacon)` or `doDisconnect()`.

Files:

- `wrappers.dfy`: `Option` (for JavaScript's `null`) and `Result`.
- `beacon.dfy` (module `Beacons`): locations and beacons, the default relay
  constants, stripping of the `moneysocket:` prefix, and `getWsUrl` on a
  beacon. The library's bech32 decoder and encoder and `toWsUrl` are treated
  as uninterpreted functions. They are bundled in a `Codec` value that the
  operations take as a parameter.
- `stack_events.dfy` (module `StackEvents`): the `Mode` enum, the layer and
  event names, and the router `Route`.
- `connect_ui.dfy` (module `ConnectUi`): the state record and every handler.
- `connect_ui_properties.dfy` (module `ConnectUiProperties`): an action
  type covering everything that can happen to the widget, runs of actions,
  the invariant every reachable state keeps, and lemmas about the tracker
  and connect attempts.

Three behaviours of the code are easy to miss:

- Switching to GENERATED_BEACON does not regenerate the beacon. Only the
  "Generate Beacon" button does, by calling `generateNewBeacon` before
  `switchMode` (connect.js:171-175, 177-193).
- `switchMode` does not drop the tracker on every call. ENTER_BEACON and
  GENERATED_BEACON set it to null. OPERATING installs a new one. CONNECTED
  leaves it alone, so the tracker made in OPERATING survives into CONNECTED
  and goes on logging (connect.js:152-212).
- The empty-input message is "Please enter beacon string" (connect.js:266).

The invariant (`ConnectUiProperties.Inv`) says:

- a tracker exists only in OPERATING or CONNECTED, and OPERATING always
  has one;
- a tracker's first logged event is always OUTGOING_WEBSOCKET/NEXUS_CREATED;
- the return mode is always one of the two beacon modes, and equals the
  mode while the widget is in one of them;
- while the mode is absent, the return mode and the tracker are absent too;
- `beaconStr` always denotes `beacon`. It is either the beacon's
  serialisation or non-empty text that the decoder maps to the beacon.

## Model

| member | source | states |
|---|---|---|
| Beacons.DefaultBeacon | src/js/ui/connect.js:247-251 | a generated beacon has exactly one location: a websocket location at relay.socket.money, port 443, TLS on |
| Beacons.StripProtocolPrefix | src/js/ui/connect.js:260-264 | the normalised input is a suffix of the raw input; with the prefix present, prefix + result is the input, otherwise the input is kept whole |
| Beacons.StripPrefixed | src/js/ui/connect.js:260-263 | for every text t, "moneysocket:" + t normalises to t, so exactly one prefix is stripped even when t starts with the prefix again |
| Beacons.StripOnlyOnce | src/js/ui/connect.js:261-262 | "moneysocket:moneysocket:" normalises to "moneysocket:", which is not empty |
| Beacons.StripPrefixInsensitive | src/js/ui/connect.js:261-264 | text not starting with the prefix normalises to itself, with or without one prefix in front |
| Beacons.StripEmptyIff | src/js/ui/connect.js:260-265 | the normalised input is empty if and only if the raw input is "" or exactly "moneysocket:" |
| Beacons.WsUrl | src/js/ui/connect.js:295-303 | the URL of the first location when that location is a websocket location; "" when it is another kind of location or when there is no location |
| Beacons.DefaultBeaconWsUrl | src/js/ui/connect.js:296-300 | a freshly generated beacon always yields the URL of the default relay location |
| StackEvents.Route | src/js/ui/connect.js:76-138 | routes to OPERATING iff OUTGOING_WEBSOCKET/NEXUS_CREATED; to ENTER_BEACON iff OUTGOING_WEBSOCKET with NEXUS_REVOKED or NEXUS_DESTROYED; to CONNECTED iff CONSUMER or PROVIDER with NEXUS_ANNOUNCED; never to GENERATED_BEACON; every other pair is left alone |
| StackEvents.RouteIgnoresRendezvousAndUnknownLayers | src/js/ui/connect.js:94-107 | every event on OUTGOING_RENDEZVOUS, and every event on a layer that no case names, causes no mode switch |
| StackEvents.RouteIgnoresUnknownEvents | src/js/ui/connect.js:76-138 | an event name outside the five nexus lifecycle events causes no mode switch on any layer |
| ConnectUi.GenerateNewBeacon | src/js/ui/connect.js:247-254 | the held beacon becomes a default beacon and the held text becomes its serialisation; mode, return mode and tracker are untouched |
| ConnectUi.Init | src/js/ui/connect.js:35-57 | a new widget has no mode, no return mode and no tracker, and holds a one-location default beacon together with its serialisation |
| ConnectUi.SwitchMode | src/js/ui/connect.js:145-212 | the mode becomes the target; ENTER_BEACON and GENERATED_BEACON record themselves as the return mode and drop the tracker; OPERATING installs an empty tracker; CONNECTED keeps both tracker and return mode; the beacon is never touched |
| ConnectUi.Draw | src/js/ui/connect.js:59-72 | drawing opens the widget in ENTER_BEACON with no tracker, keeping the beacon |
| ConnectUi.Record | src/js/ui/connect.js:140-142 | a present log grows by exactly the forwarded event at its end, keeping its earlier entries; an absent one stays absent |
| ConnectUi.PostStackEvent | src/js/ui/connect.js:74-143 | the mode becomes the routed target, or is kept when nothing is routed; NEXUS_CREATED on the websocket leaves a log holding only that event; revoke and destroy leave no tracker and return mode ENTER_BEACON; unrouted and CONNECTED-bound events keep the return mode and append themselves to an existing log only; the beacon never changes |
| ConnectUi.ClickGenerateBeacon | src/js/ui/connect.js:171-175 | the "Generate Beacon" button yields GENERATED_BEACON with no tracker, holding a fresh default beacon and its serialisation |
| ConnectUi.ClickInputBeacon | src/js/ui/connect.js:192-193 | the "Input Beacon" button yields ENTER_BEACON with no tracker and keeps the beacon and its text |
| ConnectUi.AttemptConnectFromEnterBeacon | src/js/ui/connect.js:258-278 | exactly one effect and never a change of mode, return mode or tracker; empty normalised input shows "Please enter beacon string" and changes nothing; a decode failure shows "could not interpret beacon" and changes nothing; a connect request is emitted iff the normalised input is non-empty and decodes, and then it targets the decoded beacon, which is now held together with the normalised text |
| ConnectUi.AttemptConnectFromGeneratedBeacon | src/js/ui/connect.js:280-282 | the state is unchanged and the only effect is a connect request for the held beacon |
| ConnectUi.Disconnect | src/js/ui/connect.js:284-286 | the state is unchanged and the only effect is a disconnect request |
| ConnectUi.GetWsUrl | src/js/ui/connect.js:295-303 | the URL of the held beacon's first location when it is a websocket location, "" otherwise |
| ConnectUiProperties.InitEstablishesInv | src/js/ui/connect.js:35-72 | a new widget, and the same widget once drawn, satisfy the invariant; the drawn widget is in ENTER_BEACON with a one-location default beacon |
| ConnectUiProperties.PostStackEventPreservesInv | src/js/ui/connect.js:74-143 | any stack report, known or unknown, keeps the invariant |
| ConnectUiProperties.ApplyPreservesInv | src/js/ui/connect.js:145-286 | every stack report, button press and draw keeps the invariant |
| ConnectUiProperties.RunPreservesInv | src/js/ui/connect.js:145-212 | every sequence of actions from a state satisfying the invariant ends in a state satisfying it |
| ConnectUiProperties.ReachableStatesKeepInv | src/js/ui/connect.js:35-286 | every state reached from a new widget by any sequence of draws, stack reports and button presses satisfies the invariant |
| ConnectUiProperties.TrackerOnlyWhileConnecting | src/js/ui/connect.js:145-212 | in a state satisfying the invariant a tracker implies OPERATING or CONNECTED, and OPERATING implies a tracker |
| ConnectUiProperties.HostRequestsKeepMode | src/js/ui/connect.js:258-286 | both connect buttons and the disconnect button leave mode, tracker and return mode unchanged; disconnect only emits a disconnect request |
| ConnectUiProperties.ConnectRequestsTargetHeldBeacon | src/js/ui/connect.js:275-282 | every connect request carries the beacon the widget holds after the action |
| ConnectUiProperties.NexusCreatedStartsLog | src/js/ui/connect.js:77-81 | OUTGOING_WEBSOCKET/NEXUS_CREATED from any state gives OPERATING with a log whose only entry is that event, discarding any earlier log |
| ConnectUiProperties.TeardownNeverRecorded | src/js/ui/connect.js:86-91 | websocket revoke or destroy from any state gives ENTER_BEACON with no tracker, so the event is never logged |
| ConnectUiProperties.TrackerSurvivesIntoConnected | src/js/ui/connect.js:206-212 | CONSUMER or PROVIDER NEXUS_ANNOUNCED gives CONNECTED and keeps the existing log, appending the announcement |
| ConnectUiProperties.UnroutedReportsOnlyLog | src/js/ui/connect.js:94-142 | a report that routes nowhere changes nothing except the tracker's log |
| ConnectUiProperties.PastedBeaconConnects | src/js/ui/connect.js:258-278 | "moneysocket:" followed by non-empty text that decodes to b connects to b and holds the text without its prefix |
| ConnectUiProperties.PrefixDoesNotMatter | src/js/ui/connect.js:260-264 | for text not starting with the prefix, typing it with or without one prefix in front has the same outcome |
| ConnectUiProperties.EmptyInputMessageIff | src/js/ui/connect.js:260-268 | the empty-input message is the outcome if and only if the box holds "" or exactly "moneysocket:" |
| ConnectUiProperties.InputBeaconKeepsGeneratedBeacon | src/js/ui/connect.js:171-193 | generating and then pressing "Input Beacon" keeps the generated default beacon, whose URL is the default relay's |
| ConnectUiProperties.ConnectThenDropScenario | src/js/ui/connect.js:74-143 | draw, then websocket NEXUS_CREATED, then CONSUMER NEXUS_ANNOUNCED, then websocket NEXUS_DESTROYED gives these states in turn: ENTER_BEACON without tracker; OPERATING with a one-entry log; CONNECTED with that log extended; ENTER_BEACON without tracker and with the same beacon |

## Left out

- All drawing through `DomUtl`: text, buttons, the input box, the QR code
  and the message area. A message appears only as a `ShowMessage` effect.
  The text typed into the input box is a parameter of
  `AttemptConnectFromEnterBeacon`.
- `copyBeacon` (which writes `beacon_str` to the clipboard and shows a
  message) and the `scanQr` stub (which shows a message). Neither changes
  the modelled state.
- `console.log` and `console.assert`. The assertion on mode names is
  replaced by the `Mode` enum, so a mode name outside `MODES` cannot be
  expressed. No caller in the file passes one.
- The bech32 decoder and encoder and `WebsocketLocation.toWsUrl` of the
  moneysocket library. They are uninterpreted functions in `Codec`, so no
  serialise/parse round trip is claimed.
- The shared seed drawn by `new MoneysocketBeacon()`. Its code is not part
  of this model, so it is a parameter of `GenerateNewBeacon`, `Init` and
  `ClickGenerateBeacon`.
- `StackProgress`, apart from the log of events it is asked to draw.
- The host application's asynchronous work after `doConnect` and
  `doDisconnect`. These appear only as emitted requests.
- Which buttons are visible in which mode. Every handler is modelled as
  callable in every state.
- `getBeacon`, a plain accessor of the `beacon` field.
