/** The state machine of `ConnectUi` (src/js/ui/connect.js:34-303) as pure
    transitions over an immutable state record. Drawing is left out; what
    the widget asks of the host application or shows to the user is
    returned as a list of effects. */
module ConnectUi {
  import opened Wrappers
  import opened Beacons
  import opened StackEvents

  const EMPTY_INPUT_MESSAGE: string := "Please enter beacon string"
  const UNPARSEABLE_MESSAGE: string := "could not interpret beacon"

  /** The fields of a `ConnectUi` that carry state. `mode` and `returnMode`
      are null in a new widget; `stackProgress` is the progress
      tracker, reduced to the log of events it has been asked to draw. */
  datatype UiState = UiState(
    mode: Option<Mode>,
    returnMode: Option<Mode>,
    stackProgress: Option<seq<StackEvent>>,
    beacon: Beacon,
    beaconStr: string)

  /** What an action shows to the user or asks of the host application. */
  datatype Effect =
    | ShowMessage(text: string)
    | RequestConnect(target: Beacon)
    | RequestDisconnect

  datatype Step = Step(state: UiState, effects: seq<Effect>)

  /** `generateNewBeacon` (connect.js:247-254): a default beacon replaces the
      held one, together with its serialisation. */
  function GenerateNewBeacon(s: UiState, seed: Seed, codec: Codec): (r: UiState)
    ensures r.beacon == DefaultBeacon(seed)
    ensures r.beaconStr == codec.encode(r.beacon)
    ensures r.mode == s.mode && r.returnMode == s.returnMode
    ensures r.stackProgress == s.stackProgress
  {
    var b := DefaultBeacon(seed);
    s.(beacon := b, beaconStr := codec.encode(b))
  }

  /** The constructor (connect.js:35-57): no mode yet, no tracker, and a
      freshly generated beacon. */
  function Init(seed: Seed, codec: Codec): (r: UiState)
    ensures r.mode == None && r.returnMode == None && r.stackProgress == None
    ensures r.beacon.locations == [WebsocketLocation("relay.socket.money", 443, true)]
    ensures r.beaconStr == codec.encode(r.beacon)
  {
    GenerateNewBeacon(UiState(None, None, None, Beacon(seed, []), ""), seed, codec)
  }

  /** The state part of `switchMode` (connect.js:145-212). Both beacon-facing
      modes record themselves as the return mode and drop the tracker;
      OPERATING installs an empty tracker; CONNECTED touches neither, so a
      tracker made in OPERATING lives on. The beacon is never touched. */
  function SwitchMode(s: UiState, newMode: Mode): (r: UiState)
    ensures r.mode == Some(newMode)
    ensures r.beacon == s.beacon && r.beaconStr == s.beaconStr
    ensures newMode == EnterBeacon || newMode == GeneratedBeacon ==>
              r.returnMode == Some(newMode) && r.stackProgress == None
    ensures newMode == Operating ==>
              r.stackProgress == Some([]) && r.returnMode == s.returnMode
    ensures newMode == Connected ==>
              r.stackProgress == s.stackProgress && r.returnMode == s.returnMode
  {
    match newMode
    case EnterBeacon =>
      s.(mode := Some(EnterBeacon), stackProgress := None, returnMode := Some(EnterBeacon))
    case GeneratedBeacon =>
      s.(mode := Some(GeneratedBeacon), stackProgress := None, returnMode := Some(GeneratedBeacon))
    case Operating =>
      s.(mode := Some(Operating), stackProgress := Some([]))
    case Connected =>
      s.(mode := Some(Connected))
  }

  /** `draw` (connect.js:59-72): the widget opens in ENTER_BEACON. */
  function Draw(s: UiState): (r: UiState)
    ensures r.mode == Some(EnterBeacon) && r.returnMode == Some(EnterBeacon)
    ensures r.stackProgress == None
    ensures r.beacon == s.beacon && r.beaconStr == s.beaconStr
  {
    SwitchMode(s, EnterBeacon)
  }

  /** Hands one stack event to whatever tracker exists. */
  function Record(progress: Option<seq<StackEvent>>, ev: StackEvent): (r: Option<seq<StackEvent>>)
    ensures r.Some? <==> progress.Some?
    ensures r.Some? ==> |r.value| == |progress.value| + 1 && r.value[..|progress.value|] == progress.value
    ensures r.Some? ==> r.value[|progress.value|] == ev
  {
    match progress
    case None => None
    case Some(log) => Some(log + [ev])
  }

  /** `postStackEvent` (connect.js:74-143): route the pair to at most one
      mode switch, then forward it to the tracker present afterwards. */
  function PostStackEvent(s: UiState, layer: string, event: string): (r: UiState)
    ensures Route(layer, event).Some? ==> r.mode == Route(layer, event)
    ensures Route(layer, event).None? ==> r.mode == s.mode
    ensures r.beacon == s.beacon && r.beaconStr == s.beaconStr
    ensures layer == OUTGOING_WEBSOCKET && event == NEXUS_CREATED ==>
              r.stackProgress == Some([StackEvent(layer, event)]) && r.returnMode == s.returnMode
    ensures layer == OUTGOING_WEBSOCKET && (event == NEXUS_REVOKED || event == NEXUS_DESTROYED) ==>
              r.stackProgress == None && r.returnMode == Some(EnterBeacon)
    ensures Route(layer, event) == None || Route(layer, event) == Some(Connected) ==>
              r.returnMode == s.returnMode &&
              (r.stackProgress.Some? <==> s.stackProgress.Some?) &&
              (r.stackProgress.Some? ==> r.stackProgress.value == s.stackProgress.value + [StackEvent(layer, event)])
  {
    var switched := match Route(layer, event)
      case Some(m) => SwitchMode(s, m)
      case None => s;
    switched.(stackProgress := Record(switched.stackProgress, StackEvent(layer, event)))
  }

  /** The "Generate Beacon" button, shown in ENTER_BEACON (connect.js:171-175):
      a new default beacon, then GENERATED_BEACON. */
  function ClickGenerateBeacon(s: UiState, seed: Seed, codec: Codec): (r: UiState)
    ensures r.mode == Some(GeneratedBeacon) && r.returnMode == Some(GeneratedBeacon)
    ensures r.stackProgress == None
    ensures r.beacon == DefaultBeacon(seed) && r.beaconStr == codec.encode(r.beacon)
  {
    SwitchMode(GenerateNewBeacon(s, seed, codec), GeneratedBeacon)
  }

  /** The "Input Beacon" button, shown in GENERATED_BEACON (connect.js:192-193):
      back to ENTER_BEACON with the beacon kept. */
  function ClickInputBeacon(s: UiState): (r: UiState)
    ensures r.mode == Some(EnterBeacon) && r.returnMode == Some(EnterBeacon)
    ensures r.stackProgress == None
    ensures r.beacon == s.beacon && r.beaconStr == s.beaconStr
  {
    SwitchMode(s, EnterBeacon)
  }

  /** `attemptConnectFromEnterBeacon` (connect.js:258-278) on the text typed
      into the input box. Failures show a fixed message and change nothing;
      success adopts the decoded beacon and the stripped text and asks the
      host to connect to it. Mode and tracker are never touched. */
  function AttemptConnectFromEnterBeacon(s: UiState, input: string, codec: Codec): (step: Step)
    ensures step.state.mode == s.mode && step.state.returnMode == s.returnMode
    ensures step.state.stackProgress == s.stackProgress
    ensures |step.effects| == 1
    ensures StripProtocolPrefix(input) == "" ==>
              step == Step(s, [ShowMessage(EMPTY_INPUT_MESSAGE)])
    ensures StripProtocolPrefix(input) != "" && codec.decode(StripProtocolPrefix(input)).Failure? ==>
              step == Step(s, [ShowMessage(UNPARSEABLE_MESSAGE)])
    ensures step.effects[0].RequestConnect? <==>
              StripProtocolPrefix(input) != "" && codec.decode(StripProtocolPrefix(input)).Success?
    ensures step.effects[0].RequestConnect? ==>
              && step.effects[0].target == step.state.beacon
              && step.state.beaconStr == StripProtocolPrefix(input)
              && codec.decode(step.state.beaconStr) == Success(step.state.beacon)
  {
    var beaconStr := StripProtocolPrefix(input);
    if beaconStr == "" then
      Step(s, [ShowMessage(EMPTY_INPUT_MESSAGE)])
    else
      match codec.decode(beaconStr)
      case Failure(_) => Step(s, [ShowMessage(UNPARSEABLE_MESSAGE)])
      case Success(b) => Step(s.(beaconStr := beaconStr, beacon := b), [RequestConnect(b)])
  }

  /** `attemptConnectFromGeneratedBeacon` (connect.js:280-282): ask the host
      to connect to the held beacon; nothing changes. */
  function AttemptConnectFromGeneratedBeacon(s: UiState): (step: Step)
    ensures step.state == s
    ensures step.effects == [RequestConnect(s.beacon)]
  {
    Step(s, [RequestConnect(s.beacon)])
  }

  /** `disconnect` (connect.js:284-286): ask the host to disconnect; the mode
      changes only when the stack later reports it. */
  function Disconnect(s: UiState): (step: Step)
    ensures step.state == s
    ensures step.effects == [RequestDisconnect]
  {
    Step(s, [RequestDisconnect])
  }

  /** `getWsUrl` (connect.js:295-303) on the held beacon. */
  function GetWsUrl(s: UiState, codec: Codec): (url: string)
    ensures |s.beacon.locations| > 0 && s.beacon.locations[0].WebsocketLocation? ==>
              url == codec.wsUrl(s.beacon.locations[0])
    ensures !(|s.beacon.locations| > 0 && s.beacon.locations[0].WebsocketLocation?) ==> url == ""
  {
    WsUrl(s.beacon, codec)
  }
}
