/** Properties of the connect widget across actions: the invariant every
    reachable state keeps, what each kind of input may and may not change,
    and the life of the progress tracker. */
module ConnectUiProperties {
  import opened Wrappers
  import opened Beacons
  import opened StackEvents
  import opened ConnectUi

  /** Everything that can happen to a widget: the host drawing it, the stack
      reporting an event, and the user pressing one of its buttons. */
  datatype Action =
    | DrawWidget
    | StackReport(layer: string, event: string)
    | PressGenerateBeacon(seed: Seed)
    | PressInputBeacon
    | PressConnectFromEnterBeacon(input: string)
    | PressConnectFromGeneratedBeacon
    | PressDisconnect

  function Apply(s: UiState, a: Action, codec: Codec): Step {
    match a
    case DrawWidget => Step(Draw(s), [])
    case StackReport(layer, event) => Step(PostStackEvent(s, layer, event), [])
    case PressGenerateBeacon(seed) => Step(ClickGenerateBeacon(s, seed, codec), [])
    case PressInputBeacon => Step(ClickInputBeacon(s), [])
    case PressConnectFromEnterBeacon(input) => AttemptConnectFromEnterBeacon(s, input, codec)
    case PressConnectFromGeneratedBeacon => AttemptConnectFromGeneratedBeacon(s)
    case PressDisconnect => Disconnect(s)
  }

  /** Applies the actions in order, collecting their effects. */
  function Run(s: UiState, actions: seq<Action>, codec: Codec): Step
    decreases |actions|
  {
    if |actions| == 0 then Step(s, [])
    else
      var first := Apply(s, actions[0], codec);
      var rest := Run(first.state, actions[1..], codec);
      Step(rest.state, first.effects + rest.effects)
  }

  /** The held text denotes the held beacon: it is either the beacon's own
      serialisation (a generated beacon) or non-empty text that decodes to
      it (a beacon the user typed in). */
  predicate BeaconDenoted(b: Beacon, text: string, codec: Codec) {
    text == codec.encode(b) || (text != "" && codec.decode(text) == Success(b))
  }

  /** What holds of every state the widget can reach. */
  predicate Inv(s: UiState, codec: Codec) {
    && (s.mode == None ==> s.returnMode == None && s.stackProgress == None)
    && (s.returnMode.Some? ==> s.returnMode.value == EnterBeacon || s.returnMode.value == GeneratedBeacon)
    && (s.mode == Some(EnterBeacon) || s.mode == Some(GeneratedBeacon) ==>
          s.returnMode == s.mode && s.stackProgress == None)
    && (s.mode == Some(Operating) ==> s.stackProgress.Some?)
    && (s.stackProgress.Some? ==>
          |s.stackProgress.value| >= 1 && s.stackProgress.value[0] == StackEvent(OUTGOING_WEBSOCKET, NEXUS_CREATED))
    && BeaconDenoted(s.beacon, s.beaconStr, codec)
  }

  lemma InitEstablishesInv(seed: Seed, codec: Codec)
    ensures Inv(Init(seed, codec), codec)
    ensures Inv(Draw(Init(seed, codec)), codec)
    ensures Draw(Init(seed, codec)).mode == Some(EnterBeacon)
    ensures Draw(Init(seed, codec)).beacon.locations == [DEFAULT_LOCATION]
  {
  }

  lemma PostStackEventPreservesInv(s: UiState, layer: string, event: string, codec: Codec)
    requires Inv(s, codec)
    ensures Inv(PostStackEvent(s, layer, event), codec)
  {
  }

  lemma ApplyPreservesInv(s: UiState, a: Action, codec: Codec)
    requires Inv(s, codec)
    ensures Inv(Apply(s, a, codec).state, codec)
  {
    match a
    case StackReport(layer, event) => PostStackEventPreservesInv(s, layer, event, codec);
    case _ =>
  }

  /** Every state reached by a run from a state that keeps the invariant
      keeps it too. */
  lemma {:induction false} RunPreservesInv(s: UiState, actions: seq<Action>, codec: Codec)
    requires Inv(s, codec)
    ensures Inv(Run(s, actions, codec).state, codec)
    decreases |actions|
  {
    if |actions| > 0 {
      ApplyPreservesInv(s, actions[0], codec);
      RunPreservesInv(Apply(s, actions[0], codec).state, actions[1..], codec);
    }
  }

  /** Every state reachable from a new widget, by any sequence of draws,
      stack reports and button presses, keeps the invariant. */
  lemma ReachableStatesKeepInv(seed: Seed, actions: seq<Action>, codec: Codec)
    ensures Inv(Run(Init(seed, codec), actions, codec).state, codec)
  {
    InitEstablishesInv(seed, codec);
    RunPreservesInv(Init(seed, codec), actions, codec);
  }

  /** In a reachable state a tracker exists exactly in OPERATING, and in
      CONNECTED when one was carried over from OPERATING: a tracker implies
      one of those modes, and OPERATING implies a tracker. */
  lemma TrackerOnlyWhileConnecting(s: UiState, codec: Codec)
    requires Inv(s, codec)
    ensures s.stackProgress.Some? ==> s.mode == Some(Operating) || s.mode == Some(Connected)
    ensures s.mode == Some(Operating) ==> s.stackProgress.Some?
  {
    if s.stackProgress.Some? {
      assert s.mode.Some? && s.mode.value != EnterBeacon && s.mode.value != GeneratedBeacon;
    }
  }

  /** The buttons that talk to the host never move the widget: the mode, the
      tracker and the return mode stay as they were, and only a later stack
      report can change the mode. */
  lemma HostRequestsKeepMode(s: UiState, a: Action, codec: Codec)
    requires a.PressConnectFromEnterBeacon? || a.PressConnectFromGeneratedBeacon? || a.PressDisconnect?
    ensures Apply(s, a, codec).state.mode == s.mode
    ensures Apply(s, a, codec).state.stackProgress == s.stackProgress
    ensures Apply(s, a, codec).state.returnMode == s.returnMode
    ensures a.PressDisconnect? ==> Apply(s, a, codec).effects == [RequestDisconnect]
  {
  }

  /** Every connect request names the beacon the widget holds afterwards. */
  lemma ConnectRequestsTargetHeldBeacon(s: UiState, a: Action, codec: Codec)
    ensures var step := Apply(s, a, codec);
            forall e :: e in step.effects && e.RequestConnect? ==> e.target == step.state.beacon
  {
    var step := Apply(s, a, codec);
    match a
    case PressConnectFromEnterBeacon(input) =>
      assert step.effects == [step.effects[0]];
    case PressConnectFromGeneratedBeacon =>
    case PressDisconnect =>
    case _ =>
      assert step.effects == [];
  }

  /** NEXUS_CREATED on the outgoing websocket starts a fresh log holding
      exactly that event, whatever was logged before. */
  lemma NexusCreatedStartsLog(s: UiState)
    ensures PostStackEvent(s, OUTGOING_WEBSOCKET, NEXUS_CREATED).mode == Some(Operating)
    ensures PostStackEvent(s, OUTGOING_WEBSOCKET, NEXUS_CREATED).stackProgress ==
              Some([StackEvent(OUTGOING_WEBSOCKET, NEXUS_CREATED)])
  {
  }

  /** Revoke and destroy on the outgoing websocket drop the tracker before
      forwarding, so they are never recorded. */
  lemma TeardownNeverRecorded(s: UiState, event: string)
    requires event == NEXUS_REVOKED || event == NEXUS_DESTROYED
    ensures PostStackEvent(s, OUTGOING_WEBSOCKET, event).mode == Some(EnterBeacon)
    ensures PostStackEvent(s, OUTGOING_WEBSOCKET, event).stackProgress == None
  {
  }

  /** Reaching CONNECTED keeps the tracker made in OPERATING and appends the
      announcing event to it. */
  lemma TrackerSurvivesIntoConnected(s: UiState, layer: string, log: seq<StackEvent>)
    requires layer == CONSUMER || layer == PROVIDER
    requires s.stackProgress == Some(log)
    ensures PostStackEvent(s, layer, NEXUS_ANNOUNCED).mode == Some(Connected)
    ensures PostStackEvent(s, layer, NEXUS_ANNOUNCED).stackProgress ==
              Some(log + [StackEvent(layer, NEXUS_ANNOUNCED)])
  {
  }

  /** Reports that route nowhere change nothing but the tracker's log. */
  lemma UnroutedReportsOnlyLog(s: UiState, layer: string, event: string)
    requires Route(layer, event) == None
    ensures PostStackEvent(s, layer, event).(stackProgress := s.stackProgress) == s
  {
  }

  /** Pasting "moneysocket:" in front of any non-empty text the library
      decodes connects to the decoded beacon and keeps the text without its
      prefix, even when the text itself starts with the prefix. */
  lemma PastedBeaconConnects(s: UiState, text: string, b: Beacon, codec: Codec)
    requires text != "" && codec.decode(text) == Success(b)
    ensures AttemptConnectFromEnterBeacon(s, PROTOCOL_PREFIX + text, codec) ==
              Step(s.(beacon := b, beaconStr := text), [RequestConnect(b)])
  {
    StripPrefixed(text);
  }

  /** Text that does not start with the prefix behaves the same with or
      without one prefix in front of it. */
  lemma PrefixDoesNotMatter(s: UiState, text: string, codec: Codec)
    requires !(PROTOCOL_PREFIX <= text)
    ensures AttemptConnectFromEnterBeacon(s, PROTOCOL_PREFIX + text, codec) ==
              AttemptConnectFromEnterBeacon(s, text, codec)
  {
    StripPrefixInsensitive(text);
  }

  /** The empty box and the bare prefix are the only inputs answered with
      the empty-input message. */
  lemma EmptyInputMessageIff(s: UiState, input: string, codec: Codec)
    ensures AttemptConnectFromEnterBeacon(s, input, codec).effects == [ShowMessage(EMPTY_INPUT_MESSAGE)] <==>
              input == "" || input == PROTOCOL_PREFIX
  {
    StripEmptyIff(input);
  }

  /** Switching modes through the user's buttons after generating keeps the
      generated beacon: "Input Beacon" does not regenerate it. */
  lemma InputBeaconKeepsGeneratedBeacon(s: UiState, seed: Seed, codec: Codec)
    ensures ClickInputBeacon(ClickGenerateBeacon(s, seed, codec)).beacon == DefaultBeacon(seed)
    ensures GetWsUrl(ClickInputBeacon(ClickGenerateBeacon(s, seed, codec)), codec) == codec.wsUrl(DEFAULT_LOCATION)
  {
  }

  /** A connection that comes up and then goes down: the widget opens in
      ENTER_BEACON, moves to OPERATING with a one-entry log, to CONNECTED
      with the log kept, and back to ENTER_BEACON without a tracker. */
  lemma ConnectThenDropScenario(seed: Seed, codec: Codec)
    ensures var s0 := Draw(Init(seed, codec));
            var s1 := PostStackEvent(s0, OUTGOING_WEBSOCKET, NEXUS_CREATED);
            var s2 := PostStackEvent(s1, CONSUMER, NEXUS_ANNOUNCED);
            var s3 := PostStackEvent(s2, OUTGOING_WEBSOCKET, NEXUS_DESTROYED);
            && s0.mode == Some(EnterBeacon) && s0.stackProgress == None
            && s1.mode == Some(Operating)
            && s1.stackProgress == Some([StackEvent(OUTGOING_WEBSOCKET, NEXUS_CREATED)])
            && s2.mode == Some(Connected)
            && s2.stackProgress == Some([StackEvent(OUTGOING_WEBSOCKET, NEXUS_CREATED),
                                         StackEvent(CONSUMER, NEXUS_ANNOUNCED)])
            && s3.mode == Some(EnterBeacon) && s3.stackProgress == None
            && s3.beacon == s0.beacon
  {
    var s0 := Draw(Init(seed, codec));
    var s1 := PostStackEvent(s0, OUTGOING_WEBSOCKET, NEXUS_CREATED);
    NexusCreatedStartsLog(s0);
    var s2 := PostStackEvent(s1, CONSUMER, NEXUS_ANNOUNCED);
    TrackerSurvivesIntoConnected(s1, CONSUMER, s1.stackProgress.value);
    assert [StackEvent(OUTGOING_WEBSOCKET, NEXUS_CREATED)] + [StackEvent(CONSUMER, NEXUS_ANNOUNCED)] ==
           [StackEvent(OUTGOING_WEBSOCKET, NEXUS_CREATED), StackEvent(CONSUMER, NEXUS_ANNOUNCED)];
    TeardownNeverRecorded(s2, NEXUS_DESTROYED);
  }
}
