/** The four display modes of the connect widget and the router that maps a
    (layer, event) report from the connection stack to at most one mode
    switch (src/js/ui/connect.js:28-32, 74-138). Names stay strings, as in
    the source, so that unknown layers and events can be expressed. */
module StackEvents {
  import opened Wrappers

  /** The members of `MODES` (connect.js:28-32). */
  datatype Mode = EnterBeacon | GeneratedBeacon | Operating | Connected

  const OUTGOING_WEBSOCKET: string := "OUTGOING_WEBSOCKET"
  const OUTGOING_RENDEZVOUS: string := "OUTGOING_RENDEZVOUS"
  const CONSUMER: string := "CONSUMER"
  const PROVIDER: string := "PROVIDER"

  const NEXUS_CREATED: string := "NEXUS_CREATED"
  const NEXUS_WAITING: string := "NEXUS_WAITING"
  const NEXUS_ANNOUNCED: string := "NEXUS_ANNOUNCED"
  const NEXUS_REVOKED: string := "NEXUS_REVOKED"
  const NEXUS_DESTROYED: string := "NEXUS_DESTROYED"

  /** One report from the stack, as recorded by the progress tracker. */
  datatype StackEvent = StackEvent(layer: string, event: string)

  /** The nested switch of `postStackEvent`: the mode to switch to, or None
      when the pair is left alone (every branch that only `break`s, and any
      name matched by no `case`). */
  function Route(layer: string, event: string): (target: Option<Mode>)
    ensures target == Some(Operating) <==>
              layer == OUTGOING_WEBSOCKET && event == NEXUS_CREATED
    ensures target == Some(EnterBeacon) <==>
              layer == OUTGOING_WEBSOCKET && (event == NEXUS_REVOKED || event == NEXUS_DESTROYED)
    ensures target == Some(Connected) <==>
              (layer == CONSUMER || layer == PROVIDER) && event == NEXUS_ANNOUNCED
    ensures target != Some(GeneratedBeacon)
  {
    if layer == OUTGOING_WEBSOCKET then
      if event == NEXUS_CREATED then Some(Operating)
      else if event == NEXUS_WAITING then None
      else if event == NEXUS_ANNOUNCED then None
      else if event == NEXUS_REVOKED then Some(EnterBeacon)
      else if event == NEXUS_DESTROYED then Some(EnterBeacon)
      else None
    else if layer == OUTGOING_RENDEZVOUS then
      None
    else if layer == CONSUMER then
      if event == NEXUS_ANNOUNCED then Some(Connected) else None
    else if layer == PROVIDER then
      if event == NEXUS_ANNOUNCED then Some(Connected) else None
    else
      None
  }

  /** Every report from the rendezvous layer, and every report from an
      unknown layer, is left alone. */
  lemma RouteIgnoresRendezvousAndUnknownLayers(layer: string, event: string)
    requires layer != OUTGOING_WEBSOCKET && layer != CONSUMER && layer != PROVIDER
    ensures Route(layer, event) == None
  {
  }

  /** An event name outside the five lifecycle events never moves the
      widget, whatever the layer. */
  lemma RouteIgnoresUnknownEvents(layer: string, event: string)
    requires event !in {NEXUS_CREATED, NEXUS_WAITING, NEXUS_ANNOUNCED, NEXUS_REVOKED, NEXUS_DESTROYED}
    ensures Route(layer, event) == None
  {
  }
}
