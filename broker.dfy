/** The decisions of the broker's per-connection handler, stated as
    functions over an explicit broker state: the channel group, the
    clientId-to-channel binding table, the "session" attribute of each
    channel, and one ordered log of everything the handler does outward
    (session saves, hand-offs to the message delegating handler, packets
    written, channels closed). */
module Broker {
  import opened Mqtt

  /** One outward action of the handler, in the order it happens. */
  datatype Effect =
    | Saved(session: Session)                                  // sessionService.save
    | Dispatched(channel: ChannelId, message: MqttMessage)     // messageDelegatingHandler.handle
    | Wrote(channel: ChannelId, ack: ConnAck)                  // ctx.writeAndFlush
    | Closed(channel: ChannelId)                               // ctx.close

  datatype BrokerState = BrokerState(
    channels: set<ChannelId>,              // the channel group
    clientMap: map<string, ChannelId>,     // clientId -> its bound channel
    sessions: map<ChannelId, Session>,     // "session" attribute; absent = null
    log: seq<Effect>)

  /** A CONNACK refusing a connection for one of the four reasons the
      handler reports. */
  predicate IsRefusal(ack: ConnAck) {
    && !ack.sessionPresent
    && ack.returnCode.Byte() in {0x01, 0x02, 0x04, 0x05}
  }

  /** The packet exceptionCaught sends for a cause: the first matching
      branch of its type test, or none. */
  function ConnAckFor(cause: Cause): (r: Option<ConnAck>)
    ensures r.Some? ==> IsRefusal(r.value)
    ensures r.None? <==> cause == IoFailure || cause == Unclassified
    ensures cause == IdentifierRejected <==> r == Some(ConnAck(false, RefusedIdentifierRejected))
    ensures cause == UnacceptableProtocolVersion <==> r == Some(ConnAck(false, RefusedUnacceptableProtocolVersion))
    ensures cause == AuthenticationFailure <==> r == Some(ConnAck(false, RefusedBadUserNameOrPassword))
    ensures cause == AuthorizationFailure <==> r == Some(ConnAck(false, RefusedNotAuthorized))
  {
    match cause
    case IdentifierRejected => Some(ConnAck(false, RefusedIdentifierRejected))
    case UnacceptableProtocolVersion => Some(ConnAck(false, RefusedUnacceptableProtocolVersion))
    case AuthenticationFailure => Some(ConnAck(false, RefusedBadUserNameOrPassword))
    case AuthorizationFailure => Some(ConnAck(false, RefusedNotAuthorized))
    case IoFailure => None
    case Unclassified => None
  }

  /** What exceptionCaught does on the wire: at most one packet, then the
      close, which is always last. */
  function CaughtEffects(ch: ChannelId, cause: Cause): (out: seq<Effect>)
    ensures |out| == if ConnAckFor(cause).Some? then 2 else 1
    ensures out[|out| - 1] == Closed(ch)
    ensures ConnAckFor(cause).Some? ==> out[0] == Wrote(ch, ConnAckFor(cause).value)
    ensures forall e | e in out :: !e.Dispatched? && !e.Saved?
  {
    match ConnAckFor(cause)
    case Some(ack) => [Wrote(ch, ack), Closed(ch)]
    case None => [Closed(ch)]
  }

  /** channelActive: the channel joins the group, nothing else moves. */
  function ChannelActive(s: BrokerState, ch: ChannelId): (t: BrokerState)
    ensures ch in t.channels
    ensures t.channels - {ch} == s.channels - {ch}
    ensures t.clientMap == s.clientMap && t.sessions == s.sessions && t.log == s.log
  {
    s.(channels := s.channels + {ch})
  }

  /** Outcome of channelInactive: the new state, or the null session
      dereference that aborts it before anything changes. */
  datatype Teardown = TornDown(after: BrokerState) | NullSession

  /** The session save at teardown: exactly when clearSession is FALSE. */
  function SaveEffects(session: Session): (out: seq<Effect>)
    ensures |out| <= 1
    ensures |out| == 1 <==> session.clearSession == Some(false)
    ensures forall e | e in out :: e == Saved(session)
  {
    if session.clearSession == Some(false) then [Saved(session)] else []
  }

  /** channelInactive: read the session, drop the binding of its clientId
      whatever channel it points at, then save the session when
      clearSession is FALSE. */
  function ChannelInactive(s: BrokerState, ch: ChannelId): (r: Teardown)
    ensures r.NullSession? <==> ch !in s.sessions
    ensures r.TornDown? ==>
      var id, t := s.sessions[ch].clientId, r.after;
      && t.clientMap.Keys == s.clientMap.Keys - {id}
      && (forall k | k in t.clientMap :: t.clientMap[k] == s.clientMap[k])
      && t.log == s.log + SaveEffects(s.sessions[ch])
      && t.channels == s.channels && t.sessions == s.sessions
  {
    if ch !in s.sessions then NullSession
    else
      var session := s.sessions[ch];
      var unbound := s.(clientMap := s.clientMap - {session.clientId});
      TornDown(unbound.(log := unbound.log + SaveEffects(session)))
  }

  /** exceptionCaught: only the log moves. */
  function ExceptionCaught(s: BrokerState, ch: ChannelId, cause: Cause): (t: BrokerState)
    ensures t.channels == s.channels && t.clientMap == s.clientMap && t.sessions == s.sessions
    ensures |t.log| > |s.log| && t.log[..|s.log|] == s.log
    ensures t.log[|s.log|..] == CaughtEffects(ch, cause)
  {
    s.(log := s.log + CaughtEffects(ch, cause))
  }

  /** channelRead0: the dispatch gate. */
  function ChannelRead0(s: BrokerState, ch: ChannelId, msg: MqttMessage): (t: BrokerState)
    ensures msg.decoderResult.IsFailure() ==> t == ExceptionCaught(s, ch, msg.decoderResult.cause)
    ensures msg.decoderResult.IsFailure() ==> forall e | e in t.log[|s.log|..] :: !e.Dispatched?
    ensures !msg.decoderResult.IsFailure() ==> t.log == s.log + [Dispatched(ch, msg)]
    ensures t.channels == s.channels && t.clientMap == s.clientMap && t.sessions == s.sessions
  {
    if msg.decoderResult.IsFailure() then ExceptionCaught(s, ch, msg.decoderResult.cause)
    else s.(log := s.log + [Dispatched(ch, msg)])
  }

  /** The channel's session carries a will message. */
  predicate HasWill(s: BrokerState, ch: ChannelId) {
    ch in s.sessions && s.sessions[ch].willMessage.Some?
  }

  /** userEventTriggered: only an all-idle event acts; it publishes the
      will, if any, through the delegating handler and then closes. */
  function UserEventTriggered(s: BrokerState, ch: ChannelId, evt: UserEvent): (t: BrokerState)
    ensures evt != IdleStateEvent(AllIdle) ==> t == s
    ensures t.channels == s.channels && t.clientMap == s.clientMap && t.sessions == s.sessions
    ensures evt == IdleStateEvent(AllIdle) ==>
      && |t.log| == |s.log| + (if HasWill(s, ch) then 2 else 1)
      && t.log[..|s.log|] == s.log
      && t.log[|t.log| - 1] == Closed(ch)
      && (HasWill(s, ch) ==> t.log[|s.log|] == Dispatched(ch, s.sessions[ch].willMessage.value))
  {
    match evt
    case IdleStateEvent(AllIdle) =>
      var will := if ch in s.sessions then s.sessions[ch].willMessage else None;
      var published := match will
        case Some(msg) => [Dispatched(ch, msg)]
        case None => [];
      s.(log := s.log + published + [Closed(ch)])
    case _ => s
  }

  /** One callback the transport delivers to the handler. */
  datatype Input =
    | Activate(channel: ChannelId)
    | Deactivate(channel: ChannelId)
    | Inbound(channel: ChannelId, message: MqttMessage)
    | Exception(channel: ChannelId, cause: Cause)
    | Event(channel: ChannelId, event: UserEvent)

  /** The state after one callback; a teardown that dereferences a null
      session leaves the state as it was. */
  function Step(s: BrokerState, input: Input): BrokerState {
    match input
    case Activate(ch) => ChannelActive(s, ch)
    case Deactivate(ch) =>
      (match ChannelInactive(s, ch)
       case TornDown(t) => t
       case NullSession => s)
    case Inbound(ch, msg) => ChannelRead0(s, ch, msg)
    case Exception(ch, cause) => ExceptionCaught(s, ch, cause)
    case Event(ch, evt) => UserEventTriggered(s, ch, evt)
  }
}
