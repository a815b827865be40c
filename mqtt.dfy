/** The MQTT and transport values the broker handler works with: channel
    handles, CONNACK packets and their return codes, decoded messages with
    their decoder outcome, sessions and the transport's user events. */
module Mqtt {

  datatype Option<+T> = None | Some(value: T)

  /** Opaque handle of one transport-level connection. */
  datatype ChannelId = ChannelId(id: nat)

  /** CONNACK return codes, section 3.2.2.3 of MQTT 3.1.1. */
  datatype ConnectReturnCode =
    | ConnectionAccepted
    | RefusedUnacceptableProtocolVersion
    | RefusedIdentifierRejected
    | RefusedServerUnavailable
    | RefusedBadUserNameOrPassword
    | RefusedNotAuthorized
  {
    /** The byte carried on the wire. */
    function Byte(): bv8 {
      match this
      case ConnectionAccepted => 0x00
      case RefusedUnacceptableProtocolVersion => 0x01
      case RefusedIdentifierRejected => 0x02
      case RefusedServerUnavailable => 0x03
      case RefusedBadUserNameOrPassword => 0x04
      case RefusedNotAuthorized => 0x05
    }
  }

  /** A CONNACK packet: the session-present flag and the return code. */
  datatype ConnAck = ConnAck(sessionPresent: bool, returnCode: ConnectReturnCode)

  /** The classes of error cause the handler tells apart, in the order in
      which it tests them; everything else is Unclassified. */
  datatype Cause =
    | IdentifierRejected           // MqttIdentifierRejectedException
    | UnacceptableProtocolVersion  // MqttUnacceptableProtocolVersionException
    | AuthenticationFailure        // AuthenticationException
    | AuthorizationFailure         // AuthorizationException
    | IoFailure                    // IOException (peer reset, broken pipe)
    | Unclassified                 // any other Throwable

  /** Outcome of decoding one inbound unit. */
  datatype DecoderResult = Success | Unfinished | Failure(cause: Cause) {
    predicate IsFailure() { Failure? }
  }

  /** A decoded MQTT control packet; its contents are never inspected by
      the handler, only its decoder outcome. */
  datatype MqttMessage = MqttMessage(packetType: nat, payload: seq<bv8>, decoderResult: DecoderResult)

  /** Per-client state surviving reconnects. clearSession is a boxed
      Boolean in the broker and may be null (None). */
  datatype Session = Session(
    clientId: string,
    clearSession: Option<bool>,
    willMessage: Option<MqttMessage>,
    messageId: nat)

  datatype IdleState = ReaderIdle | WriterIdle | AllIdle

  /** User events the transport pipeline delivers to the handler. */
  datatype UserEvent = IdleStateEvent(state: IdleState) | OtherEvent(name: string)
}
