/** The handler itself: one object holding the shared channel group, the
    binding table, the channels' session attributes and the outward log,
    whose callbacks update them step by step. Each callback is proved to
    move the object exactly as the matching function of module Broker
    moves a BrokerState. */
module Handler {
  import opened Mqtt
  import opened Broker

  class BrokerHandler {
    var channels: set<ChannelId>
    var clientMap: map<string, ChannelId>
    /** The "session" attribute of each channel, written by the connect
        handler; a channel without an entry has a null attribute. */
    var sessions: map<ChannelId, Session>
    var log: seq<Effect>

    /** The handler's state as a value. */
    function Model(): BrokerState
      reads this
    {
      BrokerState(channels, clientMap, sessions, log)
    }

    /** A fresh broker: empty group, no bindings, nothing done yet. */
    constructor ()
      ensures channels == {} && clientMap == map[] && sessions == map[] && log == []
    {
      channels, clientMap, sessions, log := {}, map[], map[], [];
    }

    method ChannelActive(ch: ChannelId)
      modifies this`channels
      ensures channels == old(channels) + {ch}
      ensures Model() == Broker.ChannelActive(old(Model()), ch)
    {
      channels := channels + {ch};
    }

    /** Returns false when the channel's session is null: the dereference
        fails before the binding table or the log is touched. */
    method ChannelInactive(ch: ChannelId) returns (ok: bool)
      modifies this`clientMap, this`log
      ensures ok <==> ch in sessions
      ensures !ok ==> clientMap == old(clientMap) && log == old(log)
      ensures ok ==> clientMap == old(clientMap) - {sessions[ch].clientId}
      ensures ok ==> log == old(log) + SaveEffects(sessions[ch])
      ensures Broker.ChannelInactive(old(Model()), ch) == if ok then TornDown(Model()) else NullSession
    {
      if ch !in sessions {
        return false;
      }
      var session := sessions[ch];
      clientMap := clientMap - {session.clientId};
      if session.clearSession == Some(false) {
        log := log + [Saved(session)];
      }
      ok := true;
    }

    method ChannelRead0(ch: ChannelId, msg: MqttMessage)
      modifies this`log
      ensures msg.decoderResult.IsFailure() ==> log == old(log) + CaughtEffects(ch, msg.decoderResult.cause)
      ensures !msg.decoderResult.IsFailure() ==> log == old(log) + [Dispatched(ch, msg)]
      ensures Model() == Broker.ChannelRead0(old(Model()), ch, msg)
    {
      if msg.decoderResult.IsFailure() {
        ExceptionCaught(ch, msg.decoderResult.cause);
        return;
      }
      log := log + [Dispatched(ch, msg)];
    }

    method ExceptionCaught(ch: ChannelId, cause: Cause)
      modifies this`log
      ensures log == old(log) + CaughtEffects(ch, cause)
      ensures Model() == Broker.ExceptionCaught(old(Model()), ch, cause)
    {
      var connAck := ConnAckFor(cause);
      if connAck.Some? {
        log := log + [Wrote(ch, connAck.value)];
      }
      log := log + [Closed(ch)];
    }

    method UserEventTriggered(ch: ChannelId, evt: UserEvent)
      modifies this`log
      ensures evt != IdleStateEvent(AllIdle) ==> log == old(log)
      ensures evt == IdleStateEvent(AllIdle) && HasWill(Model(), ch) ==>
        log == old(log) + [Dispatched(ch, sessions[ch].willMessage.value), Closed(ch)]
      ensures evt == IdleStateEvent(AllIdle) && !HasWill(Model(), ch) ==> log == old(log) + [Closed(ch)]
      ensures Model() == Broker.UserEventTriggered(old(Model()), ch, evt)
    {
      if evt.IdleStateEvent? && evt.state == AllIdle {
        var session := if ch in sessions then Some(sessions[ch]) else None;
        if session.Some? && session.value.willMessage.Some? {
          log := log + [Dispatched(ch, session.value.willMessage.value)];
        }
        log := log + [Closed(ch)];
      }
    }
  }
}
