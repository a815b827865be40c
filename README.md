# mqttx broker handler

This project models the per-connection controller of the mqttx MQTT broker,
`BrokerHandler`. It is one handler shared by all connections. It makes four
kinds of decision:

- **Failure translation** (`exceptionCaught`). An error cause is tested in a
  fixed order. A rejected client identifier, an unacceptable protocol version,
  an authentication failure and an authorization failure each produce one
  CONNACK. It has `sessionPresent = false` and the return code that section
  3.2.2.3 of MQTT 3.1.1 assigns (0x02, 0x01, 0x04, 0x05). I/O and unclassified
  causes produce no packet. Every path ends by closing the channel.
- **Dispatch gate** (`channelRead0`). A message whose decoding failed goes to
  the failure translation and is never forwarded. Any other message is handed
  unchanged to the message delegating handler.
- **Lifecycle bookkeeping** (`channelActive`, `channelInactive`). Activation
  adds the channel to the channel group. Teardown reads the channel's session
  and removes the binding for its clientId from the client map. It saves the
  session only when `clearSession` is exactly `FALSE`.
- **Idle and will handling** (`userEventTriggered`). Only an `ALL_IDLE` idle
  event does anything. When the channel's session has a will message, that
  message goes through the same delegating handler, and the channel is then
  closed. The handler's doc comment cites [MQTT-3.1.2-8] (section 3.1.2.5 of
  MQTT 3.1.1), which asks for the will whenever the network connection closes
  without a DISCONNECT. The code hands the will off only on an `ALL_IDLE`
  event: neither teardown nor a close in `exceptionCaught` publishes it
  (`WillLostOnResetClose`).

Layout:

- `mqtt.dfy`, module `Mqtt`: channel handles, CONNACK return codes with their
  wire bytes, error causes as a closed datatype, decoder outcomes, messages,
  sessions and user events.
- `broker.dfy`, module `Broker`: the broker state as a value. It holds the
  channel group, the client map, the channels' `session` attributes and one
  ordered log of outward effects: saves, hand-offs, packets written and closes.
  Each callback is a function over this state. The cause-to-CONNACK selection
  is the pure function `ConnAckFor`.
- `handler.dfy`, module `Handler`: the class `BrokerHandler`. Its fields are
  that state. Its methods update the fields step by step, in the source's
  order, and each method is proved to move the object exactly as the matching
  `Broker` function moves the value.
- `runs.dfy`, module `Runs`: any sequence of callbacks. The lemmas state what
  holds after any run, checked against reference definitions read off the
  inputs and the session attributes the run starts with.

Two guards are absent from the code: teardown is not idempotent, and the
binding is removed by key even when it names another channel. The model
follows the code: a newer binding is evicted
(`TeardownEvictsRebinding`), a second teardown saves the session again
(`RepeatedTeardownSavesTwice`), and a second all-idle event publishes the will
again (`RepeatedIdleDispatchesWillTwice`).

## Model

| member | source | states |
|---|---|---|
| `Broker.ConnAckFor` | src/main/java/com/jun/mqttx/broker/BrokerHandler.java:114-141 | each of the four classified causes maps to exactly one CONNACK, with sessionPresent false and return code 0x02, 0x01, 0x04 or 0x05, in both directions; I/O and unclassified causes, and only those, give no packet |
| `Broker.CaughtEffects` | src/main/java/com/jun/mqttx/broker/BrokerHandler.java:143-146 | exceptionCaught writes at most one packet, writes it before the close, and always closes the channel last; it neither dispatches nor saves |
| `Broker.ExceptionCaught` | src/main/java/com/jun/mqttx/broker/BrokerHandler.java:112-147 | only the outward log changes, and it changes by exactly the write-then-close of the cause; group, client map and sessions are untouched |
| `Broker.ChannelActive` | src/main/java/com/jun/mqttx/broker/BrokerHandler.java:61-63 | the channel is in the group afterwards, no other channel joins or leaves, and the client map, sessions and log do not change |
| `Broker.SaveEffects` | src/main/java/com/jun/mqttx/broker/BrokerHandler.java:82-84 | the session is saved exactly once when clearSession is FALSE, and not at all when it is true or null |
| `Broker.ChannelInactive` | src/main/java/com/jun/mqttx/broker/BrokerHandler.java:75-85 | a null session attribute is the failure outcome; otherwise the clientId's key leaves the client map whatever channel it named, every other binding keeps its channel, the save follows clearSession, and group and sessions do not change |
| `Broker.ChannelRead0` | src/main/java/com/jun/mqttx/broker/BrokerHandler.java:94-103 | a decode failure is exactly exceptionCaught with the carried cause and hands nothing off; any other message is handed off once, unchanged, with no close |
| `Broker.UserEventTriggered` | src/main/java/com/jun/mqttx/broker/BrokerHandler.java:162-177 | anything other than an ALL_IDLE idle event changes nothing; ALL_IDLE hands off the session's will exactly once when there is one, before the close, and always closes the channel last |
| `Handler.BrokerHandler.constructor` | src/main/java/com/jun/mqttx/broker/BrokerHandler.java:40 | the broker starts with an empty channel group, no bindings, no sessions and an empty log |
| `Handler.BrokerHandler.ChannelActive` | src/main/java/com/jun/mqttx/broker/BrokerHandler.java:61-63 | may change only the group, adds the channel to it, and agrees with `Broker.ChannelActive` |
| `Handler.BrokerHandler.ChannelInactive` | src/main/java/com/jun/mqttx/broker/BrokerHandler.java:75-85 | returns false and changes nothing when the session is null; otherwise removes the clientId's key and appends the save when clearSession is FALSE; agrees with `Broker.ChannelInactive` |
| `Handler.BrokerHandler.ChannelRead0` | src/main/java/com/jun/mqttx/broker/BrokerHandler.java:94-103 | changes only the log: the failure effects for a failed decode, a single hand-off of the message otherwise; agrees with `Broker.ChannelRead0` |
| `Handler.BrokerHandler.ExceptionCaught` | src/main/java/com/jun/mqttx/broker/BrokerHandler.java:112-147 | changes only the log, appending the optional CONNACK and then the close; agrees with `Broker.ExceptionCaught` |
| `Handler.BrokerHandler.UserEventTriggered` | src/main/java/com/jun/mqttx/broker/BrokerHandler.java:162-177 | changes only the log: nothing for a non-ALL_IDLE event; on ALL_IDLE the will hand-off when present, then the close; agrees with `Broker.UserEventTriggered` |
| `Runs.RunChannels` | src/main/java/com/jun/mqttx/broker/BrokerHandler.java:61-63 | after any run the group is the initial group plus exactly the activated channels; the handler removes none |
| `Runs.RunBindings` | src/main/java/com/jun/mqttx/broker/BrokerHandler.java:78-81 | after any run the client map is the initial one less the clientIds of every session torn down; the handler never adds or rebinds a clientId |
| `Runs.RunSaves` | src/main/java/com/jun/mqttx/broker/BrokerHandler.java:81-84 | the sessions saved in any run are exactly one per teardown of a session whose clearSession is FALSE, in teardown order |
| `Runs.RunDispatches` | src/main/java/com/jun/mqttx/broker/BrokerHandler.java:96-171 | the hand-offs in any run are exactly the inbound messages that did not fail to decode and the wills of channels going all-idle, in order; a failed decode is never handed off |
| `Runs.RunWellFormed` | src/main/java/com/jun/mqttx/broker/BrokerHandler.java:114-146 | in any run every packet written is a refusal CONNACK immediately followed by the close of the same channel, and every saved session had clearSession FALSE |
| `Runs.TeardownEvictsRebinding` | src/main/java/com/jun/mqttx/broker/BrokerHandler.java:81 | teardown removes the clientId's binding even when it already names a newer channel |
| `Runs.ActivateThenDeactivate` | src/main/java/com/jun/mqttx/broker/BrokerHandler.java:61-84 | activation followed by teardown leaves no binding for the clientId, and the handler leaves the channel in the group |
| `Runs.RepeatedTeardownSavesTwice` | src/main/java/com/jun/mqttx/broker/BrokerHandler.java:75-85 | no guard against a repeated teardown: a clearSession FALSE session is saved twice by two teardowns |
| `Runs.WillLostOnResetClose` | src/main/java/com/jun/mqttx/broker/BrokerHandler.java:135-146 | a channel with a will that is closed on an I/O failure and then torn down hands off nothing: only the ALL_IDLE path publishes the will, unlike what the doc comment's [MQTT-3.1.2-8] asks |
| `Runs.RepeatedIdleDispatchesWillTwice` | src/main/java/com/jun/mqttx/broker/BrokerHandler.java:162-177 | no guard against a repeated all-idle event: the will is handed off twice by two events |

## Left out

- Netty plumbing is not modelled: `ChannelHandlerContext`, propagation through `super.channelInactive`, the socket write and the socket close. A write and a close are each one entry in the outward log.
- A close does not start the teardown in the model. In Netty, `ctx.close()` later fires `channelInactive`; a run has to list that teardown as an input of its own.
- The channel group removes a closed channel on its own, through a close listener inside Netty's `DefaultChannelGroup`. The handler never removes one, so the model's group only grows.
- Concurrency is not modelled: the thread safety of the channel group and the client map, and the race between an old teardown and a new binding. Both structures are a plain set and map, and callbacks apply one at a time.
- The message delegating handler (PUBLISH/CONNECT/SUBSCRIBE handling, topics, QoS) is a foreign call. The model records only that it was called, and with which channel and message.
- The session service's storage is I/O. The model records each `save` call and the session passed.
- MQTT encoding, decoding and the CONNACK builder are library code. A CONNACK is the pair (sessionPresent, return code).
- Logging is left out, and so is the read of the `clientId` attribute, which feeds only the I/O-failure log message. The Spring wiring and the constructor's null checks on its two collaborators (lines 52-58) are left out too.
- Broker.ChannelInactive: after a null session, the model reports the failure and leaves the state as it was. What Netty then does with the thrown exception is not modelled.
- Mqtt.Cause is a closed datatype, so a cause belongs to exactly one class. A Java exception that passed two of the `instanceof` tests would take the first matching branch; no such class is part of this model.
- Broker.UserEventTriggered and Broker.ChannelInactive assume that `messageDelegatingHandler.handle` and `sessionService.save` return normally. In the source, a throw from `handle` (line 171) skips the close at line 174, and a throw from `save` (line 83) leaves the binding already removed (line 81). The model's close always follows the will hand-off, and the order of removal before save is not observable in it.
- Asynchronous persistence and an idempotent teardown are not modelled, because the source has neither.
