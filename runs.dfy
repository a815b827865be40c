/** Whole runs of the handler: a sequence of callbacks applied one after
    another, and what holds of the broker state after any run. */
module Runs {
  import opened Mqtt
  import opened Broker

  function Run(s: BrokerState, inputs: seq<Input>): BrokerState
    decreases |inputs|
  {
    if inputs == [] then s else Run(Step(s, inputs[0]), inputs[1..])
  }

  // ---------------------------------------------------------------------
  // Views of the outward log

  /** The sessions handed to the session service, in order. */
  function Saves(log: seq<Effect>): seq<Session> {
    if log == [] then []
    else (if log[0].Saved? then [log[0].session] else []) + Saves(log[1..])
  }

  /** The (channel, message) pairs handed to the delegating handler, in order. */
  function Dispatches(log: seq<Effect>): seq<(ChannelId, MqttMessage)> {
    if log == [] then []
    else (if log[0].Dispatched? then [(log[0].channel, log[0].message)] else []) + Dispatches(log[1..])
  }

  lemma {:induction false} SavesAppend(a: seq<Effect>, b: seq<Effect>)
    ensures Saves(a + b) == Saves(a) + Saves(b)
  {
    if a == [] {
      assert a + b == b;
    } else {
      assert (a + b)[0] == a[0] && (a + b)[1..] == a[1..] + b;
      SavesAppend(a[1..], b);
    }
  }

  lemma {:induction false} DispatchesAppend(a: seq<Effect>, b: seq<Effect>)
    ensures Dispatches(a + b) == Dispatches(a) + Dispatches(b)
  {
    if a == [] {
      assert a + b == b;
    } else {
      assert (a + b)[0] == a[0] && (a + b)[1..] == a[1..] + b;
      DispatchesAppend(a[1..], b);
    }
  }

  // ---------------------------------------------------------------------
  // Reference definitions, read off the inputs and the session
  // attributes the run starts with

  /** The channels activated in a run. */
  function Activated(inputs: seq<Input>): set<ChannelId> {
    if inputs == [] then {}
    else (if inputs[0].Activate? then {inputs[0].channel} else {}) + Activated(inputs[1..])
  }

  /** The clientIds of the sessions torn down in a run. */
  function TornDownIds(sessions: map<ChannelId, Session>, inputs: seq<Input>): set<string> {
    if inputs == [] then {}
    else
      (if inputs[0].Deactivate? && inputs[0].channel in sessions
       then {sessions[inputs[0].channel].clientId} else {})
      + TornDownIds(sessions, inputs[1..])
  }

  /** The session one callback must persist: the session torn down, when
      its clearSession is FALSE. */
  function PersistedBy(sessions: map<ChannelId, Session>, input: Input): seq<Session> {
    match input
    case Deactivate(ch) =>
      if ch in sessions && sessions[ch].clearSession == Some(false) then [sessions[ch]] else []
    case _ => []
  }

  function Persisted(sessions: map<ChannelId, Session>, inputs: seq<Input>): seq<Session> {
    if inputs == [] then [] else PersistedBy(sessions, inputs[0]) + Persisted(sessions, inputs[1..])
  }

  /** The hand-off one callback must make: an inbound message that did not
      fail to decode, or the will of an all-idle channel whose session has
      one. */
  function ForwardedBy(sessions: map<ChannelId, Session>, input: Input): seq<(ChannelId, MqttMessage)> {
    match input
    case Inbound(ch, msg) =>
      if msg.decoderResult.IsFailure() then [] else [(ch, msg)]
    case Event(ch, IdleStateEvent(AllIdle)) =>
      if ch in sessions && sessions[ch].willMessage.Some? then [(ch, sessions[ch].willMessage.value)] else []
    case _ => []
  }

  function Forwarded(sessions: map<ChannelId, Session>, inputs: seq<Input>): seq<(ChannelId, MqttMessage)> {
    if inputs == [] then [] else ForwardedBy(sessions, inputs[0]) + Forwarded(sessions, inputs[1..])
  }

  /** Every packet written is a refusal CONNACK immediately followed by the
      close of the same channel, and every session saved had clearSession
      FALSE. */
  ghost predicate WellFormed(log: seq<Effect>) {
    && (forall i | 0 <= i < |log| && log[i].Wrote? ::
          i + 1 < |log| && log[i + 1] == Closed(log[i].channel) && IsRefusal(log[i].ack))
    && (forall i | 0 <= i < |log| && log[i].Saved? :: log[i].session.clearSession == Some(false))
  }

  // ---------------------------------------------------------------------
  // One step

  lemma StepWellFormed(s: BrokerState, input: Input)
    requires WellFormed(s.log)
    ensures WellFormed(Step(s, input).log)
  {
  }

  /** One callback saves what PersistedBy names and hands off what
      ForwardedBy names, and leaves the session attributes alone. */
  lemma StepViews(s: BrokerState, input: Input)
    ensures Step(s, input).sessions == s.sessions
    ensures Saves(Step(s, input).log) == Saves(s.log) + PersistedBy(s.sessions, input)
    ensures Dispatches(Step(s, input).log) == Dispatches(s.log) + ForwardedBy(s.sessions, input)
  {
    var t := Step(s, input);
    var suffix := t.log[|s.log|..];
    assert t.log == s.log + suffix;
    SavesAppend(s.log, suffix);
    DispatchesAppend(s.log, suffix);
    match input
    case Activate(ch) =>
      assert suffix == [];
    case Deactivate(ch) =>
      if ch in s.sessions {
        assert suffix == SaveEffects(s.sessions[ch]);
        if suffix != [] {
          ViewsOfOne(Saved(s.sessions[ch]));
        }
      } else {
        assert suffix == [];
      }
    case Inbound(ch, msg) =>
      if msg.decoderResult.IsFailure() {
        SavesOfCaught(ch, msg.decoderResult.cause);
      } else {
        assert suffix == [Dispatched(ch, msg)];
        ViewsOfOne(Dispatched(ch, msg));
      }
    case Exception(ch, cause) =>
      SavesOfCaught(ch, cause);
    case Event(ch, evt) =>
      if evt == IdleStateEvent(AllIdle) {
        if HasWill(s, ch) {
          var will := Dispatched(ch, s.sessions[ch].willMessage.value);
          assert suffix == [will] + [Closed(ch)];
          ViewsOfOne(will);
          ViewsOfOne(Closed(ch));
          SavesAppend([will], [Closed(ch)]);
          DispatchesAppend([will], [Closed(ch)]);
        } else {
          assert suffix == [Closed(ch)];
          ViewsOfOne(Closed(ch));
        }
      } else {
        assert suffix == [];
      }
  }

  lemma SavesOfCaught(ch: ChannelId, cause: Cause)
    ensures Saves(CaughtEffects(ch, cause)) == []
    ensures Dispatches(CaughtEffects(ch, cause)) == []
  {
    var out := CaughtEffects(ch, cause);
    ViewsOfOne(Closed(ch));
    if |out| == 2 {
      ViewsOfOne(out[0]);
      assert out == [out[0]] + [Closed(ch)];
      SavesAppend([out[0]], [Closed(ch)]);
      DispatchesAppend([out[0]], [Closed(ch)]);
    }
  }

  lemma ViewsOfOne(e: Effect)
    ensures Saves([e]) == if e.Saved? then [e.session] else []
    ensures Dispatches([e]) == if e.Dispatched? then [(e.channel, e.message)] else []
  {
  }

  // ---------------------------------------------------------------------
  // Whole runs

  /** Channels only ever join the group: the handler adds exactly the
      activated ones and removes none. */
  lemma {:induction false} RunChannels(s: BrokerState, inputs: seq<Input>)
    ensures Run(s, inputs).channels == s.channels + Activated(inputs)
    decreases |inputs|
  {
    if inputs != [] {
      RunChannels(Step(s, inputs[0]), inputs[1..]);
    }
  }

  /** The handler never adds or rebinds a clientId: after any run the
      binding table is the initial one less the clientIds of every session
      torn down. */
  lemma {:induction false} RunBindings(s: BrokerState, inputs: seq<Input>)
    ensures Run(s, inputs).clientMap == s.clientMap - TornDownIds(s.sessions, inputs)
    decreases |inputs|
  {
    if inputs != [] {
      var t := Step(s, inputs[0]);
      assert t.sessions == s.sessions;
      RunBindings(t, inputs[1..]);
      var head := if inputs[0].Deactivate? && inputs[0].channel in s.sessions
                  then {s.sessions[inputs[0].channel].clientId} else {};
      assert t.clientMap == s.clientMap - head;
      assert TornDownIds(s.sessions, inputs) == head + TornDownIds(s.sessions, inputs[1..]);
    }
  }

  /** Every session saved in a run is saved exactly once per teardown with
      clearSession FALSE, in teardown order. */
  lemma {:induction false} RunSaves(s: BrokerState, inputs: seq<Input>)
    ensures Saves(Run(s, inputs).log) == Saves(s.log) + Persisted(s.sessions, inputs)
    decreases |inputs|
  {
    if inputs != [] {
      var t := Step(s, inputs[0]);
      StepViews(s, inputs[0]);
      RunSaves(t, inputs[1..]);
    }
  }

  /** The only hand-offs to the delegating handler are the inbound
      messages that did not fail to decode and the wills of all-idle
      channels, each exactly once and in order. */
  lemma {:induction false} RunDispatches(s: BrokerState, inputs: seq<Input>)
    ensures Dispatches(Run(s, inputs).log) == Dispatches(s.log) + Forwarded(s.sessions, inputs)
    decreases |inputs|
  {
    if inputs != [] {
      var t := Step(s, inputs[0]);
      StepViews(s, inputs[0]);
      RunDispatches(t, inputs[1..]);
    }
  }

  /** Well-formedness of the log is an invariant of every run. */
  lemma {:induction false} RunWellFormed(s: BrokerState, inputs: seq<Input>)
    requires WellFormed(s.log)
    ensures WellFormed(Run(s, inputs).log)
    decreases |inputs|
  {
    if inputs != [] {
      StepWellFormed(s, inputs[0]);
      RunWellFormed(Step(s, inputs[0]), inputs[1..]);
    }
  }

  // ---------------------------------------------------------------------
  // Consequences of the code as written

  /** Teardown removes the binding of the session's clientId even when a
      newer connection has since rebound that clientId to another channel. */
  lemma TeardownEvictsRebinding(s: BrokerState, ch: ChannelId, newer: ChannelId)
    requires ch in s.sessions && newer != ch
    requires s.sessions[ch].clientId in s.clientMap && s.clientMap[s.sessions[ch].clientId] == newer
    ensures ChannelInactive(s, ch).TornDown?
    ensures s.sessions[ch].clientId !in ChannelInactive(s, ch).after.clientMap
  {
  }

  /** Activation followed by teardown leaves no binding for the session's
      clientId; the handler itself never takes the channel out of the group. */
  lemma ActivateThenDeactivate(s: BrokerState, ch: ChannelId)
    requires ch in s.sessions
    ensures s.sessions[ch].clientId !in Run(s, [Activate(ch), Deactivate(ch)]).clientMap
    ensures ch in Run(s, [Activate(ch), Deactivate(ch)]).channels
  {
    var inputs := [Activate(ch), Deactivate(ch)];
    RunBindings(s, inputs);
    RunChannels(s, inputs);
    assert inputs[1..][1..] == [];
    assert s.sessions[ch].clientId in TornDownIds(s.sessions, inputs);
  }

  /** There is no guard against a second teardown of the same channel: a
      session with clearSession FALSE is saved once per call. */
  lemma RepeatedTeardownSavesTwice(s: BrokerState, ch: ChannelId)
    requires ch in s.sessions && s.sessions[ch].clearSession == Some(false)
    ensures Saves(Run(s, [Deactivate(ch), Deactivate(ch)]).log)
         == Saves(s.log) + [s.sessions[ch], s.sessions[ch]]
  {
    var inputs := [Deactivate(ch), Deactivate(ch)];
    RunSaves(s, inputs);
    var once := PersistedBy(s.sessions, Deactivate(ch));
    assert once == [s.sessions[ch]];
    assert inputs[1..][1..] == [];
    assert Persisted(s.sessions, inputs[1..]) == once + [];
    assert Persisted(s.sessions, inputs) == once + once;
  }

  /** There is no guard against a second all-idle event either: the will is
      handed off once per event. */
  lemma RepeatedIdleDispatchesWillTwice(s: BrokerState, ch: ChannelId)
    requires HasWill(s, ch)
    ensures Dispatches(Run(s, [Event(ch, IdleStateEvent(AllIdle)), Event(ch, IdleStateEvent(AllIdle))]).log)
         == Dispatches(s.log) + [(ch, s.sessions[ch].willMessage.value), (ch, s.sessions[ch].willMessage.value)]
  {
    var inputs := [Event(ch, IdleStateEvent(AllIdle)), Event(ch, IdleStateEvent(AllIdle))];
    RunDispatches(s, inputs);
    var once := ForwardedBy(s.sessions, inputs[0]);
    assert once == [(ch, s.sessions[ch].willMessage.value)];
    assert inputs[1..][1..] == [];
    assert Forwarded(s.sessions, inputs[1..]) == once + [];
    assert Forwarded(s.sessions, inputs) == once + once;
  }

  /** The will is handed off only on an all-idle event: a channel whose
      connection is reset (an I/O failure closes it) and then torn down
      hands off nothing, will message or not. */
  lemma WillLostOnResetClose(s: BrokerState, ch: ChannelId)
    requires HasWill(s, ch)
    ensures Dispatches(Run(s, [Exception(ch, IoFailure), Deactivate(ch)]).log) == Dispatches(s.log)
  {
    var inputs := [Exception(ch, IoFailure), Deactivate(ch)];
    RunDispatches(s, inputs);
    assert inputs[1..][1..] == [];
    assert Forwarded(s.sessions, inputs[1..]) == [] + [];
    assert Forwarded(s.sessions, inputs) == [] + [];
  }
}
