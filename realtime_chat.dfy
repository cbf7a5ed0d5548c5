/** The realtime chat hook: the dispatch over server events, the deferred
    transcript clears, the connect sequence's guard and error path, and the
    disconnect that persists the session and resets the hook. */
module RealtimeChat {
  import opened Common
  import SessionStore
  import SettingsDb

  // ---------------------------------------------------------------------------
  // Server events

  /** The four counts of `response.usage`; a missing detail object or field is `None`. */
  datatype UsageDetails = UsageDetails(
    inputAudio: Option<int>, outputAudio: Option<int>, inputText: Option<int>, outputText: Option<int>)

  /** A parsed data-channel message: its `type` and the optional fields the hook reads. */
  datatype ServerEvent = ServerEvent(
    kind: string, delta: Option<string>, transcript: Option<string>, text: Option<string>,
    usage: Option<UsageDetails>)

  const UserDelta := "conversation.item.input_audio_transcription.delta"
  const UserCompleted := "conversation.item.input_audio_transcription.completed"
  const TextDelta := "response.text.delta"
  const TextDone := "response.text.done"
  const AudioTranscriptDelta := "response.audio_transcript.delta"
  const AudioTranscriptDone := "response.audio_transcript.done"
  const ResponseCreated := "response.created"
  const SpeechStarted := "input_audio_buffer.speech_started"
  const ResponseDone := "response.done"

  const KnownKinds := {UserDelta, UserCompleted, TextDelta, TextDone, AudioTranscriptDelta,
                       AudioTranscriptDone, ResponseCreated, SpeechStarted, ResponseDone}

  datatype Utterance = Utterance(speaker: Speaker, text: string)

  /** The part of the hook's state that server events and the deferred clears
      touch; `pendingClears` are the 500 ms timers not yet fired, oldest first. */
  datatype ChatState = ChatState(
    log: seq<Utterance>, liveUser: string, liveAgent: string,
    tokens: TokenUsage, pendingClears: seq<Speaker>)

  /** `x || 0` on a usage count. */
  function OrZero(x: Option<int>): int {
    if x.Some? then x.value else 0
  }

  function AddUsage(t: TokenUsage, u: UsageDetails): TokenUsage {
    TokenUsage(t.inputAudio + OrZero(u.inputAudio), t.outputAudio + OrZero(u.outputAudio),
               t.inputText + OrZero(u.inputText), t.outputText + OrZero(u.outputText))
  }

  /** Append a finished utterance and schedule the clear of that speaker's accumulator. */
  function Complete(st: ChatState, who: Speaker, text: Option<string>): ChatState {
    if Truthy(text) then
      st.(log := st.log + [Utterance(who, text.value)], pendingClears := st.pendingClears + [who])
    else st
  }

  /** `handleServerEvent`. */
  function Apply(st: ChatState, e: ServerEvent): ChatState {
    if e.kind == UserDelta then
      (if Truthy(e.delta) then st.(liveUser := st.liveUser + e.delta.value) else st)
    else if e.kind == UserCompleted then Complete(st, You, e.transcript)
    else if e.kind == TextDelta || e.kind == AudioTranscriptDelta then
      (if Truthy(e.delta) then st.(liveAgent := st.liveAgent + e.delta.value) else st)
    else if e.kind == TextDone then Complete(st, Agent, e.text)
    else if e.kind == AudioTranscriptDone then Complete(st, Agent, e.transcript)
    else if e.kind == ResponseCreated then st.(liveAgent := "")
    else if e.kind == SpeechStarted then st.(liveUser := "")
    else if e.kind == ResponseDone then
      (if e.usage.Some? then st.(tokens := AddUsage(st.tokens, e.usage.value)) else st)
    else st
  }

  /** The oldest pending 500 ms timer fires and empties its speaker's accumulator,
      whatever was appended to it since. With no timer pending nothing fires. */
  function ClearFired(st: ChatState): ChatState {
    if st.pendingClears == [] then st
    else
      var who := st.pendingClears[0];
      var st' := st.(pendingClears := st.pendingClears[1..]);
      if who == You then st'.(liveUser := "") else st'.(liveAgent := "")
  }

  /** A delta of either kind appends its text to its speaker's accumulator;
      an empty or missing delta changes nothing. */
  lemma DeltaAccumulates(st: ChatState, e: ServerEvent)
    requires e.kind in {UserDelta, TextDelta, AudioTranscriptDelta}
    ensures !Truthy(e.delta) ==> Apply(st, e) == st
    ensures Truthy(e.delta) && e.kind == UserDelta ==> Apply(st, e) == st.(liveUser := st.liveUser + e.delta.value)
    ensures Truthy(e.delta) && e.kind != UserDelta ==> Apply(st, e) == st.(liveAgent := st.liveAgent + e.delta.value)
  {
  }

  /** The speaker a completion event is attributed to, and the field holding its text. */
  function CompletionOf(e: ServerEvent): (Speaker, Option<string>) {
    if e.kind == UserCompleted then (You, e.transcript)
    else if e.kind == TextDone then (Agent, e.text)
    else (Agent, e.transcript)
  }

  /** A completion with text appends exactly one log entry for its speaker and
      schedules one clear of that speaker; empty text does neither. */
  lemma CompletionAppendsOne(st: ChatState, e: ServerEvent)
    requires e.kind in {UserCompleted, TextDone, AudioTranscriptDone}
    ensures var (who, text) := CompletionOf(e); var r := Apply(st, e);
      && (Truthy(text) ==>
            && r.log == st.log + [Utterance(who, text.value)]
            && r.pendingClears == st.pendingClears + [who]
            && r.liveUser == st.liveUser && r.liveAgent == st.liveAgent
            && r.tokens == st.tokens)
      && (!Truthy(text) ==> r == st)
  {
  }

  /** `response.created` empties the agent accumulator, `speech_started` the user's;
      an event type outside the switch changes nothing. */
  lemma ResetsAndUnknownKinds(st: ChatState, e: ServerEvent)
    ensures e.kind == ResponseCreated ==> Apply(st, e) == st.(liveAgent := "")
    ensures e.kind == SpeechStarted ==> Apply(st, e) == st.(liveUser := "")
    ensures e.kind !in KnownKinds ==> Apply(st, e) == st
  {
  }

  /** `response.done` adds each reported count (a missing one as 0) to its counter. */
  lemma UsageAdds(st: ChatState, e: ServerEvent)
    requires e.kind == ResponseDone
    ensures e.usage.None? ==> Apply(st, e) == st
    ensures e.usage.Some? ==> var r := Apply(st, e);
      && r.tokens.inputAudio == st.tokens.inputAudio + OrZero(e.usage.value.inputAudio)
      && r.tokens.outputAudio == st.tokens.outputAudio + OrZero(e.usage.value.outputAudio)
      && r.tokens.inputText == st.tokens.inputText + OrZero(e.usage.value.inputText)
      && r.tokens.outputText == st.tokens.outputText + OrZero(e.usage.value.outputText)
      && r == st.(tokens := r.tokens)
  {
  }

  /** A delta that arrives between a completion and the clear it scheduled is lost:
      the clear empties the accumulator unconditionally. */
  lemma StaleClearLosesDelta(st: ChatState, said: string, d: string)
    requires st.pendingClears == [] && said != "" && d != ""
    ensures var done := Apply(st, ServerEvent(UserCompleted, None, Some(said), None, None));
      var more := Apply(done, ServerEvent(UserDelta, Some(d), None, None, None));
      && more.liveUser == st.liveUser + d
      && ClearFired(more).liveUser == ""
      && ClearFired(more).log == st.log + [Utterance(You, said)]
  {
  }

  // ---------------------------------------------------------------------------
  // Runs of events

  /** What reaches the hook while a session is live: a server message, or the
      oldest pending clear timer firing. */
  datatype Input = Server(e: ServerEvent) | ClearTimer

  function Step(st: ChatState, i: Input): ChatState {
    match i
    case Server(e) => Apply(st, e)
    case ClearTimer => ClearFired(st)
  }

  function Run(st: ChatState, inputs: seq<Input>): ChatState
    decreases |inputs|
  {
    if inputs == [] then st else Run(Step(st, inputs[0]), inputs[1..])
  }

  predicate NonNegativeDetails(u: UsageDetails) {
    OrZero(u.inputAudio) >= 0 && OrZero(u.outputAudio) >= 0 &&
    OrZero(u.inputText) >= 0 && OrZero(u.outputText) >= 0
  }

  predicate NonNegativeReports(inputs: seq<Input>) {
    forall k :: 0 <= k < |inputs| && inputs[k].Server? && inputs[k].e.usage.Some? ==>
      NonNegativeDetails(inputs[k].e.usage.value)
  }

  /** With non-negative reported usage no counter ever decreases. */
  lemma {:induction false} TokensNeverDecrease(st: ChatState, inputs: seq<Input>)
    requires NonNegativeReports(inputs)
    ensures UsageLe(st.tokens, Run(st, inputs).tokens)
    decreases |inputs|
  {
    if inputs != [] {
      var next := Step(st, inputs[0]);
      assert UsageLe(st.tokens, next.tokens);
      assert NonNegativeReports(inputs[1..]) by {
        forall k | 0 <= k < |inputs[1..]| && inputs[1..][k].Server? && inputs[1..][k].e.usage.Some?
          ensures NonNegativeDetails(inputs[1..][k].e.usage.value)
        {
          assert inputs[1..][k] == inputs[k + 1];
        }
      }
      TokensNeverDecrease(next, inputs[1..]);
    }
  }

  /** The log only grows: every run keeps the earlier entries as a prefix, and
      each new entry has a matching clear scheduled or already fired. */
  lemma {:induction false} LogOnlyGrows(st: ChatState, inputs: seq<Input>)
    ensures st.log <= Run(st, inputs).log
    decreases |inputs|
  {
    if inputs != [] {
      var next := Step(st, inputs[0]);
      assert st.log <= next.log;
      LogOnlyGrows(next, inputs[1..]);
    }
  }

  // ---------------------------------------------------------------------------
  // The record a disconnect saves

  datatype Device = Device(deviceId: string, labelText: string)

  /** `devices.find(d => d.deviceId === id)`. */
  function FindDevice(devices: seq<Device>, id: string): Option<Device>
    decreases |devices|
  {
    if devices == [] then None
    else if devices[0].deviceId == id then Some(devices[0])
    else FindDevice(devices[1..], id)
  }

  /** `find` yields nothing exactly when no device has the id, and otherwise
      the first device that has it. */
  lemma {:induction false} FindDeviceFirst(devices: seq<Device>, id: string)
    ensures var r := FindDevice(devices, id);
      && (r.None? <==> forall k :: 0 <= k < |devices| ==> devices[k].deviceId != id)
      && (r.Some? ==> exists k :: 0 <= k < |devices| && devices[k] == r.value && r.value.deviceId == id &&
                        forall j :: 0 <= j < k ==> devices[j].deviceId != id)
    decreases |devices|
  {
    if devices != [] && devices[0].deviceId != id {
      FindDeviceFirst(devices[1..], id);
      assert forall k :: 1 <= k < |devices| ==> devices[k] == devices[1..][k - 1];
      var r := FindDevice(devices, id);
      if r.Some? {
        var k :| 0 <= k < |devices[1..]| && devices[1..][k] == r.value && r.value.deviceId == id &&
                 forall j :: 0 <= j < k ==> devices[1..][j].deviceId != id;
        assert devices[k + 1] == r.value;
        assert forall j :: 0 <= j < k + 1 ==> devices[j].deviceId != id;
      }
    }
  }

  /** `find(...)?.label || fallback`: the label of the first device with that id,
      unless there is none or its label is empty. */
  function DeviceLabel(devices: seq<Device>, id: string, fallback: string): string {
    var d := FindDevice(devices, id);
    if d.Some? && d.value.labelText != "" then d.value.labelText else fallback
  }

  /** The save happens only when `sessionStartTime` is truthy (set and non-zero)
      and the log has at least one entry. */
  predicate ShouldSave(startTime: Option<int>, log: seq<Utterance>) {
    TruthyNumber(startTime) && |log| > 0
  }

  /** The messages handed to the store: one per log entry, a second apart. */
  function MessagesFor(log: seq<Utterance>, start: int): (ms: seq<SessionStore.NewMessage>)
    ensures |ms| == |log|
  {
    seq(|log|, k requires 0 <= k < |log| =>
      SessionStore.NewMessage(log[k].speaker, log[k].text, start + k * 1000))
  }

  /** The `saveSession` calls a disconnect makes: one when there is something to save, else none. */
  function SavesOnDisconnect(startTime: Option<int>, endTime: int, log: seq<Utterance>, tokens: TokenUsage,
                             model: string, inputs: seq<Device>, outputs: seq<Device>, micId: string,
                             speakerId: string)
    : (r: seq<(SessionStore.SessionData, seq<SessionStore.NewMessage>)>)
    ensures |r| == 1 <==> ShouldSave(startTime, log)
    ensures |r| != 1 ==> r == []
    ensures |r| == 1 ==> r[0] == SaveRequest(startTime.value, endTime, log, tokens, model, inputs, outputs, micId, speakerId)
  {
    if ShouldSave(startTime, log)
    then [SaveRequest(startTime.value, endTime, log, tokens, model, inputs, outputs, micId, speakerId)]
    else []
  }

  /** The session and the messages `handleDisconnect` passes to `saveSession`. */
  function SaveRequest(start: int, endTime: int, log: seq<Utterance>, tokens: TokenUsage, model: string,
                       inputs: seq<Device>, outputs: seq<Device>, micId: string, speakerId: string)
    : (SessionStore.SessionData, seq<SessionStore.NewMessage>)
  {
    (SessionStore.SessionData(
       start, endTime, (endTime - start) / 1000, model, tokens,
       SessionStore.CalculateSessionCost(tokens),
       Some(DeviceLabel(inputs, micId, "Default Microphone")),
       Some(DeviceLabel(outputs, speakerId, "Default Speaker"))),
     MessagesFor(log, start))
  }

  /** The saved record: the duration is the elapsed time in whole seconds rounded
      down, each log entry becomes one message in order with the same speaker and
      text and a timestamp `k` seconds after the start, and the cost is the
      persisted cost of the counters. */
  lemma SaveRequestFields(start: int, endTime: int, log: seq<Utterance>, tokens: TokenUsage, model: string,
                          inputs: seq<Device>, outputs: seq<Device>, micId: string, speakerId: string)
    ensures var (d, ms) := SaveRequest(start, endTime, log, tokens, model, inputs, outputs, micId, speakerId);
      && d.durationSeconds * 1000 <= endTime - start < d.durationSeconds * 1000 + 1000
      && |ms| == |log|
      && (forall k :: 0 <= k < |ms| ==>
            ms[k].speaker == log[k].speaker && ms[k].text == log[k].text && ms[k].timestamp == start + k * 1000)
      && d.startTime == start && d.endTime == endTime && d.usage == tokens
      && d.totalCostCents == SessionStore.CalculateSessionCost(tokens)
  {
  }

  /** The device label is the matching device's label, or the fallback exactly
      when no device matches or the match has an empty label. */
  lemma DeviceLabelChoice(devices: seq<Device>, id: string, fallback: string)
    ensures var l := DeviceLabel(devices, id, fallback);
      && ((forall k :: 0 <= k < |devices| ==> devices[k].deviceId != id) ==> l == fallback)
      && (forall k ::
            (0 <= k < |devices| && devices[k].deviceId == id && devices[k].labelText != "" &&
             (forall j :: 0 <= j < k ==> devices[j].deviceId != id))
            ==> l == devices[k].labelText)
  {
    FindDeviceFirst(devices, id);
    var d := FindDevice(devices, id);
    if d.Some? {
      var k :| 0 <= k < |devices| && devices[k] == d.value && d.value.deviceId == id &&
               forall j :: 0 <= j < k ==> devices[j].deviceId != id;
      forall k' | 0 <= k' < |devices| && devices[k'].deviceId == id &&
                  (forall j :: 0 <= j < k' ==> devices[j].deviceId != id)
        ensures k' == k
      {
      }
    }
  }

  // ---------------------------------------------------------------------------
  // The hook

  /** What the data channel reference holds: nothing, a channel still opening, or an open one. */
  datatype Channel = NoChannel | Opening | Open

  /** How the network and media steps of `handleConnect` end, past the API-key check. */
  datatype ConnectOutcome = ValidationRejected | NoAudioTrack | OfferFailed | SignallingRejected | Established

  /** The one client event the hook sends, `session.update`. */
  datatype ClientEvent = SessionUpdate(voice: string, instructions: Option<string>, transcriptionModel: string)

  class ChatHook {
    var connected: bool
    var log: seq<Utterance>
    var liveUser: string
    var liveAgent: string
    var tokens: TokenUsage
    var startTime: Option<int>
    var pendingClears: seq<Speaker>
    var inputDevices: seq<Device>
    var outputDevices: seq<Device>
    var micId: string
    var speakerId: string
    var model: string
    /** Whether `peerConnection.current` is set. */
    var peer: bool
    var channel: Channel
    /** Client events written to the data channel, in order. */
    var sent: seq<ClientEvent>
    /** Every `saveSession` call made, in order. */
    var storeWrites: seq<(SessionStore.SessionData, seq<SessionStore.NewMessage>)>
    /** Disconnects still awaiting their `saveSession`, each with its teardown to come. */
    var awaitingSaves: nat

    function State(): ChatState
      reads this
    {
      ChatState(log, liveUser, liveAgent, tokens, pendingClears)
    }

    /** The state the disconnect's teardown leaves: no connection, no channel,
        empty accumulators, zero counters and no start time. */
    predicate TornDown()
      reads this
    {
      !connected && !peer && channel == NoChannel && startTime.None?
      && liveUser == "" && liveAgent == "" && tokens == ZeroUsage
    }

    /** The hook as first rendered. */
    constructor (inputs: seq<Device>, outputs: seq<Device>)
      ensures State() == ChatState([], "", "", ZeroUsage, [])
      ensures !connected && startTime.None? && !peer && channel == NoChannel
      ensures micId == "" && speakerId == "" && model == SettingsDb.DefaultModel
      ensures inputDevices == inputs && outputDevices == outputs && sent == [] && storeWrites == []
      ensures awaitingSaves == 0
    {
      connected, log, liveUser, liveAgent, tokens, startTime, pendingClears := false, [], "", "", ZeroUsage, None, [];
      inputDevices, outputDevices, micId, speakerId, model := inputs, outputs, "", "", SettingsDb.DefaultModel;
      peer, channel, sent, storeWrites, awaitingSaves := false, NoChannel, [], [], 0;
    }

    /** `handleMicChange`: select a microphone by device id. */
    method SelectMic(id: string)
      modifies this`micId
      ensures micId == id
    {
      micId := id;
    }

    /** `handleSpeakerChange`: select a speaker by device id (the audio
        element's sink follows it; output routing is not modelled). */
    method SelectSpeaker(id: string)
      modifies this`speakerId
      ensures speakerId == id
    {
      speakerId := id;
    }

    /** `handleServerEvent`. */
    method HandleServerEvent(e: ServerEvent)
      modifies this`log, this`liveUser, this`liveAgent, this`tokens, this`pendingClears
      ensures State() == Apply(old(State()), e)
    {
      if e.kind == UserDelta {
        if Truthy(e.delta) { liveUser := liveUser + e.delta.value; }
      } else if e.kind == UserCompleted {
        if Truthy(e.transcript) {
          log := log + [Utterance(You, e.transcript.value)];
          pendingClears := pendingClears + [You];
        }
      } else if e.kind == TextDelta || e.kind == AudioTranscriptDelta {
        if Truthy(e.delta) { liveAgent := liveAgent + e.delta.value; }
      } else if e.kind == TextDone || e.kind == AudioTranscriptDone {
        var text := if e.kind == TextDone then e.text else e.transcript;
        if Truthy(text) {
          log := log + [Utterance(Agent, text.value)];
          pendingClears := pendingClears + [Agent];
        }
      } else if e.kind == ResponseCreated {
        liveAgent := "";
      } else if e.kind == SpeechStarted {
        liveUser := "";
      } else if e.kind == ResponseDone {
        if e.usage.Some? { tokens := AddUsage(tokens, e.usage.value); }
      }
    }

    /** The oldest pending 500 ms timer fires. */
    method ClearFires()
      requires pendingClears != []
      modifies this`liveUser, this`liveAgent, this`pendingClears
      ensures State() == ClearFired(old(State()))
    {
      var who := pendingClears[0];
      pendingClears := pendingClears[1..];
      if who == You { liveUser := ""; } else { liveAgent := ""; }
    }

    /** `sendClientEvent`: written only on an open channel. */
    method SendClientEvent(m: ClientEvent)
      modifies this`sent
      ensures sent == if channel == Open then old(sent) + [m] else old(sent)
    {
      if channel == Open {
        sent := sent + [m];
      }
    }

    /** `handleDisconnect` at time `endTime`, up to its `await`. With something
        to save (a truthy start time and a non-empty log) the save is requested
        and the teardown waits for it to settle (`SaveSettled`): until then
        server events are still handled, and a second disconnect still sees the
        session running and saves it again. With nothing to save the teardown
        runs at once. The log and the pending clear timers survive either way. */
    method HandleDisconnect(endTime: int)
      modifies this`storeWrites, this`awaitingSaves, this`channel, this`peer, this`connected,
               this`liveUser, this`liveAgent, this`startTime, this`tokens
      ensures storeWrites == old(storeWrites) +
        SavesOnDisconnect(old(startTime), endTime, old(log), old(tokens), old(model),
                          old(inputDevices), old(outputDevices), old(micId), old(speakerId))
      ensures ShouldSave(old(startTime), old(log)) ==>
        && awaitingSaves == old(awaitingSaves) + 1
        && connected == old(connected) && peer == old(peer) && channel == old(channel)
        && startTime == old(startTime) && liveUser == old(liveUser) && liveAgent == old(liveAgent)
        && tokens == old(tokens)
      ensures !ShouldSave(old(startTime), old(log)) ==> awaitingSaves == old(awaitingSaves) && TornDown()
    {
      if ShouldSave(startTime, log) {
        storeWrites := storeWrites +
          SavesOnDisconnect(startTime, endTime, log, tokens, model, inputDevices, outputDevices, micId, speakerId);
        awaitingSaves := awaitingSaves + 1;
      } else {
        channel, peer, connected := NoChannel, false, false;
        liveUser, liveAgent, startTime, tokens := "", "", None, ZeroUsage;
      }
    }

    /** An awaited save settles, stored or failed (a failure is caught and
        only logged): that disconnect's teardown runs, discarding the counters
        and transcripts of any events handled meanwhile. */
    method SaveSettled()
      requires awaitingSaves > 0
      modifies this`awaitingSaves, this`channel, this`peer, this`connected,
               this`liveUser, this`liveAgent, this`startTime, this`tokens
      ensures awaitingSaves == old(awaitingSaves) - 1 && TornDown()
      ensures !ShouldSave(startTime, log)
    {
      awaitingSaves := awaitingSaves - 1;
      channel, peer, connected := NoChannel, false, false;
      liveUser, liveAgent, startTime, tokens := "", "", None, ZeroUsage;
    }

    /** The device effect's cleanup on unmount. It calls the `handleDisconnect`
        of the first render, since the effect's dependencies leave that
        callback out, and that one sees no start time and an empty log: with a
        peer connection it tears down at once and never saves, even in the
        middle of a conversation. */
    method Unmount()
      modifies this`channel, this`peer, this`connected, this`liveUser, this`liveAgent,
               this`startTime, this`tokens
      ensures storeWrites == old(storeWrites)
      ensures old(peer) ==> TornDown()
      ensures !old(peer) ==> unchanged(this)
    {
      if peer {
        channel, peer, connected := NoChannel, false, false;
        liveUser, liveAgent, startTime, tokens := "", "", None, ZeroUsage;
      }
    }

    /** `handleConnect`: nothing at all without a selected microphone; a missing
        API key or any failed step runs the disconnect path (at time `now`);
        otherwise the peer connection exists and the channel is opening. The
        peer connection exists once validation passes, and the channel once an
        audio track was added. */
    method HandleConnect(settings: Option<SettingsDb.OpenAISettings>, outcome: ConnectOutcome, now: int)
      modifies this`storeWrites, this`awaitingSaves, this`channel, this`peer, this`connected,
               this`liveUser, this`liveAgent, this`startTime, this`tokens
      ensures old(micId) == "" ==> unchanged(this)
      ensures old(micId) != "" && (settings.None? || settings.value.apiKey == "" || !outcome.Established?) ==>
        && storeWrites == old(storeWrites) +
             SavesOnDisconnect(old(startTime), now, old(log), old(tokens), old(model),
                               old(inputDevices), old(outputDevices), old(micId), old(speakerId))
        && (!ShouldSave(old(startTime), old(log)) ==> awaitingSaves == old(awaitingSaves) && TornDown())
        && (ShouldSave(old(startTime), old(log)) ==>
             var keyed := settings.Some? && settings.value.apiKey != "";
             && awaitingSaves == old(awaitingSaves) + 1
             && peer == (old(peer) || (keyed && !outcome.ValidationRejected?))
             && channel == (if keyed && (outcome.OfferFailed? || outcome.SignallingRejected?) then Opening
                            else old(channel))
             && connected == old(connected) && startTime == old(startTime)
             && liveUser == old(liveUser) && liveAgent == old(liveAgent) && tokens == old(tokens))
      ensures old(micId) != "" && settings.Some? && settings.value.apiKey != "" && outcome.Established? ==>
        && peer && channel == Opening && storeWrites == old(storeWrites) && awaitingSaves == old(awaitingSaves)
        && connected == old(connected) && startTime == old(startTime)
        && liveUser == old(liveUser) && liveAgent == old(liveAgent) && tokens == old(tokens)
    {
      if micId == "" {
        return;
      }
      if settings.None? || settings.value.apiKey == "" {
        HandleDisconnect(now);
        return;
      }
      if outcome == ValidationRejected {
        HandleDisconnect(now);
        return;
      }
      peer := true;
      if outcome == NoAudioTrack {
        HandleDisconnect(now);
        return;
      }
      channel := Opening;
      if outcome == OfferFailed || outcome == SignallingRejected {
        HandleDisconnect(now);
        return;
      }
    }

    /** The data channel's `onopen` at time `now`, with the provider settings read
        then: mark connected, start the clock, and send `session.update`. */
    method ChannelOpened(now: int, settings: Option<SettingsDb.OpenAISettings>)
      requires channel == Opening
      modifies this`channel, this`connected, this`startTime, this`sent
      ensures connected && startTime == Some(now) && channel == Open
      ensures sent == old(sent) + [SessionUpdate(
        if settings.Some? && settings.value.voice != "" then settings.value.voice else "alloy",
        if settings.Some? && Truthy(settings.value.prompt) then settings.value.prompt else None,
        "gpt-4o-transcribe")]
    {
      channel := Open;
      connected := true;
      startTime := Some(now);
      var voice := if settings.Some? && settings.value.voice != "" then settings.value.voice else "alloy";
      var instructions := if settings.Some? && Truthy(settings.value.prompt) then settings.value.prompt else None;
      SendClientEvent(SessionUpdate(voice, instructions, "gpt-4o-transcribe"));
    }
  }

  /** A second disconnect before the first save settles (a second click, or
      the catch in `handleConnect`) finds the session still running and saves
      it again under the same start. */
  method DisconnectTwice(h: ChatHook, t1: int, t2: int)
    requires ShouldSave(h.startTime, h.log)
    modifies h`storeWrites, h`awaitingSaves, h`channel, h`peer, h`connected,
             h`liveUser, h`liveAgent, h`startTime, h`tokens
    ensures |h.storeWrites| == |old(h.storeWrites)| + 2 && h.awaitingSaves == old(h.awaitingSaves) + 2
    ensures var n := |h.storeWrites|;
      h.storeWrites[n - 2].0.startTime == h.storeWrites[n - 1].0.startTime == old(h.startTime).value
  {
    h.HandleDisconnect(t1);
    h.HandleDisconnect(t2);
  }

  /** Unmounting in the middle of a conversation that a disconnect would save
      ends the connection and saves nothing. */
  method UnmountDropsSession(h: ChatHook)
    requires h.peer && ShouldSave(h.startTime, h.log)
    modifies h`channel, h`peer, h`connected, h`liveUser, h`liveAgent, h`startTime, h`tokens
    ensures h.TornDown() && h.storeWrites == old(h.storeWrites) && h.log == old(h.log) && |h.log| > 0
  {
    h.Unmount();
  }
}
