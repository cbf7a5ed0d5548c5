/** The text-to-speech adapter: the API key and client, the stream reader and
    the offset copy that joins audio chunks, the voice-record mapping, and the
    streaming connection whose open flag gates every message. */
module ElevenLabs {
  import opened Common

  newtype byte = x: int | 0 <= x < 256

  // ---------------------------------------------------------------------------
  // Joining chunks

  /** The chunks one after the other. */
  function Flatten(chunks: seq<seq<byte>>): seq<byte>
    decreases |chunks|
  {
    if chunks == [] then [] else Flatten(chunks[..|chunks| - 1]) + chunks[|chunks| - 1]
  }

  /** `chunks.reduce((sum, chunk) => sum + chunk.length, 0)`. */
  function TotalLength(chunks: seq<seq<byte>>): nat
    decreases |chunks|
  {
    if chunks == [] then 0 else TotalLength(chunks[..|chunks| - 1]) + |chunks[|chunks| - 1]|
  }

  /** The joined buffer is exactly as long as the sum of the chunk lengths. */
  lemma {:induction false} FlattenLength(chunks: seq<seq<byte>>)
    ensures |Flatten(chunks)| == TotalLength(chunks)
    decreases |chunks|
  {
    if chunks != [] {
      FlattenLength(chunks[..|chunks| - 1]);
    }
  }

  /** Each chunk lands at the offset given by the lengths before it. */
  lemma {:induction false} FlattenAt(chunks: seq<seq<byte>>, i: nat, j: nat)
    requires i < |chunks| && j < |chunks[i]|
    ensures TotalLength(chunks[..i]) + j < |Flatten(chunks)|
    ensures Flatten(chunks)[TotalLength(chunks[..i]) + j] == chunks[i][j]
    decreases |chunks|
  {
    var n := |chunks| - 1;
    var init := chunks[..n];
    FlattenLength(init);
    if i == n {
      assert chunks[..i] == init;
    } else {
      assert init[..i] == chunks[..i];
      FlattenAt(init, i, j);
    }
  }

  lemma {:induction false} TotalLengthPrefix(chunks: seq<seq<byte>>, i: nat)
    requires i <= |chunks|
    ensures TotalLength(chunks[..i]) <= TotalLength(chunks)
    decreases |chunks| - i
  {
    if i < |chunks| {
      assert chunks[..i + 1][..i] == chunks[..i];
      TotalLengthPrefix(chunks, i + 1);
    } else {
      assert chunks[..i] == chunks;
    }
  }

  /** The offset loop: allocate the total length, then copy each chunk in at
      the running offset. */
  method Combine(chunks: seq<seq<byte>>) returns (bytes: seq<byte>)
    ensures bytes == Flatten(chunks)
  {
    var combined := new byte[TotalLength(chunks)];
    var offset := 0;
    for i := 0 to |chunks|
      invariant offset == TotalLength(chunks[..i]) <= combined.Length
      invariant combined[..offset] == Flatten(chunks[..i])
    {
      var chunk := chunks[i];
      assert chunks[..i + 1][..i] == chunks[..i];
      TotalLengthPrefix(chunks, i + 1);
      forall j | 0 <= j < |chunk| {
        combined[offset + j] := chunk[j];
      }
      offset := offset + |chunk|;
      assert combined[..offset] == Flatten(chunks[..i + 1]);
    }
    assert chunks[..|chunks|] == chunks;
    FlattenLength(chunks);
    bytes := combined[..];
  }

  datatype Blob = Blob(bytes: seq<byte>, mimeType: string)

  /** `createAudioFromChunks`. */
  method CreateAudioFromChunks(chunks: seq<seq<byte>>) returns (blob: Blob)
    ensures blob.bytes == Flatten(chunks) && |blob.bytes| == TotalLength(chunks)
    ensures blob.mimeType == "audio/mpeg"
  {
    var bytes := Combine(chunks);
    FlattenLength(chunks);
    blob := Blob(bytes, "audio/mpeg");
  }

  // ---------------------------------------------------------------------------
  // Reading the speech stream

  /** One `reader.read()` result. */
  datatype ReadResult = ReadResult(value: Option<seq<byte>>, done: bool)

  predicate EventuallyDone(results: seq<ReadResult>) {
    exists k :: 0 <= k < |results| && results[k].done
  }

  /** The values the read loop keeps: every present value, in arrival order, up
      to and including the read that reports `done`. An empty chunk is a
      present value too. */
  function Collected(results: seq<ReadResult>): seq<seq<byte>>
    decreases |results|
  {
    if results == [] then []
    else
      (if results[0].value.Some? then [results[0].value.value] else []) +
      (if results[0].done then [] else Collected(results[1..]))
  }

  /** Nothing after the first `done` is read. */
  lemma {:induction false} CollectedStopsAtDone(results: seq<ReadResult>, k: nat, later: seq<ReadResult>)
    requires k < |results| && results[k].done
    ensures Collected(results[..k + 1] + later) == Collected(results[..k + 1])
    decreases k
  {
    if k > 0 {
      var whole := results[..k + 1] + later;
      assert whole[1..] == results[1..][..k] + later;
      assert results[..k + 1][1..] == results[1..][..k];
      CollectedStopsAtDone(results[1..], k - 1, later);
    } else {
      assert (results[..1] + later)[0] == results[0];
    }
  }

  /** `while (!done)`: read, note `done`, keep the value if there is one. */
  method ReadAll(results: seq<ReadResult>) returns (chunks: seq<seq<byte>>)
    requires EventuallyDone(results)
    ensures chunks == Collected(results)
  {
    ghost var last :| 0 <= last < |results| && results[last].done;
    var done := false;
    var k := 0;
    chunks := [];
    while !done
      invariant 0 <= k <= |results|
      invariant !done ==> k <= last && Collected(results) == chunks + Collected(results[k..])
      invariant done ==> Collected(results) == chunks
      decreases |results| - k
    {
      var r := results[k];
      ReadStep(results, k);
      var kept: seq<seq<byte>> := if r.value.Some? then [r.value.value] else [];
      if r.done {
        assert Collected(results[k..]) == kept;
      } else {
        AppendAssociative(chunks, kept, Collected(results[k + 1..]));
      }
      done := r.done;
      chunks := chunks + kept;
      k := k + 1;
    }
  }

  lemma AppendAssociative(a: seq<seq<byte>>, b: seq<seq<byte>>, c: seq<seq<byte>>)
    ensures a + (b + c) == (a + b) + c
  {
  }

  /** What one read contributes. */
  lemma ReadStep(results: seq<ReadResult>, k: nat)
    requires k < |results|
    ensures var kept := if results[k].value.Some? then [results[k].value.value] else [];
      Collected(results[k..]) == if results[k].done then kept else kept + Collected(results[k + 1..])
  {
    assert results[k..][1..] == results[k + 1..];
  }

  // ---------------------------------------------------------------------------
  // Voices

  /** A voice record as the SDK returns it; every field may be missing. */
  datatype RawVoice = RawVoice(
    voice_id: Option<string>, voiceId: Option<string>, id: Option<string>, name: Option<string>,
    preview_url: Option<string>, previewUrl: Option<string>, category: Option<string>,
    labels: Option<map<string, string>>)

  datatype Voice = Voice(
    voiceId: Option<string>, name: Option<string>, previewUrl: Option<string>,
    category: Option<string>, labels: map<string, string>)

  /** The mapping in `getVoices`. */
  function MapVoice(v: RawVoice): Voice {
    Voice(OrElse(v.voice_id, OrElse(v.voiceId, v.id)), v.name, OrElse(v.preview_url, v.previewUrl),
          v.category, if v.labels.Some? then v.labels.value else map[])
  }

  /** The id falls back from `voice_id` to `voiceId` to `id`; labels default to `{}`. */
  lemma VoiceFallbacks(v: RawVoice)
    ensures Truthy(v.voice_id) ==> MapVoice(v).voiceId == v.voice_id
    ensures !Truthy(v.voice_id) && Truthy(v.voiceId) ==> MapVoice(v).voiceId == v.voiceId
    ensures !Truthy(v.voice_id) && !Truthy(v.voiceId) ==> MapVoice(v).voiceId == v.id
    ensures v.labels.None? ==> MapVoice(v).labels == map[]
    ensures MapVoice(v).name == v.name && MapVoice(v).category == v.category
  {
  }

  // ---------------------------------------------------------------------------
  // The service

  datatype VoiceSettings = VoiceSettings(stability: real, similarityBoost: real, style: real, useSpeakerBoost: bool)

  const DefaultVoiceSettings := VoiceSettings(0.5, 0.8, 0.0, true)

  datatype StreamingOptions = StreamingOptions(
    model: Option<string>, outputFormat: Option<string>, voiceSettings: Option<VoiceSettings>)

  /** The socket address of a streaming connection. */
  function StreamUrl(voiceId: string, options: Option<StreamingOptions>): string {
    var model := if options.Some? then options.value.model else None;
    var format := if options.Some? then options.value.outputFormat else None;
    "wss://api.elevenlabs.io/v1/text-to-speech/" + voiceId + "/stream-input?model_id=" +
    OrDefault(model, "eleven_multilingual_v2") + "&output_format=" + OrDefault(format, "mp3_44100_128")
  }

  /** The JSON messages written to the streaming socket. */
  datatype StreamMessage =
    | Config(text: string, settings: VoiceSettings, apiKey: Option<string>)
    | TextChunk(text: string, tryTriggerGeneration: bool)
    | TextOnly(text: string)

  const NotConfigured := "ElevenLabs API not configured"

  /** An `ElevenLabsStreamingConnection`. */
  class Connection {
    const url: string
    const settings: VoiceSettings
    var isConnected: bool
    /** Whether `close()` has been called on the socket. */
    var closeRequested: bool
    var sent: seq<StreamMessage>

    constructor (url: string, settings: VoiceSettings)
      ensures this.url == url && this.settings == settings
      ensures !isConnected && !closeRequested && sent == []
    {
      this.url, this.settings := url, settings;
      isConnected, closeRequested, sent := false, false, [];
    }

    /** `onopen`, with the service's API key at that moment: connected, and the
        configuration message sent. */
    method Opened(apiKey: Option<string>)
      modifies this`isConnected, this`sent
      ensures isConnected
      ensures sent == old(sent) + [Config(" ", settings, apiKey)]
    {
      isConnected := true;
      sent := sent + [Config(" ", settings, apiKey)];
    }

    /** `onclose`. */
    method Closed()
      modifies this`isConnected
      ensures !isConnected
    {
      isConnected := false;
    }
  }

  class Service {
    var apiKey: Option<string>
    /** Whether the SDK client has been created. */
    var client: bool
    var streaming: Connection?

    /** `isConfigured`. */
    predicate IsConfigured()
      reads this
    {
      Truthy(apiKey) && client
    }

    /** The constructor configures the service only for a non-empty key. */
    constructor (key: Option<string>)
      ensures Truthy(key) ==> apiKey == key && client
      ensures !Truthy(key) ==> apiKey.None? && !client
      ensures IsConfigured() <==> Truthy(key)
      ensures streaming == null
    {
      streaming := null;
      if Truthy(key) {
        apiKey, client := key, true;
      } else {
        apiKey, client := None, false;
      }
    }

    /** `setApiKey`: sets both the key and the client. */
    method SetApiKey(key: string)
      modifies this`apiKey, this`client
      ensures apiKey == Some(key) && client
      ensures IsConfigured() <==> key != ""
    {
      apiKey, client := Some(key), true;
    }

    /** `getVoices`; `listed` is the SDK's answer, `None` when the request fails. */
    method GetVoices(listed: Option<seq<RawVoice>>) returns (r: Result<seq<Voice>>)
      ensures !client ==> r == Err(NotConfigured)
      ensures client && listed.None? ==> r.Err?
      ensures client && listed.Some? ==>
        && r.Ok? && |r.value| == |listed.value|
        && forall k :: 0 <= k < |listed.value| ==> r.value[k] == MapVoice(listed.value[k])
    {
      if !client {
        return Err(NotConfigured);
      }
      if listed.None? {
        return Err("Failed to get ElevenLabs voices");
      }
      var voices := seq(|listed.value|, k requires 0 <= k < |listed.value| => MapVoice(listed.value[k]));
      return Ok(voices);
    }

    /** `generateSpeech`; `stream` is the converted audio stream as the reads it
        yields, `None` when the conversion request fails. */
    method GenerateSpeech(text: string, voiceId: string, stream: Option<seq<ReadResult>>)
      returns (r: Result<seq<byte>>)
      requires stream.Some? ==> EventuallyDone(stream.value)
      ensures !client ==> r == Err(NotConfigured)
      ensures client && stream.None? ==> r.Err?
      ensures client && stream.Some? ==> r == Ok(Flatten(Collected(stream.value)))
    {
      if !client {
        return Err(NotConfigured);
      }
      if stream.None? {
        return Err("Failed to generate ElevenLabs speech");
      }
      var chunks := ReadAll(stream.value);
      var bytes := Combine(chunks);
      return Ok(bytes);
    }

    /** `createStreamingConnection`: refused without a key; otherwise a new,
        not yet connected socket replaces the stored connection, which is left
        as it was (neither closed nor marked disconnected). */
    method CreateStreamingConnection(voiceId: string, options: Option<StreamingOptions>)
      returns (r: Result<Connection>)
      modifies this`streaming
      ensures !Truthy(apiKey) ==> r == Err(NotConfigured) && streaming == old(streaming)
      ensures Truthy(apiKey) ==> r.Ok? && fresh(r.value) && streaming == r.value
      ensures Truthy(apiKey) ==> r.value.url == StreamUrl(voiceId, options)
      ensures Truthy(apiKey) ==> !r.value.isConnected && r.value.sent == []
      ensures Truthy(apiKey) ==>
        r.value.settings == (if options.Some? && options.value.voiceSettings.Some? then options.value.voiceSettings.value else DefaultVoiceSettings)
    {
      if !Truthy(apiKey) {
        return Err(NotConfigured);
      }
      var settings := if options.Some? && options.value.voiceSettings.Some? then options.value.voiceSettings.value
                      else DefaultVoiceSettings;
      var connection := new Connection(StreamUrl(voiceId, options), settings);
      streaming := connection;
      return Ok(connection);
    }

    /** A stored connection that reports itself connected. The connection's
        socket is always set before the connection is stored, so the source's
        test of it is the test that a connection is stored. */
    predicate CanSend()
      reads this, streaming
    {
      streaming != null && streaming.isConnected
    }

    /** `sendTextToStream`. */
    method SendTextToStream(text: string) returns (ok: bool)
      modifies streaming
      ensures ok == old(CanSend())
      ensures streaming == old(streaming)
      ensures streaming != null ==>
        streaming.isConnected == old(streaming.isConnected) && streaming.closeRequested == old(streaming.closeRequested)
      ensures ok ==> streaming.sent == old(streaming.sent) + [TextChunk(text, true)]
      ensures !ok && streaming != null ==> streaming.sent == old(streaming.sent)
    {
      if !CanSend() {
        return false;
      }
      streaming.sent := streaming.sent + [TextChunk(text, true)];
      return true;
    }

    /** `flushStream`: the empty text that tells the service to finish. */
    method FlushStream() returns (ok: bool)
      modifies streaming
      ensures ok == old(CanSend())
      ensures streaming == old(streaming)
      ensures streaming != null ==>
        streaming.isConnected == old(streaming.isConnected) && streaming.closeRequested == old(streaming.closeRequested)
      ensures ok ==> streaming.sent == old(streaming.sent) + [TextOnly("")]
      ensures !ok && streaming != null ==> streaming.sent == old(streaming.sent)
    {
      if !CanSend() {
        return false;
      }
      streaming.sent := streaming.sent + [TextOnly("")];
      return true;
    }

    /** `closeStreamingConnection`: close the socket and forget the connection. */
    method CloseStreamingConnection()
      modifies this`streaming, streaming
      ensures streaming == null
      ensures old(streaming) != null ==> old(streaming).closeRequested
      ensures old(streaming) != null ==>
        old(streaming).isConnected == old(streaming.isConnected) && old(streaming).sent == old(streaming.sent)
      ensures !IsStreamingActive()
    {
      if streaming != null {
        streaming.closeRequested := true;
        streaming := null;
      }
    }

    /** `isStreamingActive`. */
    predicate IsStreamingActive()
      reads this, streaming
    {
      streaming != null && streaming.isConnected
    }
  }
}
