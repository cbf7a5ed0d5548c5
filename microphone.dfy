/** The push-to-talk button: pressing it opens the microphone and records,
    releasing it (or moving the mouse off it) stops the recorder, and the
    recorder's stop event hands the recorded pieces to the page's file
    uploader as one file. */
module Microphone {
  import opened Common
  import opened Text

  /** A piece of recorded data, told apart by an id; `size` is its byte count. */
  datatype Blob = Blob(id: int, size: int)

  datatype RecorderState = Inactive | Recording

  /** A media recorder: its state and the MIME type it reports. */
  datatype Recorder = Recorder(state: RecorderState, mimeType: string)

  /** A file given to the uploader. */
  datatype File = File(name: string, mimeType: string, parts: seq<Blob>)

  /** What a stop event did: nothing was recorded; a file was uploaded; no
      uploader was found (logged); or the hook had no recorder left, so
      reading its MIME type threw. */
  datatype StopOutcome = NothingRecorded | Uploaded(file: File) | NoUploader | NoRecorder

  // ---------------------------------------------------------------------------
  // Recorded pieces

  /** The pieces the data listener keeps out of those the recorder delivers:
      every non-empty one, in arrival order. */
  function Kept(bs: seq<Blob>): (r: seq<Blob>)
    ensures forall b :: b in r ==> b in bs && b.size > 0
    ensures |r| <= |bs|
  {
    if bs == [] then [] else (if bs[0].size > 0 then [bs[0]] else []) + Kept(bs[1..])
  }

  /** Delivering pieces in two batches keeps the same pieces as one batch. */
  lemma {:induction false} KeptAppend(a: seq<Blob>, b: seq<Blob>)
    ensures Kept(a + b) == Kept(a) + Kept(b)
  {
    if a != [] {
      assert (a + b)[0] == a[0];
      assert (a + b)[1..] == a[1..] + b;
      KeptAppend(a[1..], b);
      var h := if a[0].size > 0 then [a[0]] else [];
      assert Kept(a + b) == h + (Kept(a[1..]) + Kept(b));
      assert Kept(a) == h + Kept(a[1..]);
    } else {
      assert a + b == b;
    }
  }

  /** No non-empty piece is lost. */
  lemma {:induction false} KeptAllNonEmpty(bs: seq<Blob>)
    requires forall b :: b in bs ==> b.size > 0
    ensures Kept(bs) == bs
  {
    if bs != [] {
      assert bs[0] in bs;
      KeptAllNonEmpty(bs[1..]);
    }
  }

  // ---------------------------------------------------------------------------
  // File names

  /** The prefix of `s` before the first `c`, all of `s` when it has none. */
  function UpTo(s: string, c: char): (r: string)
    ensures c !in r
    ensures |r| <= |s| && r == s[..|r|]
    ensures |r| < |s| ==> s[|r|] == c
  {
    if s == [] || s[0] == c then [] else [s[0]] + UpTo(s[1..], c)
  }

  lemma {:induction false} UpToPlain(s: string, c: char, rest: string)
    requires c !in s
    ensures UpTo(s + [c] + rest, c) == s
  {
    if s != [] {
      assert (s + [c] + rest)[1..] == s[1..] + [c] + rest;
      UpToPlain(s[1..], c, rest);
    }
  }

  /** `mime.split('/')[1]`: the text between the first and the second slash,
      or after the first when there is no second, and nothing without a slash. */
  function SecondSegment(m: string): (r: Option<string>)
    ensures r.None? <==> '/' !in m
    ensures r.Some? ==> '/' !in r.value
  {
    var head := UpTo(m, '/');
    if |head| == |m| then None else Some(UpTo(m[|head| + 1..], '/'))
  }

  /** The extension as written, `split('/')[1] || 'wav'`: the whole subtype,
      parameters included. */
  function ExtensionAsWritten(m: string): (r: string)
    ensures r != [] && '/' !in r
    ensures '/' !in m ==> r == "wav"
  {
    match SecondSegment(m)
    case Some(seg) => if seg != [] then seg else "wav"
    case None => "wav"
  }

  /** The extension the file name is meant to carry: the subtype without the
      `;`-separated parameters, or `wav`. */
  function Extension(m: string): (r: string)
    ensures r != [] && '/' !in r && ';' !in r
    ensures '/' !in m ==> r == "wav"
  {
    match SecondSegment(m)
    case Some(seg) => var e := UpTo(seg, ';'); if e != [] then e else "wav"
    case None => "wav"
  }

  /** For a plain `type/subtype` both read the subtype. */
  lemma ExtensionOfPlainType(t: string, sub: string)
    requires '/' !in t && '/' !in sub && ';' !in sub && sub != []
    ensures ExtensionAsWritten(t + "/" + sub) == sub
    ensures Extension(t + "/" + sub) == sub
  {
    var m := t + "/" + sub;
    UpToPlain(t, '/', sub);
    assert m[|t| + 1..] == sub;
  }

  /** With parameters after the subtype, as in `audio/webm;codecs=opus`, the
      name as written carries them (`webm;codecs=opus`) while the intended
      extension is the subtype alone (`webm`). */
  lemma ExtensionIgnoresParameters(t: string, sub: string, params: string)
    requires '/' !in t && '/' !in sub && ';' !in sub && sub != [] && '/' !in params
    ensures ExtensionAsWritten(t + "/" + sub + ";" + params) == sub + ";" + params
    ensures Extension(t + "/" + sub + ";" + params) == sub
  {
    var m := t + "/" + sub + ";" + params;
    UpToPlain(t, '/', sub + ";" + params);
    assert m == t + "/" + (sub + ";" + params);
    assert m[|t| + 1..] == sub + ";" + params;
    UpToPlain(sub, ';', params);
  }

  /** `mimeType || 'audio/wav'`. */
  function MimeOrDefault(m: string): (r: string)
    ensures r != []
    ensures m != [] ==> r == m
  {
    if m != [] then m else "audio/wav"
  }

  /** A recorder that reports no type yields a `.wav` file, under both readings. */
  lemma DefaultIsWav()
    ensures ExtensionAsWritten(MimeOrDefault("")) == "wav"
    ensures Extension(MimeOrDefault("")) == "wav"
  {
    ExtensionOfPlainType("audio", "wav");
    assert "audio" + "/" + "wav" == "audio/wav";
  }

  const NamePrefix := "audio_capture_"

  /** `audio_capture_{Date.now()}.{extension}`, with the extension as written. */
  function FileName(now: int, m: string): string {
    NamePrefix + IntToString(now) + "." + ExtensionAsWritten(m)
  }

  /** Where the pieces of `p + d + "." + e` sit. */
  lemma SplitName(p: string, d: string, e: string)
    ensures var n := p + d + "." + e;
      && n[..|p|] == p && n[|p|..] == d + ("." + e) && n[|p|..|p| + |d|] == d
      && n[|p| + |d| + 1..] == e
  {
  }

  /** The clock reading and the extension can be read back from the name:
      after the prefix comes a run of digits worth `now`, then a dot and the
      extension. */
  lemma FileNameReadsBack(now: nat, m: string)
    ensures var n, k := FileName(now, m), |NatToString(now)|;
      && n[..|NamePrefix|] == NamePrefix
      && LeadingDigits(n[|NamePrefix|..]) == k
      && DigitsValue(n[|NamePrefix|..|NamePrefix| + k]) == now
      && n[|NamePrefix| + k + 1..] == ExtensionAsWritten(m)
  {
    var p, d, e := NamePrefix, NatToString(now), ExtensionAsWritten(m);
    assert FileName(now, m) == p + d + "." + e;
    SplitName(p, d, e);
    NatToStringDigits(now);
    LeadingDigitsOf(d, "." + e);
    DigitsValueOfNatToString(now);
  }

  /** A file name determines the clock reading and the extension it was
      made from, so captures at different readings never share a name. */
  lemma FileNameDeterminesClock(now1: nat, now2: nat, m1: string, m2: string)
    requires FileName(now1, m1) == FileName(now2, m2)
    ensures now1 == now2 && ExtensionAsWritten(m1) == ExtensionAsWritten(m2)
  {
    var n, q := FileName(now1, m1), |NamePrefix|;
    var k1, k2 := |NatToString(now1)|, |NatToString(now2)|;
    FileNameReadsBack(now1, m1);
    FileNameReadsBack(now2, m2);
    assert k1 == LeadingDigits(n[q..]) == k2;
    assert now1 == DigitsValue(n[q..q + k1]) == now2;
  }

  /** A recorder type with parameters, such as Chrome's usual
      `audio/webm;codecs=opus`, names the upload
      `audio_capture_<now>.webm;codecs=opus`: the parameters land in the file's
      extension, where the intended extension is the subtype alone. */
  lemma FileNameKeepsParameters(now: int, t: string, sub: string, params: string)
    requires '/' !in t && '/' !in sub && ';' !in sub && sub != [] && '/' !in params
    ensures FileName(now, t + "/" + sub + ";" + params) == NamePrefix + IntToString(now) + "." + sub + ";" + params
    ensures Extension(t + "/" + sub + ";" + params) == sub
  {
    ExtensionIgnoresParameters(t, sub, params);
  }



  // ---------------------------------------------------------------------------
  // The hook

  class Hook {
    var recorder: Option<Recorder>
    var chunks: seq<Blob>
    /** Microphone requests not yet answered. */
    var pendingRequests: nat
    /** Stop events still to come from a recorder that was stopped while recording. */
    var pendingStops: nat
    /** Microphone streams opened and not yet stopped. */
    var liveStreams: nat
    /** Files handed to the uploader, in order. */
    var uploads: seq<File>

    /** Only non-empty pieces are held, and the current recorder's stream is live. */
    predicate Valid()
      reads this
    {
      && (forall b :: b in chunks ==> b.size > 0)
      && (recorder.Some? ==> liveStreams >= 1)
    }

    /** `isRecording()`. */
    predicate IsRecording()
      reads this
    {
      recorder.Some? && recorder.value.state == Recording
    }

    /** `mounted`: no recorder and no pieces. */
    constructor ()
      ensures Valid() && recorder.None? && chunks == [] && uploads == []
      ensures pendingRequests == 0 && pendingStops == 0 && liveStreams == 0
    {
      recorder, chunks, uploads := None, [], [];
      pendingRequests, pendingStops, liveStreams := 0, 0, 0;
    }

    /** `startRecording`: the pieces are emptied before the microphone is asked for. */
    method StartRecording()
      requires Valid()
      modifies this`chunks, this`pendingRequests
      ensures Valid() && chunks == [] && pendingRequests == old(pendingRequests) + 1
    {
      chunks := [];
      pendingRequests := pendingRequests + 1;
    }

    /** The microphone is granted: a new recorder on the new stream replaces
        the hook's recorder and starts. */
    method MicGranted(mimeType: string)
      requires Valid() && pendingRequests > 0
      modifies this`recorder, this`pendingRequests, this`liveStreams
      ensures Valid() && IsRecording()
      ensures recorder == Some(Recorder(Recording, mimeType))
      ensures pendingRequests == old(pendingRequests) - 1 && liveStreams == old(liveStreams) + 1
    {
      recorder := Some(Recorder(Recording, mimeType));
      pendingRequests := pendingRequests - 1;
      liveStreams := liveStreams + 1;
    }

    /** The microphone is refused: the error is only logged. */
    method MicDenied()
      requires pendingRequests > 0
      modifies this`pendingRequests
      ensures pendingRequests == old(pendingRequests) - 1
    {
      pendingRequests := pendingRequests - 1;
    }

    /** The data listener: a non-empty piece is appended, an empty one ignored. */
    method DataAvailable(b: Blob)
      requires Valid()
      modifies this`chunks
      ensures Valid() && chunks == old(chunks) + Kept([b])
    {
      if b.size > 0 {
        chunks := chunks + [b];
      }
    }

    /** `stopRecording`: without a recorder nothing happens; otherwise the
        recorder is stopped, which schedules a stop event when it was recording. */
    method StopRecording()
      requires Valid()
      modifies this`recorder, this`pendingStops
      ensures Valid() && !IsRecording()
      ensures old(recorder).None? ==> recorder.None? && pendingStops == old(pendingStops)
      ensures old(recorder).Some? ==> recorder == Some(old(recorder).value.(state := Inactive))
      ensures pendingStops == old(pendingStops) + (if old(IsRecording()) then 1 else 0)
    {
      if recorder.None? {
        return;
      }
      if recorder.value.state == Recording {
        pendingStops := pendingStops + 1;
      }
      recorder := Some(recorder.value.(state := Inactive));
    }

    /** The stop event at clock reading `now`, with or without an uploader on
        the page. With no pieces it returns at once, leaving the recorder and
        its stream in place; otherwise the pieces go out as one file when an
        uploader is found, and the stream is stopped and the recorder dropped. */
    method Stopped(now: int, uploaderFound: bool) returns (outcome: StopOutcome)
      requires Valid() && pendingStops > 0
      modifies this`recorder, this`pendingStops, this`liveStreams, this`uploads
      ensures Valid() && pendingStops == old(pendingStops) - 1
      ensures outcome.NothingRecorded? <==> old(chunks) == []
      ensures outcome.NoRecorder? <==> old(chunks) != [] && old(recorder).None?
      ensures outcome.NothingRecorded? || outcome.NoRecorder? ==>
        recorder == old(recorder) && liveStreams == old(liveStreams) && uploads == old(uploads)
      ensures outcome.Uploaded? || outcome.NoUploader? ==>
        recorder.None? && liveStreams == old(liveStreams) - 1
      ensures outcome.Uploaded? <==> old(chunks) != [] && old(recorder).Some? && uploaderFound
      ensures outcome.Uploaded? ==>
        var mime := MimeOrDefault(old(recorder).value.mimeType);
        && outcome.file == File(FileName(now, mime), mime, chunks)
        && uploads == old(uploads) + [outcome.file]
      ensures !outcome.Uploaded? ==> uploads == old(uploads)
    {
      pendingStops := pendingStops - 1;
      if |chunks| == 0 {
        return NothingRecorded;
      }
      if recorder.None? {
        return NoRecorder;
      }
      var mime := MimeOrDefault(recorder.value.mimeType);
      if uploaderFound {
        var f := File(FileName(now, mime), mime, chunks);
        uploads := uploads + [f];
        outcome := Uploaded(f);
      } else {
        outcome := NoUploader;
      }
      liveStreams := liveStreams - 1;
      recorder := None;
    }

    /** Mouse down: start recording unless the button is disabled. */
    method MouseDown(disabled: bool)
      requires Valid()
      modifies this`chunks, this`pendingRequests
      ensures Valid()
      ensures disabled ==> chunks == old(chunks) && pendingRequests == old(pendingRequests)
      ensures !disabled ==> chunks == [] && pendingRequests == old(pendingRequests) + 1
    {
      if disabled {
        return;
      }
      StartRecording();
    }

    /** Mouse up, and the mouse leaving the button: stop only when the
        button is enabled and a recording is under way. */
    method MouseUp(disabled: bool)
      requires Valid()
      modifies this`recorder, this`pendingStops
      ensures Valid()
      ensures disabled || !old(IsRecording()) ==> recorder == old(recorder) && pendingStops == old(pendingStops)
      ensures !disabled && old(IsRecording()) ==>
        recorder == Some(old(recorder).value.(state := Inactive)) && pendingStops == old(pendingStops) + 1
    {
      if disabled || !IsRecording() {
        return;
      }
      StopRecording();
    }

    /** `destroyed`: a recording under way has its stream stopped and its
        recorder dropped; an idle recorder is left as it is. */
    method Destroyed()
      requires Valid()
      modifies this`recorder, this`liveStreams
      ensures Valid()
      ensures old(IsRecording()) ==> recorder.None? && liveStreams == old(liveStreams) - 1
      ensures !old(IsRecording()) ==> recorder == old(recorder) && liveStreams == old(liveStreams)
    {
      if IsRecording() {
        liveStreams := liveStreams - 1;
        recorder := None;
      }
    }
  }

  /** A press on an enabled button and a granted microphone: a recording
      is under way with no pieces yet. */
  method Press(mime: string) returns (h: Hook)
    ensures fresh(h) && h.Valid() && h.IsRecording() && h.recorder.value.mimeType == mime
    ensures h.chunks == [] && h.uploads == [] && h.liveStreams == 1 && h.pendingStops == 0
  {
    h := new Hook();
    h.MouseDown(false);
    h.MicGranted(mime);
  }

  /** While recording, a piece with data is kept and an empty piece is not. */
  method Capture(h: Hook, b1: Blob, b2: Blob)
    requires h.Valid() && h.chunks == [] && b1.size > 0 && b2.size <= 0
    modifies h`chunks
    ensures h.Valid() && h.chunks == [b1]
  {
    h.DataAvailable(b1);
    assert Kept([b1]) == [b1] + Kept([]);
    h.DataAvailable(b2);
    assert Kept([b2]) == Kept([]);
  }

  /** Releasing the button and the stop event that follows: the pieces held
      are uploaded as one file named after the clock and everything after the
      `/` of the recorder's type, and the microphone is released. */
  method Release(h: Hook, now: int)
    requires h.Valid() && h.IsRecording() && h.recorder.value.mimeType != [] && h.chunks != []
    requires h.liveStreams == 1 && h.pendingStops == 0
    modifies h`recorder, h`pendingStops, h`liveStreams, h`uploads
    ensures h.Valid() && h.recorder.None? && h.liveStreams == 0 && h.pendingStops == 0
    ensures var mime := old(h.recorder).value.mimeType;
      h.uploads == old(h.uploads) + [File(FileName(now, mime), mime, h.chunks)]
  {
    ghost var mime := h.recorder.value.mimeType;
    h.MouseUp(false);
    assert h.recorder == Some(Recorder(Inactive, mime));
    var outcome := h.Stopped(now, true);
    assert MimeOrDefault(mime) == mime;
  }

  /** A press released before any data arrives leaves the microphone open:
      the stop event returns early, and `destroyed` then sees no recording. */
  method EmptyPressKeepsMicrophone(mime: string) returns (h: Hook)
    ensures fresh(h) && h.Valid() && h.recorder == Some(Recorder(Inactive, mime)) && h.liveStreams == 1
  {
    h := new Hook();
    h.MouseDown(false);
    h.MicGranted(mime);
    h.MouseUp(false);
    var outcome := h.Stopped(0, true);
    h.Destroyed();
  }
}
