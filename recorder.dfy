/** The recorder component of app/components/AudioRecorder.tsx: it collects the recorder's
    data chunks, derives the MIME type and file type of the recording, and builds the `audio`
    and `upload` commands sent to the relay of server-ws.js.

    `connected` stands for `socketRef.current` being set when the reader finishes. Status
    texts are not modelled. */
module Recorder {
  import opened Common
  import RelaySession

  const DefaultAudioType := "audio/webm"

  /** The hook state the component receives as props. */
  datatype Settings = Settings(model: string, language: Option<string>, operation: string, outputLanguage: string)

  /** An outbound command; a field that is None is `undefined` and left out of the JSON. */
  datatype Command = Command(
    kind: string, audio: seq<byte>, fileType: Option<string>, model: string, language: Option<string>,
    operation: string, outputLanguage: Option<string>, responseFormat: string, temperature: string)

  /** A file picked for upload. */
  datatype FileInfo = FileInfo(name: string, body: Blob)

  /** What the round button does. */
  datatype ButtonAction = StartRecording | StopRecording

  datatype RecorderState = RecorderState(
    recording: bool, buffer: seq<Blob>, myFileType: string, captured: Settings, sent: seq<Command>)

  // ---------------------------------------------------------------- the pure parts

  /** `(buffer[0].type || "audio/webm").split(";")[0]`; there is none for an empty buffer,
      where reading `buffer[0].type` throws. */
  function AudioType(buffer: seq<Blob>): Option<string>
  {
    if buffer == [] then None
    else
      var t := if buffer[0].mimeType == "" then DefaultAudioType else buffer[0].mimeType;
      Some(Split(t, ';')[0])
  }

  /** `mime.split("/")[1]`: undefined when there is no "/". */
  function Subtype(mime: string): Option<string>
  {
    var parts := Split(mime, '/');
    if |parts| >= 2 then Some(parts[1]) else None
  }

  /** The output language is sent only for the operations that produce speech. */
  function OutputLanguageFor(s: Settings): Option<string>
  {
    if s.operation == "translation" || s.operation == "conversation" then Some(s.outputLanguage) else None
  }

  function CommandFor(kind: string, audio: seq<byte>, fileType: Option<string>, s: Settings): Command
  {
    Command(kind, audio, fileType, s.model, s.language, s.operation, OutputLanguageFor(s), "json", "0")
  }

  /** The bytes of `new Blob(buffer)`. */
  function Recorded(buffer: seq<Blob>): seq<byte>
  {
    Flatten(BlobBytes(buffer))
  }

  /** `ondataavailable`: only chunks with `size > 0` are kept. */
  function Collected(buffer: seq<Blob>, chunk: Blob): seq<Blob>
  {
    if |chunk.bytes| > 0 then buffer + [chunk] else buffer
  }

  function CollectedAll(buffer: seq<Blob>, chunks: seq<Blob>): seq<Blob>
  {
    if chunks == [] then buffer else Collected(CollectedAll(buffer, chunks[..|chunks| - 1]), chunks[|chunks| - 1])
  }

  /** `onstop` through the reader's `onloadend`, with the settings the recording started with. */
  function Stopped(st: RecorderState, connected: bool): RecorderState
  {
    var ended := st.(recording := false);
    match AudioType(st.buffer)
    case None => ended
    case Some(t) =>
      var typed := ended.(myFileType := t);
      if connected then typed.(sent := st.sent + [CommandFor("audio", Recorded(st.buffer), Subtype(t), st.captured)])
      else typed
  }

  /** `handleFileUpload` through the reader's `onloadend`; `loaded` is the reader having
      produced the file's bytes (a non-null `reader.result`). */
  function Uploaded(st: RecorderState, file: Option<FileInfo>, loaded: bool, connected: bool, s: Settings): RecorderState
  {
    if file.Some? && connected && loaded then
      st.(sent := st.sent + [CommandFor("upload", file.value.body.bytes, Subtype(file.value.body.mimeType), s)])
    else st
  }

  /** `onClick={recording ? stopRecording : startRecording}` */
  function ButtonFor(recording: bool): ButtonAction
  {
    if recording then StopRecording else StartRecording
  }

  /** A command as the relay reads it: JSON drops undefined fields, and the relay reads a
      missing field as "". */
  function ToInbound(c: Command): RelaySession.Inbound
  {
    RelaySession.Inbound(c.kind, c.audio, Present(c.fileType), c.model, Present(c.language), c.operation,
      Present(c.outputLanguage), c.responseFormat, c.temperature)
  }

  function Present(v: Option<string>): string
  {
    if v.Some? then v.value else ""
  }

  // ---------------------------------------------------------------- properties

  /** Dropping the empty chunks loses no audio: the kept chunks are all non-empty, and their
      bytes in order are the bytes of every chunk in order. */
  lemma {:induction false} CollectedKeepsAudio(chunks: seq<Blob>)
    ensures var kept := CollectedAll([], chunks);
      && (forall k :: 0 <= k < |kept| ==> |kept[k].bytes| > 0)
      && Recorded(kept) == Recorded(chunks)
    decreases |chunks|
  {
    if chunks != [] {
      var init := chunks[..|chunks| - 1];
      var last := chunks[|chunks| - 1];
      assert chunks == init + [last];
      CollectedKeepsAudio(init);
      RecordedSnoc(init, last);
      if |last.bytes| > 0 {
        RecordedSnoc(CollectedAll([], init), last);
      } else {
        assert last.bytes == [];
      }
    }
  }

  /** The bytes of a buffer with one more chunk. */
  lemma RecordedSnoc(buffer: seq<Blob>, chunk: Blob)
    ensures Recorded(buffer + [chunk]) == Recorded(buffer) + chunk.bytes
  {
    assert BlobBytes(buffer + [chunk]) == BlobBytes(buffer) + [chunk.bytes];
    FlattenAppend(BlobBytes(buffer), [chunk.bytes]);
    assert Flatten([chunk.bytes]) == chunk.bytes;
  }

  /** The recording's type is the first chunk's MIME type up to ";" ("audio/webm" when that
      is empty), and its file type the part after "/". */
  lemma AudioTypeOf(first: Blob, rest: seq<Blob>, major: string, minor: string, params: string)
    requires ';' !in major && ';' !in minor && '/' !in major && '/' !in minor
    requires first.mimeType == major + "/" + minor + ";" + params
    ensures AudioType([first] + rest) == Some(major + "/" + minor)
    ensures Subtype(major + "/" + minor) == Some(minor)
  {
    var base := major + "/" + minor;
    assert ';' !in base;
    assert first.mimeType == base + ";" + params;
    SplitHead(base, params, ';');
    SplitHead(major, minor, '/');
    SplitNoSep(minor, '/');
  }

  /** A MIME type without parameters is the recording's type as it is. */
  lemma AudioTypePlain(first: Blob, rest: seq<Blob>, major: string, minor: string)
    requires ';' !in major && ';' !in minor && '/' !in major && '/' !in minor
    requires first.mimeType == major + "/" + minor
    ensures AudioType([first] + rest) == Some(major + "/" + minor)
    ensures Subtype(major + "/" + minor) == Some(minor)
  {
    var base := major + "/" + minor;
    assert ';' !in base;
    SplitNoSep(base, ';');
    SplitHead(major, minor, '/');
    SplitNoSep(minor, '/');
  }

  /** A chunk without a type gives "audio/webm" and file type "webm"; an empty buffer gives
      no type, and the stop handler then sends nothing. */
  lemma AudioTypeDefaults(first: Blob, rest: seq<Blob>, st: RecorderState, connected: bool)
    requires first.mimeType == ""
    ensures AudioType([first] + rest) == Some("audio/webm")
    ensures Subtype("audio/webm") == Some("webm")
    ensures st.buffer == [] ==> Stopped(st, connected) == st.(recording := false)
  {
    SplitNoSep("audio/webm", ';');
    WebmSubtype();
  }

  lemma WebmSubtype()
    ensures Subtype("audio/webm") == Some("webm")
  {
    var m := "audio" + "/" + "webm";
    assert m == "audio/webm";
    SplitHead("audio", "webm", '/');
    SplitNoSep("webm", '/');
  }

  /** Stopping a non-empty recording with the socket there sends one "audio" command with
      the bytes of every kept chunk, the captured settings and the fixed format fields. */
  lemma StopSendsRecording(st: RecorderState)
    requires st.buffer != []
    ensures var r := Stopped(st, true);
      && !r.recording
      && r.myFileType == AudioType(st.buffer).value
      && |r.sent| == |st.sent| + 1
      && var c := r.sent[|r.sent| - 1];
         && c.kind == "audio" && c.audio == Recorded(st.buffer)
         && c.model == st.captured.model && c.language == st.captured.language
         && c.operation == st.captured.operation
         && c.responseFormat == "json" && c.temperature == "0"
         && c.fileType == Subtype(AudioType(st.buffer).value)
  {
  }

  /** Both command kinds carry the output language exactly for "translation" and
      "conversation". */
  lemma OutputLanguageRule(kind: string, audio: seq<byte>, fileType: Option<string>, s: Settings)
    ensures var c := CommandFor(kind, audio, fileType, s);
      && (c.outputLanguage.Some? <==> s.operation == "translation" || s.operation == "conversation")
      && (c.outputLanguage.Some? ==> c.outputLanguage.value == s.outputLanguage)
      && c.model == s.model && c.language == s.language && c.operation == s.operation
      && c.responseFormat == "json" && c.temperature == "0"
  {
  }

  /** An upload sends the file's bytes in order, with the part of its type after "/"; without
      a file, a socket or a read result nothing changes. */
  lemma UploadSendsFile(st: RecorderState, file: FileInfo, s: Settings)
    ensures var r := Uploaded(st, Some(file), true, true, s);
      r.sent == st.sent + [CommandFor("upload", file.body.bytes, Subtype(file.body.mimeType), s)]
      && r.(sent := st.sent) == st
    ensures forall loaded, connected ::
      Uploaded(st, None, loaded, connected, s) == st && Uploaded(st, Some(file), loaded, false, s) == st
    ensures Uploaded(st, Some(file), false, true, s) == st
  {
  }

  /** What the relay makes of a command: the fixed format fields, the current model, and the
      output language "fr" whenever the operation does not send one. */
  lemma RelayReadsCommand(kind: string, audio: seq<byte>, fileType: Option<string>, s: Settings)
    ensures var p := RelaySession.Defaults(ToInbound(CommandFor(kind, audio, fileType, s)));
      && p.responseFormat == "json" && p.temperature == "0"
      && (s.model != "" ==> p.model == s.model)
      && (s.operation != "translation" && s.operation != "conversation" ==> p.outputLanguage == "fr")
      && (s.operation == "translation" && s.outputLanguage != "" ==> p.outputLanguage == s.outputLanguage)
      && (s.language.None? ==> p.language == "zh")
  {
  }

  /** The button stops exactly while recording. */
  lemma ButtonToggles(recording: bool)
    ensures ButtonFor(recording) == StopRecording <==> recording
  {
  }

  // ---------------------------------------------------------------- the component

  class AudioRecorder {
    var recording: bool
    var buffer: seq<Blob>
    var myFileType: string
    /** The props the running recording's handlers closed over. */
    var captured: Settings
    var sent: seq<Command>

    function State(): RecorderState
      reads this
    {
      RecorderState(recording, buffer, myFileType, captured, sent)
    }

    constructor (s: Settings)
      ensures State() == RecorderState(false, [], "", s, [])
    {
      recording := false;
      buffer := [];
      myFileType := "";
      captured := s;
      sent := [];
    }

    /** `startRecording`: the flag is set, the buffer emptied, and the handlers installed now
        see the props of this render. */
    method Start(s: Settings)
      modifies this
      ensures State() == old(State()).(recording := true, buffer := [], captured := s)
      ensures ButtonFor(recording) == StopRecording
    {
      recording := true;
      captured := s;
      buffer := [];
    }

    method OnDataAvailable(chunk: Blob)
      modifies this
      ensures State() == old(State()).(buffer := Collected(old(buffer), chunk))
    {
      if |chunk.bytes| > 0 {
        buffer := buffer + [chunk];
      }
    }

    method OnStop(connected: bool)
      modifies this
      ensures State() == Stopped(old(State()), connected)
      ensures ButtonFor(recording) == StartRecording
    {
      recording := false;
      if buffer != [] {
        var t := AudioType(buffer).value;
        myFileType := t;
        if connected {
          sent := sent + [CommandFor("audio", Recorded(buffer), Subtype(t), captured)];
        }
      }
    }

    method HandleFileUpload(file: Option<FileInfo>, loaded: bool, connected: bool, s: Settings)
      modifies this
      ensures State() == Uploaded(old(State()), file, loaded, connected, s)
    {
      if file.Some? && connected && loaded {
        sent := sent + [CommandFor("upload", file.value.body.bytes, Subtype(file.value.body.mimeType), s)];
      }
    }
  }
}
