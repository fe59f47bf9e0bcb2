/** The legacy relay of server.js: each WebSocket connection keeps the audio buffers it has
    received since it opened or since the last "stop". Every "audio" message appends its
    buffer, writes the concatenation of all of them to a fresh file under uploads/, posts that
    file to the transcription backend with fixed settings, and answers with the text or with
    an error.

    The backend is an oracle: `Reply` is what `fetch` plus `response.json()` produced.
    `Date.now()` is the input `stamp`; `locked` is the set of paths whose `unlinkSync` fails. */
module LegacyRelay {
  import opened Common

  const FixedModel := "Systran/faster-whisper-large-v3"
  const FixedLanguage := "zh"
  const FixedResponseFormat := "json"
  const FixedTemperature := "0"
  const TranscribeError := "Error transcribing audio"

  /** An inbound command: only `type` and the (decoded) `audio` are read. */
  datatype Inbound = Inbound(kind: string, audio: seq<byte>)

  /** An outbound event; a body without `text` gives a transcription event without text. */
  datatype Event = Transcription(text: Option<string>) | Error(message: string)

  /** The multipart form posted to the transcription backend. */
  datatype Request = Request(
    file: seq<byte>, model: string, language: string, responseFormat: string, temperature: string)

  /** The backend's answer: the request or the JSON parse failed, or a body with maybe a `text`. */
  datatype Reply = Failed | Body(text: Option<string>)

  /** What one message observes from outside: the clock and the backend. */
  datatype Env = Env(stamp: nat, reply: Reply)

  datatype Input = Input(m: Inbound, env: Env)

  datatype State = Snapshot(
    buffer: seq<seq<byte>>, disk: map<string, seq<byte>>, events: seq<Event>, requests: seq<Request>)

  // ---------------------------------------------------------------- the specification

  /** `uploads/audio_${Date.now()}.webm` */
  function FilePath(stamp: nat): string
  {
    "uploads/audio_" + NatToString(stamp) + ".webm"
  }

  /** The form for a file: the settings are fixed, whatever the message carried. */
  function FormFor(file: seq<byte>): Request
  {
    Request(file, FixedModel, FixedLanguage, FixedResponseFormat, FixedTemperature)
  }

  /** The "audio" branch: push, concatenate, write, post, then delete and answer, or report. */
  function OnAudio(s: State, locked: set<string>, audio: seq<byte>, env: Env): State
  {
    var buffer := s.buffer + [audio];
    var file := Flatten(buffer);
    var path := FilePath(env.stamp);
    var written := s.disk[path := file];
    var sent := s.requests + [FormFor(file)];
    match env.reply
    case Failed =>
      Snapshot(buffer, written, s.events + [Error(TranscribeError)], sent)
    case Body(text) =>
      if path in locked then Snapshot(buffer, written, s.events + [Error(TranscribeError)], sent)
      else Snapshot(buffer, written - {path}, s.events + [Transcription(text)], sent)
  }

  /** One message: the "audio" and "stop" checks are two independent `if`s. */
  function Handle(s: State, locked: set<string>, i: Input): State
  {
    var afterAudio := if i.m.kind == "audio" then OnAudio(s, locked, i.m.audio, i.env) else s;
    if i.m.kind == "stop" then afterAudio.(buffer := []) else afterAudio
  }

  function Run(s: State, locked: set<string>, inputs: seq<Input>): State
  {
    if inputs == [] then s
    else Handle(Run(s, locked, inputs[..|inputs| - 1]), locked, inputs[|inputs| - 1])
  }

  // ---------------------------------------------------------------- reference definitions

  /** The audio payloads of the "audio" messages among `inputs`, in order. */
  function AudioOf(inputs: seq<Input>): seq<seq<byte>>
  {
    if inputs == [] then [] else AudioOf(inputs[..|inputs| - 1]) + Payload(inputs[|inputs| - 1])
  }

  /** The payload one message contributes to the buffer. */
  function Payload(i: Input): seq<seq<byte>>
  {
    if i.m.kind == "audio" then [i.m.audio] else []
  }

  /** The position of the last "stop" message, or -1. */
  function LastStop(inputs: seq<Input>): (r: int)
    ensures -1 <= r < |inputs|
    ensures r != -1 ==> inputs[r].m.kind == "stop"
    ensures forall k :: r < k < |inputs| ==> inputs[k].m.kind != "stop"
  {
    if inputs == [] then -1
    else if inputs[|inputs| - 1].m.kind == "stop" then |inputs| - 1
    else LastStop(inputs[..|inputs| - 1])
  }

  /** The number of "audio" messages among `inputs`. */
  function AudioCount(inputs: seq<Input>): nat
  {
    |AudioOf(inputs)|
  }

  // ---------------------------------------------------------------- properties

  /** One "audio" message: the file sent is the concatenation of every buffer held, its length
      is the sum of their lengths, and the form carries the fixed settings. */
  lemma AudioSendsConcatenation(s: State, locked: set<string>, i: Input)
    requires i.m.kind == "audio"
    ensures var r := Handle(s, locked, i);
      && r.buffer == s.buffer + [i.m.audio]
      && r.requests == s.requests + [Request(Flatten(r.buffer), "Systran/faster-whisper-large-v3", "zh", "json", "0")]
      && |r.requests[|r.requests| - 1].file| == TotalLength(r.buffer)
  {
    FlattenLength(s.buffer + [i.m.audio]);
  }

  /** A successful answer whose file could be deleted: the file is gone and the text is sent. */
  lemma AudioSuccess(s: State, locked: set<string>, i: Input)
    requires i.m.kind == "audio" && i.env.reply.Body? && FilePath(i.env.stamp) !in locked
    ensures var r := Handle(s, locked, i);
      && r.events == s.events + [Transcription(i.env.reply.text)]
      && FilePath(i.env.stamp) !in r.disk
      && forall f :: f in s.disk && f != FilePath(i.env.stamp) ==> f in r.disk && r.disk[f] == s.disk[f]
  {
  }

  /** A failed request, an unparseable body, or a failed delete: exactly one error event, and
      the written file stays on disk. */
  lemma AudioFailure(s: State, locked: set<string>, i: Input)
    requires i.m.kind == "audio" && (i.env.reply.Failed? || FilePath(i.env.stamp) in locked)
    ensures var r := Handle(s, locked, i);
      && r.events == s.events + [Error("Error transcribing audio")]
      && FilePath(i.env.stamp) in r.disk
      && r.disk[FilePath(i.env.stamp)] == Flatten(s.buffer + [i.m.audio])
  {
  }

  /** Messages other than "audio" and "stop" change nothing. */
  lemma OtherKindsIgnored(s: State, locked: set<string>, i: Input)
    requires i.m.kind != "audio" && i.m.kind != "stop"
    ensures Handle(s, locked, i) == s
  {
  }

  /** "stop" empties the buffer and does nothing else. */
  lemma StopResets(s: State, locked: set<string>, i: Input)
    requires i.m.kind == "stop"
    ensures Handle(s, locked, i) == s.(buffer := [])
  {
  }

  /** The buffer after a run holds the audio received since the last "stop" (or, with no
      "stop", since the start). */
  lemma {:induction false} BufferSinceLastStop(s: State, locked: set<string>, inputs: seq<Input>)
    ensures var l := LastStop(inputs);
      Run(s, locked, inputs).buffer
        == if l == -1 then s.buffer + AudioOf(inputs) else AudioOf(inputs[l + 1..])
    decreases |inputs|
  {
    if inputs != [] {
      var init := inputs[..|inputs| - 1];
      var last := inputs[|inputs| - 1];
      BufferSinceLastStop(s, locked, init);
      if last.m.kind == "stop" {
        assert inputs[|inputs|..] == [];
      } else {
        HandleAppends(Run(s, locked, init), locked, last);
        var l := LastStop(init);
        if l != -1 {
          AudioOfSuffix(inputs, l + 1);
        } else {
          SeqAssoc(s.buffer, AudioOf(init), Payload(last));
        }
      }
    }
  }

  /** A message other than "stop" appends its payload to the buffer. */
  lemma HandleAppends(s: State, locked: set<string>, i: Input)
    requires i.m.kind != "stop"
    ensures Handle(s, locked, i).buffer == s.buffer + Payload(i)
  {
  }

  lemma AudioOfSuffix(inputs: seq<Input>, k: nat)
    requires k < |inputs|
    ensures AudioOf(inputs[k..]) == AudioOf(inputs[..|inputs| - 1][k..]) + Payload(inputs[|inputs| - 1])
  {
    assert inputs[k..][..|inputs[k..]| - 1] == inputs[..|inputs| - 1][k..];
  }

  /** A connection that opened with an empty buffer holds the audio since the last "stop". */
  lemma FromOpen(locked: set<string>, disk: map<string, seq<byte>>, inputs: seq<Input>)
    requires LastStop(inputs) == -1
    ensures Run(Snapshot([], disk, [], []), locked, inputs).buffer == AudioOf(inputs)
  {
    BufferSinceLastStop(Snapshot([], disk, [], []), locked, inputs);
  }

  /** Every "audio" message produces exactly one event and one request, and nothing else does;
      every request carries the fixed settings. */
  lemma {:induction false} OneAnswerPerAudio(s: State, locked: set<string>, inputs: seq<Input>)
    requires forall k :: 0 <= k < |s.requests| ==> FixedForm(s.requests[k])
    ensures var r := Run(s, locked, inputs);
      && |r.events| == |s.events| + AudioCount(inputs)
      && |r.requests| == |s.requests| + AudioCount(inputs)
      && forall k :: 0 <= k < |r.requests| ==> FixedForm(r.requests[k])
    decreases |inputs|
  {
    if inputs != [] {
      var init := inputs[..|inputs| - 1];
      OneAnswerPerAudio(s, locked, init);
      var p := Run(s, locked, init);
      var r := Handle(p, locked, inputs[|inputs| - 1]);
      assert forall k :: 0 <= k < |p.requests| ==> r.requests[k] == p.requests[k];
    }
  }

  predicate FixedForm(q: Request)
  {
    q.model == FixedModel && q.language == FixedLanguage
    && q.responseFormat == FixedResponseFormat && q.temperature == FixedTemperature
  }

  // ---------------------------------------------------------------- the loops of the handler

  /** `audioBuffer.reduce((acc, buf) => acc + buf.length, 0)` */
  method SumLengths(parts: seq<seq<byte>>) returns (n: nat)
    ensures n == TotalLength(parts)
    ensures n == |Flatten(parts)|
  {
    n := 0;
    for i := 0 to |parts|
      invariant n == TotalLength(parts[..i])
    {
      assert parts[..i + 1][..i] == parts[..i];
      n := n + |parts[i]|;
    }
    assert parts[..|parts|] == parts;
    FlattenLength(parts);
  }

  /** `Buffer.concat(list, totalLength)`: the buffers copied in order into a buffer of
      `totalLength` bytes, truncated when they are longer and zero-filled when shorter. */
  method Concat(parts: seq<seq<byte>>, totalLength: nat) returns (r: seq<byte>)
    ensures |r| == totalLength
    ensures totalLength <= |Flatten(parts)| ==> r == Flatten(parts)[..totalLength]
    ensures totalLength > |Flatten(parts)| ==>
      r[..|Flatten(parts)|] == Flatten(parts) && forall k :: |Flatten(parts)| <= k < |r| ==> r[k] == 0
  {
    var all: seq<byte> := [];
    for i := 0 to |parts|
      invariant all == Flatten(parts[..i])
    {
      assert parts[..i + 1][..i] == parts[..i];
      all := all + parts[i];
    }
    assert parts[..|parts|] == parts;
    if totalLength <= |all| {
      r := all[..totalLength];
    } else {
      r := all + Zeros(totalLength - |all|);
    }
  }

  function Zeros(n: nat): (z: seq<byte>)
    ensures |z| == n && forall k :: 0 <= k < n ==> z[k] == 0
  {
    seq(n, _ => 0)
  }

  /** The connection's state, updated in place by each message. */
  class Connection {
    const locked: set<string>
    var audioBuffer: seq<seq<byte>>
    var disk: map<string, seq<byte>>
    var events: seq<Event>
    var requests: seq<Request>

    function State(): State
      reads this
    {
      Snapshot(audioBuffer, disk, events, requests)
    }

    /** `let audioBuffer = []` on connection. */
    constructor (locked: set<string>, disk: map<string, seq<byte>>)
      ensures this.locked == locked
      ensures State() == Snapshot([], disk, [], [])
    {
      this.locked := locked;
      audioBuffer := [];
      this.disk := disk;
      events := [];
      requests := [];
    }

    /** The `message` handler, run to completion. */
    method Receive(m: Inbound, env: Env)
      modifies this
      ensures State() == Handle(old(State()), locked, Input(m, env))
    {
      if m.kind == "audio" {
        audioBuffer := audioBuffer + [m.audio];
        var total := SumLengths(audioBuffer);
        var file := Concat(audioBuffer, total);
        assert file == Flatten(audioBuffer);
        var path := FilePath(env.stamp);
        disk := disk[path := file];
        requests := requests + [FormFor(file)];
        match env.reply {
          case Failed =>
            events := events + [Error(TranscribeError)];
          case Body(text) =>
            if path in locked {
              events := events + [Error(TranscribeError)];
            } else {
              disk := disk - {path};
              events := events + [Transcription(text)];
            }
        }
        assert State() == OnAudio(old(State()), locked, m.audio, env);
      }
      if m.kind == "stop" {
        audioBuffer := [];
      }
    }
  }
}
