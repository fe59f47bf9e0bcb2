/** The client state of app/hooks/useRealTimeTranscription.ts: the model, language,
    operation and voice settings, the list of received messages with its status line, message
    editing, and the choice between speech synthesis and the audio element when a message is
    played.

    React state cells are the fields of class `Hook`; each handler runs to completion and its
    updates are visible to the next event. The localised status texts are the `Dictionary`
    input, and the language keys come from a constants module that is not part of this model,
    so they are the input `keys`. The available voices arrive through `VoicesLoaded`. */
module TranscriptionHook {
  import opened Common

  const LargeV3 := "Systran/faster-whisper-large-v3"
  const TranslationVoice := "Amélie"
  const ConversationVoice := "美嘉"
  const SpeechMarker := "#@$"

  /** A speech-synthesis voice. */
  datatype Voice = Voice(name: string, lang: string)

  /** The localised texts the hook shows as status. */
  datatype Dictionary = Dictionary(
    webSocketClosed: string, transcriptionSuccess: string, translationSuccess: string,
    replySuccess: string, error: string, pongReceived: string)

  /** `Transcript` (app/types/index.ts): every field of the parsed message may be missing. */
  datatype Transcript = Transcript(
    kind: Option<string>, text: Option<string>, message: Option<string>, id: Option<string>,
    audio: Option<string>, status: Option<string>)

  /** Which way `handlePlayMessage` plays a message. */
  datatype PlayAction = Speak | Pause | Resume | StartAudio

  datatype HookState = HookState(
    messages: seq<Transcript>, status: string, model: string, inputLanguage: Option<string>,
    outputLanguage: string, voices: seq<Voice>, selectedVoice: Option<Voice>, operation: string,
    shouldPlay: Option<string>, isPlaying: bool, langOptions: seq<string>, audioLoaded: bool)

  // ---------------------------------------------------------------- settings

  /** The language keys offered for a model: English only for distilled and ".en" models,
      every key for large-v3, and all but the last key otherwise (`slice(0, -1)`). */
  function LangOptionsFor(model: string, keys: seq<string>): seq<string>
  {
    if Includes(model, "distil") || EndsWith(model, ".en") then ["en"]
    else if model == LargeV3 then keys
    else if keys == [] then []
    else keys[..|keys| - 1]
  }

  /** `options[0]`, undefined for an empty list. */
  function FirstOption(options: seq<string>): Option<string>
  {
    if options == [] then None else Some(options[0])
  }

  /** `voices.find((voice) => voice.lang.startsWith(code))` */
  function FirstVoiceWithLang(voices: seq<Voice>, code: string): Option<Voice>
  {
    var i := LangIndex(voices, code);
    if i == -1 then None else Some(voices[i])
  }

  /** The position of the first voice whose `lang` starts with `code`, or -1. */
  function LangIndex(voices: seq<Voice>, code: string): (r: int)
    ensures -1 <= r < |voices|
    ensures r != -1 ==> StartsWith(voices[r].lang, code)
    ensures forall k :: 0 <= k < |voices| && (r == -1 || k < r) ==> !StartsWith(voices[k].lang, code)
  {
    if voices == [] then -1
    else if StartsWith(voices[0].lang, code) then 0
    else var j := LangIndex(voices[1..], code); if j == -1 then -1 else j + 1
  }

  /** The first voice named `name`, if any (the loops of `handleOperationChange`). */
  function FirstVoiceNamed(voices: seq<Voice>, name: string): Option<Voice>
  {
    var i := NameIndex(voices, name);
    if i == -1 then None else Some(voices[i])
  }

  /** The position of the first voice named `name`, or -1. */
  function NameIndex(voices: seq<Voice>, name: string): (r: int)
    ensures -1 <= r < |voices|
    ensures r != -1 ==> voices[r].name == name
    ensures forall k :: 0 <= k < |voices| && (r == -1 || k < r) ==> voices[k].name != name
  {
    if voices == [] then -1
    else if voices[0].name == name then 0
    else var j := NameIndex(voices[1..], name); if j == -1 then -1 else j + 1
  }

  /** `handleModelChange` */
  function ModelChanged(s: HookState, keys: seq<string>, selected: string): HookState
  {
    var options := LangOptionsFor(selected, keys);
    s.(model := selected, langOptions := options, inputLanguage := FirstOption(options))
  }

  /** `handleOutputLanguageChange` */
  function OutputLanguageChanged(s: HookState, code: string): HookState
  {
    s.(outputLanguage := code, selectedVoice := FirstVoiceWithLang(s.voices, code))
  }

  /** `handleOperationChange` */
  function OperationChanged(s: HookState, op: string): HookState
  {
    if op == "translation" then
      s.(operation := op, outputLanguage := "fr", selectedVoice := FirstVoiceNamed(s.voices, TranslationVoice))
    else if op == "conversation" then
      s.(operation := op, outputLanguage := "zh", selectedVoice := FirstVoiceNamed(s.voices, ConversationVoice))
    else s.(operation := op)
  }

  // ---------------------------------------------------------------- messages

  predicate IsAnswer(kind: Option<string>)
  {
    kind == Some("transcription") || kind == Some("translation") || kind == Some("conversation")
  }

  predicate IsSpoken(kind: Option<string>)
  {
    kind == Some("translation") || kind == Some("conversation")
  }

  /** `ws.onmessage` */
  function Received(s: HookState, dict: Dictionary, data: Transcript): HookState
  {
    if IsAnswer(data.kind) then
      var status :=
        if data.kind == Some("transcription") then dict.transcriptionSuccess
        else if data.kind == Some("translation") then dict.translationSuccess
        else dict.replySuccess;
      var listed := s.(messages := s.messages + [data], status := status);
      if IsSpoken(data.kind) then listed.(shouldPlay := data.text, isPlaying := true) else listed
    else if data.kind == Some("error") then s.(status := dict.error + ": " + Shown(data.message))
    else if data.kind == Some("pong") then s.(status := dict.pongReceived)
    else s
  }

  function ReceivedAll(s: HookState, dict: Dictionary, data: seq<Transcript>): HookState
  {
    if data == [] then s else Received(ReceivedAll(s, dict, data[..|data| - 1]), dict, data[|data| - 1])
  }

  /** The messages that are listed: transcriptions, translations and conversation replies. */
  function Answers(data: seq<Transcript>): seq<Transcript>
  {
    if data == [] then []
    else
      var last := data[|data| - 1];
      Answers(data[..|data| - 1]) + (if IsAnswer(last.kind) then [last] else [])
  }

  /** `handleEditMessage(index, newText)`: `map` with only element `index` rewritten. */
  function EditMessage(messages: seq<Transcript>, index: int, newText: string): (r: seq<Transcript>)
    ensures |r| == |messages|
  {
    seq(|messages|, i requires 0 <= i < |messages| =>
      if i == index then messages[i].(text := Some(newText)) else messages[i])
  }

  // ---------------------------------------------------------------- playback

  /** The branch `handlePlayMessage` takes. */
  function PlayBranch(audio: string, kind: string, voice: Option<Voice>, audioLoaded: bool, isPlaying: bool): PlayAction
  {
    if (kind == "translation" && voice.Some?) || (kind == "conversation" && voice.Some?) || audio == SpeechMarker then Speak
    else if audioLoaded then (if isPlaying then Pause else Resume)
    else StartAudio
  }

  /** The state after `handlePlayMessage` returns: `onPlayPause` sets `isPlaying`, and a new
      audio element is kept in `audioRef`. */
  function Played(s: HookState, audio: string, kind: string): HookState
  {
    match PlayBranch(audio, kind, s.selectedVoice, s.audioLoaded, s.isPlaying)
    case Speak => s.(isPlaying := true)
    case Pause => s.(isPlaying := false)
    case Resume => s.(isPlaying := true)
    case StartAudio => s.(isPlaying := true, audioLoaded := true)
  }

  /** The `shouldPlay` effect: a non-empty text is played as a translation with no audio. */
  function AutoPlayed(s: HookState): HookState
  {
    if s.shouldPlay.Some? && s.shouldPlay.value != "" then Played(s, "", "translation").(shouldPlay := None)
    else s
  }

  // ---------------------------------------------------------------- voices

  /** One tick of the `setInterval` voice poll. The voices are set only by this poll, so an
      empty list means the interval is still running; it is cleared once voices arrive. */
  function Polled(voices: seq<Voice>, available: seq<Voice>): seq<Voice>
  {
    if voices == [] && available != [] then available else voices
  }

  /** The poll ticks in order, each seeing what `getVoices()` returns then. */
  function PolledAll(voices: seq<Voice>, polls: seq<seq<Voice>>): seq<Voice>
    decreases |polls|
  {
    if polls == [] then voices else PolledAll(Polled(voices, polls[0]), polls[1..])
  }

  // ---------------------------------------------------------------- properties

  /** The options rule and the input language it selects. */
  lemma ModelChangeOptions(s: HookState, keys: seq<string>, selected: string)
    ensures var r := ModelChanged(s, keys, selected);
      && (Includes(selected, "distil") || EndsWith(selected, ".en") ==>
            r.langOptions == ["en"] && r.inputLanguage == Some("en"))
      && (!(Includes(selected, "distil") || EndsWith(selected, ".en")) && selected == LargeV3 ==>
            r.langOptions == keys && (keys != [] ==> r.inputLanguage == Some(keys[0])))
      && (!(Includes(selected, "distil") || EndsWith(selected, ".en")) && selected != LargeV3 ==>
            |r.langOptions| == if keys == [] then 0 else |keys| - 1)
      && (!(Includes(selected, "distil") || EndsWith(selected, ".en")) && selected != LargeV3 && |keys| >= 2 ==>
            r.inputLanguage == Some(keys[0]) && r.langOptions + [keys[|keys| - 1]] == keys)
      && (!(Includes(selected, "distil") || EndsWith(selected, ".en")) && selected != LargeV3 && |keys| < 2 ==>
            r.inputLanguage == None)
      && r.(model := s.model, langOptions := s.langOptions, inputLanguage := s.inputLanguage) == s
  {
  }

  /** "Systran/faster-distil-whisper-large-v3" is English-only, however the keys look. */
  lemma DistilIsEnglishOnly(s: HookState, keys: seq<string>)
    ensures ModelChanged(s, keys, "Systran/faster-distil-whisper-large-v3").inputLanguage == Some("en")
  {
    var head, tail := "Systran/faster-", "-whisper-large-v3";
    var m := head + "distil" + tail;
    assert m == "Systran/faster-distil-whisper-large-v3";
    assert m[|head|..|head| + 6] == "distil";
    assert OccursAt(m, "distil", 15);
    IncludesAt("Systran/faster-distil-whisper-large-v3", "distil", 15);
  }

  /** Operation defaults: translation picks "fr" and the first "Amélie", conversation picks
      "zh" and the first "美嘉" (no such voice: none), any other operation changes only the
      operation. */
  lemma OperationDefaults(s: HookState, op: string)
    ensures var r := OperationChanged(s, op);
      && r.operation == op
      && (op == "translation" ==>
            && r.outputLanguage == "fr"
            && (r.selectedVoice.Some? <==> exists k :: 0 <= k < |s.voices| && s.voices[k].name == "Amélie")
            && (r.selectedVoice.Some? ==> r.selectedVoice.value.name == "Amélie"))
      && (op == "conversation" ==>
            && r.outputLanguage == "zh"
            && (r.selectedVoice.Some? <==> exists k :: 0 <= k < |s.voices| && s.voices[k].name == "美嘉")
            && (r.selectedVoice.Some? ==> r.selectedVoice.value.name == "美嘉"))
      && (op != "translation" && op != "conversation" ==> r == s.(operation := op))
      && r.(operation := s.operation, outputLanguage := s.outputLanguage, selectedVoice := s.selectedVoice) == s
  {
  }

  /** A new output language selects the first voice whose `lang` starts with the code. */
  lemma OutputLanguageVoice(s: HookState, code: string)
    ensures var r := OutputLanguageChanged(s, code);
      && r.outputLanguage == code
      && (r.selectedVoice.Some? <==> exists k :: 0 <= k < |s.voices| && StartsWith(s.voices[k].lang, code))
      && (r.selectedVoice.Some? ==> StartsWith(r.selectedVoice.value.lang, code))
      && r.(outputLanguage := s.outputLanguage, selectedVoice := s.selectedVoice) == s
  {
  }

  /** One message: answers are appended at the end with nothing before them changed, and set
      the success status of their kind;
      translations and replies (not transcriptions) are queued for playing; an error sets the
      status to "<error>: <message>"; a pong sets only the status; anything else, the
      server's "ping" included, changes nothing. */
  lemma MessageEffects(s: HookState, dict: Dictionary, data: Transcript)
    ensures var r := Received(s, dict, data);
      && (IsAnswer(data.kind) ==> r.messages == s.messages + [data])
      && (!IsAnswer(data.kind) ==> r.messages == s.messages)
      && (data.kind == Some("transcription") ==> r.status == dict.transcriptionSuccess)
      && (data.kind == Some("translation") ==> r.status == dict.translationSuccess)
      && (data.kind == Some("conversation") ==> r.status == dict.replySuccess)
      && (IsSpoken(data.kind) ==> r.shouldPlay == data.text && r.isPlaying)
      && (!IsSpoken(data.kind) ==> r.shouldPlay == s.shouldPlay && r.isPlaying == s.isPlaying)
      && (data.kind == Some("error") ==> r == s.(status := dict.error + ": " + Shown(data.message)))
      && (data.kind == Some("pong") ==> r == s.(status := dict.pongReceived))
      && (data.kind == Some("ping") ==> r == s)
      && r.(messages := s.messages, status := s.status, shouldPlay := s.shouldPlay, isPlaying := s.isPlaying) == s
  {
  }

  /** After any stream of messages, the list is the old list followed by the answers among
      them, in arrival order. */
  lemma {:induction false} MessagesInArrivalOrder(s: HookState, dict: Dictionary, data: seq<Transcript>)
    ensures ReceivedAll(s, dict, data).messages == s.messages + Answers(data)
    decreases |data|
  {
    if data != [] {
      var init := data[..|data| - 1];
      var last := data[|data| - 1];
      MessagesInArrivalOrder(s, dict, init);
      SeqAssoc(s.messages, Answers(init), if IsAnswer(last.kind) then [last] else []);
    }
  }

  /** Editing rewrites only the text of element `index` and keeps its other fields; an index
      out of range changes nothing; editing twice with the same text is editing once. */
  lemma EditEffects(messages: seq<Transcript>, index: int, newText: string)
    ensures var r := EditMessage(messages, index, newText);
      && |r| == |messages|
      && (forall k :: 0 <= k < |messages| && k != index ==> r[k] == messages[k])
      && (0 <= index < |messages| ==>
            && r[index].text == Some(newText)
            && r[index] == messages[index].(text := Some(newText)))
      && (!(0 <= index < |messages|) ==> r == messages)
      && EditMessage(r, index, newText) == r
  {
  }

  /** Speech synthesis is used exactly when a translation or reply has a voice, or the audio
      is the marker "#@$"; otherwise a loaded audio element is paused while playing and
      played while paused. */
  lemma PlayBranchRule(audio: string, kind: string, voice: Option<Voice>, audioLoaded: bool, isPlaying: bool)
    ensures var a := PlayBranch(audio, kind, voice, audioLoaded, isPlaying);
      && (a == Speak <==> ((kind == "translation" || kind == "conversation") && voice.Some?) || audio == "#@$")
      && (a != Speak && audioLoaded ==> (a == Pause <==> isPlaying))
      && (a != Speak && audioLoaded ==> a == (if isPlaying then Pause else Resume))
      && (a != Speak && !audioLoaded ==> a == StartAudio)
  {
  }

  /** A translation arriving while no voice is selected and an audio element is loaded pauses
      that element: the reducer has already set `isPlaying`, which the effect then reads. */
  lemma AutoPlayWithoutVoicePauses(s: HookState, dict: Dictionary, data: Transcript)
    requires data.kind == Some("translation") && data.text.Some? && data.text.value != ""
    requires s.selectedVoice.None? && s.audioLoaded
    ensures var r := AutoPlayed(Received(s, dict, data));
      !r.isPlaying && r.shouldPlay.None? && r.messages == s.messages + [data]
  {
  }

  /** With a voice selected, an arriving translation or reply is spoken. */
  lemma AutoPlaySpeaks(s: HookState, dict: Dictionary, data: Transcript)
    requires IsSpoken(data.kind) && data.text.Some? && data.text.value != "" && s.selectedVoice.Some?
    ensures var r0 := Received(s, dict, data);
      PlayBranch("", "translation", r0.selectedVoice, r0.audioLoaded, r0.isPlaying) == Speak
      && AutoPlayed(r0).isPlaying && AutoPlayed(r0).shouldPlay.None?
  {
  }

  /** An empty or missing text is never played: the effect tests `shouldPlay` for truth. */
  lemma EmptyTextNotPlayed(s: HookState)
    requires s.shouldPlay.None? || s.shouldPlay.value == ""
    ensures AutoPlayed(s) == s
  {
  }

  /** Once voices are known, later ticks change nothing. */
  lemma {:induction false} PolledStays(voices: seq<Voice>, polls: seq<seq<Voice>>)
    requires voices != []
    ensures PolledAll(voices, polls) == voices
    decreases |polls|
  {
    if polls != [] {
      PolledStays(Polled(voices, polls[0]), polls[1..]);
    }
  }

  /** The poll keeps the first non-empty list `getVoices()` returns, and no voices when it
      never returns any. */
  lemma {:induction false} PollKeepsFirst(polls: seq<seq<Voice>>, k: nat)
    requires k < |polls| && polls[k] != []
    requires forall j :: 0 <= j < k ==> polls[j] == []
    ensures PolledAll([], polls) == polls[k]
    decreases k
  {
    if k == 0 {
      PolledStays(polls[0], polls[1..]);
    } else {
      PollKeepsFirst(polls[1..], k - 1);
    }
  }

  lemma {:induction false} PollFindsNone(polls: seq<seq<Voice>>)
    requires forall j :: 0 <= j < |polls| ==> polls[j] == []
    ensures PolledAll([], polls) == []
    decreases |polls|
  {
    if polls != [] {
      PollFindsNone(polls[1..]);
    }
  }

  // ---------------------------------------------------------------- the hook

  /** `for (let i = 0; i < voices.length; i++) if (voices[i].name === name) { …; break; }` */
  method FindVoiceNamed(voices: seq<Voice>, name: string) returns (found: Option<Voice>)
    ensures found == FirstVoiceNamed(voices, name)
  {
    found := None;
    var i := 0;
    while i < |voices|
      invariant 0 <= i <= |voices|
      invariant found == None
      invariant forall k :: 0 <= k < i ==> voices[k].name != name
    {
      if voices[i].name == name {
        found := Some(voices[i]);
        break;
      }
      i := i + 1;
    }
  }

  class Hook {
    const dict: Dictionary
    const keys: seq<string>
    var messages: seq<Transcript>
    var status: string
    var model: string
    var inputLanguage: Option<string>
    var outputLanguage: string
    var voices: seq<Voice>
    var selectedVoice: Option<Voice>
    var operation: string
    var shouldPlay: Option<string>
    var isPlaying: bool
    var langOptions: seq<string>
    /** `audioRef.current !== null` */
    var audioLoaded: bool

    function State(): HookState
      reads this
    {
      HookState(messages, status, model, inputLanguage, outputLanguage, voices, selectedVoice,
        operation, shouldPlay, isPlaying, langOptions, audioLoaded)
    }

    /** The initial values of the state cells. */
    constructor (dict: Dictionary, keys: seq<string>)
      ensures this.dict == dict && this.keys == keys
      ensures State() == HookState([], dict.webSocketClosed, LargeV3, Some("zh"), "fr", [], None,
        "transcription", None, false, keys, false)
    {
      this.dict := dict;
      this.keys := keys;
      messages := [];
      status := dict.webSocketClosed;
      model := LargeV3;
      inputLanguage := Some("zh");
      outputLanguage := "fr";
      voices := [];
      selectedVoice := None;
      operation := "transcription";
      shouldPlay := None;
      isPlaying := false;
      langOptions := keys;
      audioLoaded := false;
    }

    /** One tick of the voice poll; the poll stops once it has found voices. */
    method VoicesLoaded(available: seq<Voice>)
      modifies this
      ensures State() == old(State()).(voices := Polled(old(voices), available))
    {
      if voices == [] && available != [] {
        voices := available;
      }
    }

    method HandleModelChange(selected: string)
      modifies this
      ensures State() == ModelChanged(old(State()), keys, selected)
    {
      model := selected;
      var options := LangOptionsFor(selected, keys);
      langOptions := options;
      inputLanguage := FirstOption(options);
    }

    method HandleInputLanguageChange(code: string)
      modifies this
      ensures State() == old(State()).(inputLanguage := Some(code))
    {
      inputLanguage := Some(code);
    }

    method HandleOutputLanguageChange(code: string)
      modifies this
      ensures State() == OutputLanguageChanged(old(State()), code)
    {
      outputLanguage := code;
      selectedVoice := FirstVoiceWithLang(voices, code);
    }

    method HandleOperationChange(op: string)
      modifies this
      ensures State() == OperationChanged(old(State()), op)
    {
      operation := op;
      if op == "translation" {
        outputLanguage := "fr";
        var v := FindVoiceNamed(voices, TranslationVoice);
        selectedVoice := v;
      } else if op == "conversation" {
        outputLanguage := "zh";
        var v := FindVoiceNamed(voices, ConversationVoice);
        selectedVoice := v;
      }
    }

    /** `ws.onmessage` */
    method Receive(data: Transcript)
      modifies this
      ensures State() == Received(old(State()), dict, data)
    {
      if IsAnswer(data.kind) {
        messages := messages + [data];
        if data.kind == Some("transcription") {
          status := dict.transcriptionSuccess;
        } else if data.kind == Some("translation") {
          status := dict.translationSuccess;
        } else {
          status := dict.replySuccess;
        }
        if IsSpoken(data.kind) {
          shouldPlay := data.text;
          isPlaying := true;
        }
      } else if data.kind == Some("error") {
        status := dict.error + ": " + Shown(data.message);
      } else if data.kind == Some("pong") {
        status := dict.pongReceived;
      }
    }

    method HandleEditMessage(index: int, newText: string)
      modifies this
      ensures State() == old(State()).(messages := EditMessage(old(messages), index, newText))
    {
      messages := EditMessage(messages, index, newText);
    }

    /** `handlePlayMessage`, up to the moment it returns. */
    method PlayMessage(audio: string, kind: string) returns (action: PlayAction)
      modifies this
      ensures action == PlayBranch(audio, kind, old(selectedVoice), old(audioLoaded), old(isPlaying))
      ensures State() == Played(old(State()), audio, kind)
    {
      if (kind == "translation" && selectedVoice.Some?) || (kind == "conversation" && selectedVoice.Some?) || audio == SpeechMarker {
        action := Speak;
        isPlaying := true;
      } else if audioLoaded {
        if isPlaying {
          action := Pause;
          isPlaying := false;
        } else {
          action := Resume;
          isPlaying := true;
        }
      } else {
        action := StartAudio;
        audioLoaded := true;
        isPlaying := true;
      }
    }

    /** The effect that runs when `shouldPlay` changes. */
    method AutoPlay()
      modifies this
      ensures State() == AutoPlayed(old(State()))
    {
      if shouldPlay.Some? && shouldPlay.value != "" {
        var _ := PlayMessage("", "translation");
        shouldPlay := None;
      }
    }
  }
}
