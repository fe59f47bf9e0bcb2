# Whisper audio relay — a Dafny model

This project models the message-handling and state-update rules of the whisper audio relay and
its browser clients:

- the WebSocket relay of `server-ws.js`: per-connection command defaults and dispatch, the
  heartbeat, deriving the `.pcm`/`.wav` paths, parsing the segmenter's stdout into a chunk
  queue, draining that queue one chunk at a time, the transcription/translation events and
  their ids, the error paths, and `cleanupFiles`;
- the older relay of `server.js`, whose per-connection audio buffer grows until a `stop`;
- the client state of `app/hooks/useRealTimeTranscription.ts`: language options by model,
  operation defaults, voice selection, the inbound-message reducer, message editing and the
  playback branch;
- the recorder component `app/components/AudioRecorder.tsx`: the chunk buffer, the MIME
  type and file type, and the outbound `audio` and `upload` commands;
- the older client `app/components/RealTimeTranscription.tsx`: the language name/code
  table with its reverse lookup, the reducer, and the data-URL payload;
- the locale middleware `middleware.ts`.

Every external effect is an input. These are the backends (ffmpeg, the Python segmenter, the
transcription and translation HTTP services, the Python WebSocket), the clock, uuid
generation, and the browser's readers and recorders. Stateful code becomes a class with
fields, and every method ensures `State() == F(old(State()), inputs)` for a pure step function
`F`. The properties are proved about `F` as lemmas.

Files:

- `common.dfy`: string and byte helpers with JavaScript meanings (`split`, `trim`,
  `lastIndexOf`, `replace` of the first match, `Buffer.concat`).
- `relay_session.dfy`: module `RelaySession`, which models `server-ws.js`.
- `legacy_relay.dfy`: module `LegacyRelay`, which models `server.js`.
- `transcription_hook.dfy`: module `TranscriptionHook`.
- `recorder.dfy`: module `Recorder`.
- `legacy_client.dfy`: module `LegacyClient`.
- `locale_routing.dfy`: module `LocaleRouting`.

Behaviour of the code worth noting:

- A client `ping` gets no `pong`. The relay answers nothing but `audio` and `upload`.
- `stop` only empties the connection's `audioBuffer`, which nothing reads. It does not cancel
  queued chunks.
- `conversation` never calls the generation backend on the relay. Only `translation` does.
- When the conversion succeeds, chunk files and the converted `.wav` are not deleted, because
  those unlink calls are commented out. After the queue drains, only the uploaded file is
  deleted; for a "wav" upload that file is the `.wav` target itself
  (`WavUploadTargetsItself`). A failed conversion deletes the upload, the `.pcm` and the
  `.wav` through the cleanup (`ConversionFailureEffect`).
- On the recording path, when the conversion succeeds, the uploaded file is kept unless its
  file type is "pcm". The `.pcm` is deleted when the Python socket closes or fails, and for a
  "pcm" upload the `.pcm` is the upload itself (`RecordingKeepsOriginal`).
- The segmenter's exit code is ignored, and the queue is drained whatever it was.
- On the recording path, the transcription event and the translation event get different
  uuids (`TranscribeOrTranslateChunk`). On the HTTP path they share one id.
- An error in the recording path's socket callbacks is outside `convertAudioFile`'s `try`, so
  it is not reported to the client.
- Stdout is parsed data block by data block. A chunk path split across two blocks becomes two
  queue entries (`SplitLineBecomesTwoEntries`).
- A transcription reply that parses but has no `text` field is not an error. The
  transcription event goes out without text, and the translation prompt interpolates
  "undefined" (`MissingTextIsUndefined`).

## Model

| member | source | states |
|---|---|---|
| Common.Trim | server-ws.js:149 | the result is the slice of the input left after removing only whitespace from both ends; it is empty exactly when the input is all whitespace, otherwise it starts and ends with non-whitespace; an already trimmed string is unchanged |
| Common.TrimIdempotent | server-ws.js:149 | trimming a trimmed path changes nothing |
| Common.SplitPiecesFree | server-ws.js:147 | no piece of a "\n" split contains "\n" |
| Common.JoinSplit | server-ws.js:147 | joining the pieces of a split with the separator gives back the input, so splitting loses no character |
| Common.SplitJoin | server-ws.js:147 | splitting a join of separator-free pieces gives back the pieces |
| Common.LastIndexOf | server-ws.js:112 | the index names the last occurrence of the character, or -1 when there is none |
| Common.IndexOfFrom | server-ws.js:112 | the first occurrence of a pattern at or after a position, or -1 when none occurs there |
| Common.ParseNatToString | server-ws.js:70 | the decimal digits written for a timestamp read back as that timestamp, so distinct stamps give distinct file names |
| Common.FlattenLength | server.js:37-38 | the length of a concatenation is the sum of the part lengths |
| Common.FlattenAppend | server.js:38 | concatenating two runs of buffers is the concatenation of their concatenations |
| RelaySession.Defaults | server-ws.js:56-61 | each parameter is the message's field when non-empty; otherwise the fixed default (large-v3, "zh", "transcription", "fr", "json", "0"); no parameter ends up empty |
| RelaySession.ExtName | server-ws.js:112 | the extension is empty, or a suffix of the path that starts with its only ".", holds no "/" and follows a character other than "/" |
| RelaySession.ExtNameIs | server-ws.js:112 | a name "x.y" with y free of "." and "/" and x not ending in "/" has extension ".y" (unless it is "..") |
| RelaySession.ExtNameNone | server-ws.js:112 | a last segment with no "." after its first character, or "..", has no extension |
| RelaySession.UploadBaseName | server-ws.js:68-71 | the saved file's base name is "audio_" + stamp + "." + file type |
| RelaySession.UploadExtName | server-ws.js:67-71 | the extension of a saved upload is "." + its file type |
| RelaySession.LastIndexOfAfter | server-ws.js:112 | in x + c + y with no c in y, the last c sits right after x |
| RelaySession.IndexOfAfterPrefix | server-ws.js:112 | a pattern whose first character does not occur in x is first found right after x |
| RelaySession.ReplaceAfterPrefix | server-ws.js:112 | the first-match replace then swaps exactly the suffix |
| RelaySession.UploadPathSwap | server-ws.js:112-113 | replacing the extension of a saved path gives the same stem with the new extension |
| RelaySession.WavUploadTargetsItself | server-ws.js:113 | for a "wav" upload, the `.wav` target is the uploaded file itself |
| RelaySession.PromptEmbeds | server-ws.js:409 | the prompt starts with the fixed head, the output language and the fixed middle; it ends with the text and the fixed tail; different texts give different prompts |
| RelaySession.PiecesAppend | server-ws.js:148-152 | the entries of two runs of lines are the entries of the first run, then those of the second |
| RelaySession.PiecesEntries | server-ws.js:148-152 | every entry kept from newline-free lines is trimmed and non-empty |
| RelaySession.ParseBlockEntries | server-ws.js:146-154 | every queue entry from a data block is trimmed and non-empty |
| RelaySession.ParseBlockJoin | server-ws.js:147-152 | a block of two newline-joined parts gives the first part's entries, then the second's |
| RelaySession.ParseBlockAfterNewline | server-ws.js:146-154 | a block ending in "\n" followed by another gives the entries of each in order |
| RelaySession.ParseStdoutAligned | server-ws.js:146-154 | when every data block ends in "\n", the queue is the same as parsing all of stdout at once |
| RelaySession.SplitLineBecomesTwoEntries | server-ws.js:146-154 | a path delivered in two data blocks becomes two queue entries, not the one entry of the whole path |
| RelaySession.ParseStdoutSnoc | server-ws.js:146-151 | each data block appends its entries after those already queued |
| RelaySession.ChunkEventsShape | server-ws.js:355-434 | one chunk gives one or two events; the last is the processing error exactly when a step fails; all before it are transcriptions with the chunk's id and audio; a translation shares the transcription's id and audio; there are two events exactly when the transcription succeeded and the operation is "translation" |
| RelaySession.MissingTextIsUndefined | server-ws.js:374-412 | a parsed transcription body without `text` gives a transcription event without text, is not a failure unless the translation request fails, and for "translation" sends a prompt with "undefined" in the text's place |
| RelaySession.DrainEventsAppend | server-ws.js:172-183 | draining a queue in two parts gives the first part's events, then the second's, with ids continuing |
| RelaySession.DrainIdsOrdered | server-ws.js:172-183 | the drained chunks' ids are ascending and lie within the ids handed out for the queue, so earlier chunks' events come first |
| RelaySession.DrainAllTranslated | server-ws.js:381-427 | when every chunk succeeds under "translation", the events are one (transcription, translation) pair per chunk, in queue order, each pair with one id and the chunk's audio |
| RelaySession.DrainAllTranscribed | server-ws.js:381-388 | when every chunk succeeds under another operation, there is exactly one transcription per chunk, in queue order, with the chunk's id and audio |
| RelaySession.DrainNoTranslationUnlessRequested | server-ws.js:390 | when the operation is not "translation", no translation event is emitted and only the transcription backend is called (so "conversation" never generates) |
| RelaySession.SocketEventsShape | server-ws.js:276-331 | the socket path emits at most two events, none of them an error, all with the chunk's audio; the first is the transcription; a translation has a fresh id different from the transcription's |
| RelaySession.Cleaned | server-ws.js:437-448 | the files left are those already there, minus each listed file that could be deleted; a locked file stays, and no content changes |
| RelaySession.DrainState | server-ws.js:172-193 | the drain appends the queue's events and calls, spends one id per chunk, empties the queue, and changes neither the disk nor the open flag |
| RelaySession.OtherKindsAreQuiet | server-ws.js:64-92 | a message other than "audio" or "upload" emits nothing, calls nothing and touches no file; "stop" only empties the audio buffer, and every other kind (a client "ping", "pong") changes nothing |
| RelaySession.ClosedSessionIsSilent | server-ws.js:95-97 | after close, no input sequence emits any event |
| RelaySession.HeartbeatWhileOpen | server-ws.js:48-52 | n ticks on an open connection append exactly n pings and keep the earlier events |
| RelaySession.HandleFileMessage | server-ws.js:64-86 | "audio" and "upload" save the bytes under the derived path, then run the recording flow or the upload flow with the defaulted parameters |
| RelaySession.UploadFlowConverted | server-ws.js:121-201 | a converted upload writes the wav and the chunk files, drains the parsed queue and then unlinks only the uploaded file |
| RelaySession.UploadDisk | server-ws.js:195-200 | after the drain, the upload is gone unless locked, and the wav and chunk files stay |
| RelaySession.UploadEvents | server-ws.js:64-201 | an upload message emits exactly the drained events of the parsed queue, leaves the queue empty, deletes the uploaded file and keeps the wav and the chunks |
| RelaySession.FlowsOnFailure | server-ws.js:236-245 | a failed conversion in either flow leaves the partial output and then takes the one failure path over the original, the .pcm and the .wav |
| RelaySession.ConversionFailureEffect | server-ws.js:236-245 | a conversion failure emits exactly one "Error converting or sending audio", calls no backend, deletes every listed file that can be deleted, and keeps every other file |
| RelaySession.ConversionFailureEvents | server-ws.js:64-86 | the same for a whole "audio" or "upload" message whose conversion fails |
| RelaySession.RecordingKeepsOriginal | server-ws.js:202-235 | a recording keeps the saved original, deletes the .pcm, and emits exactly the socket path's events |
| RelaySession.Session.constructor | server-ws.js:43-52 | a new session is open with an empty buffer, queue and event log over the given files |
| RelaySession.Session.Tick | server-ws.js:48-52 | a tick appends a ping while open, and does nothing once closed |
| RelaySession.Session.Close | server-ws.js:95-97 | close clears the heartbeat: the session is marked closed |
| RelaySession.Session.Receive | server-ws.js:54-93 | one inbound message moves the session to the step function's next state |
| RelaySession.Session.ConvertAudioFile | server-ws.js:101-246 | the conversion moves the session along the upload flow or the recording flow |
| RelaySession.Session.RunSegmenter | server-ws.js:144-154 | the queue becomes the parse of the stdout blocks, and nothing else changes |
| RelaySession.Session.OnSegmenterData | server-ws.js:146-154 | one data block appends its entries to the queue, and nothing else changes |
| RelaySession.Session.DrainQueue | server-ws.js:172-193 | the loop that pops the queue front until it is empty reaches the drain's state |
| RelaySession.Session.TranscribeOrTranslateHttp | server-ws.js:345-435 | one chunk over HTTP appends its events and calls and spends one id |
| RelaySession.Session.TranscribeOrTranslateChunk | server-ws.js:248-343 | one recording over the Python socket appends the socket events, spends one id per event, and then deletes the .pcm |
| RelaySession.Session.OnSocketReplies | server-ws.js:276-331 | only the first socket reply counts: it appends the socket events and changes no file |
| RelaySession.Session.CleanupFiles | server-ws.js:437-448 | the loop over the listed files leaves exactly the cleaned disk |
| LegacyRelay.LastStop | server.js:67-69 | the index of the last "stop" message, or -1 when there is none |
| LegacyRelay.AudioSendsConcatenation | server.js:33-49 | an audio message appends its bytes to the buffer and posts the concatenation of the whole buffer, with the fixed model, "zh", "json" and "0"; its length is the sum of the buffer lengths |
| LegacyRelay.AudioSuccess | server.js:56-60 | on a reply, the temporary file is deleted and one transcription with the reply's text is emitted; other files are unchanged |
| LegacyRelay.AudioFailure | server.js:61-64 | on a failure, one "Error transcribing audio" is emitted and the file stays, holding the concatenation |
| LegacyRelay.OtherKindsIgnored | server.js:33-67 | a message other than "audio" or "stop" changes nothing |
| LegacyRelay.StopResets | server.js:67-69 | "stop" empties the buffer and changes nothing else |
| LegacyRelay.BufferSinceLastStop | server.js:30-69 | after any inputs, the buffer holds the audio received since the last "stop" (or since open, appended to the initial buffer) |
| LegacyRelay.FromOpen | server.js:30 | from a fresh connection with no "stop", the buffer is every audio payload in order |
| LegacyRelay.OneAnswerPerAudio | server.js:33-64 | every audio message gives exactly one request and one event, and every request has the fixed form |
| LegacyRelay.SumLengths | server.js:37 | the reduce computes the total length of the buffers |
| LegacyRelay.Concat | server.js:38 | `Buffer.concat` with a total length gives exactly that many bytes: the concatenation, cut or padded with zeros |
| LegacyRelay.Connection.constructor | server.js:28-30 | a connection starts with an empty buffer |
| LegacyRelay.Connection.Receive | server.js:31-70 | one message moves the connection to the reducer's next state |
| LocaleRouting.Middleware | middleware.ts:16-27 | the request passes exactly when its path has a locale; otherwise it is redirected to "/" + locale + path |
| LocaleRouting.HasLocaleCases | middleware.ts:18-20 | a path has a locale iff it starts with "/en/" or "/zh/" or equals "/en" or "/zh" |
| LocaleRouting.LookalikesRedirect | middleware.ts:18-26 | "/english" and "/zhx" are redirected |
| LocaleRouting.PrefixedHasLocale | middleware.ts:18-25 | a configured locale in front of a path gives a path with a locale iff the path is empty or starts with "/" |
| LocaleRouting.SecondPassPasses | middleware.ts:18-26 | the target of a redirect built from a path starting with "/" passes a second time |
| LegacyClient.Names | app/components/RealTimeTranscription.tsx:145 | the option names are the table's keys in their order |
| LegacyClient.NameIndex | app/components/RealTimeTranscription.tsx:168 | the first table entry with the given name, or -1 |
| LegacyClient.CodeIndex | app/components/RealTimeTranscription.tsx:355-358 | the first table entry with the given code, or -1 |
| LegacyClient.Without | app/components/RealTimeTranscription.tsx:167 | filtering never lengthens the list |
| LegacyClient.Ranks | app/components/RealTimeTranscription.tsx:42-143 | every table code and every table name identifies its own position |
| LegacyClient.TableDistinct | app/components/RealTimeTranscription.tsx:42-143 | the table's codes are pairwise distinct, and so are its names |
| LegacyClient.NameCodeRoundTrip | app/components/RealTimeTranscription.tsx:355-358 | name to code to name and code to name to code both give back the table's entry |
| LegacyClient.LookupMisses | app/components/RealTimeTranscription.tsx:355-358 | a name or code outside the table gives no code, and the shown name is "" |
| LegacyClient.WithoutAbsent | app/components/RealTimeTranscription.tsx:167 | filtering out a missing name changes nothing |
| LegacyClient.WithoutSnoc | app/components/RealTimeTranscription.tsx:167 | the filter keeps order, one element at a time |
| LegacyClient.WithoutLast | app/components/RealTimeTranscription.tsx:167 | filtering out a name that occurs only last drops exactly the last element |
| LegacyClient.LastNameDropped | app/components/RealTimeTranscription.tsx:142 | "Yue Chinese" is the last name and occurs nowhere else |
| LegacyClient.DefaultOptionsDropLast | app/components/RealTimeTranscription.tsx:162-167 | a model other than large-v3 and the English-only ones is offered every name except the last, "Yue Chinese" |
| LegacyClient.WithoutKeepsFirst | app/components/RealTimeTranscription.tsx:167 | filtering out a name other than the first keeps the first |
| LegacyClient.EnglishFirst | app/components/RealTimeTranscription.tsx:43 | "English" is the first name and maps to "en" |
| LegacyClient.LanguageAfterModelChange | app/components/RealTimeTranscription.tsx:162-168 | after any model change the first option is "English", so the language is "en" |
| LegacyClient.MessageEffects | app/components/RealTimeTranscription.tsx:178-188 | only a transcription appends its text; "error" shows "错误: " and the message ("undefined" when missing); "pong" only sets the status; other kinds change nothing |
| LegacyClient.MessagesAreTranscriptions | app/components/RealTimeTranscription.tsx:180-181 | after any messages, the list is the old list plus the transcriptions' texts in arrival order |
| LegacyClient.DataUrlPayloadOf | app/components/RealTimeTranscription.tsx:231 | the sent payload is the text after the first comma of the data URL, and nothing when there is no comma |
| LegacyClient.Client.constructor | app/components/RealTimeTranscription.tsx:149-153 | the initial state is large-v3 and "zh", not recording, with no messages |
| LegacyClient.Client.HandleModelChange | app/components/RealTimeTranscription.tsx:159-169 | the model is set and the language becomes "en" |
| LegacyClient.Client.HandleLanguageChange | app/components/RealTimeTranscription.tsx:171-172 | the language becomes the picked name's code, or none for a name outside the table |
| LegacyClient.Client.Receive | app/components/RealTimeTranscription.tsx:178-188 | one message moves the state to the reducer's next state |
| LegacyClient.Client.StartRecording | app/components/RealTimeTranscription.tsx:204-212 | recording starts with an empty buffer; the stop handler keeps the model and language of this moment |
| LegacyClient.Client.OnDataAvailable | app/components/RealTimeTranscription.tsx:214-218 | a non-empty chunk is appended and an empty one dropped |
| LegacyClient.Client.StopRecording | app/components/RealTimeTranscription.tsx:246-251 | only the status changes, and only when a recorder exists |
| LegacyClient.Client.OnStop | app/components/RealTimeTranscription.tsx:220-242 | recording ends, and the blob is the buffer's bytes in order, typed "audio/webm" |
| LegacyClient.Client.OnRecordingRead | app/components/RealTimeTranscription.tsx:225-240 | with a result and a socket, one audio command is sent with the data-URL payload and the captured settings; otherwise nothing changes |
| LegacyClient.Client.HandleFileUpload | app/components/RealTimeTranscription.tsx:253-276 | with a file and a socket, one upload command is sent with the current settings once the reader finishes; without either nothing changes |
| TranscriptionHook.LangIndex | app/hooks/useRealTimeTranscription.ts:54-56 | the first voice whose lang starts with the code, or -1 when there is none |
| TranscriptionHook.NameIndex | app/hooks/useRealTimeTranscription.ts:68-73 | the first voice with the name, or -1 when there is none |
| TranscriptionHook.EditMessage | app/hooks/useRealTimeTranscription.ts:262-268 | editing keeps the number of messages |
| TranscriptionHook.ModelChangeOptions | app/hooks/useRealTimeTranscription.ts:29-46 | distilled and ".en" models get ["en"]; large-v3 gets every key; others get all but the last; the input language is the first option; nothing else changes |
| TranscriptionHook.DistilIsEnglishOnly | app/hooks/useRealTimeTranscription.ts:38-45 | the distilled large-v3 model selects "en" |
| TranscriptionHook.OperationDefaults | app/hooks/useRealTimeTranscription.ts:60-89 | "translation" sets "fr" and a voice named "Amélie" when one exists (else none); "conversation" sets "zh" and "美嘉"; other operations change only the operation |
| TranscriptionHook.OutputLanguageVoice | app/hooks/useRealTimeTranscription.ts:52-58 | the output language is set, and a voice is selected exactly when one has a lang starting with the code; it is one of those |
| TranscriptionHook.MessageEffects | app/hooks/useRealTimeTranscription.ts:169-194 | answers are appended and set the success status of their kind (transcription, translation, reply); translations and conversations set the text to play and mark playing; "error" and "pong" only set the status; "ping" changes nothing |
| TranscriptionHook.MessagesInArrivalOrder | app/hooks/useRealTimeTranscription.ts:171-176 | after any messages, the list is the old list plus the answers in arrival order |
| TranscriptionHook.EditEffects | app/hooks/useRealTimeTranscription.ts:262-268 | only the indexed message's text changes and its other fields stay; an out-of-range index changes nothing; editing twice equals editing once |
| TranscriptionHook.PlayBranchRule | app/hooks/useRealTimeTranscription.ts:98-135 | speech is used iff a voice is selected for a translation or conversation, or the audio is "#@$"; otherwise a loaded audio element is paused when playing and resumed when paused, and one is created when none is loaded |
| TranscriptionHook.AutoPlayWithoutVoicePauses | app/hooks/useRealTimeTranscription.ts:255-260 | a translation arriving with no voice and loaded audio is auto-played by the pause branch, so playing ends |
| TranscriptionHook.AutoPlaySpeaks | app/hooks/useRealTimeTranscription.ts:185-188 | a spoken answer with a voice selected is auto-played by speech, and the pending text is cleared |
| TranscriptionHook.EmptyTextNotPlayed | app/hooks/useRealTimeTranscription.ts:256 | an absent or empty pending text plays nothing |
| TranscriptionHook.FindVoiceNamed | app/hooks/useRealTimeTranscription.ts:67-73 | the loop finds the first voice with the name, or none |
| TranscriptionHook.Hook.constructor | app/hooks/useRealTimeTranscription.ts:8-33 | the initial state: the closed status, large-v3, "zh", "fr", "transcription", no voices, every key offered |
| TranscriptionHook.Hook.VoicesLoaded | app/hooks/useRealTimeTranscription.ts:242-253 | the state becomes one poll tick's state: only the voices change, and only while none are known |
| TranscriptionHook.PolledStays | app/hooks/useRealTimeTranscription.ts:245-247 | once voices are known, further ticks change nothing (the interval is cleared) |
| TranscriptionHook.PollKeepsFirst | app/hooks/useRealTimeTranscription.ts:242-249 | the voices kept are the first non-empty list the poll sees |
| TranscriptionHook.PollFindsNone | app/hooks/useRealTimeTranscription.ts:242-249 | when every tick sees no voices, none are kept |
| TranscriptionHook.Hook.HandleModelChange | app/hooks/useRealTimeTranscription.ts:35-46 | the state becomes the options rule's state |
| TranscriptionHook.Hook.HandleInputLanguageChange | app/hooks/useRealTimeTranscription.ts:48-50 | only the input language changes |
| TranscriptionHook.Hook.HandleOutputLanguageChange | app/hooks/useRealTimeTranscription.ts:52-58 | the state becomes the output-language rule's state |
| TranscriptionHook.Hook.HandleOperationChange | app/hooks/useRealTimeTranscription.ts:60-89 | the state becomes the operation-defaults state |
| TranscriptionHook.Hook.Receive | app/hooks/useRealTimeTranscription.ts:169-194 | one message moves the state to the reducer's next state |
| TranscriptionHook.Hook.HandleEditMessage | app/hooks/useRealTimeTranscription.ts:262-268 | only the messages change, to the edited list |
| TranscriptionHook.Hook.PlayMessage | app/hooks/useRealTimeTranscription.ts:91-163 | the branch taken is the playback rule's, and the playing flag follows it |
| TranscriptionHook.Hook.AutoPlay | app/hooks/useRealTimeTranscription.ts:255-260 | a non-empty pending text is played and then cleared |
| Recorder.CollectedKeepsAudio | app/components/AudioRecorder.tsx:48-52 | the kept chunks are all non-empty, and their bytes in order equal the bytes of all chunks in order |
| Recorder.RecordedSnoc | app/components/AudioRecorder.tsx:60 | one more chunk appends its bytes to the recording |
| Recorder.AudioTypeOf | app/components/AudioRecorder.tsx:56-58 | the audio type is the first chunk's MIME type up to ";", and the file type is the part after "/" |
| Recorder.AudioTypePlain | app/components/AudioRecorder.tsx:56-58 | a MIME type without ";" is the audio type unchanged, and the file type is the part after "/" |
| Recorder.AudioTypeDefaults | app/components/AudioRecorder.tsx:56-58 | a chunk without a type gives "audio/webm"; an empty buffer gives no type, and stopping then sends nothing |
| Recorder.WebmSubtype | app/components/AudioRecorder.tsx:80 | the default type's file type is "webm" |
| Recorder.StopSendsRecording | app/components/AudioRecorder.tsx:54-89 | stopping a non-empty recording with a socket sends one "audio" command with every kept chunk's bytes, the captured settings, "json", "0" and the file type |
| Recorder.OutputLanguageRule | app/components/AudioRecorder.tsx:68-81 | the output language is present iff the operation is "translation" or "conversation"; the command carries the model, language, operation, "json" and "0" |
| Recorder.UploadSendsFile | app/components/AudioRecorder.tsx:99-130 | an upload with a socket and a read result sends the file's bytes with the part of its type after "/"; without a file, a socket or a read result nothing is sent |
| Recorder.RelayReadsCommand | app/components/AudioRecorder.tsx:74-79 | the relay reads a command with "json", "0" and the sent model; without an output language it uses "fr"; with no language it uses "zh" |
| Recorder.ButtonToggles | app/components/AudioRecorder.tsx:143 | the button stops exactly while recording |
| Recorder.AudioRecorder.constructor | app/components/AudioRecorder.tsx:19-36 | the recorder starts idle, with an empty buffer |
| Recorder.AudioRecorder.Start | app/components/AudioRecorder.tsx:37-46 | recording starts with an empty buffer, and the handlers capture the current settings |
| Recorder.AudioRecorder.OnDataAvailable | app/components/AudioRecorder.tsx:48-52 | a non-empty chunk is appended and an empty one dropped |
| Recorder.AudioRecorder.OnStop | app/components/AudioRecorder.tsx:54-89 | the state becomes the stop rule's state, and the button then starts recording |
| Recorder.AudioRecorder.HandleFileUpload | app/components/AudioRecorder.tsx:99-130 | the state becomes the upload rule's state, which sends only when the reader produced a result |

## Left out

- ffmpeg, the Python segmenter `split_audio_vad.py`, the transcription and translation HTTP
  backends, and the Python WebSocket are external processes. Each one is an input value: a
  conversion outcome, the stdout blocks and chunk files, a reply function, a socket outcome.
- `Date.now()` is the `stamp` input, `uuidv4()` is a per-session counter, and `setInterval`
  is the `Tick` input.
- The handlers of one connection may interleave across `await`. The model runs each inbound
  message to completion.
- JSON parsing and serialising are left out; messages are datatypes. A malformed message,
  which throws before any reply, is not modelled.
- Base64 encoding is not modelled. The old client's data-URL payload is a string, and the
  relays see audio as bytes. The mismatch between that payload and `Uint8Array.from` is not
  modelled.
- Browser APIs are inputs or left out:
  - the FileReader result is an input (a data URL, or whether the file's bytes were read);
  - `connected` stands for `socketRef.current` being set;
  - the MediaRecorder delivers chunks through `OnDataAvailable`;
  - speech synthesis and the audio element's `onended`/`onerror` callbacks are left out;
  - the audio branch's exceptions are left out;
  - each voice poll tick is a `VoicesLoaded` call with what `getVoices()` returns.
- The status texts of `AudioRecorder.tsx` are not modelled. They are localised texts set
  around the sends.
- The hook's language keys come from a constants module that is not part of this model. They
  are the input `keys`.
- The viewport-height effect of the hook is left out (CSS string parsing and floating point).
- SettingsDialog.tsx, DynamicHeightList.tsx and useResizeObserver.ts are UI rendering.
- dictionaries.js is a dynamic-import table, and the localised texts are the `Dictionary`
  input. globalState.ts holds one mutable function slot with no logic.
- The locale negotiation (Negotiator and the locale matcher) and the `matcher` path
  configuration are left out; the chosen locale is an input.
- A failing `writeFileSync` is not modelled; writing a file always succeeds.
- A failed `spawn` of the segmenter is not modelled. The child has no `'error'` listener, so
  the failure would crash the server process.
- The clients' socket lifecycle is left out: the open and closed status texts, and the ping
  each client sends every 5 seconds while the socket is open. The relay's answer to a client
  ping (none) is modelled.
- In the old client, the "开始录音..." status set before the microphone is granted is not
  modelled. Neither is the state a denied microphone leaves behind (`recording` already true,
  no recorder); starting is modelled as granted.
- UploadPath, ExtName: Node's `path.join` normalisation is not modelled, so a file type
  holding ".." segments (e.g. "x/../y", which the source writes to `<dir>/uploads/y`) is
  joined literally. The relay does not check that the file type has no "/"; the clients send
  only the part after "/" of a MIME type. Node's `path.extname` also ignores a trailing "/"
  (".b" for "a.b/"), where the model gives "".
- Closing a session is modelled as clearing its open flag. The ws library delivers no message
  after close, so a message received on a closed session does nothing.
- In the old client, the recorder's `stop()` is modelled as the later call to `OnStop`, not as
  part of stopping.
