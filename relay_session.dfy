/** The streaming relay of server-ws.js: one `Session` per WebSocket connection.

    The external programs and services are oracle inputs gathered in `Env`: the ffmpeg
    conversion, the voice-activity segmenter (its stdout blocks and the chunk files it writes),
    the HTTP transcription/translation backends and the WebSocket transcription server.
    `Date.now()` is `Env.stamp`; `uuidv4()` is the session counter `nextId`.

    `State` and the functions over it are the specification; class `Session` holds the same
    state in fields and keeps the source's loops (the stdout `forEach`, the queue `while`,
    the `cleanupFiles` `forEach`), each method proved against its function. */
module RelaySession {
  import opened Common

  const DefaultModel := "Systran/faster-whisper-large-v3"
  const DefaultLanguage := "zh"
  const DefaultOperation := "transcription"
  const DefaultOutputLanguage := "fr"
  const DefaultResponseFormat := "json"
  const DefaultTemperature := "0"
  const DefaultFileType := "webm"

  const TranslationModel := "gpt-3.5-turbo"
  const TranslationSystem := "You are a professional, authentic machine translation engine."
  const PromptHead := "Translate the following source text to "
  const PromptMiddle := ", Output translation directly without any additional text.\nSource Text: "
  const PromptTail := "\nTranslated Text:"

  const ConvertError := "Error converting or sending audio"
  const ProcessingError := "Error processing audio"

  /** An inbound JSON command. A field the client left out is "" (every field is read with
      `||`, which treats undefined and "" alike). */
  datatype Inbound = Inbound(
    kind: string, audio: seq<byte>, fileType: string, model: string, language: string,
    operation: string, outputLanguage: string, responseFormat: string, temperature: string)

  /** The settings a command is processed with, after defaults. */
  datatype Params = Params(
    model: string, language: string, operation: string, outputLanguage: string,
    responseFormat: string, temperature: string)

  /** The uuid the session hands out. */
  datatype Id = Id(n: nat)

  /** An outbound event sent to the client. */
  datatype Event =
    | Ping
    | Transcription(heard: Option<string>, id: Id, audio: seq<byte>)
    | Translation(text: string, id: Id, audio: seq<byte>)
    | Error(message: string)

  /** A request to one of the backends. */
  datatype Call =
    | TranscribeHttp(file: seq<byte>, model: string, language: string, responseFormat: string, temperature: string)
    | TranscribeSocket(audio: seq<byte>, model: string, language: string, responseFormat: string, temperature: string)
    | Complete(model: string, system: string, user: string)

  /** What ffmpeg did: wrote the converted file, or failed (possibly leaving a partial file). */
  datatype Conversion = Converted(output: seq<byte>) | ConversionFailed(partial: Option<seq<byte>>)

  /** What the segmenter did: the blocks it wrote to stdout, in order, and the chunk files. */
  datatype Segmentation = Segmentation(stdout: seq<string>, chunkFiles: map<string, seq<byte>>)

  /** The HTTP backends' answers for one chunk job: None is a failed request or an
      unparseable body; `Some(None)` is a parsed transcription body without a `text` field,
      whose `transcription.text` is undefined. `translation` is the raw
      `choices[0].message.content`. */
  datatype Reply = Reply(transcription: Option<Option<string>>, translation: Option<string>)

  /** The WebSocket transcription server: not reachable, or connected and (maybe) answering
      with a parseable first message (`Some(None)` when it has no `text`); `translation` is the
      chat backend's answer after it. */
  datatype SocketOutcome = Unreachable | Connected(first: Option<Option<string>>, translation: Option<string>)

  /** Everything outside the session that one inbound command observes. The backend reply of
      the chunk job with id `Id(n)` is `replies(n)`. */
  datatype Env = Env(
    stamp: nat, conversion: Conversion, segmentation: Segmentation,
    replies: nat -> Reply, socket: SocketOutcome)

  /** The server's directory and the paths whose `unlinkSync` fails. */
  datatype Host = Host(dir: string, locked: set<string>)

  datatype State = Snapshot(
    events: seq<Event>, calls: seq<Call>, disk: map<string, seq<byte>>, queue: seq<string>,
    open: bool, nextId: nat, audioBuffer: seq<seq<byte>>)

  // ---------------------------------------------------------------- defaults and paths

  /** `v || d` on a string. */
  function OrDefault(v: string, d: string): string
  {
    if v == "" then d else v
  }

  /** The settings of a command: each field the client gave, else its default. */
  function Defaults(m: Inbound): (p: Params)
    ensures p.model != "" && p.language != "" && p.operation != ""
    ensures p.outputLanguage != "" && p.responseFormat != "" && p.temperature != ""
    ensures m.model != "" ==> p.model == m.model
    ensures m.language != "" ==> p.language == m.language
    ensures m.operation != "" ==> p.operation == m.operation
    ensures m.outputLanguage != "" ==> p.outputLanguage == m.outputLanguage
    ensures m.responseFormat != "" ==> p.responseFormat == m.responseFormat
    ensures m.temperature != "" ==> p.temperature == m.temperature
    ensures m.model == "" ==> p.model == "Systran/faster-whisper-large-v3"
    ensures m.language == "" ==> p.language == "zh"
    ensures m.operation == "" ==> p.operation == "transcription"
    ensures m.outputLanguage == "" ==> p.outputLanguage == "fr"
    ensures m.responseFormat == "" ==> p.responseFormat == "json"
    ensures m.temperature == "" ==> p.temperature == "0"
  {
    Params(
      OrDefault(m.model, DefaultModel), OrDefault(m.language, DefaultLanguage),
      OrDefault(m.operation, DefaultOperation), OrDefault(m.outputLanguage, DefaultOutputLanguage),
      OrDefault(m.responseFormat, DefaultResponseFormat), OrDefault(m.temperature, DefaultTemperature))
  }

  /** `path.join(__dirname, "uploads/audio_${Date.now()}.${audioType}")` */
  function UploadPath(dir: string, stamp: nat, fileType: string): string
  {
    UploadStem(dir, stamp) + "." + OrDefault(fileType, DefaultFileType)
  }

  function UploadStem(dir: string, stamp: nat): string
  {
    dir + "/uploads/audio_" + NatToString(stamp)
  }

  /** `path.extname(p)` (POSIX): from the last '.' of the last segment, unless that dot starts
      the segment or the segment is "..". */
  function ExtName(p: string): (e: string)
    ensures e == [] || (e[0] == '.' && EndsWith(p, e))
    ensures e != [] ==> '.' !in e[1..] && '/' !in e && |e| < |p| && p[|p| - |e| - 1] != '/'
  {
    var i := LastIndexOf(p, '/');
    var base := p[i + 1..];
    var dot := LastIndexOf(base, '.');
    var e := if dot <= 0 || base == ".." then "" else base[dot..];
    assert e != [] ==> p[|p| - |e| - 1] == base[dot - 1];
    e
  }

  /** After the last '/' of a path, the extension is ".y" for a name "….y" whose part before
      the dot is not empty and which is not "..". */
  lemma ExtNameIs(x: string, y: string)
    requires '.' !in y && '/' !in y
    requires x != [] && x[|x| - 1] != '/'
    requires y != [] || x[|x| - 1] != '.'
    ensures ExtName(x + "." + y) == "." + y
  {
    var p := x + "." + y;
    LastIndexOfSkip(x, "." + y, '/');
    var i := LastIndexOf(x, '/');
    var base := p[i + 1..];
    assert base == x[i + 1..] + ['.'] + y;
    LastIndexOfAfter(x[i + 1..], '.', y);
    assert base[|x| - i - 1..] == "." + y;
  }

  /** A last segment without a '.' after its first character, or "..", has no extension. */
  lemma ExtNameNone(x: string, seg: string)
    requires '/' !in seg
    requires seg == ".." || forall k :: 0 < k < |seg| ==> seg[k] != '.'
    ensures ExtName(x + "/" + seg) == ""
    ensures ExtName(seg) == ""
  {
    LastIndexOfAfter(x, '/', seg);
    assert (x + "/" + seg)[|x| + 1..] == seg;
  }

  lemma {:induction false} LastIndexOfSkip(x: string, z: string, c: char)
    requires c !in z
    ensures LastIndexOf(x + z, c) == LastIndexOf(x, c)
  {
    if z != [] {
      assert (x + z)[..|x + z| - 1] == x + z[..|z| - 1];
      LastIndexOfSkip(x, z[..|z| - 1], c);
    } else {
      assert x + z == x;
    }
  }

  /** `p.replace(path.extname(p), ext)`: the first occurrence of the extension is replaced. */
  function SwapExtension(p: string, ext: string): string
  {
    ReplaceFirst(p, ExtName(p), ext)
  }

  lemma {:induction false} LastIndexOfAfter(x: string, c: char, y: string)
    requires c !in y
    ensures LastIndexOf(x + [c] + y, c) == |x|
  {
    if y != [] {
      var s := x + [c] + y;
      assert s[..|s| - 1] == x + [c] + y[..|y| - 1];
      LastIndexOfAfter(x, c, y[..|y| - 1]);
    } else {
      assert x + [c] + y == x + [c];
    }
  }

  lemma DigitsHaveNo(c: char, s: string)
    requires IsDigits(s) && !('0' <= c <= '9')
    ensures c !in s
  {
  }

  /** The stem holds no '.' when the directory holds none. */
  lemma StemHasNoDot(dir: string, stamp: nat)
    requires '.' !in dir
    ensures '.' !in UploadStem(dir, stamp)
  {
    var digits := NatToString(stamp);
    DigitsHaveNo('.', digits);
    var stem := UploadStem(dir, stamp);
    forall i | 0 <= i < |stem| ensures stem[i] != '.' {
      if i < |dir| {
        assert stem[i] == dir[i];
      } else if i < |dir| + 15 {
        assert stem[i] == "/uploads/audio_"[i - |dir|];
      } else {
        assert stem[i] == digits[i - |dir| - 15];
      }
    }
  }

  /** The file name after the last '/' of an upload path. */
  lemma UploadBaseName(dir: string, stamp: nat, t: string)
    requires '/' !in t
    ensures var p := UploadStem(dir, stamp) + "." + t;
      p[LastIndexOf(p, '/') + 1..] == "audio_" + NatToString(stamp) + "." + t
  {
    var digits := NatToString(stamp);
    DigitsHaveNo('/', digits);
    var name := "audio_" + digits + "." + t;
    forall k | 0 <= k < |name| ensures name[k] != '/' {
      if k < 6 {
        assert name[k] == "audio_"[k];
      } else if k < 6 + |digits| {
        assert name[k] == digits[k - 6];
      } else if k > 6 + |digits| {
        assert name[k] == t[k - 7 - |digits|];
      }
    }
    var p := UploadStem(dir, stamp) + "." + t;
    assert p == (dir + "/uploads") + ['/'] + name;
    LastIndexOfAfter(dir + "/uploads", '/', name);
  }

  lemma UploadExtName(dir: string, stamp: nat, t: string)
    requires '.' !in t && '/' !in t
    ensures ExtName(UploadStem(dir, stamp) + "." + t) == "." + t
  {
    var p := UploadStem(dir, stamp) + "." + t;
    UploadBaseName(dir, stamp, t);
    var name := "audio_" + NatToString(stamp) + "." + t;
    assert name == ("audio_" + NatToString(stamp)) + ['.'] + t;
    LastIndexOfAfter("audio_" + NatToString(stamp), '.', t);
    assert name[LastIndexOf(name, '.')..] == "." + t;
  }

  /** `indexOf` finds `e` right after `x` when `x` cannot hold the first character of `e`. */
  lemma IndexOfAfterPrefix(x: string, e: string)
    requires e != [] && e[0] !in x
    ensures IndexOf(x + e, e) == |x|
  {
    var s := x + e;
    assert s[|x|..|x| + |e|] == e;
    assert OccursAt(s, e, |x|);
    forall j | 0 <= j < |x| ensures !OccursAt(s, e, j) {
      assert s[j] == x[j];
    }
  }

  /** Replacing the first `e` in `x + e` replaces that suffix when `x` cannot start an `e`. */
  lemma ReplaceAfterPrefix(x: string, e: string, rep: string)
    requires e != [] && e[0] !in x
    ensures ReplaceFirst(x + e, e, rep) == x + rep
  {
    IndexOfAfterPrefix(x, e);
    var s := x + e;
    assert s[..|x|] == x;
    assert s[|x| + |e|..] == [];
  }

  /** When neither the directory nor the file type holds a '.', and the type holds no '/',
      swapping the extension of an upload path gives the same stem with the new extension. */
  lemma UploadPathSwap(dir: string, stamp: nat, fileType: string, ext: string)
    requires '.' !in dir
    requires '.' !in OrDefault(fileType, DefaultFileType) && '/' !in OrDefault(fileType, DefaultFileType)
    ensures SwapExtension(UploadPath(dir, stamp, fileType), ext) == UploadStem(dir, stamp) + ext
  {
    var t := OrDefault(fileType, DefaultFileType);
    var stem := UploadStem(dir, stamp);
    UploadPathSplit(dir, stamp, fileType);
    UploadExtName(dir, stamp, t);
    StemHasNoDot(dir, stamp);
    ReplaceAfterPrefix(stem, "." + t, ext);
  }

  lemma UploadPathSplit(dir: string, stamp: nat, fileType: string)
    ensures UploadPath(dir, stamp, fileType) == UploadStem(dir, stamp) + ("." + OrDefault(fileType, DefaultFileType))
    ensures UploadPath(dir, stamp, fileType) == UploadStem(dir, stamp) + "." + OrDefault(fileType, DefaultFileType)
  {
  }

  /** An upload declared as "wav" is converted onto itself: its ".wav" target is its own path. */
  lemma WavUploadTargetsItself(dir: string, stamp: nat)
    requires '.' !in dir
    ensures SwapExtension(UploadPath(dir, stamp, "wav"), ".wav") == UploadPath(dir, stamp, "wav")
  {
    UploadPathSwap(dir, stamp, "wav", ".wav");
    UploadPathSplit(dir, stamp, "wav");
    WavExtension();
  }

  lemma WavExtension()
    ensures "." + OrDefault("wav", DefaultFileType) == ".wav"
  {
  }

  // ---------------------------------------------------------------- translation prompt

  /** The user message sent to the chat backend for a translation. */
  function TranslationPrompt(outputLanguage: string, text: string): string
  {
    PromptHead + outputLanguage + PromptMiddle + text + PromptTail
  }

  /** The prompt names the target language right after the fixed head, ends with the
      transcribed text and the fixed tail, and for one target language determines the text. */
  lemma PromptEmbeds(outputLanguage: string, text: string, text': string)
    ensures StartsWith(TranslationPrompt(outputLanguage, text), PromptHead + outputLanguage + PromptMiddle)
    ensures EndsWith(TranslationPrompt(outputLanguage, text), text + PromptTail)
    ensures TranslationPrompt(outputLanguage, text) == TranslationPrompt(outputLanguage, text') ==> text == text'
  {
    var pre := PromptHead + outputLanguage + PromptMiddle;
    var p := TranslationPrompt(outputLanguage, text);
    assert p == pre + (text + PromptTail);
    assert p[..|pre|] == pre;
    if p == TranslationPrompt(outputLanguage, text') {
      var p' := TranslationPrompt(outputLanguage, text');
      assert p' == pre + (text' + PromptTail);
      assert |text| == |text'|;
      assert text == p[|pre|..|pre| + |text|];
      assert text' == p'[|pre|..|pre| + |text'|];
    }
  }

  /** The chat request for a transcribed text; a missing text is interpolated as "undefined". */
  function TranslationCall(p: Params, text: Option<string>): Call
  {
    Complete(TranslationModel, TranslationSystem, TranslationPrompt(p.outputLanguage, Shown(text)))
  }

  // ---------------------------------------------------------------- segmenter stdout

  /** One stdout line as it enters the queue: trimmed, dropped when empty. */
  function Piece(line: string): seq<string>
  {
    var t := Trim(line);
    if t == "" then [] else [t]
  }

  function Pieces(lines: seq<string>): seq<string>
  {
    if lines == [] then [] else Pieces(lines[..|lines| - 1]) + Piece(lines[|lines| - 1])
  }

  /** The queue entries one stdout data block yields (`data.toString().split("\n")`, trim,
      keep the non-empty ones). */
  function ParseBlock(block: string): seq<string>
  {
    Pieces(Split(block, '\n'))
  }

  /** All entries the segmenter's stdout blocks yield, block by block. */
  function ParseStdout(blocks: seq<string>): seq<string>
  {
    if blocks == [] then [] else ParseStdout(blocks[..|blocks| - 1]) + ParseBlock(blocks[|blocks| - 1])
  }

  predicate IsQueueEntry(e: string)
  {
    e != "" && !IsJsSpace(e[0]) && !IsJsSpace(e[|e| - 1]) && '\n' !in e
  }

  lemma {:induction false} PiecesAppend(a: seq<string>, b: seq<string>)
    ensures Pieces(a + b) == Pieces(a) + Pieces(b)
  {
    if b == [] {
      assert a + b == a;
    } else {
      assert (a + b)[..|a + b| - 1] == a + b[..|b| - 1];
      PiecesAppend(a, b[..|b| - 1]);
    }
  }

  lemma {:induction false} PiecesEntries(lines: seq<string>)
    requires forall i :: 0 <= i < |lines| ==> '\n' !in lines[i]
    ensures forall i :: 0 <= i < |Pieces(lines)| ==> IsQueueEntry(Pieces(lines)[i])
  {
    if lines != [] {
      PiecesEntries(lines[..|lines| - 1]);
      var l := lines[|lines| - 1];
      TrimKeepsOut(l, '\n');
    }
  }

  /** Every entry of a parsed block is non-empty, trimmed and a single line. */
  lemma ParseBlockEntries(block: string)
    ensures forall i :: 0 <= i < |ParseBlock(block)| ==> IsQueueEntry(ParseBlock(block)[i])
  {
    SplitPiecesFree(block, '\n');
    PiecesEntries(Split(block, '\n'));
  }

  lemma ParseBlockEmpty()
    ensures ParseBlock("") == []
  {
    assert Split("", '\n') == [""];
    assert Trim("") == "";
    assert Pieces([""]) == Pieces([]) + Piece("");
  }

  /** Text without a newline is one line: at most one entry, its trimmed self. */
  lemma ParseBlockLine(x: string)
    requires '\n' !in x
    ensures ParseBlock(x) == Piece(x)
  {
    SplitNoSep(x, '\n');
    assert Pieces([x]) == Pieces([]) + Piece(x);
  }

  /** Parsing splits at every newline: the entries of `a + "\n" + b` are those of `a`, then
      those of `b`, so the original order is kept. */
  lemma ParseBlockJoin(a: string, b: string)
    ensures ParseBlock(a + "\n" + b) == ParseBlock(a) + ParseBlock(b)
  {
    SplitAppend(a, b, '\n');
    assert a + "\n" + b == a + ['\n'] + b;
    PiecesAppend(Split(a, '\n'), Split(b, '\n'));
  }

  /** A final newline adds no entry. */
  lemma ParseBlockNewlineEnd(a: string)
    ensures ParseBlock(a + "\n") == ParseBlock(a)
  {
    SplitAppend(a, "", '\n');
    assert a + ['\n'] + "" == a + "\n";
    PiecesAppend(Split(a, '\n'), Split("", '\n'));
    ParseBlockEmpty();
    assert Pieces(Split(a, '\n')) + [] == Pieces(Split(a, '\n'));
  }

  lemma ParseBlockAfterNewline(a: string, b: string)
    requires EndsWith(a, "\n")
    ensures ParseBlock(a + b) == ParseBlock(a) + ParseBlock(b)
  {
    var a' := a[..|a| - 1];
    assert a == a' + "\n";
    ParseBlockJoin(a', b);
    ParseBlockNewlineEnd(a');
    assert a + b == a' + "\n" + b;
  }

  /** When every block ends at a line boundary, block-by-block parsing is the same as
      parsing the whole stdout stream at once. */
  lemma {:induction false} ParseStdoutAligned(blocks: seq<string>)
    requires forall i :: 0 <= i < |blocks| ==> EndsWith(blocks[i], "\n")
    ensures ParseStdout(blocks) == ParseBlock(Flatten(blocks))
  {
    if blocks != [] {
      var init := blocks[..|blocks| - 1];
      var last := blocks[|blocks| - 1];
      ParseStdoutAligned(init);
      assert ParseStdout(blocks) == ParseStdout(init) + ParseBlock(last);
      assert Flatten(blocks) == Flatten(init) + last;
      if init == [] {
        assert Flatten(init) == [];
        assert ParseStdout(init) == [];
        assert Flatten(init) + last == last;
      } else {
        FlattenEndsWithLast(init);
        ParseBlockAfterNewline(Flatten(init), last);
      }
    } else {
      ParseBlockEmpty();
    }
  }

  lemma EndsWithAppend(a: string, b: string, suffix: string)
    requires EndsWith(b, suffix)
    ensures EndsWith(a + b, suffix)
  {
    assert (a + b)[|a + b| - |suffix|..] == b[|b| - |suffix|..];
  }

  lemma FlattenEndsWithLast(parts: seq<string>)
    requires parts != [] && EndsWith(parts[|parts| - 1], "\n")
    ensures EndsWith(Flatten(parts), "\n")
  {
    var last := parts[|parts| - 1];
    EndsWithAppend(Flatten(parts[..|parts| - 1]), last, "\n");
  }

  lemma ParseStdoutSingle(b: string)
    ensures ParseStdout([b]) == ParseBlock(b)
  {
    assert [b][..0] == [];
  }

  lemma ParseStdoutPair(b1: string, b2: string)
    ensures ParseStdout([b1, b2]) == ParseBlock(b1) + ParseBlock(b2)
  {
    var blocks := [b1, b2];
    assert blocks[..1] == [b1];
    ParseStdoutSingle(b1);
  }

  lemma FlattenPair(b1: string, b2: string)
    ensures Flatten([b1, b2]) == b1 + b2
  {
    var blocks := [b1, b2];
    assert blocks[..1] == [b1];
    assert [b1][..0] == [];
    assert Flatten([b1]) == Flatten([]) + b1;
  }

  /** A single line of non-space characters, ended by a newline, is one entry. */
  lemma ParseBlockOneLine(x: string)
    requires x != "" && '\n' !in x
    requires forall k :: 0 <= k < |x| ==> !IsJsSpace(x[k])
    ensures ParseBlock(x) == [x] && ParseBlock(x + "\n") == [x]
  {
    assert Trim(x) == x;
    ParseBlockLine(x);
    ParseBlockNewlineEnd(x);
  }

  lemma JoinedLine(x: string, y: string)
    requires '\n' !in x && '\n' !in y
    requires forall k :: 0 <= k < |x| ==> !IsJsSpace(x[k])
    requires forall k :: 0 <= k < |y| ==> !IsJsSpace(y[k])
    ensures '\n' !in x + y
    ensures forall k :: 0 <= k < |x + y| ==> !IsJsSpace((x + y)[k])
  {
    var xy := x + y;
    forall k | 0 <= k < |xy| ensures xy[k] != '\n' && !IsJsSpace(xy[k]) {
      if k < |x| { assert xy[k] == x[k]; } else { assert xy[k] == y[k - |x|]; }
    }
  }

  lemma TwoLineBlocks(x: string, y: string)
    requires x != "" && y != "" && '\n' !in x && '\n' !in y
    requires forall k :: 0 <= k < |x| ==> !IsJsSpace(x[k])
    requires forall k :: 0 <= k < |y| ==> !IsJsSpace(y[k])
    ensures ParseStdout([x, y + "\n"]) == [x, y]
  {
    ParseBlockOneLine(x);
    ParseBlockOneLine(y);
    ParseStdoutPair(x, y + "\n");
  }

  lemma JoinedLineBlock(x: string, y: string)
    requires x != "" && y != "" && '\n' !in x && '\n' !in y
    requires forall k :: 0 <= k < |x| ==> !IsJsSpace(x[k])
    requires forall k :: 0 <= k < |y| ==> !IsJsSpace(y[k])
    ensures ParseBlock(x + y + "\n") == [x + y]
  {
    JoinedLine(x, y);
    ParseBlockOneLine(x + y);
  }

  /** A line that reaches the process pipe in two data blocks becomes two queue entries:
      blocks ["x", "y\n"] give [x, y] where the stream "xy\n" holds the single line "xy". */
  lemma SplitLineBecomesTwoEntries(x: string, y: string)
    requires x != "" && y != "" && '\n' !in x && '\n' !in y
    requires forall k :: 0 <= k < |x| ==> !IsJsSpace(x[k])
    requires forall k :: 0 <= k < |y| ==> !IsJsSpace(y[k])
    ensures ParseStdout([x, y + "\n"]) == [x, y]
    ensures ParseBlock(x + y + "\n") == [x + y]
    ensures ParseStdout([x, y + "\n"]) != ParseBlock(Flatten([x, y + "\n"]))
  {
    TwoLineBlocks(x, y);
    JoinedLineBlock(x, y);
    FlattenPair(x, y + "\n");
    assert x + (y + "\n") == x + y + "\n";
  }

  lemma ParseStdoutSnoc(blocks: seq<string>, i: nat)
    requires i < |blocks|
    ensures ParseStdout(blocks[..i + 1]) == ParseStdout(blocks[..i]) + ParseBlock(blocks[i])
  {
    assert blocks[..i + 1][..i] == blocks[..i];
  }

  /** One more line processed: the queue grows by that line's entry. */
  lemma QueueStep(q0: seq<string>, lines: seq<string>, i: nat, q: seq<string>)
    requires i < |lines| && q == q0 + Pieces(lines[..i])
    ensures q0 + Pieces(lines[..i + 1]) == q + Piece(lines[i])
    ensures Trim(lines[i]) == "" ==> q0 + Pieces(lines[..i + 1]) == q
    ensures Trim(lines[i]) != "" ==> q0 + Pieces(lines[..i + 1]) == q + [Trim(lines[i])]
  {
    PiecesSnoc(lines, i);
    SeqAssoc(q0, Pieces(lines[..i]), Piece(lines[i]));
    assert q + [] == q;
  }

  lemma PiecesSnoc(lines: seq<string>, i: nat)
    requires i < |lines|
    ensures Pieces(lines[..i + 1]) == Pieces(lines[..i]) + Piece(lines[i])
  {
    assert lines[..i + 1][..i] == lines[..i];
  }

  // ---------------------------------------------------------------- one chunk job (HTTP path)

  function Lookup(disk: map<string, seq<byte>>, path: string): Option<seq<byte>>
  {
    if path in disk then Some(disk[path]) else None
  }

  /** The events of one chunk job of an upload (`transcribeOrTranslateHTTP`): the chunk's
      audio is None when its file is not on disk. */
  function ChunkEvents(audio: Option<seq<byte>>, p: Params, reply: Reply, id: Id): seq<Event>
  {
    match audio
    case None => [Error(ProcessingError)]
    case Some(a) =>
      match reply.transcription
      case None => [Error(ProcessingError)]
      case Some(text) =>
        [Transcription(text, id, a)] +
        if p.operation != "translation" then []
        else
          match reply.translation
          case None => [Error(ProcessingError)]
          case Some(c) => [Translation(Trim(c), id, a)]
  }

  /** The backend requests of one chunk job. */
  function ChunkCalls(audio: Option<seq<byte>>, p: Params, reply: Reply): seq<Call>
  {
    match audio
    case None => []
    case Some(a) =>
      [TranscribeHttp(a, p.model, p.language, p.responseFormat, p.temperature)] +
      if reply.transcription.Some? && p.operation == "translation"
      then [TranslationCall(p, reply.transcription.value)] else []
  }

  /** A chunk job fails when its file is missing or a backend request it makes fails. */
  predicate ChunkFails(audio: Option<seq<byte>>, p: Params, reply: Reply)
  {
    audio.None? || reply.transcription.None? || (p.operation == "translation" && reply.translation.None?)
  }

  /** The shape of a chunk job's events: a failure is exactly one error event (after the
      transcription event when only the translation failed); a success is the transcription
      event, followed, for "translation" only, by the translation event with the same id and
      the same audio. */
  lemma ChunkEventsShape(audio: Option<seq<byte>>, p: Params, reply: Reply, id: Id)
    ensures var es := ChunkEvents(audio, p, reply, id);
      && 1 <= |es| <= 2
      && (ChunkFails(audio, p, reply) <==> es[|es| - 1] == Error(ProcessingError))
      && (forall k :: 0 <= k < |es| - 1 ==> es[k].Transcription?)
      && (es[0].Transcription? ==> es[0].id == id && audio == Some(es[0].audio))
      && (|es| == 2 && es[1].Translation? ==> es[1].id == es[0].id && es[1].audio == es[0].audio)
      && (|es| == 2 <==> audio.Some? && reply.transcription.Some? && p.operation == "translation")
      && (p.operation != "translation" ==> forall k :: 0 <= k < |es| ==> !es[k].Translation?)
  {
  }

  /** A transcription body without a `text` field is not an error: the transcription event goes
      out without text and, for "translation", the chat prompt interpolates "undefined". */
  lemma MissingTextIsUndefined(a: seq<byte>, p: Params, translation: Option<string>, id: Id)
    ensures var es := ChunkEvents(Some(a), p, Reply(Some(None), translation), id);
      && es[0] == Transcription(None, id, a)
      && (!ChunkFails(Some(a), p, Reply(Some(None), translation)) <==> p.operation != "translation" || translation.Some?)
    ensures p.operation == "translation" ==>
      ChunkCalls(Some(a), p, Reply(Some(None), translation))
      == [TranscribeHttp(a, p.model, p.language, p.responseFormat, p.temperature),
          Complete(TranslationModel, TranslationSystem, TranslationPrompt(p.outputLanguage, "undefined"))]
  {
  }

  // ---------------------------------------------------------------- draining the queue

  /** The events of the queue jobs in order; the job for `queue[k]` gets id `first + k`. */
  function DrainEvents(queue: seq<string>, disk: map<string, seq<byte>>, p: Params, replies: nat -> Reply, first: nat): seq<Event>
    decreases |queue|
  {
    if queue == [] then []
    else ChunkEvents(Lookup(disk, queue[0]), p, replies(first), Id(first))
         + DrainEvents(queue[1..], disk, p, replies, first + 1)
  }

  function DrainCalls(queue: seq<string>, disk: map<string, seq<byte>>, p: Params, replies: nat -> Reply, first: nat): seq<Call>
    decreases |queue|
  {
    if queue == [] then []
    else ChunkCalls(Lookup(disk, queue[0]), p, replies(first))
         + DrainCalls(queue[1..], disk, p, replies, first + 1)
  }

  /** Draining splits over a split queue: the first part's jobs all come first. */
  lemma {:induction false} DrainEventsAppend(q1: seq<string>, q2: seq<string>, disk: map<string, seq<byte>>, p: Params, replies: nat -> Reply, first: nat)
    ensures DrainEvents(q1 + q2, disk, p, replies, first)
            == DrainEvents(q1, disk, p, replies, first) + DrainEvents(q2, disk, p, replies, first + |q1|)
  {
    if q1 == [] {
      assert q1 + q2 == q2;
    } else {
      assert (q1 + q2)[1..] == q1[1..] + q2;
      DrainEventsAppend(q1[1..], q2, disk, p, replies, first + 1);
    }
  }

  /** Whether an event carries a job id. */
  predicate HasId(e: Event)
  {
    e.Transcription? || e.Translation?
  }

  /** Every id in `es` is one of `lo`, ..., `hi - 1`. */
  predicate IdsWithin(es: seq<Event>, lo: nat, hi: nat)
  {
    forall i :: 0 <= i < |es| && HasId(es[i]) ==> lo <= es[i].id.n < hi
  }

  /** A later event never carries an earlier id. */
  predicate IdsAscending(es: seq<Event>)
  {
    forall i, j :: 0 <= i < j < |es| && HasId(es[i]) && HasId(es[j]) ==> es[i].id.n <= es[j].id.n
  }

  lemma IdsConcat(a: seq<Event>, b: seq<Event>, lo: nat, mid: nat, hi: nat)
    requires IdsWithin(a, lo, mid) && IdsWithin(b, mid, hi) && IdsAscending(a) && IdsAscending(b)
    requires lo <= mid <= hi
    ensures IdsWithin(a + b, lo, hi) && IdsAscending(a + b)
  {
    var es := a + b;
    forall i | 0 <= i < |es| && HasId(es[i]) ensures lo <= es[i].id.n < hi {
      if i < |a| { assert es[i] == a[i]; } else { assert es[i] == b[i - |a|]; }
    }
    forall i, j | 0 <= i < j < |es| && HasId(es[i]) && HasId(es[j]) ensures es[i].id.n <= es[j].id.n {
      if j < |a| {
        assert es[i] == a[i] && es[j] == a[j];
      } else if i < |a| {
        assert es[i] == a[i] && es[j] == b[j - |a|];
      } else {
        assert es[i] == b[i - |a|] && es[j] == b[j - |a|];
      }
    }
  }

  /** Ids appear in job order: every id is one of the queue's jobs, and a later event never
      carries an earlier job's id. */
  lemma {:induction false} DrainIdsOrdered(queue: seq<string>, disk: map<string, seq<byte>>, p: Params, replies: nat -> Reply, first: nat)
    ensures IdsWithin(DrainEvents(queue, disk, p, replies, first), first, first + |queue|)
    ensures IdsAscending(DrainEvents(queue, disk, p, replies, first))
  {
    if queue != [] {
      DrainIdsOrdered(queue[1..], disk, p, replies, first + 1);
      ChunkEventsShape(Lookup(disk, queue[0]), p, replies(first), Id(first));
      var head := ChunkEvents(Lookup(disk, queue[0]), p, replies(first), Id(first));
      IdsConcat(head, DrainEvents(queue[1..], disk, p, replies, first + 1), first, first + 1, first + |queue|);
    }
  }

  predicate AllSucceed(queue: seq<string>, disk: map<string, seq<byte>>, p: Params, replies: nat -> Reply, first: nat)
  {
    forall k :: 0 <= k < |queue| ==> !ChunkFails(Lookup(disk, queue[k]), p, replies(first + k))
  }

  lemma AllSucceedTail(queue: seq<string>, disk: map<string, seq<byte>>, p: Params, replies: nat -> Reply, first: nat)
    requires queue != [] && AllSucceed(queue, disk, p, replies, first)
    ensures !ChunkFails(Lookup(disk, queue[0]), p, replies(first))
    ensures AllSucceed(queue[1..], disk, p, replies, first + 1)
  {
    assert !ChunkFails(Lookup(disk, queue[0]), p, replies(first + 0));
    forall k | 0 <= k < |queue[1..]| ensures !ChunkFails(Lookup(disk, queue[1..][k]), p, replies(first + 1 + k)) {
      assert queue[1..][k] == queue[k + 1];
      assert !ChunkFails(Lookup(disk, queue[k + 1]), p, replies(first + (k + 1)));
    }
  }

  /** `es` holds, for the k-th chunk of `queue`, its transcription event and then its
      translation event, both with id `first + k` and that chunk's audio. */
  predicate TranslatedPairs(es: seq<Event>, queue: seq<string>, disk: map<string, seq<byte>>, replies: nat -> Reply, first: nat)
  {
    && |es| == 2 * |queue|
    && forall k :: 0 <= k < |queue| ==>
         && queue[k] in disk
         && replies(first + k).transcription.Some? && replies(first + k).translation.Some?
         && es[2 * k] == Transcription(replies(first + k).transcription.value, Id(first + k), disk[queue[k]])
         && es[2 * k + 1] == Translation(Trim(replies(first + k).translation.value), Id(first + k), disk[queue[k]])
  }

  lemma ChunkTranslated(path: string, disk: map<string, seq<byte>>, p: Params, r: Reply, id: Id)
    requires p.operation == "translation" && !ChunkFails(Lookup(disk, path), p, r)
    ensures path in disk
    ensures ChunkEvents(Lookup(disk, path), p, r, id)
      == [Transcription(r.transcription.value, id, disk[path]), Translation(Trim(r.translation.value), id, disk[path])]
  {
  }

  lemma TranslatedPairsCons(tail: seq<Event>, queue: seq<string>, disk: map<string, seq<byte>>, replies: nat -> Reply, first: nat)
    requires queue != [] && queue[0] in disk
    requires replies(first).transcription.Some? && replies(first).translation.Some?
    requires TranslatedPairs(tail, queue[1..], disk, replies, first + 1)
    ensures TranslatedPairs(
      [Transcription(replies(first).transcription.value, Id(first), disk[queue[0]]),
       Translation(Trim(replies(first).translation.value), Id(first), disk[queue[0]])] + tail,
      queue, disk, replies, first)
  {
    var head := [Transcription(replies(first).transcription.value, Id(first), disk[queue[0]]),
                 Translation(Trim(replies(first).translation.value), Id(first), disk[queue[0]])];
    var es := head + tail;
    forall k | 1 <= k < |queue|
      ensures && queue[k] in disk
              && replies(first + k).transcription.Some? && replies(first + k).translation.Some?
              && es[2 * k] == Transcription(replies(first + k).transcription.value, Id(first + k), disk[queue[k]])
              && es[2 * k + 1] == Translation(Trim(replies(first + k).translation.value), Id(first + k), disk[queue[k]])
    {
      assert queue[k] == queue[1..][k - 1];
      assert first + k == (first + 1) + (k - 1);
      assert es[2 * k] == tail[2 * (k - 1)] && es[2 * k + 1] == tail[2 * (k - 1) + 1];
    }
  }

  /** Translating a queue whose jobs all succeed gives 2N events: for the k-th chunk a
      transcription event and then a translation event, both with id `first + k` and that
      chunk's audio, in queue order. */
  lemma {:induction false} DrainAllTranslated(queue: seq<string>, disk: map<string, seq<byte>>, p: Params, replies: nat -> Reply, first: nat)
    requires p.operation == "translation"
    requires AllSucceed(queue, disk, p, replies, first)
    ensures TranslatedPairs(DrainEvents(queue, disk, p, replies, first), queue, disk, replies, first)
  {
    if queue != [] {
      AllSucceedTail(queue, disk, p, replies, first);
      DrainAllTranslated(queue[1..], disk, p, replies, first + 1);
      ChunkTranslated(queue[0], disk, p, replies(first), Id(first));
      TranslatedPairsCons(DrainEvents(queue[1..], disk, p, replies, first + 1), queue, disk, replies, first);
    }
  }

  /** Transcribing (any operation other than "translation") a queue whose jobs all succeed
      gives exactly one transcription event per chunk, in queue order. */
  lemma {:induction false} DrainAllTranscribed(queue: seq<string>, disk: map<string, seq<byte>>, p: Params, replies: nat -> Reply, first: nat)
    requires p.operation != "translation"
    requires AllSucceed(queue, disk, p, replies, first)
    ensures |DrainEvents(queue, disk, p, replies, first)| == |queue|
    ensures forall k :: 0 <= k < |queue| ==>
      (queue[k] in disk && DrainEvents(queue, disk, p, replies, first)[k] == Transcription(replies(first + k).transcription.value, Id(first + k), disk[queue[k]]))
  {
    if queue != [] {
      AllSucceedTail(queue, disk, p, replies, first);
      DrainAllTranscribed(queue[1..], disk, p, replies, first + 1);
      var r := replies(first);
      var head := ChunkEvents(Lookup(disk, queue[0]), p, r, Id(first));
      assert head == [Transcription(r.transcription.value, Id(first), disk[queue[0]])];
      var tail := DrainEvents(queue[1..], disk, p, replies, first + 1);
      var es := head + tail;
      assert es == DrainEvents(queue, disk, p, replies, first);
      forall k | 0 <= k < |queue|
        ensures queue[k] in disk && es[k] == Transcription(replies(first + k).transcription.value, Id(first + k), disk[queue[k]])
      {
        if k > 0 {
          assert queue[k] == queue[1..][k - 1];
          assert first + k == (first + 1) + (k - 1);
          assert es[k] == tail[k - 1];
        }
      }
    }
  }

  /** Only the "translation" operation reaches the chat backend or yields translation events;
      in particular "conversation" never does. */
  lemma {:induction false} DrainNoTranslationUnlessRequested(queue: seq<string>, disk: map<string, seq<byte>>, p: Params, replies: nat -> Reply, first: nat)
    requires p.operation != "translation"
    ensures forall e :: e in DrainEvents(queue, disk, p, replies, first) ==> !e.Translation?
    ensures forall c :: c in DrainCalls(queue, disk, p, replies, first) ==> c.TranscribeHttp?
  {
    if queue != [] {
      DrainNoTranslationUnlessRequested(queue[1..], disk, p, replies, first + 1);
    }
  }

  // ---------------------------------------------------------------- the recording path

  /** The events of the recording path (`transcribeOrTranslateChunk`). Errors inside the socket
      callbacks are not caught, so a failed reply emits nothing; the translation event gets a
      second, different id. */
  function SocketEvents(audio: seq<byte>, p: Params, outcome: SocketOutcome, first: nat): seq<Event>
  {
    match outcome
    case Unreachable => []
    case Connected(None, _) => []
    case Connected(Some(text), translation) =>
      [Transcription(text, Id(first), audio)] +
      if p.operation == "translation" && translation.Some?
      then [Translation(Trim(translation.value), Id(first + 1), audio)] else []
  }

  function SocketCalls(audio: seq<byte>, p: Params, outcome: SocketOutcome): seq<Call>
  {
    match outcome
    case Unreachable => []
    case Connected(first, _) =>
      [TranscribeSocket(audio, p.model, p.language, p.responseFormat, p.temperature)] +
      if first.Some? && p.operation == "translation" then [TranslationCall(p, first.value)] else []
  }

  /** The recording path emits at most two events, never an error; the first is the
      transcription, and a translation after it carries the next id (not the same one) and the
      same audio. */
  lemma SocketEventsShape(audio: seq<byte>, p: Params, outcome: SocketOutcome, first: nat)
    ensures var es := SocketEvents(audio, p, outcome, first);
      && |es| <= 2
      && (forall k :: 0 <= k < |es| ==> !es[k].Error? && es[k].audio == audio)
      && (|es| >= 1 ==> es[0] == Transcription(outcome.first.value, Id(first), audio))
      && (|es| == 2 ==> es[1].Translation? && es[1].id == Id(first + 1) && es[1].id != es[0].id)
      && (|es| == 2 <==> outcome.Connected? && outcome.first.Some? && p.operation == "translation" && outcome.translation.Some?)
  {
  }

  // ---------------------------------------------------------------- files

  /** `fs.unlinkSync(f)` inside a try: removes an existing, deletable file; otherwise nothing. */
  function Unlink(disk: map<string, seq<byte>>, locked: set<string>, f: string): map<string, seq<byte>>
  {
    if f in disk && f !in locked then disk - {f} else disk
  }

  /** The disk after `cleanupFiles(files)`: every listed file that exists and can be deleted is
      gone; missing files are skipped and a failed delete does not stop the others. */
  function Cleaned(disk: map<string, seq<byte>>, files: seq<string>, locked: set<string>): (r: map<string, seq<byte>>)
    ensures r.Keys == disk.Keys - (set f | f in files && f !in locked)
    ensures forall f :: f in r ==> r[f] == disk[f]
  {
    map f | f in disk && !(f in files && f !in locked) :: disk[f]
  }

  // ---------------------------------------------------------------- the session steps

  function Opened(disk: map<string, seq<byte>>): State
  {
    Snapshot([], [], disk, [], true, 0, [])
  }

  /** One heartbeat tick: a ping while the connection is open. */
  function Ticked(s: State): State
  {
    if s.open then s.(events := s.events + [Ping]) else s
  }

  /** The close event: the heartbeat interval is cleared and the socket is closed. */
  function Closed(s: State): State
  {
    s.(open := false)
  }

  function WritePartial(s: State, f: string, partial: Option<seq<byte>>): State
  {
    if partial.Some? then s.(disk := s.disk[f := partial.value]) else s
  }

  /** The catch block of `convertAudioFile`. */
  function ConversionFailure(s: State, host: Host, files: seq<string>): State
  {
    s.(events := s.events + [Error(ConvertError)], disk := Cleaned(s.disk, files, host.locked))
  }

  /** One chunk job (`transcribeOrTranslateHTTP`) with the backends' reply for it. */
  function HttpChunk(s: State, path: string, p: Params, reply: Reply): State
  {
    var audio := Lookup(s.disk, path);
    s.(events := s.events + ChunkEvents(audio, p, reply, Id(s.nextId)),
       calls := s.calls + ChunkCalls(audio, p, reply),
       nextId := s.nextId + 1)
  }

  /** The segmenter's close handler: shift and process chunks one at a time until the queue
      is empty. */
  function Drain(s: State, p: Params, replies: nat -> Reply): State
    decreases |s.queue|
  {
    if s.queue == [] then s
    else Drain(HttpChunk(s.(queue := s.queue[1..]), s.queue[0], p, replies(s.nextId)), p, replies)
  }

  lemma DrainEventsCons(queue: seq<string>, disk: map<string, seq<byte>>, p: Params, replies: nat -> Reply, first: nat)
    requires queue != []
    ensures DrainEvents(queue, disk, p, replies, first)
      == ChunkEvents(Lookup(disk, queue[0]), p, replies(first), Id(first)) + DrainEvents(queue[1..], disk, p, replies, first + 1)
    ensures DrainCalls(queue, disk, p, replies, first)
      == ChunkCalls(Lookup(disk, queue[0]), p, replies(first)) + DrainCalls(queue[1..], disk, p, replies, first + 1)
  {
  }

  lemma {:induction false} DrainState(s: State, p: Params, replies: nat -> Reply)
    ensures var r := Drain(s, p, replies);
      && r.events == s.events + DrainEvents(s.queue, s.disk, p, replies, s.nextId)
      && r.calls == s.calls + DrainCalls(s.queue, s.disk, p, replies, s.nextId)
      && r.nextId == s.nextId + |s.queue|
      && r.queue == [] && r.disk == s.disk && r.open == s.open && r.audioBuffer == s.audioBuffer
    decreases |s.queue|
  {
    if s.queue != [] {
      var reply := replies(s.nextId);
      var s' := HttpChunk(s.(queue := s.queue[1..]), s.queue[0], p, reply);
      assert Drain(s, p, replies) == Drain(s', p, replies);
      DrainState(s', p, replies);
      DrainEventsCons(s.queue, s.disk, p, replies, s.nextId);
      var head := ChunkEvents(Lookup(s.disk, s.queue[0]), p, reply, Id(s.nextId));
      var headCalls := ChunkCalls(Lookup(s.disk, s.queue[0]), p, reply);
      assert s'.events == s.events + head && s'.calls == s.calls + headCalls;
      assert s'.queue == s.queue[1..] && s'.disk == s.disk && s'.nextId == s.nextId + 1;
      SeqAssoc(s.events, head, DrainEvents(s.queue[1..], s.disk, p, replies, s.nextId + 1));
      SeqAssoc(s.calls, headCalls, DrainCalls(s.queue[1..], s.disk, p, replies, s.nextId + 1));
    }
  }

  function UploadFlow(s: State, host: Host, path: string, p: Params, env: Env): State
  {
    var wav := SwapExtension(path, ".wav");
    var pcm := SwapExtension(path, ".pcm");
    match env.conversion
    case ConversionFailed(partial) => ConversionFailure(WritePartial(s, wav, partial), host, [path, pcm, wav])
    case Converted(out) =>
      var segmented := s.(disk := s.disk[wav := out] + env.segmentation.chunkFiles,
                          queue := ParseStdout(env.segmentation.stdout));
      var drained := Drain(segmented, p, env.replies);
      drained.(disk := Unlink(drained.disk, host.locked, path))
  }

  function RecordingFlow(s: State, host: Host, path: string, p: Params, env: Env): State
  {
    var wav := SwapExtension(path, ".wav");
    var pcm := SwapExtension(path, ".pcm");
    match env.conversion
    case ConversionFailed(partial) => ConversionFailure(WritePartial(s, pcm, partial), host, [path, pcm, wav])
    case Converted(out) =>
      var es := SocketEvents(out, p, env.socket, s.nextId);
      s.(events := s.events + es, calls := s.calls + SocketCalls(out, p, env.socket),
         nextId := s.nextId + |es|, disk := Cleaned(s.disk[pcm := out], [pcm], host.locked))
  }

  /** One inbound message, handled to completion. The socket delivers nothing after close. */
  function HandleMessage(s: State, host: Host, m: Inbound, env: Env): State
  {
    if !s.open then s
    else if m.kind == "audio" || m.kind == "upload" then
      var path := UploadPath(host.dir, env.stamp, m.fileType);
      var s1 := s.(disk := s.disk[path := m.audio]);
      if m.kind == "upload" then UploadFlow(s1, host, path, Defaults(m), env)
      else RecordingFlow(s1, host, path, Defaults(m), env)
    else if m.kind == "stop" then s.(audioBuffer := [])
    else s
  }

  datatype Input = Message(m: Inbound, env: Env) | Tick | Close

  function Step(s: State, host: Host, i: Input): State
  {
    match i
    case Message(m, env) => HandleMessage(s, host, m, env)
    case Tick => Ticked(s)
    case Close => Closed(s)
  }

  function Run(s: State, host: Host, inputs: seq<Input>): State
    decreases |inputs|
  {
    if inputs == [] then s else Run(Step(s, host, inputs[0]), host, inputs[1..])
  }

  // ---------------------------------------------------------------- properties of the steps

  /** Only "audio" and "upload" do anything observable: "stop" resets the (never filled)
      audio buffer, and "pong", "ping" and any other type change nothing at all. */
  lemma OtherKindsAreQuiet(s: State, host: Host, m: Inbound, env: Env)
    requires m.kind != "audio" && m.kind != "upload"
    ensures var r := HandleMessage(s, host, m, env);
      && r.events == s.events && r.calls == s.calls && r.disk == s.disk && r.nextId == s.nextId
      && (m.kind == "stop" && s.open ==> r.audioBuffer == [])
      && (m.kind != "stop" ==> r == s)
  {
  }

  /** While open, each tick sends exactly one ping; after close, no input sends anything. */
  lemma {:induction false} ClosedSessionIsSilent(s: State, host: Host, inputs: seq<Input>)
    requires !s.open
    ensures Run(s, host, inputs).events == s.events
    ensures !Run(s, host, inputs).open
    decreases |inputs|
  {
    if inputs != [] {
      ClosedSessionIsSilent(Step(s, host, inputs[0]), host, inputs[1..]);
    }
  }

  function Ticks(n: nat): seq<Input>
  {
    if n == 0 then [] else [Tick] + Ticks(n - 1)
  }

  lemma {:induction false} HeartbeatWhileOpen(s: State, host: Host, n: nat)
    requires s.open
    ensures |Run(s, host, Ticks(n)).events| == |s.events| + n
    ensures forall k :: |s.events| <= k < |s.events| + n ==> Run(s, host, Ticks(n)).events[k] == Ping
    ensures Run(s, host, Ticks(n)).events[..|s.events|] == s.events
    decreases n
  {
    if n > 0 {
      HeartbeatWhileOpen(Ticked(s), host, n - 1);
    }
  }

  lemma HandleFileMessage(s: State, host: Host, m: Inbound, env: Env)
    requires s.open && (m.kind == "upload" || m.kind == "audio")
    ensures var path := UploadPath(host.dir, env.stamp, m.fileType);
      var s1 := s.(disk := s.disk[path := m.audio]);
      HandleMessage(s, host, m, env)
        == if m.kind == "upload" then UploadFlow(s1, host, path, Defaults(m), env)
           else RecordingFlow(s1, host, path, Defaults(m), env)
  {
  }

  /** The converted upload path, stated on the flow itself. */
  lemma UploadFlowConverted(s: State, host: Host, path: string, p: Params, env: Env)
    requires env.conversion.Converted?
    ensures var disk := s.disk[SwapExtension(path, ".wav") := env.conversion.output] + env.segmentation.chunkFiles;
      var queue := ParseStdout(env.segmentation.stdout);
      var r := UploadFlow(s, host, path, p, env);
      && r.events == s.events + DrainEvents(queue, disk, p, env.replies, s.nextId)
      && r.calls == s.calls + DrainCalls(queue, disk, p, env.replies, s.nextId)
      && r.queue == [] && r.disk == Unlink(disk, host.locked, path)
  {
    var segmented := s.(disk := s.disk[SwapExtension(path, ".wav") := env.conversion.output] + env.segmentation.chunkFiles,
                        queue := ParseStdout(env.segmentation.stdout));
    DrainState(segmented, p, env.replies);
  }

  /** What an upload leaves on disk: the original is gone unless locked; the converted wav
      and every chunk file other than the original stay. */
  lemma UploadDisk(d: map<string, seq<byte>>, locked: set<string>, path: string, wav: string, out: seq<byte>, chunks: map<string, seq<byte>>)
    ensures var r := Unlink(d[wav := out] + chunks, locked, path);
      && (path !in locked ==> path !in r)
      && (path != wav && wav !in chunks ==> wav in r && r[wav] == out)
      && (forall f :: f in chunks && f != path ==> f in r && r[f] == chunks[f])
  {
  }

  /** An upload whose conversion succeeds emits exactly the queue jobs' events, the queue
      being the segmenter's stdout parsed block by block; the original file is then deleted
      (unless it cannot be), while the converted wav and the chunk files are kept. */
  lemma UploadEvents(s: State, host: Host, m: Inbound, env: Env)
    requires s.open && m.kind == "upload" && env.conversion.Converted?
    ensures var path := UploadPath(host.dir, env.stamp, m.fileType);
      var wav := SwapExtension(path, ".wav");
      var disk := s.disk[path := m.audio][wav := env.conversion.output] + env.segmentation.chunkFiles;
      var r := HandleMessage(s, host, m, env);
      && r.events == s.events + DrainEvents(ParseStdout(env.segmentation.stdout), disk, Defaults(m), env.replies, s.nextId)
      && r.calls == s.calls + DrainCalls(ParseStdout(env.segmentation.stdout), disk, Defaults(m), env.replies, s.nextId)
      && r.queue == []
      && (path !in host.locked ==> path !in r.disk)
      && (path != wav && wav !in env.segmentation.chunkFiles ==> wav in r.disk && r.disk[wav] == env.conversion.output)
      && (forall f :: f in env.segmentation.chunkFiles && f != path ==> f in r.disk && r.disk[f] == env.segmentation.chunkFiles[f])
  {
    var path := UploadPath(host.dir, env.stamp, m.fileType);
    var s1 := s.(disk := s.disk[path := m.audio]);
    HandleFileMessage(s, host, m, env);
    UploadFlowConverted(s1, host, path, Defaults(m), env);
    UploadDisk(s1.disk, host.locked, path, SwapExtension(path, ".wav"), env.conversion.output, env.segmentation.chunkFiles);
  }

  /** The failed-conversion path, stated on the flows. */
  lemma FlowsOnFailure(s: State, host: Host, path: string, p: Params, env: Env)
    requires env.conversion.ConversionFailed?
    ensures var files := [path, SwapExtension(path, ".pcm"), SwapExtension(path, ".wav")];
      && UploadFlow(s, host, path, p, env)
         == ConversionFailure(WritePartial(s, SwapExtension(path, ".wav"), env.conversion.partial), host, files)
      && RecordingFlow(s, host, path, p, env)
         == ConversionFailure(WritePartial(s, SwapExtension(path, ".pcm"), env.conversion.partial), host, files)
  {
  }

  /** The catch block: one error event, no backend request, and the listed files gone
      unless locked, whatever the partial output was. */
  lemma ConversionFailureEffect(s: State, host: Host, target: string, partial: Option<seq<byte>>, files: seq<string>)
    requires target in files
    ensures var r := ConversionFailure(WritePartial(s, target, partial), host, files);
      && r.events == s.events + [Error("Error converting or sending audio")]
      && r.calls == s.calls && r.nextId == s.nextId
      && (forall f :: f in files && f !in host.locked ==> f !in r.disk)
      && (forall f :: f in s.disk && f !in files ==> f in r.disk && r.disk[f] == s.disk[f])
  {
  }

  /** A failed conversion emits exactly one "Error converting or sending audio" event, calls
      no backend, and removes the original, .pcm and .wav files that exist and can be deleted. */
  lemma ConversionFailureEvents(s: State, host: Host, m: Inbound, env: Env)
    requires s.open && (m.kind == "upload" || m.kind == "audio") && env.conversion.ConversionFailed?
    ensures var path := UploadPath(host.dir, env.stamp, m.fileType);
      var files := [path, SwapExtension(path, ".pcm"), SwapExtension(path, ".wav")];
      var r := HandleMessage(s, host, m, env);
      && r.events == s.events + [Error("Error converting or sending audio")]
      && r.calls == s.calls && r.nextId == s.nextId
      && (forall f :: f in files && f !in host.locked ==> f !in r.disk)
      && (forall f :: f in s.disk && f !in files ==> f in r.disk && r.disk[f] == s.disk[f])
  {
    var path := UploadPath(host.dir, env.stamp, m.fileType);
    var files := [path, SwapExtension(path, ".pcm"), SwapExtension(path, ".wav")];
    var s1 := s.(disk := s.disk[path := m.audio]);
    HandleFileMessage(s, host, m, env);
    FlowsOnFailure(s1, host, path, Defaults(m), env);
    var target := if m.kind == "upload" then SwapExtension(path, ".wav") else SwapExtension(path, ".pcm");
    ConversionFailureEffect(s1, host, target, env.conversion.partial, files);
  }

  /** The recording path deletes the .pcm file but never the original upload file. */
  lemma RecordingKeepsOriginal(s: State, host: Host, m: Inbound, env: Env)
    requires s.open && m.kind == "audio" && env.conversion.Converted?
    requires UploadPath(host.dir, env.stamp, m.fileType) != SwapExtension(UploadPath(host.dir, env.stamp, m.fileType), ".pcm")
    ensures var path := UploadPath(host.dir, env.stamp, m.fileType);
      var pcm := SwapExtension(path, ".pcm");
      var r := HandleMessage(s, host, m, env);
      && path in r.disk && r.disk[path] == m.audio
      && (pcm !in host.locked ==> pcm !in r.disk)
      && r.events == s.events + SocketEvents(env.conversion.output, Defaults(m), env.socket, s.nextId)
  {
  }

  // ---------------------------------------------------------------- the connection object

  class Session {
    const host: Host
    var events: seq<Event>
    var calls: seq<Call>
    var disk: map<string, seq<byte>>
    var chunkQueue: seq<string>
    var open: bool
    var nextId: nat
    var audioBuffer: seq<seq<byte>>

    function State(): State
      reads this
    {
      Snapshot(events, calls, disk, chunkQueue, open, nextId, audioBuffer)
    }

    /** Between messages the chunk queue is drained and the audio buffer, which this server
        only ever resets, is empty. */
    ghost predicate Valid()
      reads this
    {
      chunkQueue == [] && audioBuffer == []
    }

    /** A new connection: nothing sent, heartbeat running. */
    constructor (host: Host, disk: map<string, seq<byte>>)
      ensures Valid() && this.host == host && State() == Opened(disk)
    {
      this.host := host;
      events, calls, this.disk, chunkQueue := [], [], disk, [];
      open, nextId, audioBuffer := true, 0, [];
    }

    method Tick()
      modifies this
      ensures State() == Ticked(old(State()))
    {
      if open {
        events := events + [Ping];
      }
    }

    method Close()
      modifies this
      ensures State() == Closed(old(State()))
    {
      open := false;
    }

    /** The "message" listener. */
    method Receive(m: Inbound, env: Env)
      requires Valid()
      modifies this
      ensures Valid()
      ensures State() == HandleMessage(old(State()), host, m, env)
    {
      if !open {
        return;
      }
      var p := Defaults(m);
      if m.kind == "audio" || m.kind == "upload" {
        var path := UploadPath(host.dir, env.stamp, m.fileType);
        disk := disk[path := m.audio];
        ConvertAudioFile(path, p, m.kind == "upload", env);
      } else if m.kind == "stop" {
        audioBuffer := [];
      }
    }

    method ConvertAudioFile(path: string, p: Params, isUpload: bool, env: Env)
      requires Valid()
      modifies this
      ensures Valid()
      ensures isUpload ==> State() == UploadFlow(old(State()), host, path, p, env)
      ensures !isUpload ==> State() == RecordingFlow(old(State()), host, path, p, env)
    {
      var pcm := SwapExtension(path, ".pcm");
      var wav := SwapExtension(path, ".wav");
      match env.conversion {
        case ConversionFailed(partial) =>
          if partial.Some? {
            disk := disk[(if isUpload then wav else pcm) := partial.value];
          }
          events := events + [Error(ConvertError)];
          CleanupFiles([path, pcm, wav]);
        case Converted(out) =>
          if isUpload {
            disk := disk[wav := out] + env.segmentation.chunkFiles;
            RunSegmenter(env.segmentation.stdout);
            ghost var segmented := State();
            DrainQueue(p, env.replies);
            assert State() == Drain(segmented, p, env.replies);
            DrainState(segmented, p, env.replies);
            disk := Unlink(disk, host.locked, path);
          } else {
            disk := disk[pcm := out];
            TranscribeOrTranslateChunk(pcm, p, env.socket);
          }
      }
    }

    /** The segmenter's stdout "data" events, in arrival order. */
    method RunSegmenter(blocks: seq<string>)
      modifies this
      ensures chunkQueue == ParseStdout(blocks)
      ensures events == old(events) && calls == old(calls) && disk == old(disk)
      ensures open == old(open) && nextId == old(nextId) && audioBuffer == old(audioBuffer)
    {
      chunkQueue := [];
      var i := 0;
      while i < |blocks|
        invariant 0 <= i <= |blocks|
        invariant chunkQueue == ParseStdout(blocks[..i])
        invariant events == old(events) && calls == old(calls) && disk == old(disk)
        invariant open == old(open) && nextId == old(nextId) && audioBuffer == old(audioBuffer)
      {
        OnSegmenterData(blocks[i]);
        ParseStdoutSnoc(blocks, i);
        i := i + 1;
      }
      assert blocks[..|blocks|] == blocks;
    }

    /** One stdout "data" event: push each trimmed, non-empty line. */
    method OnSegmenterData(block: string)
      modifies this
      ensures chunkQueue == old(chunkQueue) + ParseBlock(block)
      ensures events == old(events) && calls == old(calls) && disk == old(disk)
      ensures open == old(open) && nextId == old(nextId) && audioBuffer == old(audioBuffer)
    {
      var lines := Split(block, '\n');
      var i := 0;
      while i < |lines|
        invariant 0 <= i <= |lines|
        invariant chunkQueue == old(chunkQueue) + Pieces(lines[..i])
        invariant events == old(events) && calls == old(calls) && disk == old(disk)
        invariant open == old(open) && nextId == old(nextId) && audioBuffer == old(audioBuffer)
      {
        var chunkFilePath := Trim(lines[i]);
        QueueStep(old(chunkQueue), lines, i, chunkQueue);
        if chunkFilePath != "" {
          chunkQueue := chunkQueue + [chunkFilePath];
        }
        i := i + 1;
      }
      assert lines[..|lines|] == lines;
    }

    /** The segmenter's "close" handler: one chunk at a time, each finished before the next
        is shifted, until the queue is empty. */
    method DrainQueue(p: Params, replies: nat -> Reply)
      modifies this
      ensures State() == Drain(old(State()), p, replies)
    {
      while |chunkQueue| > 0
        invariant Drain(State(), p, replies) == Drain(old(State()), p, replies)
        decreases |chunkQueue|
      {
        var chunkFilePath := chunkQueue[0];
        chunkQueue := chunkQueue[1..];
        TranscribeOrTranslateHttp(chunkFilePath, p, replies(nextId));
      }
    }

    method TranscribeOrTranslateHttp(path: string, p: Params, reply: Reply)
      modifies this
      ensures State() == HttpChunk(old(State()), path, p, reply)
    {
      var messageId := Id(nextId);
      nextId := nextId + 1;
      if path !in disk {
        events := events + [Error(ProcessingError)];
        return;
      }
      var audio := disk[path];
      calls := calls + [TranscribeHttp(audio, p.model, p.language, p.responseFormat, p.temperature)];
      match reply.transcription {
        case None =>
          events := events + [Error(ProcessingError)];
        case Some(text) =>
          events := events + [Transcription(text, messageId, audio)];
          if p.operation == "translation" {
            calls := calls + [TranslationCall(p, text)];
            match reply.translation {
              case None =>
                events := events + [Error(ProcessingError)];
              case Some(content) =>
                events := events + [Translation(Trim(content), messageId, audio)];
            }
          }
      }
    }

    /** The recording path: the pcm file goes to the transcription server's socket; the socket
        callbacks emit what they can and the pcm file is cleaned up when the socket ends. */
    method TranscribeOrTranslateChunk(pcm: string, p: Params, outcome: SocketOutcome)
      requires pcm in disk
      modifies this
      ensures var s := old(State());
        var es := SocketEvents(s.disk[pcm], p, outcome, s.nextId);
        State() == s.(events := s.events + es, calls := s.calls + SocketCalls(s.disk[pcm], p, outcome),
                      nextId := s.nextId + |es|, disk := Cleaned(s.disk, [pcm], host.locked))
    {
      var audio := disk[pcm];
      OnSocketReplies(audio, p, outcome);
      CleanupFiles([pcm]);
    }

    /** The socket's "open" and "message" callbacks: send the audio, then handle the first
        reply only. */
    method OnSocketReplies(audio: seq<byte>, p: Params, outcome: SocketOutcome)
      modifies this
      ensures events == old(events) + SocketEvents(audio, p, outcome, old(nextId))
      ensures calls == old(calls) + SocketCalls(audio, p, outcome)
      ensures nextId == old(nextId) + |SocketEvents(audio, p, outcome, old(nextId))|
      ensures disk == old(disk) && chunkQueue == old(chunkQueue) && open == old(open) && audioBuffer == old(audioBuffer)
    {
      match outcome {
        case Unreachable =>
        case Connected(first, translation) =>
          calls := calls + [TranscribeSocket(audio, p.model, p.language, p.responseFormat, p.temperature)];
          if first.Some? {
            events := events + [Transcription(first.value, Id(nextId), audio)];
            nextId := nextId + 1;
            if p.operation == "translation" {
              calls := calls + [TranslationCall(p, first.value)];
              if translation.Some? {
                events := events + [Translation(Trim(translation.value), Id(nextId), audio)];
                nextId := nextId + 1;
              }
            }
          }
      }
    }

    /** `cleanupFiles`: delete each listed file that exists; a failed delete is logged and
        the loop goes on. */
    method CleanupFiles(files: seq<string>)
      modifies this
      ensures State() == old(State()).(disk := Cleaned(old(disk), files, host.locked))
    {
      var i := 0;
      while i < |files|
        invariant 0 <= i <= |files|
        invariant State() == old(State()).(disk := Cleaned(old(disk), files[..i], host.locked))
      {
        var file := files[i];
        if file in disk && file !in host.locked {
          disk := disk - {file};
        }
        assert files[..i + 1] == files[..i] + [file];
        i := i + 1;
      }
      assert files[..|files|] == files;
    }
  }
}
