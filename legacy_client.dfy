/** The single-page client of app/components/RealTimeTranscription.tsx: the language table
    with its model-dependent options and its reverse lookup, the inbound-message reducer, the
    recorder buffer and the outbound `audio`/`upload` commands.

    The browser's FileReader is an oracle: the data URL it produced is an input of the method
    that receives it. A connected socket is the input `connected`. */
module LegacyClient {
  import opened Common

  // ---------------------------------------------------------------- the language table

  /** `languageOptions` in declaration order (the order of `Object.keys`), ten entries a part. */
  const Part0: seq<(string, string)> := [("English", "en"), ("Chinese", "zh"), ("German", "de"), ("Spanish", "es"), ("Russian", "ru"), ("Korean", "ko"), ("French", "fr"), ("Japanese", "ja"), ("Portuguese", "pt"), ("Turkish", "tr")]
  const Part1: seq<(string, string)> := [("Polish", "pl"), ("Catalan", "ca"), ("Dutch", "nl"), ("Arabic", "ar"), ("Swedish", "sv"), ("Italian", "it"), ("Indonesian", "id"), ("Hindi", "hi"), ("Finnish", "fi"), ("Vietnamese", "vi")]
  const Part2: seq<(string, string)> := [("Hebrew", "he"), ("Ukrainian", "uk"), ("Greek", "el"), ("Malay", "ms"), ("Czech", "cs"), ("Romanian", "ro"), ("Danish", "da"), ("Hungarian", "hu"), ("Tamil", "ta"), ("Norwegian", "no")]
  const Part3: seq<(string, string)> := [("Thai", "th"), ("Urdu", "ur"), ("Croatian", "hr"), ("Bulgarian", "bg"), ("Lithuanian", "lt"), ("Latin", "la"), ("Māori", "mi"), ("Malayalam", "ml"), ("Welsh", "cy"), ("Slovak", "sk")]
  const Part4: seq<(string, string)> := [("Telugu", "te"), ("Persian", "fa"), ("Latvian", "lv"), ("Bengali", "bn"), ("Serbian", "sr"), ("Azerbaijani", "az"), ("Slovenian", "sl"), ("Kannada", "kn"), ("Estonian", "et"), ("Macedonian", "mk")]
  const Part5: seq<(string, string)> := [("Breton", "br"), ("Basque", "eu"), ("Icelandic", "is"), ("Armenian", "hy"), ("Nepali", "ne"), ("Mongolian", "mn"), ("Bosnian", "bs"), ("Kazakh", "kk"), ("Albanian", "sq"), ("Swahili", "sw")]
  const Part6: seq<(string, string)> := [("Galician", "gl"), ("Marathi", "mr"), ("Panjabi", "pa"), ("Sinhala", "si"), ("Khmer", "km"), ("Shona", "sn"), ("Yoruba", "yo"), ("Somali", "so"), ("Afrikaans", "af"), ("Occitan", "oc")]
  const Part7: seq<(string, string)> := [("Georgian", "ka"), ("Belarusian", "be"), ("Tajik", "tg"), ("Sindhi", "sd"), ("Gujarati", "gu"), ("Amharic", "am"), ("Yiddish", "yi"), ("Lao", "lo"), ("Uzbek", "uz"), ("Faroese", "fo")]
  const Part8: seq<(string, string)> := [("Haitian", "ht"), ("Pashto", "ps"), ("Turkmen", "tk"), ("Norwegian Nynorsk", "nn"), ("Maltese", "mt"), ("Sanskrit", "sa"), ("Luxembourgish", "lb"), ("Burmese", "my"), ("Tibetan", "bo"), ("Tagalog", "tl")]
  const Part9: seq<(string, string)> := [("Malagasy", "mg"), ("Assamese", "as"), ("Tatar", "tt"), ("Hawaiian", "haw"), ("Lingala", "ln"), ("Hausa", "ha"), ("Bashkir", "ba"), ("jw", "jw"), ("Sundanese", "su"), ("Yue Chinese", "yue")]

  const LanguageTable: seq<(string, string)> := Part0 + Part1 + Part2 + Part3 + Part4 + Part5 + Part6 + Part7 + Part8 + Part9

  const LargeV3 := "Systran/faster-whisper-large-v3"
  const DroppedLanguage := "Yue Chinese"

  /** `Object.keys(languageOptions)`, which is also `largeV3Languages`. */
  function Names(): (r: seq<string>)
    ensures |r| == |LanguageTable| && forall i :: 0 <= i < |r| ==> r[i] == LanguageTable[i].0
  {
    seq(|LanguageTable|, i requires 0 <= i < |LanguageTable| => LanguageTable[i].0)
  }

  /** The first entry named `name`, or -1. */
  function NameIndex(t: seq<(string, string)>, name: string): (r: int)
    ensures -1 <= r < |t|
    ensures r != -1 ==> t[r].0 == name
    ensures forall k :: 0 <= k < |t| && (r == -1 || k < r) ==> t[k].0 != name
  {
    if t == [] then -1
    else if t[0].0 == name then 0
    else var j := NameIndex(t[1..], name); if j == -1 then -1 else j + 1
  }

  /** The first entry with code `code`, or -1. */
  function CodeIndex(t: seq<(string, string)>, code: string): (r: int)
    ensures -1 <= r < |t|
    ensures r != -1 ==> t[r].1 == code
    ensures forall k :: 0 <= k < |t| && (r == -1 || k < r) ==> t[k].1 != code
  {
    if t == [] then -1
    else if t[0].1 == code then 0
    else var j := CodeIndex(t[1..], code); if j == -1 then -1 else j + 1
  }

  /** `languageOptions[name]`: undefined for a name not in the table. */
  function CodeOf(name: string): Option<string>
  {
    var i := NameIndex(LanguageTable, name);
    if i == -1 then None else Some(LanguageTable[i].1)
  }

  /** The dropdown's value: the first name whose code is `language`, else "". */
  function NameOf(language: Option<string>): string
  {
    match language
    case None => ""
    case Some(c) =>
      var i := CodeIndex(LanguageTable, c);
      if i == -1 then "" else LanguageTable[i].0
  }

  /** `names.filter((lang) => lang !== x)` */
  function Without(names: seq<string>, x: string): (r: seq<string>)
    ensures |r| <= |names|
  {
    if names == [] then []
    else (if names[0] == x then [] else [names[0]]) + Without(names[1..], x)
  }

  /** The language names offered for a model (the dropdown and `handleModelChange` agree). */
  function OptionsFor(model: string): seq<string>
  {
    if Includes(model, "distil") || EndsWith(model, ".en") then ["English"]
    else if model == LargeV3 then Names()
    else Without(Names(), DroppedLanguage)
  }

  // The table's codes and names are pairwise distinct: each code and each name is given a
  // number (`CodeKey`, `NameKey`) and a table of those numbers maps each back to its position.

  function CodeKey(code: string): int
  {
    if |code| == 2 then (code[0] as int) * 128 + (code[1] as int)
    else if |code| == 3 then ((code[0] as int) * 128 + (code[1] as int)) * 128 + (code[2] as int)
    else 0
  }

  function NameKey(name: string): int
  {
    if |name| < 2 then 0
    else ((|name| * 65536 + (name[0] as int)) * 65536 + (name[1] as int)) * 65536 + (name[|name| - 1] as int)
  }

  function RankOfCode(k: int): int
  {
    if k < 13942 then
      if k < 13170 then
        if k < 12769 then
          if k < 12645 then
            if k < 12531 then
              if k < 12525 then
                if k == 12518 then 68 else -1
              else
                if k < 12530 then
                  if k == 12525 then 75 else -1
                else
                  if k == 12530 then 13 else -1
            else
              if k < 12538 then
                if k == 12531 then 91 else -1
              else
                if k < 12641 then
                  if k == 12538 then 45 else -1
                else
                  if k == 12641 then 96 else -1
          else
            if k < 12655 then
              if k < 12647 then
                if k == 12645 then 71 else -1
              else
                if k < 12654 then
                  if k == 12647 then 33 else -1
                else
                  if k == 12654 then 43 else -1
            else
              if k < 12658 then
                if k == 12655 then 88 else -1
              else
                if k < 12659 then
                  if k == 12658 then 50 else -1
                else
                  if k == 12659 then 56 else -1
        else
          if k < 13038 then
            if k < 12897 then
              if k < 12787 then
                if k == 12769 then 11 else -1
              else
                if k < 12793 then
                  if k == 12787 then 24 else -1
                else
                  if k == 12793 then 38 else -1
            else
              if k < 12901 then
                if k == 12897 then 26 else -1
              else
                if k < 13036 then
                  if k == 12901 then 2 else -1
                else
                  if k == 13036 then 22 else -1
          else
            if k < 13045 then
              if k < 13043 then
                if k == 13038 then 0 else -1
              else
                if k < 13044 then
                  if k == 13043 then 3 else -1
                else
                  if k == 13044 then 48 else -1
            else
              if k < 13161 then
                if k < 13153 then
                  if k == 13045 then 51 else -1
                else
                  if k == 13153 then 41 else -1
              else
                if k < 13167 then
                  if k == 13161 then 18 else -1
                else
                  if k == 13167 then 79 else -1
      else
        if k < 13556 then
          if k < 13426 then
            if k < 13409 then
              if k < 13292 then
                if k == 13170 then 6 else -1
              else
                if k < 13301 then
                  if k == 13292 then 60 else -1
                else
                  if k == 13301 then 74 else -1
            else
              if k < 13413 then
                if k == 13409 then 95 else -1
              else
                if k < 13417 then
                  if k == 13413 then 20 else -1
                else
                  if k == 13417 then 17 else -1
          else
            if k < 13433 then
              if k < 13428 then
                if k == 13426 then 32 else -1
              else
                if k < 13429 then
                  if k == 13428 then 80 else -1
                else
                  if k == 13429 then 27 else -1
            else
              if k < 13540 then
                if k == 13433 then 53 else -1
              else
                if k < 13555 then
                  if k == 13540 then 16 else -1
                else
                  if k == 13555 then 52 else -1
        else
          if k < 13806 then
            if k < 13793 then
              if k < 13665 then
                if k == 13556 then 15 else -1
              else
                if k < 13687 then
                  if k == 13665 then 7 else -1
                else
                  if k == 13687 then 97 else -1
            else
              if k < 13803 then
                if k == 13793 then 70 else -1
              else
                if k < 13805 then
                  if k == 13803 then 57 else -1
                else
                  if k == 13805 then 64 else -1
          else
            if k < 13922 then
              if k < 13807 then
                if k == 13806 then 47 else -1
              else
                if k < 13921 then
                  if k == 13807 then 5 else -1
                else
                  if k == 13921 then 35 else -1
            else
              if k < 13935 then
                if k < 13934 then
                  if k == 13922 then 86 else -1
                else
                  if k == 13934 then 94 else -1
              else
                if k < 13940 then
                  if k == 13935 then 77 else -1
                else
                  if k == 13940 then 34 else -1
    else
      if k < 14828 then
        if k < 14190 then
          if k < 14066 then
            if k < 14059 then
              if k < 14055 then
                if k == 13942 then 42 else -1
              else
                if k < 14057 then
                  if k == 14055 then 90 else -1
                else
                  if k == 14057 then 36 else -1
            else
              if k < 14060 then
                if k == 14059 then 49 else -1
              else
                if k < 14062 then
                  if k == 14060 then 37 else -1
                else
                  if k == 14062 then 55 else -1
          else
            if k < 14073 then
              if k < 14067 then
                if k == 14066 then 61 else -1
              else
                if k < 14068 then
                  if k == 14067 then 23 else -1
                else
                  if k == 14068 then 84 else -1
            else
              if k < 14181 then
                if k == 14073 then 87 else -1
              else
                if k < 14188 then
                  if k == 14181 then 54 else -1
                else
                  if k == 14188 then 12 else -1
        else
          if k < 14452 then
            if k < 14433 then
              if k < 14191 then
                if k == 14190 then 83 else -1
              else
                if k < 14307 then
                  if k == 14191 then 29 else -1
                else
                  if k == 14307 then 69 else -1
            else
              if k < 14444 then
                if k == 14433 then 62 else -1
              else
                if k < 14451 then
                  if k == 14444 then 10 else -1
                else
                  if k == 14451 then 81 else -1
          else
            if k < 14817 then
              if k < 14703 then
                if k == 14452 then 8 else -1
              else
                if k < 14709 then
                  if k == 14703 then 25 else -1
                else
                  if k == 14709 then 4 else -1
            else
              if k < 14825 then
                if k < 14820 then
                  if k == 14817 then 85 else -1
                else
                  if k == 14820 then 73 else -1
              else
                if k < 14827 then
                  if k == 14825 then 63 else -1
                else
                  if k == 14827 then 39 else -1
      else
        if k < 14955 then
          if k < 14838 then
            if k < 14833 then
              if k < 14830 then
                if k == 14828 then 46 else -1
              else
                if k < 14831 then
                  if k == 14830 then 65 else -1
                else
                  if k == 14831 then 67 else -1
            else
              if k < 14834 then
                if k == 14833 then 58 else -1
              else
                if k < 14837 then
                  if k == 14834 then 44 else -1
                else
                  if k == 14837 then 98 else -1
          else
            if k < 14949 then
              if k < 14839 then
                if k == 14838 then 14 else -1
              else
                if k < 14945 then
                  if k == 14839 then 59 else -1
                else
                  if k == 14945 then 28 else -1
            else
              if k < 14951 then
                if k == 14949 then 40 else -1
              else
                if k < 14952 then
                  if k == 14951 then 72 else -1
                else
                  if k == 14952 then 30 else -1
        else
          if k < 15098 then
            if k < 14964 then
              if k < 14956 then
                if k == 14955 then 82 else -1
              else
                if k < 14962 then
                  if k == 14956 then 89 else -1
                else
                  if k == 14962 then 9 else -1
            else
              if k < 15083 then
                if k == 14964 then 92 else -1
              else
                if k < 15090 then
                  if k == 15083 then 21 else -1
                else
                  if k == 15090 then 31 else -1
          else
            if k < 15599 then
              if k < 15209 then
                if k == 15098 then 78 else -1
              else
                if k < 15593 then
                  if k == 15209 then 19 else -1
                else
                  if k == 15593 then 76 else -1
            else
              if k < 1716471 then
                if k < 15720 then
                  if k == 15599 then 66 else -1
                else
                  if k == 15720 then 1 else -1
              else
                if k < 1997541 then
                  if k == 1716471 then 93 else -1
                else
                  if k == 1997541 then 99 else -1
  }

  function RankOfName(k: int): int
  {
    if k < 1970651261370465 then
      if k < 1689159104528503 then
        if k < 1407705612877929 then
          if k < 1407679833702507 then
            if k < 1126264986534005 then
              if k < 844751354003567 then
                if k == 563405227753591 then 97 else -1
              else
                if k < 1126260690911337 then
                  if k == 844751354003567 then 77 else -1
                else
                  if k == 1126260690911337 then 30 else -1
            else
              if k < 1407662654357608 then
                if k == 1126264986534005 then 31 else -1
              else
                if k < 1407666948997224 then
                  if k == 1407662654357608 then 24 else -1
                else
                  if k == 1407666948997224 then 12 else -1
          else
            if k < 1407697012916338 then
              if k < 1407684127555681 then
                if k == 1407679833702507 then 22 else -1
              else
                if k < 1407684128079977 then
                  if k == 1407684127555681 then 95 else -1
                else
                  if k == 1407684128079977 then 17 else -1
            else
              if k < 1407701307424878 then
                if k == 1407697012916338 then 64 else -1
              else
                if k < 1407705602392185 then
                  if k == 1407701307424878 then 35 else -1
                else
                  if k == 1407705602392185 then 23 else -1
        else
          if k < 1407748552327272 then
            if k < 1407735667163244 then
              if k < 1407731372654689 then
                if k == 1407705612877929 then 36 else -1
              else
                if k < 1407735667163243 then
                  if k == 1407731372654689 then 65 else -1
                else
                  if k == 1407735667163243 then 72 else -1
            else
              if k < 1407735667163250 then
                if k == 1407735667163244 then 28 else -1
              else
                if k < 1407739963768939 then
                  if k == 1407735667163250 then 92 else -1
                else
                  if k == 1407739963768939 then 78 else -1
          else
            if k < 1689133335576686 then
              if k < 1689129040609379 then
                if k == 1407748552327272 then 38 else -1
              else
                if k < 1689133334462565 then
                  if k == 1689129040609379 then 13 else -1
                else
                  if k == 1689133334462565 then 51 else -1
            else
              if k < 1689150515445864 then
                if k < 1689141924397160 then
                  if k == 1689133335576686 then 50 else -1
                else
                  if k == 1689141924397160 then 26 else -1
              else
                if k < 1689154809561198 then
                  if k == 1689150515445864 then 6 else -1
                else
                  if k == 1689154809561198 then 2 else -1
      else
        if k < 1970608311173234 then
          if k < 1689206349430889 then
            if k < 1689184874332265 then
              if k < 1689171989168232 then
                if k == 1689159104528503 then 20 else -1
              else
                if k < 1689171990085742 then
                  if k == 1689171989168232 then 57 else -1
                else
                  if k == 1689171990085742 then 5 else -1
            else
              if k < 1689193464004719 then
                if k == 1689184874332265 then 54 else -1
              else
                if k < 1689193464922216 then
                  if k == 1689193464004719 then 81 else -1
                else
                  if k == 1689193464922216 then 10 else -1
          else
            if k < 1689210644136053 then
              if k < 1689206349627499 then
                if k == 1689206349430889 then 73 else -1
              else
                if k < 1689206349824105 then
                  if k == 1689206349627499 then 39 else -1
                else
                  if k == 1689206349824105 then 67 else -1
            else
              if k < 1689232119627873 then
                if k == 1689210644136053 then 40 else -1
              else
                if k < 1970604016992355 then
                  if k == 1689232119627873 then 66 else -1
                else
                  if k == 1970604016992355 then 75 else -1
        else
          if k < 1970621196927080 then
            if k < 1970608312483941 then
              if k < 1970608311435369 then
                if k == 1970608311173234 then 96 else -1
              else
                if k < 1970608312090734 then
                  if k == 1970608311435369 then 43 else -1
                else
                  if k == 1970608312090734 then 56 else -1
            else
              if k < 1970612606140526 then
                if k == 1970608312483941 then 87 else -1
              else
                if k < 1970612606599269 then
                  if k == 1970612606140526 then 11 else -1
                else
                  if k == 1970612606599269 then 1 else -1
          else
            if k < 1970634080977006 then
              if k < 1970625491042405 then
                if k == 1970621196927080 then 0 else -1
              else
                if k < 1970625491566696 then
                  if k == 1970625491042405 then 79 else -1
                else
                  if k == 1970625491566696 then 18 else -1
            else
              if k < 1970646965878881 then
                if k < 1970638377189486 then
                  if k == 1970634080977006 then 80 else -1
                else
                  if k == 1970638377189486 then 15 else -1
              else
                if k < 1970651260846190 then
                  if k == 1970646965878881 then 47 else -1
                else
                  if k == 1970651260846190 then 42 else -1
    else
      if k < 2252109057687662 then
        if k < 1970685620584551 then
          if k < 1970677031960686 then
            if k < 1970664145879150 then
              if k < 1970655555813477 then
                if k == 1970651261370465 then 94 else -1
              else
                if k < 1970655555813481 then
                  if k == 1970655555813477 then 84 else -1
                else
                  if k == 1970655555813481 then 61 else -1
            else
              if k < 1970668440715369 then
                if k == 1970664145879150 then 69 else -1
              else
                if k < 1970668440977518 then
                  if k == 1970668440715369 then 62 else -1
                else
                  if k == 1970668440977518 then 41 else -1
          else
            if k < 1970681326600296 then
              if k < 1970681325879406 then
                if k == 1970677031960686 then 4 else -1
              else
                if k < 1970681326141537 then
                  if k == 1970681325879406 then 44 else -1
                else
                  if k == 1970681326141537 then 63 else -1
            else
              if k < 1970681327059048 then
                if k == 1970681326600296 then 3 else -1
              else
                if k < 1970681327059049 then
                  if k == 1970681327059048 then 14 else -1
                else
                  if k == 1970681327059049 then 59 else -1
        else
          if k < 2252078994030702 then
            if k < 1970685621895278 then
              if k < 1970685621108846 then
                if k == 1970685620584551 then 89 else -1
              else
                if k < 1970685621895272 then
                  if k == 1970685621108846 then 88 else -1
                else
                  if k == 1970685621895272 then 9 else -1
            else
              if k < 1970707095945320 then
                if k == 1970685621895278 then 82 else -1
              else
                if k < 2252078993637486 then
                  if k == 1970707095945320 then 76 else -1
                else
                  if k == 2252078993637486 then 58 else -1
          else
            if k < 2252096173965422 then
              if k < 2252078994096229 then
                if k == 2252078994030702 then 53 else -1
              else
                if k < 2252087583965294 then
                  if k == 2252078994096229 then 91 else -1
                else
                  if k == 2252087583965294 then 32 else -1
            else
              if k < 2252104762982510 then
                if k < 2252104762720366 then
                  if k == 2252096173965422 then 48 else -1
                else
                  if k == 2252104762720366 then 60 else -1
              else
                if k < 2252104764031081 then
                  if k == 2252104762982510 then 70 else -1
                else
                  if k == 2252104764031081 then 74 else -1
      else
        if k < 2533631279759470 then
          if k < 2533558265905262 then
            if k < 2252152008278126 then
              if k < 2252117647622245 then
                if k == 2252109057687662 then 93 else -1
              else
                if k < 2252130532524153 then
                  if k == 2252117647622245 then 7 else -1
                else
                  if k == 2252130532524153 then 90 else -1
            else
              if k < 2252156302327924 then
                if k == 2252152008278126 then 25 else -1
              else
                if k < 2533553969954931 then
                  if k == 2252156302327924 then 85 else -1
                else
                  if k == 2533553969954931 then 68 else -1
          else
            if k < 2533605509234797 then
              if k < 2533584035709038 then
                if k == 2533558265905262 then 33 else -1
              else
                if k < 2533588329496675 then
                  if k == 2533584035709038 then 27 else -1
                else
                  if k == 2533588329496675 then 52 else -1
            else
              if k < 2533605510152302 then
                if k == 2533605509234797 then 37 else -1
              else
                if k < 2533609805119598 then
                  if k == 2533605510152302 then 55 else -1
                else
                  if k == 2533609805119598 then 29 else -1
        else
          if k < 2815080485945454 then
            if k < 2815033241567342 then
              if k < 2533631280349285 then
                if k == 2533631279759470 then 46 else -1
              else
                if k < 2533639869628526 then
                  if k == 2533631280349285 then 98 else -1
                else
                  if k == 2533639869628526 then 21 else -1
            else
              if k < 2815063306928238 then
                if k == 2815033241567342 then 71 else -1
              else
                if k < 2815076191502446 then
                  if k == 2815063306928238 then 16 else -1
                else
                  if k == 2815076191502446 then 34 else -1
          else
            if k < 3096503924686953 then
              if k < 2815093371764837 then
                if k == 2815080485945454 then 49 else -1
              else
                if k < 2815119141175397 then
                  if k == 2815093371764837 then 8 else -1
                else
                  if k == 2815119141175397 then 19 else -1
            else
              if k < 3659501122420840 then
                if k < 3096607003574373 then
                  if k == 3096503924686953 then 45 else -1
                else
                  if k == 3096607003574373 then 99 else -1
              else
                if k < 4785409618804843 then
                  if k == 3659501122420840 then 86 else -1
                else
                  if k == 4785409618804843 then 83 else -1
  }

  lemma RanksPart0()
    ensures forall i | 0 <= i < |Part0| ::
      RankOfCode(CodeKey(Part0[i].1)) == 0 + i && RankOfName(NameKey(Part0[i].0)) == 0 + i
  {
    forall i | 0 <= i < |Part0|
      ensures RankOfCode(CodeKey(Part0[i].1)) == 0 + i && RankOfName(NameKey(Part0[i].0)) == 0 + i
    {
      assert i == 0 || i == 1 || i == 2 || i == 3 || i == 4 || i == 5 || i == 6 || i == 7 || i == 8 || i == 9;
    }
  }

  lemma RanksPart1()
    ensures forall i | 0 <= i < |Part1| ::
      RankOfCode(CodeKey(Part1[i].1)) == 10 + i && RankOfName(NameKey(Part1[i].0)) == 10 + i
  {
    forall i | 0 <= i < |Part1|
      ensures RankOfCode(CodeKey(Part1[i].1)) == 10 + i && RankOfName(NameKey(Part1[i].0)) == 10 + i
    {
      assert i == 0 || i == 1 || i == 2 || i == 3 || i == 4 || i == 5 || i == 6 || i == 7 || i == 8 || i == 9;
    }
  }

  lemma RanksPart2()
    ensures forall i | 0 <= i < |Part2| ::
      RankOfCode(CodeKey(Part2[i].1)) == 20 + i && RankOfName(NameKey(Part2[i].0)) == 20 + i
  {
    forall i | 0 <= i < |Part2|
      ensures RankOfCode(CodeKey(Part2[i].1)) == 20 + i && RankOfName(NameKey(Part2[i].0)) == 20 + i
    {
      assert i == 0 || i == 1 || i == 2 || i == 3 || i == 4 || i == 5 || i == 6 || i == 7 || i == 8 || i == 9;
    }
  }

  lemma RanksPart3()
    ensures forall i | 0 <= i < |Part3| ::
      RankOfCode(CodeKey(Part3[i].1)) == 30 + i && RankOfName(NameKey(Part3[i].0)) == 30 + i
  {
    forall i | 0 <= i < |Part3|
      ensures RankOfCode(CodeKey(Part3[i].1)) == 30 + i && RankOfName(NameKey(Part3[i].0)) == 30 + i
    {
      assert i == 0 || i == 1 || i == 2 || i == 3 || i == 4 || i == 5 || i == 6 || i == 7 || i == 8 || i == 9;
    }
  }

  lemma RanksPart4()
    ensures forall i | 0 <= i < |Part4| ::
      RankOfCode(CodeKey(Part4[i].1)) == 40 + i && RankOfName(NameKey(Part4[i].0)) == 40 + i
  {
    forall i | 0 <= i < |Part4|
      ensures RankOfCode(CodeKey(Part4[i].1)) == 40 + i && RankOfName(NameKey(Part4[i].0)) == 40 + i
    {
      assert i == 0 || i == 1 || i == 2 || i == 3 || i == 4 || i == 5 || i == 6 || i == 7 || i == 8 || i == 9;
    }
  }

  lemma RanksPart5()
    ensures forall i | 0 <= i < |Part5| ::
      RankOfCode(CodeKey(Part5[i].1)) == 50 + i && RankOfName(NameKey(Part5[i].0)) == 50 + i
  {
    forall i | 0 <= i < |Part5|
      ensures RankOfCode(CodeKey(Part5[i].1)) == 50 + i && RankOfName(NameKey(Part5[i].0)) == 50 + i
    {
      assert i == 0 || i == 1 || i == 2 || i == 3 || i == 4 || i == 5 || i == 6 || i == 7 || i == 8 || i == 9;
    }
  }

  lemma RanksPart6()
    ensures forall i | 0 <= i < |Part6| ::
      RankOfCode(CodeKey(Part6[i].1)) == 60 + i && RankOfName(NameKey(Part6[i].0)) == 60 + i
  {
    forall i | 0 <= i < |Part6|
      ensures RankOfCode(CodeKey(Part6[i].1)) == 60 + i && RankOfName(NameKey(Part6[i].0)) == 60 + i
    {
      assert i == 0 || i == 1 || i == 2 || i == 3 || i == 4 || i == 5 || i == 6 || i == 7 || i == 8 || i == 9;
    }
  }

  lemma RanksPart7()
    ensures forall i | 0 <= i < |Part7| ::
      RankOfCode(CodeKey(Part7[i].1)) == 70 + i && RankOfName(NameKey(Part7[i].0)) == 70 + i
  {
    forall i | 0 <= i < |Part7|
      ensures RankOfCode(CodeKey(Part7[i].1)) == 70 + i && RankOfName(NameKey(Part7[i].0)) == 70 + i
    {
      assert i == 0 || i == 1 || i == 2 || i == 3 || i == 4 || i == 5 || i == 6 || i == 7 || i == 8 || i == 9;
    }
  }

  lemma RanksPart8()
    ensures forall i | 0 <= i < |Part8| ::
      RankOfCode(CodeKey(Part8[i].1)) == 80 + i && RankOfName(NameKey(Part8[i].0)) == 80 + i
  {
    forall i | 0 <= i < |Part8|
      ensures RankOfCode(CodeKey(Part8[i].1)) == 80 + i && RankOfName(NameKey(Part8[i].0)) == 80 + i
    {
      assert i == 0 || i == 1 || i == 2 || i == 3 || i == 4 || i == 5 || i == 6 || i == 7 || i == 8 || i == 9;
    }
  }

  lemma RanksPart9()
    ensures forall i | 0 <= i < |Part9| ::
      RankOfCode(CodeKey(Part9[i].1)) == 90 + i && RankOfName(NameKey(Part9[i].0)) == 90 + i
  {
    forall i | 0 <= i < |Part9|
      ensures RankOfCode(CodeKey(Part9[i].1)) == 90 + i && RankOfName(NameKey(Part9[i].0)) == 90 + i
    {
      assert i == 0 || i == 1 || i == 2 || i == 3 || i == 4 || i == 5 || i == 6 || i == 7 || i == 8 || i == 9;
    }
  }

  lemma Ranks()
    ensures forall i | 0 <= i < |LanguageTable| ::
      RankOfCode(CodeKey(LanguageTable[i].1)) == i && RankOfName(NameKey(LanguageTable[i].0)) == i
  {
    RanksPart0(); RanksPart1(); RanksPart2(); RanksPart3(); RanksPart4();
    RanksPart5(); RanksPart6(); RanksPart7(); RanksPart8(); RanksPart9();
  }

  /** No two entries share a code, and no two share a name. */
  lemma TableDistinct()
    ensures forall i, j :: 0 <= i < j < |LanguageTable| ==> LanguageTable[i].1 != LanguageTable[j].1
    ensures forall i, j :: 0 <= i < j < |LanguageTable| ==> LanguageTable[i].0 != LanguageTable[j].0
  {
    Ranks();
  }

  /** A name of the table maps to its code, and that code maps back to the name; a code of
      the table maps to its name, and that name back to the code. */
  lemma NameCodeRoundTrip(i: int)
    requires 0 <= i < |LanguageTable|
    ensures CodeOf(LanguageTable[i].0) == Some(LanguageTable[i].1)
    ensures NameOf(Some(LanguageTable[i].1)) == LanguageTable[i].0
    ensures NameOf(CodeOf(LanguageTable[i].0)) == LanguageTable[i].0
    ensures CodeOf(NameOf(Some(LanguageTable[i].1))) == Some(LanguageTable[i].1)
  {
    TableDistinct();
    var n := NameIndex(LanguageTable, LanguageTable[i].0);
    var c := CodeIndex(LanguageTable, LanguageTable[i].1);
    assert n == i;
    assert c == i;
  }

  /** A name outside the table has no code, and a code outside the table shows as "". */
  lemma LookupMisses(name: string, code: string)
    requires forall i :: 0 <= i < |LanguageTable| ==> LanguageTable[i].0 != name
    requires forall i :: 0 <= i < |LanguageTable| ==> LanguageTable[i].1 != code
    ensures CodeOf(name) == None
    ensures NameOf(Some(code)) == ""
    ensures NameOf(None) == ""
  {
  }

  lemma {:induction false} WithoutAbsent(names: seq<string>, x: string)
    requires forall k :: 0 <= k < |names| ==> names[k] != x
    ensures Without(names, x) == names
  {
    if names != [] {
      WithoutAbsent(names[1..], x);
    }
  }

  lemma {:induction false} WithoutSnoc(names: seq<string>, y: string, x: string)
    ensures Without(names + [y], x) == Without(names, x) + (if y == x then [] else [y])
  {
    if names == [] {
      assert [y][1..] == [];
    } else {
      assert (names + [y])[1..] == names[1..] + [y];
      WithoutSnoc(names[1..], y, x);
    }
  }

  /** Every model other than large-v3 and the English-only ones is offered all names except
      the last, "Yue Chinese". */
  lemma DefaultOptionsDropLast(model: string)
    requires !(Includes(model, "distil") || EndsWith(model, ".en")) && model != LargeV3
    ensures OptionsFor(model) == Names()[..|Names()| - 1]
    ensures |OptionsFor(model)| == |Names()| - 1
  {
    LastNameDropped();
    WithoutLast(Names(), DroppedLanguage);
  }

  lemma WithoutLast(names: seq<string>, x: string)
    requires names != [] && names[|names| - 1] == x
    requires forall k :: 0 <= k < |names| - 1 ==> names[k] != x
    ensures Without(names, x) == names[..|names| - 1]
  {
    var init := names[..|names| - 1];
    assert names == init + [x];
    WithoutSnoc(init, x, x);
    WithoutAbsent(init, x);
  }

  /** "Yue Chinese" is the last name and appears nowhere else. */
  lemma LastNameDropped()
    ensures Names()[|Names()| - 1] == DroppedLanguage
    ensures forall k :: 0 <= k < |Names()| - 1 ==> Names()[k] != DroppedLanguage
  {
    TableDistinct();
    assert LanguageTable[|LanguageTable| - 1].0 == DroppedLanguage;
  }

  lemma {:induction false} WithoutKeepsFirst(names: seq<string>, x: string)
    requires names != [] && names[0] != x
    ensures Without(names, x) != [] && Without(names, x)[0] == names[0]
  {
  }

  /** Every model gets a non-empty list of table names whose first entry is "English", so the
      language after any model change is "en". */
  lemma LanguageAfterModelChange(model: string)
    ensures OptionsFor(model) != [] && OptionsFor(model)[0] == "English"
    ensures CodeOf(OptionsFor(model)[0]) == Some("en")
  {
    EnglishFirst();
    if !(Includes(model, "distil") || EndsWith(model, ".en")) && model != LargeV3 {
      WithoutKeepsFirst(Names(), DroppedLanguage);
    }
  }

  lemma EnglishFirst()
    ensures |Names()| > 0 && Names()[0] == "English" && CodeOf("English") == Some("en")
  {
    assert LanguageTable[0] == ("English", "en");
  }

  // ---------------------------------------------------------------- the component's state

  /** An inbound message: a missing `type` is ""; `text` and `message` may be missing. */
  datatype Inbound = Inbound(kind: string, text: Option<string>, message: Option<string>)

  /** An outbound command; it never carries an operation or an output language. */
  datatype Command = Command(
    kind: string, audio: Option<string>, model: string, language: Option<string>,
    responseFormat: string, temperature: string)

  /** A file chosen for upload. */
  datatype FileInfo = FileInfo(name: string, body: Blob)

  datatype ClientState = ClientState(
    recording: bool, messages: seq<Option<string>>, status: string, model: string,
    language: Option<string>, buffer: seq<Blob>, captured: (string, Option<string>),
    sent: seq<Command>)

  const TranscribedStatus := "转录成功"
  const ErrorStatusPrefix := "错误: "
  const PongStatus := "收到服务器的pong"
  const RecordingStatus := "录音中"
  const StoppingStatus := "停止录音..."
  const StoppedStatus := "录音已停止"
  const AudioSentStatus := "音频数据已发送到服务器"
  const UploadingStatus := "上传文件: "
  const FileSentStatus := "文件数据已发送到服务器"

  /** `ws.onmessage`. */
  function OnMessage(s: ClientState, data: Inbound): ClientState
  {
    if data.kind == "transcription" then s.(messages := s.messages + [data.text], status := TranscribedStatus)
    else if data.kind == "error" then s.(status := ErrorStatusPrefix + Shown(data.message))
    else if data.kind == "pong" then s.(status := PongStatus)
    else s
  }

  function OnMessages(s: ClientState, data: seq<Inbound>): ClientState
  {
    if data == [] then s else OnMessage(OnMessages(s, data[..|data| - 1]), data[|data| - 1])
  }

  /** The texts of the transcription messages, in order. */
  function Transcribed(data: seq<Inbound>): seq<Option<string>>
  {
    if data == [] then []
    else
      var last := data[|data| - 1];
      Transcribed(data[..|data| - 1]) + (if last.kind == "transcription" then [last.text] else [])
  }

  /** `base64data.split(",")[1]`: the text between the first and the second comma. */
  function DataUrlPayload(url: string): Option<string>
  {
    var parts := Split(url, ',');
    if |parts| >= 2 then Some(parts[1]) else None
  }

  /** The command sent for recorded audio or an uploaded file. */
  function CommandFor(kind: string, url: string, model: string, language: Option<string>): Command
  {
    Command(kind, DataUrlPayload(url), model, language, "json", "0")
  }

  // ---------------------------------------------------------------- properties

  /** Only "transcription" messages append, at the end and with their text; "error" and
      "pong" set only the status; any other message changes nothing. */
  lemma MessageEffects(s: ClientState, data: Inbound)
    ensures var r := OnMessage(s, data);
      && (data.kind == "transcription" ==> r.messages == s.messages + [data.text])
      && (data.kind != "transcription" ==> r.messages == s.messages)
      && (data.kind == "error" ==> r.status == "错误: " + Shown(data.message))
      && (data.kind == "error" && data.message == None ==> r.status == "错误: undefined")
      && (data.kind == "pong" ==> r.status == "收到服务器的pong")
      && r.(messages := s.messages, status := s.status) == s
      && (data.kind !in {"transcription", "error", "pong"} ==> r == s)
  {
  }

  /** After a stream of messages the list holds the old texts followed by the transcribed
      texts in arrival order. */
  lemma {:induction false} MessagesAreTranscriptions(s: ClientState, data: seq<Inbound>)
    ensures OnMessages(s, data).messages == s.messages + Transcribed(data)
    decreases |data|
  {
    if data != [] {
      var init := data[..|data| - 1];
      var last := data[|data| - 1];
      MessagesAreTranscriptions(s, init);
      SeqAssoc(s.messages, Transcribed(init), if last.kind == "transcription" then [last.text] else []);
    }
  }

  /** A data URL "header,payload" with no other comma yields the payload; one without a comma
      yields nothing. */
  lemma DataUrlPayloadOf(header: string, payload: string)
    requires ',' !in header && ',' !in payload
    ensures DataUrlPayload(header + "," + payload) == Some(payload)
    ensures DataUrlPayload(header) == None
  {
    SplitHead(header, payload, ',');
    SplitNoSep(payload, ',');
    SplitNoSep(header, ',');
  }

  // ---------------------------------------------------------------- the component

  class Client {
    var recording: bool
    var messages: seq<Option<string>>
    var status: string
    var model: string
    var language: Option<string>
    var buffer: seq<Blob>
    /** The model and language the running recording's `onstop` closure captured. */
    var captured: (string, Option<string>)
    var sent: seq<Command>

    function State(): ClientState
      reads this
    {
      ClientState(recording, messages, status, model, language, buffer, captured, sent)
    }

    constructor ()
      ensures State() == ClientState(false, [], "", LargeV3, Some("zh"), [], (LargeV3, Some("zh")), [])
    {
      recording := false;
      messages := [];
      status := "";
      model := LargeV3;
      language := Some("zh");
      buffer := [];
      captured := (LargeV3, Some("zh"));
      sent := [];
    }

    /** `handleModelChange` */
    method HandleModelChange(selected: string)
      modifies this
      ensures State() == old(State()).(model := selected, language := CodeOf(OptionsFor(selected)[0]))
      ensures language == Some("en")
    {
      LanguageAfterModelChange(selected);
      model := selected;
      var options := OptionsFor(selected);
      language := CodeOf(options[0]);
    }

    /** `handleLanguageChange` */
    method HandleLanguageChange(name: string)
      modifies this
      ensures State() == old(State()).(language := CodeOf(name))
    {
      language := CodeOf(name);
    }

    /** `ws.onmessage` */
    method Receive(data: Inbound)
      modifies this
      ensures State() == OnMessage(old(State()), data)
    {
      if data.kind == "transcription" {
        messages := messages + [data.text];
        status := TranscribedStatus;
      } else if data.kind == "error" {
        status := ErrorStatusPrefix + Shown(data.message);
      } else if data.kind == "pong" {
        status := PongStatus;
      }
    }

    /** `startRecording`, once the microphone stream is granted: the buffer is emptied and the
        closures installed now see the current model and language. */
    method StartRecording()
      modifies this
      ensures State() == old(State()).(recording := true, status := RecordingStatus, buffer := [], captured := (model, language))
    {
      recording := true;
      captured := (model, language);
      buffer := [];
      status := RecordingStatus;
    }

    /** `ondataavailable`: only non-empty chunks are kept. */
    method OnDataAvailable(chunk: Blob)
      modifies this
      ensures State() == old(State()).(buffer := if |chunk.bytes| > 0 then old(buffer) + [chunk] else old(buffer))
    {
      if |chunk.bytes| > 0 {
        buffer := buffer + [chunk];
      }
    }

    /** `stopRecording`: with a recorder, asks it to stop (its `onstop` comes later). */
    method StopRecording(hasRecorder: bool)
      modifies this
      ensures State() == old(State()).(status := if hasRecorder then StoppingStatus else old(status))
    {
      if hasRecorder {
        status := StoppingStatus;
      }
    }

    /** `onstop`: the recording ends and the chunks become one "audio/webm" blob for the reader. */
    method OnStop() returns (blob: Blob)
      modifies this
      ensures State() == old(State()).(recording := false, status := StoppedStatus)
      ensures blob == Blob(Flatten(BlobBytes(buffer)), "audio/webm")
    {
      recording := false;
      blob := Blob(Flatten(BlobBytes(buffer)), "audio/webm");
      status := StoppedStatus;
    }

    /** The reader's `onloadend` for the recorded blob: a non-empty data URL is sent with the
        captured settings when the socket is there. */
    method OnRecordingRead(url: string, connected: bool)
      modifies this
      ensures url != "" && connected ==>
        State() == old(State()).(sent := old(sent) + [CommandFor("audio", url, captured.0, captured.1)], status := AudioSentStatus)
      ensures !(url != "" && connected) ==> State() == old(State())
    {
      if url != "" && connected {
        sent := sent + [CommandFor("audio", url, captured.0, captured.1)];
        status := AudioSentStatus;
      }
    }

    /** `handleFileUpload` through the reader's `onloadend`: `url` is the file's data URL. */
    method HandleFileUpload(file: Option<FileInfo>, connected: bool, url: string)
      modifies this
      ensures !(file.Some? && connected) ==> State() == old(State())
      ensures file.Some? && connected && url == "" ==>
        State() == old(State()).(status := UploadingStatus + file.value.name)
      ensures file.Some? && connected && url != "" ==>
        State() == old(State()).(sent := old(sent) + [CommandFor("upload", url, model, language)], status := FileSentStatus)
    {
      if file.Some? && connected {
        status := UploadingStatus + file.value.name;
        if url != "" {
          sent := sent + [CommandFor("upload", url, model, language)];
          status := FileSentStatus;
        }
      }
    }
  }
}
