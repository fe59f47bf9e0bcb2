/** Value types and JavaScript string operations shared by the server and client models.
    Strings are `seq<char>` (one char per UTF-16 code unit, as in JavaScript); byte buffers
    are `seq<byte>`. */
module Common {

  newtype byte = x: int | 0 <= x < 256

  datatype Option<T> = None | Some(value: T)

  /** A browser `Blob` (or `File` body): its bytes and its MIME `type`; `size` is the byte count. */
  datatype Blob = Blob(bytes: seq<byte>, mimeType: string)

  /** A value interpolated into a template literal: a missing one renders as "undefined". */
  function Shown(v: Option<string>): string
  {
    if v.Some? then v.value else "undefined"
  }

  /** The bytes of each blob, in order. */
  function BlobBytes(parts: seq<Blob>): (r: seq<seq<byte>>)
    ensures |r| == |parts| && forall k :: 0 <= k < |parts| ==> r[k] == parts[k].bytes
  {
    seq(|parts|, k requires 0 <= k < |parts| => parts[k].bytes)
  }

  /** `s.startsWith(prefix)` */
  predicate StartsWith(s: string, prefix: string)
  {
    |prefix| <= |s| && s[..|prefix|] == prefix
  }

  /** `s.endsWith(suffix)` */
  predicate EndsWith(s: string, suffix: string)
  {
    |suffix| <= |s| && s[|s| - |suffix|..] == suffix
  }

  /** True when `p` occurs in `s` at position `i`. */
  predicate OccursAt(s: string, p: string, i: int)
  {
    0 <= i && i + |p| <= |s| && s[i..i + |p|] == p
  }

  /** `s.indexOf(p, k)`: the first position at or after `k` where `p` occurs, or -1. */
  function IndexOfFrom(s: string, p: string, k: nat): (r: int)
    decreases |s| - k
    ensures r == -1 || (k <= r && OccursAt(s, p, r))
    ensures r == -1 ==> forall i :: k <= i ==> !OccursAt(s, p, i)
    ensures r != -1 ==> forall i :: k <= i < r ==> !OccursAt(s, p, i)
  {
    if k + |p| > |s| then -1
    else if s[k..k + |p|] == p then k
    else IndexOfFrom(s, p, k + 1)
  }

  /** `s.indexOf(p)` */
  function IndexOf(s: string, p: string): int
  {
    IndexOfFrom(s, p, 0)
  }

  /** `s.includes(p)` */
  predicate Includes(s: string, p: string)
  {
    IndexOf(s, p) != -1
  }

  lemma IncludesAt(s: string, p: string, i: int)
    requires OccursAt(s, p, i)
    ensures Includes(s, p)
  {
  }

  /** `s.lastIndexOf(c)` for a single character. */
  function LastIndexOf(s: string, c: char): (r: int)
    ensures -1 <= r < |s|
    ensures r != -1 ==> s[r] == c
    ensures forall i :: r < i < |s| ==> s[i] != c
  {
    if s == [] then -1
    else if s[|s| - 1] == c then |s| - 1
    else LastIndexOf(s[..|s| - 1], c)
  }

  /** `s.replace(p, rep)` with a string pattern: only the FIRST occurrence is replaced. */
  function ReplaceFirst(s: string, p: string, rep: string): (r: string)
  {
    var i := IndexOf(s, p);
    if i == -1 then s else s[..i] + rep + s[i + |p|..]
  }

  /** The characters JavaScript's `String.prototype.trim` removes: WhiteSpace and LineTerminator. */
  predicate IsJsSpace(c: char)
  {
    c == ' ' || c == '\t' || c == '\n' || c == '\r' || c == '\U{000B}' || c == '\U{000C}'
    || c == '\U{00A0}' || c == '\U{1680}' || ('\U{2000}' <= c <= '\U{200A}')
    || c == '\U{2028}' || c == '\U{2029}' || c == '\U{202F}' || c == '\U{205F}'
    || c == '\U{3000}' || c == '\U{FEFF}'
  }

  predicate AllSpace(s: string)
  {
    forall k :: 0 <= k < |s| ==> IsJsSpace(s[k])
  }

  /** Number of leading white-space characters. */
  function LeadingSpace(s: string): (n: nat)
    ensures n <= |s|
    ensures forall k :: 0 <= k < n ==> IsJsSpace(s[k])
    ensures n < |s| ==> !IsJsSpace(s[n])
  {
    if s == [] || !IsJsSpace(s[0]) then 0 else 1 + LeadingSpace(s[1..])
  }

  /** Number of trailing white-space characters. */
  function TrailingSpace(s: string): (n: nat)
    ensures n <= |s|
    ensures forall k :: |s| - n <= k < |s| ==> IsJsSpace(s[k])
    ensures n < |s| ==> !IsJsSpace(s[|s| - 1 - n])
  {
    if s == [] || !IsJsSpace(s[|s| - 1]) then 0 else 1 + TrailingSpace(s[..|s| - 1])
  }

  /** `s.trim()` */
  function Trim(s: string): (r: string)
    ensures |r| <= |s|
    ensures r == [] <==> AllSpace(s)
    ensures r != [] ==> !IsJsSpace(r[0]) && !IsJsSpace(r[|r| - 1])
    ensures s != [] && !IsJsSpace(s[0]) && !IsJsSpace(s[|s| - 1]) ==> r == s
    ensures exists a, b ::
      && 0 <= a <= b <= |s| && r == s[a..b]
      && (forall k :: 0 <= k < a ==> IsJsSpace(s[k]))
      && (forall k :: b <= k < |s| ==> IsJsSpace(s[k]))
  {
    var t := s[LeadingSpace(s)..];
    var r := t[..|t| - TrailingSpace(t)];
    assert r != [] ==> r[0] == t[0] && r[|r| - 1] == t[|t| - 1 - TrailingSpace(t)];
    TrimIsSlice(s);
    r
  }

  /** The trimmed text is the slice between the leading and the trailing white space. */
  lemma TrimIsSlice(s: string)
    ensures var a := LeadingSpace(s);
      var t := s[a..];
      var b := a + |t| - TrailingSpace(t);
      && a <= b <= |s| && t[..|t| - TrailingSpace(t)] == s[a..b]
      && (forall k :: 0 <= k < a ==> IsJsSpace(s[k]))
      && (forall k :: b <= k < |s| ==> IsJsSpace(s[k]))
  {
    var a := LeadingSpace(s);
    var t := s[a..];
    var b := a + |t| - TrailingSpace(t);
    assert forall k :: b <= k < |s| ==> s[k] == t[k - a];
  }

  /** Trimming only removes characters: one absent from `s` is absent from `s.trim()`. */
  lemma TrimKeepsOut(s: string, c: char)
    requires c !in s
    ensures c !in Trim(s)
  {
    var t := s[LeadingSpace(s)..];
    assert Trim(s) == t[..|t| - TrailingSpace(t)];
    assert forall k :: 0 <= k < |t| ==> t[k] == s[k + LeadingSpace(s)];
  }

  lemma {:induction false} TrimIdempotent(s: string)
    ensures Trim(Trim(s)) == Trim(s)
  {
    var r := Trim(s);
    if r == [] {
      assert AllSpace(r);
    }
  }

  /** `s.indexOf(c)` for a single character: the first position holding `c`, or -1. */
  function FirstIndexOf(s: string, c: char): (r: int)
    ensures -1 <= r < |s|
    ensures r != -1 ==> s[r] == c
    ensures forall k :: 0 <= k < |s| && (r == -1 || k < r) ==> s[k] != c
  {
    if s == [] then -1
    else if s[0] == c then 0
    else
      var r := FirstIndexOf(s[1..], c);
      assert forall k :: 1 <= k < |s| ==> s[k] == s[1..][k - 1];
      if r == -1 then -1 else r + 1
  }

  /** The first occurrence of `c` in `a + [c] + b` is the first in `a`, else the one after `a`. */
  lemma FirstIndexOfJoined(a: string, b: string, c: char)
    ensures var i := FirstIndexOf(a, c);
      FirstIndexOf(a + [c] + b, c) == if i == -1 then |a| else i
  {
    var s := a + [c] + b;
    var i := FirstIndexOf(a, c);
    var j := FirstIndexOf(s, c);
    var expected := if i == -1 then |a| else i;
    assert s[expected] == c;
    assert forall k :: 0 <= k < |a| ==> s[k] == a[k];
  }

  /** `s.split(sep)` for a one-character separator: the text before the first separator, then
      the split of the text after it; a string without a separator is one piece. */
  function Split(s: string, sep: char): (r: seq<string>)
    ensures |r| >= 1
    decreases |s|
  {
    var i := FirstIndexOf(s, sep);
    if i == -1 then [s] else [s[..i]] + Split(s[i + 1..], sep)
  }

  lemma SplitAtFirst(s: string, sep: char, i: int)
    requires i == FirstIndexOf(s, sep) && i != -1
    ensures Split(s, sep) == [s[..i]] + Split(s[i + 1..], sep)
  {
  }

  lemma SplitNoSep(s: string, sep: char)
    requires sep !in s
    ensures Split(s, sep) == [s]
  {
    assert FirstIndexOf(s, sep) == -1;
  }

  /** Splitting `a + [c] + b` on `c`, where `a` has no `c`, gives `a` and then the split of `b`. */
  lemma SplitHead(a: string, b: string, c: char)
    requires c !in a
    ensures Split(a + [c] + b, c) == [a] + Split(b, c)
  {
    var s := a + [c] + b;
    FirstIndexOfJoined(a, b, c);
    assert FirstIndexOf(a, c) == -1;
    SplitAtFirst(s, c, |a|);
    assert s[..|a|] == a;
    assert s[|a| + 1..] == b;
  }

  /** No piece of a split holds the separator. */
  lemma {:induction false} SplitPiecesFree(s: string, sep: char)
    ensures forall i :: 0 <= i < |Split(s, sep)| ==> sep !in Split(s, sep)[i]
    decreases |s|
  {
    var i := FirstIndexOf(s, sep);
    if i != -1 {
      SplitPiecesFree(s[i + 1..], sep);
      SplitAtFirst(s, sep, i);
      assert forall k :: 0 <= k < i ==> s[..i][k] == s[k];
    }
  }

  /** `pieces.join(sep)` for a one-character separator. */
  function Join(pieces: seq<string>, sep: char): string
    requires |pieces| >= 1
  {
    if |pieces| == 1 then pieces[0] else pieces[0] + [sep] + Join(pieces[1..], sep)
  }

  lemma JoinCons(p: string, rest: seq<string>, sep: char)
    requires |rest| >= 1
    ensures Join([p] + rest, sep) == p + [sep] + Join(rest, sep)
  {
    assert ([p] + rest)[1..] == rest;
  }

  lemma {:induction false} JoinSplit(s: string, sep: char)
    ensures Join(Split(s, sep), sep) == s
    decreases |s|
  {
    var i := FirstIndexOf(s, sep);
    if i != -1 {
      JoinSplit(s[i + 1..], sep);
      SplitAtFirst(s, sep, i);
      JoinCons(s[..i], Split(s[i + 1..], sep), sep);
      SliceAround(s, i);
    }
  }

  lemma SliceAround<T>(s: seq<T>, i: int)
    requires 0 <= i < |s|
    ensures s == s[..i] + [s[i]] + s[i + 1..]
  {
  }

  /** Splitting at a separator distributes over the two sides. */
  lemma {:induction false} SplitAppend(a: string, b: string, sep: char)
    ensures Split(a + [sep] + b, sep) == Split(a, sep) + Split(b, sep)
    decreases |a|
  {
    var i := FirstIndexOf(a, sep);
    if i == -1 {
      SplitAtJoin(a, b, sep);
    } else {
      SplitAppend(a[i + 1..], b, sep);
      SplitAppendStep(a, b, sep, i);
      SplitAtFirst(a, sep, i);
      SeqAssoc([a[..i]], Split(a[i + 1..], sep), Split(b, sep));
    }
  }

  lemma SplitAtJoin(a: string, b: string, sep: char)
    requires FirstIndexOf(a, sep) == -1
    ensures Split(a + [sep] + b, sep) == [a] + Split(b, sep)
  {
    var s := a + [sep] + b;
    FirstIndexOfJoined(a, b, sep);
    SplitAtFirst(s, sep, |a|);
    assert s[..|a|] == a;
    assert s[|a| + 1..] == b;
  }

  lemma SplitAppendStep(a: string, b: string, sep: char, i: int)
    requires i == FirstIndexOf(a, sep) && i != -1
    ensures Split(a + [sep] + b, sep) == [a[..i]] + Split(a[i + 1..] + [sep] + b, sep)
  {
    var s := a + [sep] + b;
    FirstIndexOfJoined(a, b, sep);
    SplitAtFirst(s, sep, i);
    assert s[..i] == a[..i];
    assert s[i + 1..] == a[i + 1..] + [sep] + b;
  }

  lemma SeqAssoc<T>(x: seq<T>, y: seq<T>, z: seq<T>)
    ensures x + (y + z) == (x + y) + z
  {
  }

  lemma {:induction false} SplitJoin(pieces: seq<string>, sep: char)
    requires |pieces| >= 1
    requires forall i :: 0 <= i < |pieces| ==> sep !in pieces[i]
    ensures Split(Join(pieces, sep), sep) == pieces
  {
    if |pieces| == 1 {
      SplitNoSep(pieces[0], sep);
    } else {
      SplitJoin(pieces[1..], sep);
      JoinCons(pieces[0], pieces[1..], sep);
      assert [pieces[0]] + pieces[1..] == pieces;
      SplitAppend(pieces[0], Join(pieces[1..], sep), sep);
      SplitNoSep(pieces[0], sep);
    }
  }

  /** The decimal digit for `d`. */
  function DigitChar(d: nat): (c: char)
    requires d < 10
    ensures '0' <= c <= '9'
    ensures (c as int) - ('0' as int) == d
  {
    (('0' as int) + d) as char
  }

  predicate IsDigits(s: string)
  {
    forall k :: 0 <= k < |s| ==> '0' <= s[k] <= '9'
  }

  /** The decimal rendering of a non-negative integer, as `${n}` produces it. */
  function NatToString(n: nat): (r: string)
    ensures |r| >= 1 && IsDigits(r)
  {
    if n < 10 then [DigitChar(n)] else NatToString(n / 10) + [DigitChar(n % 10)]
  }

  /** Reads a string of decimal digits back as a number. */
  function ParseDigits(s: string): nat
    requires IsDigits(s)
  {
    if s == [] then 0 else ParseDigits(s[..|s| - 1]) * 10 + ((s[|s| - 1] as int) - ('0' as int))
  }

  lemma {:induction false} ParseNatToString(n: nat)
    ensures ParseDigits(NatToString(n)) == n
  {
    if n >= 10 {
      ParseNatToString(n / 10);
      var r := NatToString(n);
      assert r[..|r| - 1] == NatToString(n / 10);
    }
  }

  /** Concatenation of buffers (or strings) in order: `Buffer.concat`, `new Blob(parts)`. */
  function Flatten<T>(parts: seq<seq<T>>): seq<T>
  {
    if parts == [] then [] else Flatten(parts[..|parts| - 1]) + parts[|parts| - 1]
  }

  /** Sum of the part lengths (`parts.reduce((acc, b) => acc + b.length, 0)`). */
  function TotalLength<T>(parts: seq<seq<T>>): nat
  {
    if parts == [] then 0 else TotalLength(parts[..|parts| - 1]) + |parts[|parts| - 1]|
  }

  lemma {:induction false} FlattenLength<T>(parts: seq<seq<T>>)
    ensures |Flatten(parts)| == TotalLength(parts)
  {
    if parts != [] {
      FlattenLength(parts[..|parts| - 1]);
    }
  }

  lemma {:induction false} FlattenAppend<T>(a: seq<seq<T>>, b: seq<seq<T>>)
    ensures Flatten(a + b) == Flatten(a) + Flatten(b)
  {
    if b != [] {
      assert (a + b)[..|a + b| - 1] == a + b[..|b| - 1];
      FlattenAppend(a, b[..|b| - 1]);
    } else {
      assert a + b == a;
    }
  }
}
