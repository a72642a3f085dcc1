/** The JavaScript string operations the core relies on, over strings whose characters lie in the Basic Multilingual Plane, where a `char` is one JavaScript code unit. */
module Strings {

  /** JavaScript's WhiteSpace and LineTerminator characters: what `trim` removes and what `\s` matches. */
  predicate IsSpace(c: char) {
    c == ' ' || c == '\t' || c == '\n' || c == '\r' || c == '\U{0B}' || c == '\U{0C}' ||
    c == '\U{A0}' || c == '\U{1680}' || ('\U{2000}' <= c <= '\U{200A}') ||
    c == '\U{2028}' || c == '\U{2029}' || c == '\U{202F}' || c == '\U{205F}' ||
    c == '\U{3000}' || c == '\U{FEFF}'
  }

  predicate AllSpace(s: string) {
    forall i :: 0 <= i < |s| ==> IsSpace(s[i])
  }

  /** `s.trimStart()`: the suffix of s after its leading whitespace. */
  function TrimStart(s: string): (r: string)
    ensures |r| <= |s|
  {
    if s != [] && IsSpace(s[0]) then TrimStart(s[1..]) else s
  }

  /** `trimStart` keeps a suffix of its argument, cuts only whitespace, and leaves no leading
      whitespace. */
  lemma {:induction false} TrimStartIsSuffix(s: string)
    ensures TrimStart(s) == s[|s| - |TrimStart(s)|..]
    ensures AllSpace(s[..|s| - |TrimStart(s)|])
    ensures TrimStart(s) == [] || !IsSpace(TrimStart(s)[0])
  {
    if s != [] && IsSpace(s[0]) {
      TrimStartIsSuffix(s[1..]);
      assert s[..|s| - |TrimStart(s)|] == [s[0]] + s[1..][..|s| - 1 - |TrimStart(s)|];
    }
  }

  /** `s.trimEnd()`: the prefix of s before its trailing whitespace. */
  function TrimEnd(s: string): (r: string)
    ensures |r| <= |s|
  {
    if s != [] && IsSpace(s[|s| - 1]) then TrimEnd(s[..|s| - 1]) else s
  }

  /** `trimEnd` keeps a prefix of its argument, cuts only whitespace, and leaves no trailing
      whitespace. */
  lemma {:induction false} TrimEndIsPrefix(s: string)
    ensures TrimEnd(s) == s[..|TrimEnd(s)|]
    ensures AllSpace(s[|TrimEnd(s)|..])
    ensures TrimEnd(s) == [] || !IsSpace(TrimEnd(s)[|TrimEnd(s)| - 1])
  {
    if s != [] && IsSpace(s[|s| - 1]) {
      var p := s[..|s| - 1];
      TrimEndIsPrefix(p);
      assert s[|TrimEnd(s)|..] == p[|TrimEnd(p)|..] + [s[|s| - 1]];
    }
  }

  /** `s.trim()`. */
  function Trim(s: string): string {
    TrimEnd(TrimStart(s))
  }

  /** `trim` keeps a contiguous slice of its argument and removes only whitespace around it. */
  lemma {:induction false} TrimIsSlice(s: string)
    ensures exists i, j :: 0 <= i <= j <= |s| && Trim(s) == s[i..j] && AllSpace(s[..i]) && AllSpace(s[j..])
    ensures Trim(s) == [] || (!IsSpace(Trim(s)[0]) && !IsSpace(Trim(s)[|Trim(s)| - 1]))
  {
    var t := TrimStart(s);
    TrimStartIsSuffix(s);
    TrimEndIsPrefix(t);
    var i := |s| - |t|;
    var j := i + |TrimEnd(t)|;
    assert Trim(s) == s[i..j];
    assert s[j..] == t[|TrimEnd(t)|..];
  }

  /** A string trims to "" exactly when it is all whitespace. */
  lemma {:induction false} TrimEmptyIff(s: string)
    ensures Trim(s) == [] <==> AllSpace(s)
  {
    var t := TrimStart(s);
    TrimStartIsSuffix(s);
    TrimEndIsPrefix(t);
    if Trim(s) == [] {
      assert s == s[..|s| - |t|] + t;
      assert AllSpace(t[|TrimEnd(t)|..]);
    } else {
      TrimIsSlice(s);
    }
  }

  /** Trimming twice is trimming once. */
  lemma {:induction false} TrimIdempotent(s: string)
    ensures Trim(Trim(s)) == Trim(s)
  {
    TrimIsSlice(s);
    var t := Trim(s);
    if t != [] {
      assert TrimStart(t) == t;
      assert TrimEnd(t) == t;
    }
  }

  /** `!s.trim()`: the text is empty or only whitespace. */
  predicate Blank(s: string) {
    Trim(s) == ""
  }

  /** Text as a form stores it: not empty, and trimming it changes nothing. */
  predicate Clean(s: string) {
    s != "" && Trim(s) == s
  }

  /** The first piece of a split is the prefix of s up to the first separator (or all of s). */
  lemma {:induction false} SplitHead(s: string, sep: char)
    ensures |Split(s, sep)[0]| <= |s| && Split(s, sep)[0] == s[..|Split(s, sep)[0]|]
    ensures |Split(s, sep)[0]| == |s| || s[|Split(s, sep)[0]|] == sep
  {
    if s != [] && s[0] != sep {
      var rest := Split(s[1..], sep);
      SplitHead(s[1..], sep);
      assert Split(s, sep)[0] == [s[0]] + rest[0];
      assert s[..1 + |rest[0]|] == [s[0]] + s[1..][..|rest[0]|];
    }
  }

  /** `s.split(sep)` for a one-character separator: the pieces between separators, empty ones kept. */
  function Split(s: string, sep: char): (r: seq<string>)
    ensures |r| >= 1
    ensures forall i :: 0 <= i < |r| ==> sep !in r[i]
  {
    if s == [] then [[]]
    else
      var rest := Split(s[1..], sep);
      if s[0] == sep then [[]] + rest
      else [[s[0]] + rest[0]] + rest[1..]
  }

  /** `parts.join(sep)`. */
  function Join(parts: seq<string>, sep: string): string {
    if |parts| == 0 then []
    else if |parts| == 1 then parts[0]
    else parts[0] + sep + Join(parts[1..], sep)
  }

  /** Joining the pieces of a split with the same separator gives the string back. */
  lemma {:induction false} JoinSplit(s: string, sep: char)
    ensures Join(Split(s, sep), [sep]) == s
  {
    if s != [] {
      var rest := Split(s[1..], sep);
      JoinSplit(s[1..], sep);
      if s[0] == sep {
        assert Split(s, sep) == [[]] + rest;
        assert Join([[]] + rest, [sep]) == [] + [sep] + Join(rest, [sep]);
      } else {
        var r := Split(s, sep);
        assert r == [[s[0]] + rest[0]] + rest[1..];
        if |rest| == 1 {
          assert r == [[s[0]] + rest[0]];
        } else {
          assert r[1..] == rest[1..];
          assert Join(rest, [sep]) == rest[0] + [sep] + Join(rest[1..], [sep]);
        }
      }
    }
  }

  /** Splitting a string made of a piece, the separator and more text yields that piece first. */
  lemma {:induction false} SplitAfterPiece(a: string, sep: char, b: string)
    requires sep !in a
    ensures Split(a + [sep] + b, sep) == [a] + Split(b, sep)
  {
    if a == [] {
      assert ([] + [sep] + b)[1..] == b;
    } else {
      assert (a + [sep] + b)[1..] == a[1..] + [sep] + b;
      SplitAfterPiece(a[1..], sep, b);
      assert [a[0]] + a[1..] == a;
    }
  }

  /** Splitting a string without the separator yields that one string. */
  lemma {:induction false} SplitNoSeparator(a: string, sep: char)
    requires sep !in a
    ensures Split(a, sep) == [a]
  {
    if a != [] {
      SplitNoSeparator(a[1..], sep);
      assert [a[0]] + a[1..] == a;
    }
  }

  /** Splitting a join gives back the parts, provided no part contains the separator. */
  lemma {:induction false} SplitJoin(parts: seq<string>, sep: char)
    requires |parts| >= 1
    requires forall i :: 0 <= i < |parts| ==> sep !in parts[i]
    ensures Split(Join(parts, [sep]), sep) == parts
  {
    if |parts| == 1 {
      SplitNoSeparator(parts[0], sep);
    } else {
      SplitJoin(parts[1..], sep);
      SplitAfterPiece(parts[0], sep, Join(parts[1..], [sep]));
      assert [parts[0]] + parts[1..] == parts;
    }
  }

  /** `s.split(/\s+/)`: the pieces between maximal runs of whitespace, with an empty first (last) piece
      when s starts (ends) with whitespace. */
  function SplitWhitespace(s: string): (r: seq<string>)
    ensures |r| >= 1
    ensures forall i, k :: 0 <= i < |r| && 0 <= k < |r[i]| ==> !IsSpace(r[i][k])
    decreases |s|
  {
    if s == [] then [[]]
    else if IsSpace(s[0]) then [[]] + SplitWhitespace(TrimStart(s))
    else
      var rest := SplitWhitespace(s[1..]);
      [[s[0]] + rest[0]] + rest[1..]
  }

  /** The maximal runs of whitespace in s, in order: what `split(/\s+/)` cuts out. */
  function Gaps(s: string): seq<string>
    decreases |s|
  {
    if s == [] then []
    else if IsSpace(s[0]) then [s[..|s| - |TrimStart(s)|]] + Gaps(TrimStart(s))
    else Gaps(s[1..])
  }

  /** The pieces with the gaps put back between them: pieces[0] + gaps[0] + pieces[1] + ... */
  function Interleave(pieces: seq<string>, gaps: seq<string>): string
    requires |pieces| == |gaps| + 1
    decreases |gaps|
  {
    if gaps == [] then pieces[0] else pieces[0] + gaps[0] + Interleave(pieces[1..], gaps[1..])
  }

  /** Prepending a character to the first piece prepends it to the interleaving. */
  lemma InterleaveConsFirst(c: char, pieces: seq<string>, gaps: seq<string>)
    requires |pieces| == |gaps| + 1
    ensures Interleave([[c] + pieces[0]] + pieces[1..], gaps) == [c] + Interleave(pieces, gaps)
  {
    var p := [[c] + pieces[0]] + pieces[1..];
    assert p[1..] == pieces[1..];
    if gaps != [] {
      assert Interleave(p, gaps) == p[0] + gaps[0] + Interleave(pieces[1..], gaps[1..]);
    }
  }

  /** An empty first piece followed by gap g puts g in front of the interleaving of the rest. */
  lemma InterleaveEmptyFirst(g: string, pieces: seq<string>, gaps: seq<string>)
    requires |pieces| == |gaps| + 1
    ensures Interleave([[]] + pieces, [g] + gaps) == g + Interleave(pieces, gaps)
  {
    assert ([[]] + pieces)[1..] == pieces;
    assert ([g] + gaps)[1..] == gaps;
  }

  /** `split(/\s+/)` loses nothing: putting the maximal whitespace runs back between the pieces gives
      s again. Every run is non-empty whitespace and every piece between two runs is non-empty, so
      the runs are maximal; the first piece is empty exactly when s is empty or starts with
      whitespace. */
  lemma {:induction false} SplitWhitespaceRebuilds(s: string)
    ensures |SplitWhitespace(s)| == |Gaps(s)| + 1
    ensures Interleave(SplitWhitespace(s), Gaps(s)) == s
    ensures forall i :: 0 <= i < |Gaps(s)| ==> Gaps(s)[i] != [] && AllSpace(Gaps(s)[i])
    ensures forall i :: 0 < i < |SplitWhitespace(s)| - 1 ==> SplitWhitespace(s)[i] != []
    ensures SplitWhitespace(s)[0] == [] <==> s == [] || IsSpace(s[0])
    decreases |s|
  {
    if s == [] {
    } else if IsSpace(s[0]) {
      SplitSpaceStep(s);
      SplitSpacePieces(s);
    } else {
      var rest := SplitWhitespace(s[1..]);
      SplitWhitespaceRebuilds(s[1..]);
      InterleaveConsFirst(s[0], rest, Gaps(s[1..]));
      assert [s[0]] + s[1..] == s;
    }
  }

  /** The step of SplitWhitespaceRebuilds for s starting with whitespace: the run up to the first
      non-whitespace character is cut out whole, and the rest is split as TrimStart(s) is. */
  lemma {:induction false} SplitSpaceStep(s: string)
    requires s != [] && IsSpace(s[0])
    ensures |SplitWhitespace(s)| == |Gaps(s)| + 1
    ensures Interleave(SplitWhitespace(s), Gaps(s)) == s
    decreases |s|, 0
  {
    var t := TrimStart(s);
    var g := s[..|s| - |t|];
    var r := SplitWhitespace(t);
    assert g + t == s by {
      TrimStartIsSuffix(s);
    }
    assert SplitWhitespace(s) == [[]] + r;
    assert Gaps(s) == [g] + Gaps(t);
    SplitWhitespaceRebuilds(t);
    InterleaveEmptyFirst(g, r, Gaps(t));
  }

  /** The other half of the step: the run cut out is non-empty whitespace, and the first piece of
      TrimStart(s), now an inner piece, is non-empty unless it is the last. */
  lemma {:induction false} SplitSpacePieces(s: string)
    requires s != [] && IsSpace(s[0])
    ensures forall i :: 0 <= i < |Gaps(s)| ==> Gaps(s)[i] != [] && AllSpace(Gaps(s)[i])
    ensures forall i :: 0 < i < |SplitWhitespace(s)| - 1 ==> SplitWhitespace(s)[i] != []
    decreases |s|, 0
  {
    var t := TrimStart(s);
    var g := s[..|s| - |t|];
    var r := SplitWhitespace(t);
    TrimStartIsSuffix(s);
    SplitWhitespaceRebuilds(t);
    assert SplitWhitespace(s) == [[]] + r;
    assert Gaps(s) == [g] + Gaps(t);
    assert |t| < |s|;
  }

  /** pat occurs in s at position k. */
  predicate MatchAt(s: string, pat: string, k: int) {
    0 <= k <= |s| - |pat| && s[k..k + |pat|] == pat
  }

  /** `s.indexOf(pat)` searching from position `from`: the first match at or after it, or -1. */
  function IndexFrom(s: string, pat: string, from: nat): (r: int)
    requires from <= |s|
    ensures r == -1 || (from <= r && MatchAt(s, pat, r))
    ensures r == -1 ==> forall k :: from <= k ==> !MatchAt(s, pat, k)
    ensures r != -1 ==> forall k :: from <= k < r ==> !MatchAt(s, pat, k)
    decreases |s| - from
  {
    if |s| - from < |pat| then -1
    else if s[from..from + |pat|] == pat then from
    else if from == |s| then -1
    else IndexFrom(s, pat, from + 1)
  }

  /** `s.indexOf(pat)`: the first position where pat occurs in s, or -1 when it does not occur. */
  function IndexOf(s: string, pat: string): (r: int)
    ensures r == -1 || MatchAt(s, pat, r)
    ensures r == -1 ==> forall k :: !MatchAt(s, pat, k)
    ensures r != -1 ==> forall k :: 0 <= k < r ==> !MatchAt(s, pat, k)
  {
    IndexFrom(s, pat, 0)
  }

  /** `s.replace(pat, rep)` with a string pattern: only the first occurrence is replaced. */
  function ReplaceFirst(s: string, pat: string, rep: string): (r: string)
    ensures IndexOf(s, pat) == -1 ==> r == s
    ensures IndexOf(s, pat) != -1 ==>
      var i := IndexOf(s, pat); r == s[..i] + rep + s[i + |pat|..]
  {
    var i := IndexOf(s, pat);
    if i == -1 then s else s[..i] + rep + s[i + |pat|..]
  }

  function DigitChar(d: nat): (c: char)
    requires d < 10
  {
    ('0' as int + d) as char
  }

  /** The decimal numeral of a natural number, as JavaScript prints it in a template literal. */
  function NatToString(n: nat): (r: string)
    ensures |r| >= 1
    ensures forall i :: 0 <= i < |r| ==> '0' <= r[i] <= '9'
  {
    if n < 10 then [DigitChar(n)] else NatToString(n / 10) + [DigitChar(n % 10)]
  }

  /** The decimal numeral of an integer, with a leading '-' when it is negative. */
  function IntToString(n: int): string {
    if n < 0 then "-" + NatToString(-n) else NatToString(n)
  }

  /** The value of a numeral: the inverse of NatToString. */
  function ParseNat(s: string): nat
    requires forall i :: 0 <= i < |s| ==> '0' <= s[i] <= '9'
  {
    if s == [] then 0 else 10 * ParseNat(s[..|s| - 1]) + (s[|s| - 1] as int - '0' as int)
  }

  lemma {:induction false} ParseNatToString(n: nat)
    ensures ParseNat(NatToString(n)) == n
  {
    if n >= 10 {
      var r := NatToString(n);
      ParseNatToString(n / 10);
      assert r[..|r| - 1] == NatToString(n / 10);
    }
  }
}
