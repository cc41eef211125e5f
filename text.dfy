/**
 * The Python string operations the core relies on: prefix and suffix tests,
 * substring search, replace, split and join, capitalize, str(int) and int(str).
 * Case mapping covers the ASCII letters only.
 */
module Text {
  import opened Wrappers

  // ---------------------------------------------------------------------------
  // Prefixes, suffixes, substrings

  /** s.startswith(prefix) */
  predicate StartsWith(s: string, prefix: string) {
    |prefix| <= |s| && s[..|prefix|] == prefix
  }

  /** s.endswith(suffix) */
  predicate EndsWith(s: string, suffix: string) {
    |suffix| <= |s| && s[|s| - |suffix|..] == suffix
  }

  /** sub in s */
  predicate Contains(s: string, sub: string)
    decreases |s|
  {
    StartsWith(s, sub) || (s != [] && Contains(s[1..], sub))
  }

  lemma {:induction false} ContainsAt(s: string, sub: string, i: nat)
    requires i + |sub| <= |s| && s[i..i + |sub|] == sub
    ensures Contains(s, sub)
    decreases i
  {
    if i > 0 {
      assert s[1..][i - 1..i - 1 + |sub|] == sub;
      ContainsAt(s[1..], sub, i - 1);
    }
  }

  /** s.replace(pattern, ""): removes the occurrences of pattern found scanning left to right. */
  function RemoveAll(s: string, pattern: string): (r: string)
    requires pattern != []
    ensures |r| <= |s|
    ensures !Contains(s, pattern) ==> r == s
    decreases |s|
  {
    if |s| < |pattern| then s
    else if s[..|pattern|] == pattern then RemoveAll(s[|pattern|..], pattern)
    else [s[0]] + RemoveAll(s[1..], pattern)
  }

  /** Removing a leading occurrence of pattern recovers the rest, when the rest holds no other one. */
  lemma RemoveLeading(pattern: string, rest: string)
    requires pattern != [] && !Contains(rest, pattern)
    ensures RemoveAll(pattern + rest, pattern) == rest
  {
    assert (pattern + rest)[..|pattern|] == pattern;
    assert (pattern + rest)[|pattern|..] == rest;
  }

  // ---------------------------------------------------------------------------
  // Whitespace, case

  /** The characters Python's str.split() and str.strip() treat as whitespace. */
  predicate IsSpace(c: char) {
    || ('\t' <= c <= '\r')
    || ('\U{1C}' <= c <= ' ')
    || c == '\U{85}' || c == '\U{A0}' || c == '\U{1680}'
    || ('\U{2000}' <= c <= '\U{200A}')
    || c == '\U{2028}' || c == '\U{2029}' || c == '\U{202F}' || c == '\U{205F}' || c == '\U{3000}'
  }

  function Upper(c: char): (u: char)
    ensures IsSpace(u) == IsSpace(c)
  {
    if 'a' <= c <= 'z' then (c as int - 32) as char else c
  }

  function Lower(c: char): (l: char)
    ensures IsSpace(l) == IsSpace(c)
  {
    if 'A' <= c <= 'Z' then (c as int + 32) as char else c
  }

  function LowerAll(s: string): (r: string)
    ensures |r| == |s|
    ensures forall i :: 0 <= i < |s| ==> r[i] == Lower(s[i])
  {
    if s == [] then [] else [Lower(s[0])] + LowerAll(s[1..])
  }

  /** str.capitalize(): the first character upper-cased, the others lower-cased. */
  function Capitalize(w: string): (r: string)
    ensures |r| == |w|
    ensures w != [] ==> r[0] == Upper(w[0])
    ensures forall i :: 0 < i < |w| ==> r[i] == Lower(w[i])
  {
    if w == [] then [] else [Upper(w[0])] + LowerAll(w[1..])
  }

  lemma CapitalizeIdempotent(w: string)
    ensures Capitalize(Capitalize(w)) == Capitalize(w)
  {
  }

  // ---------------------------------------------------------------------------
  // Split and join

  /** s.split(c) for a one-character separator, with the separator given as a test on characters. */
  function SplitBy(s: string, sep: char -> bool): (r: seq<string>)
    ensures |r| >= 1
    ensures forall i, c :: 0 <= i < |r| && c in r[i] ==> !sep(c)
  {
    if s == [] then [""]
    else
      var rest := SplitBy(s[1..], sep);
      if sep(s[0]) then [""] + rest
      else [[s[0]] + rest[0]] + rest[1..]
  }

  /** sep.join(words) */
  function JoinWith(words: seq<string>, sep: string): string {
    if words == [] then ""
    else if |words| == 1 then words[0]
    else words[0] + sep + JoinWith(words[1..], sep)
  }

  /** Joining the pieces of a split with the separator gives back the string. */
  lemma {:induction false} SplitJoin(s: string, sep: char -> bool, c: char)
    requires forall x :: sep(x) <==> x == c
    ensures JoinWith(SplitBy(s, sep), [c]) == s
  {
    if s != [] {
      var rest := SplitBy(s[1..], sep);
      SplitJoin(s[1..], sep, c);
      if s[0] == c {
        assert SplitBy(s, sep) == [""] + rest;
      } else {
        assert SplitBy(s, sep) == [[s[0]] + rest[0]] + rest[1..];
        if |rest| > 1 {
          assert JoinWith(rest, [c]) == rest[0] + [c] + JoinWith(rest[1..], [c]);
        }
      }
    }
  }

  predicate IsUnderscore(c: char) { c == '_' }

  /** s.split("_")[0]: the text before the first underscore, or all of s. */
  function FirstPiece(s: string): (r: string)
    ensures StartsWith(s, r) && '_' !in r
    ensures r == s || (|r| < |s| && s[|r|] == '_')
  {
    var pieces := SplitBy(s, IsUnderscore);
    SplitJoin(s, IsUnderscore, '_');
    JoinPrefix(pieces, "_");
    assert forall c :: c in pieces[0] ==> !IsUnderscore(c);
    pieces[0]
  }

  lemma JoinPrefix(words: seq<string>, sep: string)
    requires |words| >= 1
    ensures StartsWith(JoinWith(words, sep), words[0])
    ensures |words| > 1 ==> StartsWith(JoinWith(words, sep), words[0] + sep)
  {
    var j := JoinWith(words, sep);
    if |words| > 1 {
      assert j == words[0] + sep + JoinWith(words[1..], sep);
      assert j[..|words[0]|] == words[0];
      assert j[..|words[0] + sep|] == words[0] + sep;
    }
  }

  function NonEmpty(words: seq<string>): (r: seq<string>)
    ensures forall i :: 0 <= i < |r| ==> r[i] != [] && r[i] in words
  {
    if words == [] then []
    else if words[0] == [] then NonEmpty(words[1..])
    else [words[0]] + NonEmpty(words[1..])
  }

  /** s.split(): the maximal runs of non-whitespace characters. */
  function Words(s: string): (r: seq<string>)
    ensures forall i :: 0 <= i < |r| ==> r[i] != [] && forall c :: c in r[i] ==> !IsSpace(c)
  {
    NonEmpty(SplitBy(s, IsSpace))
  }

  function CapitalizeAll(words: seq<string>): (r: seq<string>)
    ensures |r| == |words|
    ensures forall i :: 0 <= i < |r| ==> r[i] == Capitalize(words[i])
  {
    if words == [] then [] else [Capitalize(words[0])] + CapitalizeAll(words[1..])
  }

  /** " ".join(x.capitalize() for x in s.split()) */
  function Title(s: string): string {
    JoinWith(CapitalizeAll(Words(s)), " ")
  }

  /** " ".join(x.capitalize() for x in s.split("_")) */
  function TitleFromName(s: string): string {
    JoinWith(CapitalizeAll(SplitBy(s, IsUnderscore)), " ")
  }

  /**
   * A name spelt out as a title, character by character: an underscore
   * becomes a space, the first character of each piece is upper-cased and
   * the others are lower-cased. start says whether s begins a piece.
   */
  function NameChars(s: string, start: bool): (r: string)
    ensures |r| == |s|
  {
    if s == [] then []
    else [if s[0] == '_' then ' ' else if start then Upper(s[0]) else Lower(s[0])] + NameChars(s[1..], s[0] == '_')
  }

  /** Whether position i of s begins a piece of the name. */
  predicate PieceStart(s: string, i: nat, start: bool)
    requires i < |s|
  {
    if i == 0 then start else s[i - 1] == '_'
  }

  /** Each character of a spelt-out name, read off the name itself. */
  lemma {:induction false} NameCharAt(s: string, start: bool, i: nat)
    requires i < |s|
    ensures NameChars(s, start)[i] ==
      if s[i] == '_' then ' ' else if PieceStart(s, i, start) then Upper(s[i]) else Lower(s[i])
  {
    if i > 0 {
      NameCharAt(s[1..], s[0] == '_', i - 1);
      assert s[1..][i - 1] == s[i];
      assert PieceStart(s[1..], i - 1, s[0] == '_') == PieceStart(s, i, start) by {
        if i > 1 {
          assert s[1..][i - 2] == s[i - 1];
        }
      }
    }
  }

  lemma JoinCons(w: string, ws: seq<string>, sep: string)
    ensures JoinWith([w] + ws, sep) == if ws == [] then w else w + sep + JoinWith(ws, sep)
  {
    assert ([w] + ws)[1..] == ws;
  }

  /** The pieces of a name capitalized; when the name continues a piece, its first piece is only lower-cased. */
  function CapitalizePieces(p: seq<string>, start: bool): seq<string>
    requires |p| >= 1
  {
    if start then CapitalizeAll(p) else [LowerAll(p[0])] + CapitalizeAll(p[1..])
  }

  /** Capitalizing the pieces of a split on underscores and joining them with spaces spells the name out. */
  lemma {:induction false} JoinNameChars(s: string, start: bool)
    ensures JoinWith(CapitalizePieces(SplitBy(s, IsUnderscore), start), " ") == NameChars(s, start)
  {
    if s != [] {
      var rest := SplitBy(s[1..], IsUnderscore);
      JoinNameChars(s[1..], s[0] == '_');
      if s[0] == '_' {
        JoinAfterUnderscore(s, start, rest);
      } else {
        JoinInsidePiece(s, start, rest);
      }
    }
  }

  lemma JoinAfterUnderscore(s: string, start: bool, rest: seq<string>)
    requires s != [] && s[0] == '_' && rest == SplitBy(s[1..], IsUnderscore)
    requires JoinWith(CapitalizePieces(rest, true), " ") == NameChars(s[1..], true)
    ensures JoinWith(CapitalizePieces(SplitBy(s, IsUnderscore), start), " ") == NameChars(s, start)
  {
    assert SplitBy(s, IsUnderscore) == [""] + rest;
    assert CapitalizePieces([""] + rest, start) == [""] + CapitalizeAll(rest) by {
      assert CapitalizeAll([""] + rest) == [Capitalize("")] + CapitalizeAll(rest);
    }
    JoinCons("", CapitalizeAll(rest), " ");
  }

  lemma JoinInsidePiece(s: string, start: bool, rest: seq<string>)
    requires s != [] && s[0] != '_' && rest == SplitBy(s[1..], IsUnderscore)
    requires JoinWith(CapitalizePieces(rest, false), " ") == NameChars(s[1..], false)
    ensures JoinWith(CapitalizePieces(SplitBy(s, IsUnderscore), start), " ") == NameChars(s, start)
  {
    var first := [s[0]] + rest[0];
    var c := if start then Upper(s[0]) else Lower(s[0]);
    assert SplitBy(s, IsUnderscore) == [first] + rest[1..];
    assert ([first] + rest[1..])[1..] == rest[1..];
    assert first[1..] == rest[0];
    assert CapitalizePieces([first] + rest[1..], start) == [[c] + LowerAll(rest[0])] + CapitalizeAll(rest[1..]);
    JoinCons([c] + LowerAll(rest[0]), CapitalizeAll(rest[1..]), " ");
    JoinCons(LowerAll(rest[0]), CapitalizeAll(rest[1..]), " ");
  }

  /**
   * The title of a name, character by character: as long as the name, a
   * space for each underscore, each piece's first character upper-cased and
   * the others lower-cased.
   */
  lemma TitleFromNameChars(s: string)
    ensures |TitleFromName(s)| == |s|
    ensures forall i :: 0 <= i < |s| ==>
      TitleFromName(s)[i] == if s[i] == '_' then ' ' else if PieceStart(s, i, true) then Upper(s[i]) else Lower(s[i])
  {
    JoinNameChars(s, true);
    forall i | 0 <= i < |s|
      ensures TitleFromName(s)[i] == if s[i] == '_' then ' ' else if PieceStart(s, i, true) then Upper(s[i]) else Lower(s[i])
    {
      NameCharAt(s, true, i);
    }
  }

  /** The words of a title are the capitalized words of the text. */
  lemma WordsOfTitle(s: string)
    ensures Words(Title(s)) == CapitalizeAll(Words(s))
  {
    CapitalizeKeepsWords(Words(s));
    WordsOfJoin(CapitalizeAll(Words(s)));
  }

  predicate IsWord(w: string) {
    w != [] && forall c :: c in w ==> !IsSpace(c)
  }

  lemma SplitNoSep(a: string, sep: char -> bool)
    requires forall c :: c in a ==> !sep(c)
    ensures SplitBy(a, sep) == [a]
  {
    if a != [] {
      assert forall c :: c in a[1..] ==> c in a;
      SplitNoSep(a[1..], sep);
      assert [a[0]] + a[1..] == a;
    }
  }

  lemma {:induction false} SplitAtSep(a: string, c: char, b: string, sep: char -> bool)
    requires forall x :: x in a ==> !sep(x)
    requires sep(c)
    ensures SplitBy(a + [c] + b, sep) == [a] + SplitBy(b, sep)
  {
    if a == [] {
      assert a + [c] + b == [c] + b;
      assert ([c] + b)[1..] == b;
    } else {
      var s := a + [c] + b;
      assert s[1..] == a[1..] + [c] + b;
      SplitAtSep(a[1..], c, b, sep);
      assert s[0] == a[0];
      assert [a[0]] + a[1..] == a;
    }
  }

  /** Splitting on whitespace undoes joining words with single spaces. */
  lemma {:induction false} WordsOfJoin(words: seq<string>)
    requires forall i :: 0 <= i < |words| ==> IsWord(words[i])
    ensures Words(JoinWith(words, " ")) == words
  {
    if words == [] {
      assert NonEmpty([""]) == NonEmpty([]);
    } else if |words| == 1 {
      SplitNoSep(words[0], IsSpace);
      assert NonEmpty([words[0]]) == [words[0]] + NonEmpty([]);
    } else {
      var rest := JoinWith(words[1..], " ");
      assert JoinWith(words, " ") == words[0] + [' '] + rest;
      SplitAtSep(words[0], ' ', rest, IsSpace);
      WordsOfJoin(words[1..]);
      var split := [words[0]] + SplitBy(rest, IsSpace);
      assert split[1..] == SplitBy(rest, IsSpace);
      assert NonEmpty(split) == [words[0]] + NonEmpty(SplitBy(rest, IsSpace));
    }
  }

  lemma CapitalizeKeepsWords(words: seq<string>)
    requires forall i :: 0 <= i < |words| ==> IsWord(words[i])
    ensures forall i :: 0 <= i < |words| ==> IsWord(CapitalizeAll(words)[i])
  {
    forall i | 0 <= i < |words|
      ensures IsWord(CapitalizeAll(words)[i])
    {
      var w := words[i];
      var r := Capitalize(w);
      forall c | c in r ensures !IsSpace(c) {
        var j :| 0 <= j < |r| && r[j] == c;
        assert w[j] in w;
      }
    }
  }

  /** A title built from a label is its own title: relabelling "Spa Light" gives "Spa Light". */
  lemma {:induction false} TitleIdempotent(s: string)
    ensures Title(Title(s)) == Title(s)
  {
    var ws := CapitalizeAll(Words(s));
    CapitalizeKeepsWords(Words(s));
    WordsOfJoin(ws);
    assert CapitalizeAll(ws) == ws by {
      forall i | 0 <= i < |ws| ensures CapitalizeAll(ws)[i] == ws[i] {
        CapitalizeIdempotent(Words(s)[i]);
      }
    }
  }

  // ---------------------------------------------------------------------------
  // str(int) and int(str)

  predicate IsDigit(c: char) { '0' <= c <= '9' }

  function DigitChar(d: nat): (c: char)
    requires d < 10
    ensures IsDigit(c) && c as int - '0' as int == d
  {
    ('0' as int + d) as char
  }

  /** str(n) for n >= 0 */
  function NatToStr(n: nat): (s: string)
    ensures s != [] && forall i :: 0 <= i < |s| ==> IsDigit(s[i])
  {
    if n < 10 then [DigitChar(n)] else NatToStr(n / 10) + [DigitChar(n % 10)]
  }

  /** str(n) */
  function IntToStr(n: int): (s: string)
    ensures s != []
  {
    if n < 0 then "-" + NatToStr(-n) else NatToStr(n)
  }

  /** The value of a string of decimal digits. */
  function DigitsValue(s: string): nat
    requires forall i :: 0 <= i < |s| ==> IsDigit(s[i])
  {
    if s == [] then 0
    else
      assert IsDigit(s[|s| - 1]);
      DigitsValue(s[..|s| - 1]) * 10 + (s[|s| - 1] as int - '0' as int)
  }

  lemma {:induction false} DigitsOfNat(n: nat)
    ensures DigitsValue(NatToStr(n)) == n
  {
    if n >= 10 {
      var s := NatToStr(n);
      assert s[..|s| - 1] == NatToStr(n / 10);
      DigitsOfNat(n / 10);
    }
  }

  function TrimLeft(s: string): (r: string)
    ensures r == [] || !IsSpace(r[0])
    ensures forall i :: 0 <= i < |s| && !IsSpace(s[i]) ==> |s| - |r| <= i
    ensures |r| <= |s| && r == s[|s| - |r|..]
  {
    if s != [] && IsSpace(s[0]) then TrimLeft(s[1..]) else s
  }

  function TrimRight(s: string): (r: string)
    ensures r == [] || !IsSpace(r[|r| - 1])
    ensures |r| <= |s| && r == s[..|r|]
  {
    if s != [] && IsSpace(s[|s| - 1]) then TrimRight(s[..|s| - 1]) else s
  }

  /** s.strip() */
  function Strip(s: string): string {
    TrimRight(TrimLeft(s))
  }

  predicate AllDigits(s: string) {
    s != [] && forall i :: 0 <= i < |s| ==> IsDigit(s[i])
  }

  /** int(s) on a string: optional surrounding whitespace, an optional sign, decimal digits. None stands for ValueError. */
  function ParseInt(s: string): (r: Option<int>)
    ensures r.Some? ==> exists i :: 0 <= i < |s| && IsDigit(s[i])
  {
    var t := Strip(s);
    var u := TrimLeft(s);
    assert t == u[..|t|];
    if t == [] then None
    else if t[0] == '-' || t[0] == '+' then
      var digits := t[1..];
      if AllDigits(digits) then
        assert s[|s| - |u| + 1] == digits[0];
        var magnitude: int := DigitsValue(digits);
        Some(if t[0] == '-' then -magnitude else magnitude)
      else None
    else if AllDigits(t) then
      assert s[|s| - |u|] == t[0];
      Some(DigitsValue(t))
    else None
  }

  lemma StripUnpadded(s: string)
    requires s != [] && !IsSpace(s[0]) && !IsSpace(s[|s| - 1])
    ensures TrimLeft(s) == s && Strip(s) == s
  {
  }

  /** int(str(n)) == n */
  lemma IntRoundTrip(n: int)
    ensures ParseInt(IntToStr(n)) == Some(n)
  {
    var s := IntToStr(n);
    assert IsDigit(s[|s| - 1]);
    assert s[0] == '-' || IsDigit(s[0]);
    StripUnpadded(s);
    if n < 0 {
      assert s[1..] == NatToStr(-n);
      DigitsOfNat(-n);
    } else {
      DigitsOfNat(n);
    }
  }
}
