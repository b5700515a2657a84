/** The string operations the Python code relies on: `str.strip`,
    `str.split()` (on whitespace), `str.split(sep)`, `str.splitlines`,
    `str.lower` for ASCII, substring search and the decimal rendering of
    a natural number (`str(n)`, `f"{n}"`). */
module Text {

  /** `str.isspace` for a single character: the ASCII controls `\t` to `\r`
      and `\x1c` to `\x1f`, the space, and the Unicode separators. */
  predicate IsSpace(c: char)
  {
    || c == ' '
    || ('\t' <= c <= '\r')
    || ('\U{1C}' <= c <= '\U{1F}')
    || c == '\U{85}' || c == '\U{A0}' || c == '\U{1680}'
    || ('\U{2000}' <= c <= '\U{200A}')
    || c == '\U{2028}' || c == '\U{2029}' || c == '\U{202F}' || c == '\U{205F}' || c == '\U{3000}'
  }

  /** A non-empty run of non-whitespace characters: what `str.split()` yields. */
  predicate IsWord(w: string)
  {
    w != [] && forall k :: 0 <= k < |w| ==> !IsSpace(w[k])
  }

  predicate AllSpace(s: string)
  {
    forall k :: 0 <= k < |s| ==> IsSpace(s[k])
  }

  // ---------------------------------------------------------------------
  // strip

  /** The number of whitespace characters that open `s`. */
  function Leading(s: string): (n: nat)
    ensures n <= |s| && AllSpace(s[..n]) && (n < |s| ==> !IsSpace(s[n]))
  {
    if s != [] && IsSpace(s[0]) then
      var n := 1 + Leading(s[1..]);
      assert s[..n] == [s[0]] + s[1..][..n - 1];
      n
    else 0
  }

  /** The number of whitespace characters that close `s`. */
  function Trailing(s: string): (n: nat)
    ensures n <= |s| && AllSpace(s[|s| - n..]) && (n < |s| ==> !IsSpace(s[|s| - n - 1]))
  {
    if s != [] && IsSpace(s[|s| - 1]) then
      var n := 1 + Trailing(s[..|s| - 1]);
      assert s[|s| - n..] == s[..|s| - 1][|s| - n..] + [s[|s| - 1]];
      n
    else 0
  }

  /** `str.lstrip()`. */
  function TrimLeft(s: string): (r: string)
    ensures r == [] || !IsSpace(r[0])
  {
    s[Leading(s)..]
  }

  /** `str.strip()`: the result is `s` without the whitespace that opens and
      closes it, so it neither starts nor ends with whitespace. */
  function Strip(s: string): (r: string)
    ensures r == [] || (!IsSpace(r[0]) && !IsSpace(r[|r| - 1]))
    ensures var i := Leading(s);
      && i + |r| <= |s| && s[i..i + |r|] == r
      && AllSpace(s[..i]) && AllSpace(s[i + |r|..])
  {
    var i := Leading(s);
    var t := s[i..];
    var n := Trailing(t);
    var r := t[..|t| - n];
    assert r == s[i..i + |r|];
    assert s[i + |r|..] == t[|t| - n..];
    assert r != [] ==> r[0] == s[i] && r[|r| - 1] == t[|t| - n - 1];
    r
  }

  /** Stripping a word changes nothing. */
  lemma StripWord(w: string)
    requires IsWord(w)
    ensures Strip(w) == w
  {
  }

  /** Text that neither starts nor ends with whitespace is its own strip. */
  lemma StripUnchanged(s: string)
    requires s == [] || (!IsSpace(s[0]) && !IsSpace(s[|s| - 1]))
    ensures Strip(s) == s
  {
    assert Leading(s) == 0;
    assert s[0..] == s;
  }

  // ---------------------------------------------------------------------
  // search

  /** Index of the first `c` in `s`, or `|s|` when there is none. */
  function Find(s: string, c: char): (i: nat)
    ensures i <= |s| && c !in s[..i] && (i < |s| ==> s[i] == c)
  {
    if s == [] then 0
    else if s[0] == c then 0
    else
      var i := 1 + Find(s[1..], c);
      assert s[..i] == [s[0]] + s[1..][..i - 1];
      i
  }

  /** Index of the first whitespace character in `s`, or `|s|`. */
  function FindSpace(s: string): (i: nat)
    ensures i <= |s| && (i < |s| ==> IsSpace(s[i]))
    ensures forall k :: 0 <= k < i ==> !IsSpace(s[k])
  {
    if s == [] || IsSpace(s[0]) then 0 else 1 + FindSpace(s[1..])
  }

  /** `Find` stops at the first occurrence. */
  lemma {:induction false} FindPast(a: string, c: char, b: string)
    requires c !in a
    ensures Find(a + [c] + b, c) == |a|
  {
    if a != [] {
      assert (a + [c] + b)[1..] == a[1..] + [c] + b;
      FindPast(a[1..], c, b);
    }
  }

  /** `FindSpace` stops at the first whitespace. */
  lemma {:induction false} FindSpacePast(w: string, b: string)
    requires forall k :: 0 <= k < |w| ==> !IsSpace(w[k])
    requires b == [] || IsSpace(b[0])
    ensures FindSpace(w + b) == |w|
  {
    if w != [] {
      assert (w + b)[1..] == w[1..] + b;
      FindSpacePast(w[1..], b);
    }
  }

  /** Whether `pattern` occurs in `s` as a contiguous substring (Python's `in`,
      and the selection made by a `grep` whose pattern has no metacharacters). */
  predicate Contains(s: string, pattern: string)
    decreases |s|
  {
    pattern <= s || (s != [] && Contains(s[1..], pattern))
  }

  /** A text contains every text placed inside it. */
  lemma {:induction false} ContainsMiddle(a: string, p: string, b: string)
    ensures Contains(a + p + b, p)
  {
    if a == [] {
      assert a + p + b == p + b;
    } else {
      assert (a + p + b)[1..] == a[1..] + p + b;
      ContainsMiddle(a[1..], p, b);
    }
  }

  // ---------------------------------------------------------------------
  // splitting

  /** `str.splitlines()` for text whose only line boundary is `'\n'`:
      no trailing empty line, and no line at all for the empty text. */
  function Lines(s: string): (ls: seq<string>)
    ensures forall i :: 0 <= i < |ls| ==> '\n' !in ls[i]
    ensures s == [] <==> ls == []
    decreases |s|
  {
    if s == [] then []
    else
      var i := Find(s, '\n');
      if i == |s| then [s] else [s[..i]] + Lines(s[i + 1..])
  }

  /** The inverse of `Lines`: the lines joined by `'\n'`. */
  function JoinLines(ls: seq<string>): string
  {
    if ls == [] then []
    else if |ls| == 1 then ls[0]
    else ls[0] + "\n" + JoinLines(ls[1..])
  }

  /** Lines round trip: joining lines that hold no newline, the last of
      which is not empty, and splitting again gives the same lines. */
  lemma {:induction false} LinesOfJoinLines(ls: seq<string>)
    requires forall i :: 0 <= i < |ls| ==> '\n' !in ls[i]
    requires ls != [] ==> ls[|ls| - 1] != []
    ensures Lines(JoinLines(ls)) == ls
  {
    if |ls| == 1 {
      assert Find(ls[0], '\n') == |ls[0]|;
    } else if |ls| > 1 {
      var s := JoinLines(ls);
      var rest := JoinLines(ls[1..]);
      assert s == ls[0] + ("\n" + rest);
      assert s == ls[0] + ['\n'] + rest;
      FindPast(ls[0], '\n', rest);
      var i := Find(s, '\n');
      assert s[i + 1..] == rest;
      LinesOfJoinLines(ls[1..]);
    }
  }

  /** Words joined by newlines give a text that neither starts nor ends
      with whitespace. */
  lemma {:induction false} JoinedWordsEnds(ls: seq<string>)
    requires ls != [] && forall i :: 0 <= i < |ls| ==> IsWord(ls[i])
    ensures JoinLines(ls) != []
    ensures !IsSpace(JoinLines(ls)[0]) && !IsSpace(JoinLines(ls)[|JoinLines(ls)| - 1])
  {
    var first := ls[0];
    assert IsWord(first);
    if |ls| > 1 {
      JoinedWordsEnds(ls[1..]);
      var rest := JoinLines(ls[1..]);
      var s := first + "\n" + rest;
      assert JoinLines(ls) == s;
      assert s[0] == first[0];
      assert s[|s| - 1] == rest[|rest| - 1];
    } else {
      assert JoinLines(ls) == first;
      assert !IsSpace(first[|first| - 1]);
    }
  }

  /** Lines that are all words join into a text that stripping leaves alone. */
  lemma StripJoinLines(ls: seq<string>)
    requires forall i :: 0 <= i < |ls| ==> IsWord(ls[i])
    ensures Strip(JoinLines(ls)) == JoinLines(ls)
  {
    var s := JoinLines(ls);
    if ls == [] {
      StripUnchanged(s);
    } else {
      JoinedWordsEnds(ls);
      StripUnchanged(s);
    }
  }

  /** `str.split()` with no argument: the maximal runs of non-whitespace. */
  function Fields(s: string): (fs: seq<string>)
    ensures forall i :: 0 <= i < |fs| ==> IsWord(fs[i])
    ensures AllSpace(s) <==> fs == []
    decreases |s|
  {
    var t := TrimLeft(s);
    if t == [] then
      assert s[..Leading(s)] == s;
      []
    else
      var i := FindSpace(t);
      assert i > 0;
      assert IsWord(t[..i]);
      var rest := Fields(t[i..]);
      assert !AllSpace(s) by {
        assert s[Leading(s)] == t[0];
      }
      var fs := [t[..i]] + rest;
      assert forall j :: 0 < j < |fs| ==> fs[j] == rest[j - 1];
      fs
  }

  /** The inverse of `Fields`: the words joined by single spaces. */
  function Unwords(ws: seq<string>): string
  {
    if ws == [] then []
    else if |ws| == 1 then ws[0]
    else ws[0] + " " + Unwords(ws[1..])
  }

  /** Splitting a word followed by a space and more text. */
  lemma FieldsOfWordThen(w: string, rest: string)
    requires IsWord(w)
    ensures Fields(w + " " + rest) == [w] + Fields(rest)
  {
    var s := w + " " + rest;
    assert TrimLeft(s) == s;
    FindSpacePast(w, " " + rest);
    assert s == w + (" " + rest);
    var i := FindSpace(s);
    assert s[..i] == w;
    assert s[i..] == [' '] + rest;
    assert TrimLeft(s[i..]) == TrimLeft(rest);
  }

  /** Fields round trip: splitting words joined by spaces gives the words back. */
  lemma {:induction false} FieldsOfUnwords(ws: seq<string>)
    requires forall i :: 0 <= i < |ws| ==> IsWord(ws[i])
    ensures Fields(Unwords(ws)) == ws
  {
    if |ws| == 1 {
      var w := ws[0];
      assert TrimLeft(w) == w;
      FindSpacePast(w, []);
      assert w + [] == w;
      assert w[|w|..] == [];
    } else if |ws| > 1 {
      FieldsOfUnwords(ws[1..]);
      FieldsOfWordThen(ws[0], Unwords(ws[1..]));
    }
  }

  /** `str.split(sep)`: always at least one part, none containing `sep`. */
  function Split(s: string, sep: char): (parts: seq<string>)
    ensures |parts| >= 1
    ensures forall i :: 0 <= i < |parts| ==> sep !in parts[i]
    decreases |s|
  {
    var i := Find(s, sep);
    if i == |s| then [s] else [s[..i]] + Split(s[i + 1..], sep)
  }

  /** The inverse of `Split`: the parts joined by `sep`. */
  function Join(parts: seq<string>, sep: char): string
  {
    if parts == [] then []
    else if |parts| == 1 then parts[0]
    else parts[0] + [sep] + Join(parts[1..], sep)
  }

  /** Split round trip: joining the parts by the separator restores the text. */
  lemma {:induction false} JoinSplit(s: string, sep: char)
    ensures Join(Split(s, sep), sep) == s
    decreases |s|
  {
    var i := Find(s, sep);
    if i < |s| {
      var rest := s[i + 1..];
      JoinSplit(rest, sep);
      var tail := Split(rest, sep);
      assert Split(s, sep) == [s[..i]] + tail;
      if |tail| == 1 {
        assert Join(tail, sep) == tail[0];
      }
      assert Join([s[..i]] + tail, sep) == s[..i] + [sep] + Join(tail, sep) by {
        assert ([s[..i]] + tail)[1..] == tail;
      }
      assert s == s[..i] + [sep] + rest;
    }
  }

  /** Split round trip the other way: splitting parts joined by a separator
      none of them holds gives the parts back. */
  lemma {:induction false} SplitJoin(parts: seq<string>, sep: char)
    requires |parts| >= 1
    requires forall i :: 0 <= i < |parts| ==> sep !in parts[i]
    ensures Split(Join(parts, sep), sep) == parts
  {
    if |parts| == 1 {
      assert Find(parts[0], sep) == |parts[0]|;
    } else {
      var rest := Join(parts[1..], sep);
      var s := Join(parts, sep);
      assert s == parts[0] + [sep] + rest;
      FindPast(parts[0], sep, rest);
      assert s[|parts[0]| + 1..] == rest;
      assert s[..|parts[0]|] == parts[0];
      SplitJoin(parts[1..], sep);
      assert Split(s, sep) == [parts[0]] + Split(rest, sep);
      assert parts == [parts[0]] + parts[1..];
    }
  }

  // ---------------------------------------------------------------------
  // case

  /** `str.lower()` restricted to ASCII letters. */
  function Lower(s: string): (r: string)
    ensures |r| == |s|
    ensures forall k :: 0 <= k < |s| ==> r[k] == if 'A' <= s[k] <= 'Z' then (s[k] as int + 32) as char else s[k]
  {
    if s == [] then []
    else [if 'A' <= s[0] <= 'Z' then (s[0] as int + 32) as char else s[0]] + Lower(s[1..])
  }

  // ---------------------------------------------------------------------
  // decimal numbers

  predicate IsDigit(c: char)
  {
    '0' <= c <= '9'
  }

  predicate AllDigits(s: string)
  {
    forall k :: 0 <= k < |s| ==> IsDigit(s[k])
  }

  function DigitChar(d: nat): (c: char)
    requires d < 10
    ensures IsDigit(c) && c as int - '0' as int == d
  {
    ('0' as int + d) as char
  }

  /** `str(n)` for a natural number: its shortest decimal representation. */
  function Decimal(n: nat): (s: string)
    ensures s != [] && AllDigits(s)
    ensures |s| >= 2 <==> n >= 10
  {
    if n < 10 then [DigitChar(n)] else Decimal(n / 10) + [DigitChar(n % 10)]
  }

  /** `int(s)` for a string of decimal digits. */
  function ParseDigits(s: string): nat
    requires AllDigits(s)
  {
    if s == [] then 0
    else 10 * ParseDigits(s[..|s| - 1]) + (s[|s| - 1] as int - '0' as int)
  }

  /** Decimal round trip: reading back the rendering of `n` gives `n`. */
  lemma {:induction false} ParseDecimal(n: nat)
    ensures ParseDigits(Decimal(n)) == n
  {
    if n >= 10 {
      ParseDecimal(n / 10);
      var s := Decimal(n);
      assert s[..|s| - 1] == Decimal(n / 10);
    }
  }

  /** Distinct numbers render to distinct strings. */
  lemma DecimalInjective(m: nat, n: nat)
    ensures Decimal(m) == Decimal(n) <==> m == n
  {
    ParseDecimal(m);
    ParseDecimal(n);
  }
}
