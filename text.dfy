/** The .NET string operations the core relies on, written out:
    String.Split(char), joining with a separator, StringReader.ReadLine,
    String.Trim, ordinal StartsWith, OrdinalIgnoreCase comparison and
    Int32.ToString for non-negative numbers. */
module Text {

  // ---------------------------------------------------------------------
  // Split and Join
  // ---------------------------------------------------------------------

  /** String.Split(sep): the pieces between the occurrences of sep, empty
      pieces included, so there is always at least one piece. */
  function Split(s: string, sep: char): (r: seq<string>)
    ensures |r| >= 1
    ensures forall i :: 0 <= i < |r| ==> sep !in r[i]
    decreases |s|
  {
    if s == [] then [""]
    else
      var rest := Split(s[1..], sep);
      if s[0] == sep then [""] + rest
      else [[s[0]] + rest[0]] + rest[1..]
  }

  /** The pieces glued back together with sep between neighbours; the
      empty list gives the empty string. */
  function Join(pieces: seq<string>, sep: char): (r: string)
    ensures |pieces| >= 1 ==> |pieces[0]| <= |r| && r[..|pieces[0]|] == pieces[0]
    decreases |pieces|
  {
    if pieces == [] then ""
    else if |pieces| == 1 then pieces[0]
    else pieces[0] + [sep] + Join(pieces[1..], sep)
  }

  /** Joining separator-free pieces puts the separator in exactly when
      there are two pieces or more. */
  lemma JoinSeparator(pieces: seq<string>, sep: char)
    requires forall i :: 0 <= i < |pieces| ==> sep !in pieces[i]
    ensures sep in Join(pieces, sep) <==> |pieces| >= 2
  {
    if |pieces| >= 2 {
      assert Join(pieces, sep)[|pieces[0]|] == sep;
    }
  }

  /** A string without the separator is a single piece. */
  lemma {:induction false} SplitNoSeparator(s: string, sep: char)
    requires sep !in s
    ensures Split(s, sep) == [s]
    decreases |s|
  {
    if s != [] {
      SplitNoSeparator(s[1..], sep);
      assert [s[0]] + s[1..] == s;
    }
  }

  /** The text before the first separator is the first piece. */
  lemma {:induction false} SplitAtFirst(x: string, sep: char, y: string)
    requires sep !in x
    ensures Split(x + [sep] + y, sep) == [x] + Split(y, sep)
    decreases |x|
  {
    var s := x + [sep] + y;
    if x == [] {
      assert s[1..] == y;
    } else {
      assert s[1..] == x[1..] + [sep] + y;
      SplitAtFirst(x[1..], sep, y);
      assert [s[0]] + x[1..] == x;
    }
  }

  /** Joining the pieces of a split gives the string back: nothing is
      lost or trimmed. */
  lemma {:induction false} JoinSplit(s: string, sep: char)
    ensures Join(Split(s, sep), sep) == s
    decreases |s|
  {
    if s != [] {
      var rest := Split(s[1..], sep);
      JoinSplit(s[1..], sep);
      if s[0] == sep {
        assert ([""] + rest)[1..] == rest;
      } else {
        var r := [[s[0]] + rest[0]] + rest[1..];
        if |rest| == 1 {
          assert r == [[s[0]] + s[1..]];
        } else {
          assert r[1..] == rest[1..];
          assert Join(rest, sep) == rest[0] + [sep] + Join(rest[1..], sep);
        }
      }
    }
  }

  /** Splitting a join of separator-free pieces gives the pieces back. */
  lemma {:induction false} SplitJoin(pieces: seq<string>, sep: char)
    requires |pieces| >= 1
    requires forall i :: 0 <= i < |pieces| ==> sep !in pieces[i]
    ensures Split(Join(pieces, sep), sep) == pieces
    decreases |pieces|
  {
    if |pieces| == 1 {
      SplitNoSeparator(pieces[0], sep);
    } else {
      SplitJoin(pieces[1..], sep);
      SplitAtFirst(pieces[0], sep, Join(pieces[1..], sep));
    }
  }

  /** Appending a piece adds one separator and the piece. */
  lemma {:induction false} JoinSnoc(pieces: seq<string>, sep: char, last: string)
    requires |pieces| >= 1
    ensures Join(pieces + [last], sep) == Join(pieces, sep) + [sep] + last
    decreases |pieces|
  {
    if |pieces| > 1 {
      assert (pieces + [last])[1..] == pieces[1..] + [last];
      JoinSnoc(pieces[1..], sep, last);
    }
  }

  /** Joining one more piece of a list: a separator before it unless it
      is the first. */
  lemma JoinPrefixStep(pieces: seq<string>, sep: char, i: int)
    requires 0 <= i < |pieces|
    ensures Join(pieces[..i + 1], sep) == Join(pieces[..i], sep) + (if i > 0 then [sep] else []) + pieces[i]
  {
    assert pieces[..i + 1] == pieces[..i] + [pieces[i]];
    if i > 0 {
      JoinSnoc(pieces[..i], sep, pieces[i]);
    } else {
      assert pieces[..1] == [pieces[0]];
    }
  }

  // ---------------------------------------------------------------------
  // Lines, as StringReader.ReadLine delivers them
  // ---------------------------------------------------------------------

  predicate IsLineBreak(c: char) {
    c == '\r' || c == '\n'
  }

  /** The index of the first '\r' or '\n', or |s| when there is none. */
  function LineEnd(s: string): (e: nat)
    ensures e <= |s|
    ensures forall i :: 0 <= i < e ==> !IsLineBreak(s[i])
    ensures e < |s| ==> IsLineBreak(s[e])
    decreases |s|
  {
    if s == [] || IsLineBreak(s[0]) then 0 else 1 + LineEnd(s[1..])
  }

  const LineTerminators: set<string> := {"", "\n", "\r", "\r\n"}

  /** StringReader.ReadLine on remaining input s (ReadLine returns null
      only when nothing remains): the line, without its terminator, and
      the input after the terminator. A terminator is "\r\n", "\r" or
      "\n"; only the last line may have none. */
  function ReadLine(s: string): (r: (string, string))
    requires s != []
    ensures forall i :: 0 <= i < |r.0| ==> !IsLineBreak(r.0[i])
    ensures |r.0| + |r.1| <= |s| && |r.1| < |s|
    ensures s == r.0 + s[|r.0|..|s| - |r.1|] + r.1
    ensures s[|r.0|..|s| - |r.1|] in LineTerminators
    ensures s[|r.0|..|s| - |r.1|] == "" ==> r.1 == ""
    ensures s[|r.0|..|s| - |r.1|] == "\r" ==> r.1 == "" || r.1[0] != '\n'
  {
    var e := LineEnd(s);
    if e == |s| then (s, "")
    else if s[e] == '\r' && e + 1 < |s| && s[e + 1] == '\n' then
      assert s[e..e + 2] == "\r\n";
      (s[..e], s[e + 2..])
    else
      assert s[e..e + 1] == [s[e]];
      (s[..e], s[e + 1..])
  }

  /** All the lines StringReader.ReadLine returns before it returns null. */
  function Lines(s: string): (r: seq<string>)
    ensures forall k, i :: 0 <= k < |r| && 0 <= i < |r[k]| ==> !IsLineBreak(r[k][i])
    decreases |s|
  {
    if s == [] then []
    else
      var (line, rest) := ReadLine(s);
      [line] + Lines(rest)
  }

  predicate NoLineBreak(s: string) {
    forall i :: 0 <= i < |s| ==> !IsLineBreak(s[i])
  }

  /** A line followed by a terminator is read as that line: "\n",
      "\r\n", or a "\r" that no "\n" follows. */
  lemma LinesCons(line: string, terminator: string, rest: string)
    requires NoLineBreak(line)
    requires terminator == "\n" || terminator == "\r\n"
      || (terminator == "\r" && (rest == [] || rest[0] != '\n'))
    ensures Lines(line + terminator + rest) == [line] + Lines(rest)
  {
    var s := line + terminator + rest;
    assert s[|line|] == terminator[0];
    assert forall i :: 0 <= i < |line| ==> s[i] == line[i];
    assert LineEnd(s) == |line|;
    assert s[..|line|] == line;
    var k := |terminator|;
    assert s[|line| + k..] == rest;
    assert k == 2 ==> s[|line| + 1] == '\n';
    assert terminator == "\r" && rest != [] ==> s[|line| + 1] == rest[0];
    assert ReadLine(s) == (line, rest);
  }

  /** Input without a line break is one line. */
  lemma LinesSingle(line: string)
    requires line != [] && NoLineBreak(line)
    ensures Lines(line) == [line]
  {
    assert LineEnd(line) == |line|;
  }

  // ---------------------------------------------------------------------
  // Whitespace and Trim
  // ---------------------------------------------------------------------

  /** Char.IsWhiteSpace: the separators of Unicode categories Zs, Zl and Zp
      and the controls U+0009 to U+000D and U+0085. */
  predicate IsWhiteSpace(c: char) {
    || c == ' '
    || ('\t' <= c <= '\r')
    || c == '\U{85}' || c == '\U{A0}' || c == '\U{1680}'
    || ('\U{2000}' <= c <= '\U{200A}')
    || c == '\U{2028}' || c == '\U{2029}' || c == '\U{202F}'
    || c == '\U{205F}' || c == '\U{3000}'
  }

  /** The characters the core trims: line breaks, tab and space are
      whitespace, so are NewLine and the end-of-line padding of wmic; no
      printable ASCII character is. */
  lemma WhiteSpaceClasses(c: char)
    ensures IsLineBreak(c) ==> IsWhiteSpace(c)
    ensures c == ' ' || c == '\t' ==> IsWhiteSpace(c)
    ensures '!' <= c <= '~' ==> !IsWhiteSpace(c)
    ensures AllWhiteSpace("\r\n")
  {
    assert "\r\n"[0] == '\r' && "\r\n"[1] == '\n';
  }

  predicate AllWhiteSpace(s: string) {
    forall i :: 0 <= i < |s| ==> IsWhiteSpace(s[i])
  }

  /** The index of the first non-whitespace character, |s| if there is none. */
  function FirstNonWhite(s: string): (i: nat)
    ensures i <= |s|
    ensures forall k :: 0 <= k < i ==> IsWhiteSpace(s[k])
    ensures i < |s| ==> !IsWhiteSpace(s[i])
    decreases |s|
  {
    if s == [] || !IsWhiteSpace(s[0]) then 0 else 1 + FirstNonWhite(s[1..])
  }

  /** One past the last non-whitespace character, 0 if there is none. */
  function EndNonWhite(s: string): (j: nat)
    ensures j <= |s|
    ensures forall k :: j <= k < |s| ==> IsWhiteSpace(s[k])
    ensures j > 0 ==> !IsWhiteSpace(s[j - 1])
    decreases |s|
  {
    if s == [] || !IsWhiteSpace(s[|s| - 1]) then |s| else EndNonWhite(s[..|s| - 1])
  }

  /** String.Trim(): the slice of s between its leading and its trailing
      whitespace; empty exactly when s is whitespace only. */
  function Trim(s: string): (r: string)
    ensures r == [] <==> AllWhiteSpace(s)
    ensures r != [] ==> FirstNonWhite(s) < EndNonWhite(s) && r == s[FirstNonWhite(s)..EndNonWhite(s)]
    ensures r == [] || (!IsWhiteSpace(r[0]) && !IsWhiteSpace(r[|r| - 1]))
  {
    var i := FirstNonWhite(s);
    var j := EndNonWhite(s);
    if i < |s| then
      assert i < j;
      s[i..j]
    else
      ""
  }

  /** Trim removes exactly the whitespace padding around a core that starts
      and ends with a non-whitespace character. */
  lemma TrimPadded(pre: string, core: string, post: string)
    requires AllWhiteSpace(pre) && AllWhiteSpace(post)
    requires core != [] && !IsWhiteSpace(core[0]) && !IsWhiteSpace(core[|core| - 1])
    ensures Trim(pre + core + post) == core
  {
    var s := pre + core + post;
    var i, j := FirstNonWhite(s), EndNonWhite(s);
    assert s[|pre|] == core[0];
    assert s[|pre| + |core| - 1] == core[|core| - 1];
    assert s[i..j] == core;
  }

  lemma ConcatAssoc(a: string, b: string, c: string)
    ensures a + b + c == a + (b + c)
  {
  }

  /** Whitespace appended to s does not change Trim(s). */
  lemma TrimIgnoresTrailing(s: string, post: string)
    requires AllWhiteSpace(post)
    ensures Trim(s + post) == Trim(s)
  {
    if AllWhiteSpace(s) {
      ConcatWhiteSpace(s, post);
    } else {
      var r := Trim(s);
      var pre, rest := TrimSplits(s);
      ConcatWhiteSpace(rest, post);
      AppendToLast(pre + r, rest, post, s);
      TrimPadded(pre, r, rest + post);
    }
  }

  /** Appending to a string that ends in `rest` appends to `rest`. */
  lemma AppendToLast(front: string, rest: string, post: string, s: string)
    requires s == front + rest
    ensures s + post == front + (rest + post)
  {
  }

  /** A string that is not all whitespace is its leading whitespace, its
      trimmed middle and its trailing whitespace. */
  lemma TrimSplits(s: string) returns (pre: string, rest: string)
    requires !AllWhiteSpace(s)
    ensures AllWhiteSpace(pre) && AllWhiteSpace(rest) && s == pre + Trim(s) + rest
  {
    var i, j := FirstNonWhite(s), EndNonWhite(s);
    pre, rest := s[..i], s[j..];
    assert AllWhiteSpace(pre) by {
      forall k | 0 <= k < |pre| ensures IsWhiteSpace(pre[k]) { assert pre[k] == s[k]; }
    }
    assert AllWhiteSpace(rest) by {
      forall k | 0 <= k < |rest| ensures IsWhiteSpace(rest[k]) { assert rest[k] == s[j + k]; }
    }
    assert s == pre + s[i..j] + rest;
  }

  lemma ConcatWhiteSpace(a: string, b: string)
    requires AllWhiteSpace(a) && AllWhiteSpace(b)
    ensures AllWhiteSpace(a + b)
  {
    forall k | 0 <= k < |a + b| ensures IsWhiteSpace((a + b)[k]) {
      if k < |a| { assert (a + b)[k] == a[k]; } else { assert (a + b)[k] == b[k - |a|]; }
    }
  }

  /** Trimming twice is trimming once. */
  lemma TrimIdempotent(s: string)
    ensures Trim(Trim(s)) == Trim(s)
  {
    var r := Trim(s);
    if r != [] {
      TrimPadded("", r, "");
      assert "" + r + "" == r;
    }
  }

  // ---------------------------------------------------------------------
  // Comparison
  // ---------------------------------------------------------------------

  /** String.StartsWith with ordinal, case-sensitive comparison. */
  predicate StartsWith(s: string, prefix: string) {
    |prefix| <= |s| && s[..|prefix|] == prefix
  }

  /** Upper-case mapping of OrdinalIgnoreCase, for ASCII letters. */
  function Upper(c: char): (u: char)
    ensures 'a' <= c <= 'z' ==> 'A' <= u <= 'Z' && u as int == c as int - 32
    ensures !('a' <= c <= 'z') ==> u == c
  {
    if 'a' <= c <= 'z' then (c as int - 32) as char else c
  }

  /** StringComparer.OrdinalIgnoreCase equality. */
  predicate EqualsIgnoreCase(a: string, b: string) {
    |a| == |b| && forall i :: 0 <= i < |a| ==> Upper(a[i]) == Upper(b[i])
  }

  /** Two characters that are equal, or the lower and upper case of the
      same ASCII letter. */
  predicate SameLetter(x: char, y: char) {
    || x == y
    || ('a' <= x <= 'z' && y as int == x as int - 32)
    || ('a' <= y <= 'z' && x as int == y as int - 32)
  }

  /** OrdinalIgnoreCase equality compares position by position and lets
      only the case of ASCII letters differ. */
  lemma EqualsIgnoreCaseLetters(a: string, b: string)
    ensures EqualsIgnoreCase(a, b) <==> |a| == |b| && forall i :: 0 <= i < |a| ==> SameLetter(a[i], b[i])
    ensures a == b ==> EqualsIgnoreCase(a, b)
  {
    if |a| == |b| {
      forall i | 0 <= i < |a| ensures Upper(a[i]) == Upper(b[i]) <==> SameLetter(a[i], b[i]) {
        UpperSameLetter(a[i], b[i]);
      }
    }
  }

  lemma UpperSameLetter(x: char, y: char)
    ensures Upper(x) == Upper(y) <==> SameLetter(x, y)
  {
  }

  /** StartsWith holds exactly for the strings that continue the prefix,
      compared character by character with case. */
  lemma StartsWithConcat(prefix: string, s: string, t: string)
    ensures StartsWith(prefix + t, prefix)
    ensures StartsWith(s, prefix) <==> |prefix| <= |s| && s == prefix + s[|prefix|..]
    ensures StartsWith(s, prefix) ==> forall i :: 0 <= i < |prefix| ==> s[i] == prefix[i]
  {
    assert (prefix + t)[..|prefix|] == prefix;
    if |prefix| <= |s| && s == prefix + s[|prefix|..] {
      assert s[..|prefix|] == prefix;
    }
  }

  // ---------------------------------------------------------------------
  // Int32.ToString for non-negative values
  // ---------------------------------------------------------------------

  predicate IsDigit(c: char) {
    '0' <= c <= '9'
  }

  function DigitChar(d: nat): (c: char)
    requires d < 10
    ensures IsDigit(c) && c as int - '0' as int == d
  {
    ('0' as int + d) as char
  }

  /** The decimal digits of n, most significant first, without leading zeros. */
  function NatToString(n: nat): (r: string)
    ensures |r| >= 1
    ensures forall i :: 0 <= i < |r| ==> IsDigit(r[i])
    ensures |r| > 1 ==> r[0] != '0'
    decreases n
  {
    if n < 10 then [DigitChar(n)] else NatToString(n / 10) + [DigitChar(n % 10)]
  }

  /** The number a string of decimal digits denotes. */
  function DigitsValue(s: string): nat
    requires forall i :: 0 <= i < |s| ==> IsDigit(s[i])
    decreases |s|
  {
    if s == [] then 0
    else
      assert IsDigit(s[|s| - 1]);
      DigitsValue(s[..|s| - 1]) * 10 + (s[|s| - 1] as int - '0' as int)
  }

  /** Reading back the digits gives the number. */
  lemma {:induction false} NatToStringValue(n: nat)
    ensures DigitsValue(NatToString(n)) == n
    decreases n
  {
    if n >= 10 {
      NatToStringValue(n / 10);
      var r := NatToString(n);
      assert r[..|r| - 1] == NatToString(n / 10);
    }
  }
}
