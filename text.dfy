/**
 * Python string operations used by the chat backend, over `seq<char>`.
 * Whitespace is exactly Python's `str.isspace()` (and the regex class `\s`);
 * letters, case mapping, `\w` and `\d` are restricted to ASCII.
 */
module Text {

  /** Python's `str.isspace()`: what `split()`, `strip()` and `\s` treat as whitespace. */
  predicate IsSpace(c: char) {
    || c == ' ' || ('\t' <= c <= '\r') || ('\U{1C}' <= c <= '\U{1F}')
    || c == '\U{85}' || c == '\U{A0}' || c == '\U{1680}' || ('\U{2000}' <= c <= '\U{200A}')
    || c == '\U{2028}' || c == '\U{2029}' || c == '\U{202F}' || c == '\U{205F}' || c == '\U{3000}'
  }

  predicate IsDigit(c: char) { '0' <= c <= '9' }
  predicate IsUpper(c: char) { 'A' <= c <= 'Z' }
  predicate IsLower(c: char) { 'a' <= c <= 'z' }
  predicate IsLetter(c: char) { IsUpper(c) || IsLower(c) }

  /** The regex class `\w`, over ASCII. */
  predicate IsWordChar(c: char) { IsLetter(c) || IsDigit(c) || c == '_' }

  function LowerChar(c: char): char {
    if IsUpper(c) then (c as int + 32) as char else c
  }

  function UpperChar(c: char): char {
    if IsLower(c) then (c as int - 32) as char else c
  }

  /** `s.lower()` */
  function Lower(s: string): (r: string)
    ensures |r| == |s| && forall i :: 0 <= i < |s| ==> r[i] == LowerChar(s[i])
  {
    seq(|s|, i requires 0 <= i < |s| => LowerChar(s[i]))
  }

  predicate IsLowered(s: string) {
    forall i :: 0 <= i < |s| ==> !IsUpper(s[i])
  }

  lemma {:induction false} LowerOfLowered(s: string)
    requires IsLowered(s)
    ensures Lower(s) == s
  {
  }

  /** `k in s` for strings: `k` occurs as a contiguous piece of `s`. */
  predicate Contains(s: string, k: string) {
    exists i :: 0 <= i <= |s| - |k| && k <= s[i..]
  }

  lemma {:induction false} ContainsAt(s: string, k: string, i: nat)
    requires i + |k| <= |s| && s[i..i + |k|] == k
    ensures Contains(s, k)
  {
    assert k <= s[i..];
  }

  lemma {:induction false} ContainsSelf(s: string)
    ensures Contains(s, s)
  {
    assert s <= s[0..];
  }

  /** A piece of `t` is a piece of anything that ends with `t`. */
  lemma {:induction false} ContainsInRight(a: string, t: string, k: string)
    requires Contains(t, k)
    ensures Contains(a + t, k)
  {
    var i :| 0 <= i <= |t| - |k| && k <= t[i..];
    assert (a + t)[|a| + i..] == t[i..];
  }

  /** Whatever is put between two strings is a piece of the result. */
  lemma {:induction false} ContainsMiddle(p: string, k: string, t: string)
    ensures Contains(p + k + t, k)
  {
    assert (p + k + t)[|p|..][..|k|] == k;
  }

  /** A piece of `s` is a piece of anything that starts with `s`. */
  lemma {:induction false} ContainsInLeft(s: string, t: string, k: string)
    requires Contains(s, k)
    ensures Contains(s + t, k)
  {
    var i :| 0 <= i <= |s| - |k| && k <= s[i..];
    assert (s + t)[i..] == s[i..] + t;
  }

  /** Appending two elements one after the other appends both. */
  lemma {:induction false} AppendTwo<T>(s: seq<T>, x: T, y: T)
    ensures s + [x] + [y] == s + [x, y]
  {
    assert (s + [x] + [y])[|s| + 1] == y;
  }

  /** `s[:n]` */
  function Prefix<T>(s: seq<T>, n: nat): (r: seq<T>)
    ensures |r| <= n && r <= s
    ensures |s| <= n ==> r == s
    ensures n <= |s| ==> |r| == n
  {
    if n <= |s| then s[..n] else s
  }

  /** `s.lstrip()` */
  function TrimStart(s: string): (r: string)
    ensures |r| <= |s| && r == s[|s| - |r|..]
    ensures r == [] || !IsSpace(r[0])
    ensures forall i :: 0 <= i < |s| - |r| ==> IsSpace(s[i])
  {
    if s != [] && IsSpace(s[0]) then TrimStart(s[1..]) else s
  }

  /** `s.rstrip()` */
  function TrimEnd(s: string): (r: string)
    ensures |r| <= |s| && r == s[..|r|]
    ensures r == [] || !IsSpace(r[|r| - 1])
    ensures forall i :: |r| <= i < |s| ==> IsSpace(s[i])
  {
    if s != [] && IsSpace(s[|s| - 1]) then TrimEnd(s[..|s| - 1]) else s
  }

  /** `s.strip()` */
  function Strip(s: string): string {
    TrimEnd(TrimStart(s))
  }

  predicate AllSpace(s: string) {
    forall i :: 0 <= i < |s| ==> IsSpace(s[i])
  }

  /** `s.strip()` is empty exactly when `s` holds only whitespace. */
  lemma {:induction false} TrimStartAllSpace(s: string)
    requires AllSpace(s)
    ensures TrimStart(s) == []
  {
  }

  lemma {:induction false} StripEmptyIff(s: string)
    ensures Strip(s) == [] <==> AllSpace(s)
  {
    if AllSpace(s) {
      TrimStartAllSpace(s);
    } else {
      var j :| 0 <= j < |s| && !IsSpace(s[j]);
      var t := TrimStart(s);
      var k := j - (|s| - |t|);
      assert 0 <= k < |t| && t[k] == s[j];
    }
  }

  lemma {:induction false} StripOfStripped(s: string)
    requires s == [] || (!IsSpace(s[0]) && !IsSpace(s[|s| - 1]))
    ensures Strip(s) == s
  {
  }

  /** A token of `str.split()`: non-empty and free of whitespace. */
  predicate IsWord(w: string) {
    w != [] && forall i :: 0 <= i < |w| ==> !IsSpace(w[i])
  }

  /** Length of the leading run of non-whitespace characters. */
  function WordLen(s: string): (n: nat)
    ensures n <= |s|
    ensures forall i :: 0 <= i < n ==> !IsSpace(s[i])
    ensures n < |s| ==> IsSpace(s[n])
  {
    if s == [] || IsSpace(s[0]) then 0 else 1 + WordLen(s[1..])
  }

  /** `s.split()` with no argument: the maximal whitespace-free runs, in order. */
  function Split(s: string): (ws: seq<string>)
    ensures forall i :: 0 <= i < |ws| ==> IsWord(ws[i])
    decreases |s|
  {
    if s == [] then []
    else if IsSpace(s[0]) then Split(s[1..])
    else
      var n := WordLen(s);
      [s[..n]] + Split(s[n..])
  }

  /** `sep.join(ws)` */
  function Join(ws: seq<string>, sep: string): string {
    if |ws| == 0 then ""
    else if |ws| == 1 then ws[0]
    else ws[0] + sep + Join(ws[1..], sep)
  }

  /** Every joined element is a piece of the joined text. */
  lemma {:induction false} JoinHasEach(ws: seq<string>, sep: string, i: nat)
    requires i < |ws|
    ensures Contains(Join(ws, sep), ws[i])
    decreases |ws|
  {
    var w := ws[0];
    assert w[0..|w|] == w;
    ContainsAt(w, w, 0);
    if |ws| > 1 {
      var rest := Join(ws[1..], sep);
      assert Join(ws, sep) == w + (sep + rest);
      if i == 0 {
        ContainsInLeft(w, sep + rest, w);
      } else {
        JoinHasEach(ws[1..], sep, i - 1);
        assert ws[1..][i - 1] == ws[i];
        assert Join(ws, sep) == (w + sep) + rest;
        ContainsInRight(w + sep, rest, ws[i]);
      }
    }
  }

  /** A joined text starts with the first element. */
  lemma {:induction false} JoinStartsWithFirst(ws: seq<string>, sep: string)
    requires ws != []
    ensures ws[0] <= Join(ws, sep)
  {
    if |ws| > 1 {
      assert Join(ws, sep) == ws[0] + (sep + Join(ws[1..], sep));
    }
  }

  /** A text made of four values between five fixed pieces starts with the first piece and shows each value. */
  lemma {:induction false} TemplateShowsFour(p0: string, x1: string, p1: string, x2: string, p2: string,
                                             x3: string, p3: string, x4: string, p4: string)
    ensures var s := Join([p0, x1, p1, x2, p2, x3, p3, x4, p4], "");
      p0 <= s && Contains(s, x1) && Contains(s, x2) && Contains(s, x3) && Contains(s, x4)
  {
    var ws := [p0, x1, p1, x2, p2, x3, p3, x4, p4];
    JoinStartsWithFirst(ws, "");
    JoinHasEach(ws, "", 1);
    JoinHasEach(ws, "", 3);
    JoinHasEach(ws, "", 5);
    JoinHasEach(ws, "", 7);
  }

  lemma {:induction false} JoinEmptyIff(ws: seq<string>, sep: string)
    requires forall i :: 0 <= i < |ws| ==> ws[i] != []
    ensures Join(ws, sep) == [] <==> ws == []
  {
  }

  /** Joining two non-empty lists: the two joined texts with one separator between them. */
  lemma {:induction false} JoinAppend(a: seq<string>, b: seq<string>, sep: string)
    requires a != [] && b != []
    ensures Join(a + b, sep) == Join(a, sep) + sep + Join(b, sep)
    decreases |a|
  {
    if |a| == 1 {
      assert (a + b)[1..] == b;
    } else {
      assert (a + b)[1..] == a[1..] + b;
      JoinAppend(a[1..], b, sep);
    }
  }

  lemma {:induction false} WordLenOfWord(w: string, t: string)
    requires IsWord(w)
    requires t == [] || IsSpace(t[0])
    ensures WordLen(w + t) == |w|
    decreases |w|
  {
    if |w| > 1 {
      WordLenOfWord(w[1..], t);
      assert (w + t)[1..] == w[1..] + t;
    } else {
      assert (w + t)[1..] == t;
    }
  }

  /** Splitting the space-joined words gives the words back. */
  lemma {:induction false} SplitJoin(ws: seq<string>)
    requires forall i :: 0 <= i < |ws| ==> IsWord(ws[i])
    ensures Split(Join(ws, " ")) == ws
    decreases |ws|
  {
    if |ws| == 1 {
      var w := ws[0];
      WordLenOfWord(w, []);
      assert w + [] == w;
      assert w[|w|..] == [];
    } else if |ws| > 1 {
      var w, rest := ws[0], Join(ws[1..], " ");
      var s := w + " " + rest;
      assert Join(ws, " ") == s;
      WordLenOfWord(w, " " + rest);
      assert s == w + (" " + rest);
      assert s[..|w|] == w;
      assert s[|w|..] == " " + rest;
      assert (" " + rest)[1..] == rest;
      SplitJoin(ws[1..]);
      assert [w] + ws[1..] == ws;
    }
  }

  /** `s.replace(pat, repl)`: every non-overlapping occurrence, scanned left to right. */
  function ReplaceAll(s: string, pat: string, repl: string): string
    requires pat != []
    decreases |s|
  {
    if pat <= s then repl + ReplaceAll(s[|pat|..], pat, repl)
    else if s == [] then []
    else [s[0]] + ReplaceAll(s[1..], pat, repl)
  }

  /** Removing a pattern never lengthens the text. */
  lemma {:induction false} RemoveAllShortens(s: string, pat: string)
    requires pat != []
    ensures |ReplaceAll(s, pat, "")| <= |s|
    decreases |s|
  {
    if pat <= s {
      RemoveAllShortens(s[|pat|..], pat);
    } else if s != [] {
      RemoveAllShortens(s[1..], pat);
    }
  }

  /**
   * The first occurrence is replaced and the scan goes on after it: the text
   * before an occurrence that starts nowhere earlier is kept as it is.
   * With `ReplaceAbsent` this pins down every result of `replace`.
   */
  lemma {:induction false} ReplaceAtFirst(s: string, n: nat, pat: string, repl: string)
    requires pat != [] && n + |pat| <= |s| && s[n..n + |pat|] == pat
    requires NoMatchBefore(s, pat, n)
    ensures ReplaceAll(s, pat, repl) == s[..n] + repl + ReplaceAll(s[n + |pat|..], pat, repl)
    decreases n
  {
    var rest := ReplaceAll(s[n + |pat|..], pat, repl);
    if n == 0 {
      assert pat <= s;
      assert s[..0] + repl + rest == repl + rest;
    } else {
      var t := s[1..];
      calc {
        ReplaceAll(s, pat, repl);
        { assert !(pat <= s[0..]) && s[0..] == s; }
        [s[0]] + ReplaceAll(t, pat, repl);
        { NoMatchShift(s, pat, n);
          assert t[n - 1..n - 1 + |pat|] == s[n..n + |pat|];
          ReplaceAtFirst(t, n - 1, pat, repl); }
        [s[0]] + (t[..n - 1] + repl + ReplaceAll(t[n - 1 + |pat|..], pat, repl));
        { assert t[n - 1 + |pat|..] == s[n + |pat|..]; }
        [s[0]] + (t[..n - 1] + repl + rest);
        { assert [s[0]] + t[..n - 1] == s[..n]; }
        s[..n] + repl + rest;
      }
    }
  }

  /**
   * The one occurrence between a prefix that lacks the pattern's first
   * character and a rest without the pattern is removed, and nothing else.
   */
  lemma {:induction false} RemoveSoleOccurrence(x: string, pat: string, y: string)
    requires pat != [] && pat[0] !in x && !Contains(y, pat)
    ensures ReplaceAll(x + pat + y, pat, "") == x + y
  {
    var t := x + pat + y;
    assert NoMatchBefore(t, pat, |x|) by {
      forall i | 0 <= i < |x| && i <= |t|
        ensures !(pat <= t[i..])
      {
        assert t[i..][0] == x[i];
      }
    }
    calc {
      ReplaceAll(t, pat, "");
    ==  { assert t[|x|..|x| + |pat|] == pat; ReplaceAtFirst(t, |x|, pat, ""); }
      t[..|x|] + "" + ReplaceAll(t[|x| + |pat|..], pat, "");
    ==  { assert t[..|x|] == x && t[|x| + |pat|..] == y; }
      x + "" + ReplaceAll(y, pat, "");
    ==  { ReplaceAbsent(y, pat, ""); }
      x + "" + y;
    ==
      x + y;
    }
  }

  /** No occurrence of `pat` starts before `n`. */
  predicate NoMatchBefore(s: string, pat: string, n: nat) {
    forall i :: 0 <= i < n && i <= |s| ==> !(pat <= s[i..])
  }

  lemma {:induction false} NoMatchShift(s: string, pat: string, n: nat)
    requires 0 < n <= |s| && NoMatchBefore(s, pat, n)
    ensures NoMatchBefore(s[1..], pat, n - 1)
  {
    forall i | 0 <= i < n - 1 && i <= |s[1..]|
      ensures !(pat <= s[1..][i..])
    {
      assert s[1..][i..] == s[i + 1..];
    }
  }

  /** A pattern that does not occur leaves the text unchanged. */
  lemma {:induction false} ReplaceAbsent(s: string, pat: string, repl: string)
    requires pat != [] && !Contains(s, pat)
    ensures ReplaceAll(s, pat, repl) == s
    decreases |s|
  {
    assert s[0..] == s;
    if s != [] {
      forall i | 0 <= i <= |s[1..]| - |pat|
        ensures !(pat <= s[1..][i..])
      {
        assert s[1..][i..] == s[i + 1..];
      }
      ReplaceAbsent(s[1..], pat, repl);
      assert [s[0]] + s[1..] == s;
    }
  }

  /**
   * `s.title()`: a letter that follows a letter is lower-cased, any other
   * letter is upper-cased; everything else is kept.
   */
  function TitleCase(s: string): (r: string)
    ensures |r| == |s|
  {
    seq(|s|, i requires 0 <= i < |s| =>
      if i > 0 && IsLetter(s[i - 1]) then LowerChar(s[i]) else UpperChar(s[i]))
  }

  /** A word of lower-case letters title-cases to its first letter upper-cased. */
  lemma {:induction false} TitleCaseOfLowerWord(w: string)
    requires w != [] && forall i :: 0 <= i < |w| ==> IsLower(w[i])
    ensures TitleCase(w) == [UpperChar(w[0])] + w[1..]
  {
    var r := [UpperChar(w[0])] + w[1..];
    forall i | 0 <= i < |w|
      ensures TitleCase(w)[i] == r[i]
    {
      if i > 0 {
        assert IsLetter(w[i - 1]) && r[i] == w[i];
      }
    }
  }

  /** Title-casing an already title-cased text changes nothing. */
  lemma {:induction false} TitleCaseIdempotent(s: string)
    ensures TitleCase(TitleCase(s)) == TitleCase(s)
  {
    var t := TitleCase(s);
    forall i | 0 <= i < |s|
      ensures IsLetter(t[i]) == IsLetter(s[i])
      ensures TitleCase(t)[i] == t[i]
    {
    }
  }

  /** Title-casing works word by word across a single space. */
  lemma {:induction false} TitleCaseAroundSpace(a: string, b: string)
    ensures TitleCase(a + " " + b) == TitleCase(a) + " " + TitleCase(b)
  {
    var s, r := a + " " + b, TitleCase(a) + " " + TitleCase(b);
    forall i | 0 <= i < |s|
      ensures TitleCase(s)[i] == r[i]
    {
      if i > |a| {
        var j := i - |a| - 1;
        assert s[i] == b[j];
        if j > 0 {
          assert s[i - 1] == b[j - 1];
        }
      } else if i < |a| {
        assert s[i] == a[i];
        if i > 0 {
          assert s[i - 1] == a[i - 1];
        }
      }
    }
  }

  /** Each word title-cased on its own. */
  function TitleWords(ws: seq<string>): (ts: seq<string>)
    ensures |ts| == |ws| && forall i :: 0 <= i < |ws| ==> ts[i] == TitleCase(ws[i])
  {
    seq(|ws|, i requires 0 <= i < |ws| => TitleCase(ws[i]))
  }

  /** Title-casing space-joined words title-cases each word. */
  lemma {:induction false} TitleCaseJoin(ws: seq<string>)
    ensures TitleCase(Join(ws, " ")) == Join(TitleWords(ws), " ")
    decreases |ws|
  {
    if |ws| > 1 {
      TitleCaseAroundSpace(ws[0], Join(ws[1..], " "));
      TitleCaseJoin(ws[1..]);
      assert TitleWords(ws)[1..] == TitleWords(ws[1..]);
    }
  }

  /** Title-casing keeps every whitespace character where it was, so the words stay the same in number. */
  lemma {:induction false} TitleCaseKeepsSpaces(s: string)
    ensures forall i :: 0 <= i < |s| ==> (IsSpace(TitleCase(s)[i]) <==> IsSpace(s[i]))
  {
  }

  function DigitChar(d: nat): (c: char)
    requires d < 10
    ensures IsDigit(c)
  {
    ('0' as int + d) as char
  }

  function DigitValue(c: char): (d: nat)
    requires IsDigit(c)
    ensures d < 10 && DigitChar(d) == c
  {
    c as int - '0' as int
  }

  predicate AllDigits(s: string) {
    forall i :: 0 <= i < |s| ==> IsDigit(s[i])
  }

  /** `str(n)` for a natural number. */
  function NatToString(n: nat): (s: string)
    ensures s != [] && AllDigits(s)
  {
    if n < 10 then [DigitChar(n)] else NatToString(n / 10) + [DigitChar(n % 10)]
  }

  /** `int(s)` for a run of decimal digits (leading zeros allowed). */
  function DigitsValue(s: string): nat
    requires AllDigits(s)
  {
    if s == [] then 0 else DigitsValue(s[..|s| - 1]) * 10 + DigitValue(s[|s| - 1])
  }

  /** `int(str(n)) == n` */
  lemma {:induction false} DigitsRoundTrip(n: nat)
    ensures DigitsValue(NatToString(n)) == n
  {
    if n >= 10 {
      var s := NatToString(n);
      assert s[..|s| - 1] == NatToString(n / 10);
      DigitsRoundTrip(n / 10);
    }
  }

  function TwoDigits(n: nat): (s: string)
    requires n < 100
    ensures |s| == 2 && AllDigits(s) && DigitsValue(s) == n
  {
    var s := [DigitChar(n / 10), DigitChar(n % 10)];
    assert s[..1] == [DigitChar(n / 10)] && s[..1][..0] == [];
    assert DigitValue(s[0]) == n / 10 && DigitValue(s[1]) == n % 10;
    assert DigitsValue(s[..1]) == n / 10;
    assert DigitsValue(s) == (n / 10) * 10 + n % 10;
    s
  }

  /** Text of the form `[-]d+.dd`: an optional sign, digits, a point and two digits. */
  predicate IsDecimalText(s: string) {
    var b := if s != [] && s[0] == '-' then s[1..] else s;
    |b| >= 4 && b[|b| - 3] == '.' && AllDigits(b[..|b| - 3]) && AllDigits(b[|b| - 2..])
  }

  /** `Decimal(s)` in cents, for a text of the form `[-]d+.dd`. */
  function DecimalCents(s: string): int
    requires IsDecimalText(s)
  {
    var b := if s[0] == '-' then s[1..] else s;
    var v := DigitsValue(b[..|b| - 3]) * 100 + DigitsValue(b[|b| - 2..]);
    if s[0] == '-' then -v else v
  }

  /** The unsigned text of `a` cents reads back as `a`. */
  lemma {:induction false} UnsignedDecimal(a: nat)
    ensures var b := NatToString(a / 100) + "." + TwoDigits(a % 100);
      && b[0] != '-' && |b| >= 4 && b[|b| - 3] == '.' && AllDigits(b[..|b| - 3]) && AllDigits(b[|b| - 2..])
      && DigitsValue(b[..|b| - 3]) * 100 + DigitsValue(b[|b| - 2..]) == a
  {
    var n := NatToString(a / 100);
    var t := TwoDigits(a % 100);
    var b := n + "." + t;
    assert b[..|b| - 3] == n;
    assert b[|b| - 2..] == t;
    DigitsRoundTrip(a / 100);
  }

  /**
   * `str(Decimal)` of a two-decimal-place amount given in cents, e.g. 12000
   * as "120.00"; reading the text back as a decimal gives the amount.
   */
  function DecimalText(cents: int): (s: string)
    ensures cents >= 0 ==> s == NatToString(cents / 100) + "." + TwoDigits(cents % 100)
    ensures IsDecimalText(s) && DecimalCents(s) == cents
  {
    var a: nat := if cents < 0 then -cents else cents;
    var b := NatToString(a / 100) + "." + TwoDigits(a % 100);
    UnsignedDecimal(a);
    assert cents < 0 ==> (("-" + b)[1..] == b);
    (if cents < 0 then "-" else "") + b
  }

  /** `repr(float)` of an amount in cents: at least one and at most two decimals, e.g. 12000 as "120.0". */
  function FloatText(cents: nat): (s: string)
  {
    var f := cents % 100;
    NatToString(cents / 100) + "."
      + (if f == 0 then "0" else if f % 10 == 0 then [DigitChar(f / 10)] else TwoDigits(f))
  }

  /** Length of the run of whitespace starting at `j` (a greedy `\s*`). */
  function SpaceRun(s: string, j: nat): (n: nat)
    requires j <= |s|
    ensures j + n <= |s| && (j + n == |s| || !IsSpace(s[j + n]))
    ensures forall k :: j <= k < j + n ==> IsSpace(s[k])
    decreases |s| - j
  {
    if j < |s| && IsSpace(s[j]) then 1 + SpaceRun(s, j + 1) else 0
  }

  /** Length of the run of digits starting at `j` (a greedy `\d*`). */
  function DigitRun(s: string, j: nat): (n: nat)
    requires j <= |s|
    ensures j + n <= |s| && (j + n == |s| || !IsDigit(s[j + n]))
    ensures AllDigits(s[j..j + n])
    decreases |s| - j
  {
    if j < |s| && IsDigit(s[j]) then 1 + DigitRun(s, j + 1) else 0
  }

  lemma {:induction false} SpaceRunOver(s: string, j: nat, n: nat)
    requires j + n <= |s|
    requires forall k :: j <= k < j + n ==> IsSpace(s[k])
    requires j + n == |s| || !IsSpace(s[j + n])
    ensures SpaceRun(s, j) == n
    decreases n
  {
    if n > 0 {
      SpaceRunOver(s, j + 1, n - 1);
    }
  }

  lemma {:induction false} DigitRunOver(s: string, j: nat, n: nat)
    requires j + n <= |s|
    requires forall k :: j <= k < j + n ==> IsDigit(s[k])
    requires j + n == |s| || !IsDigit(s[j + n])
    ensures DigitRun(s, j) == n
    decreases n
  {
    if n > 0 {
      DigitRunOver(s, j + 1, n - 1);
    }
  }

  /** Two texts with whitespace at the same positions. */
  predicate SameSpaces(a: string, b: string) {
    |a| == |b| && forall i :: 0 <= i < |a| ==> (IsSpace(a[i]) <==> IsSpace(b[i]))
  }

  lemma {:induction false} WordLenSame(a: string, b: string)
    requires SameSpaces(a, b)
    ensures WordLen(a) == WordLen(b)
    decreases |a|
  {
    if a != [] && !IsSpace(a[0]) {
      WordLenSame(a[1..], b[1..]);
    }
  }

  /** Texts with whitespace at the same positions split into the same number of words. */
  lemma {:induction false} SplitSameSpaces(a: string, b: string)
    requires SameSpaces(a, b)
    ensures |Split(a)| == |Split(b)|
    decreases |a|
  {
    if a != [] {
      if IsSpace(a[0]) {
        SplitSameSpaces(a[1..], b[1..]);
      } else {
        WordLenSame(a, b);
        var n := WordLen(a);
        SplitSameSpaces(a[n..], b[n..]);
      }
    }
  }
}
