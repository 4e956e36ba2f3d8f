/**
 * Reading a listing out of a chat message: the price regex
 * `\$?(\d+(?:\.\d{2})?)` on the raw message, the five lazy title patterns on
 * the lower-cased message, the word fallback and the title clean-up.
 * Prices are integer cents.
 */
module Listing {
  import opened Wrappers
  import opened Text

  /** The price used when the message holds no digit: 50.0. */
  const DefaultPriceCents: nat := 5000

  // ---------------------------------------------------------------------
  // Price

  predicate NoDigits(s: string) {
    forall i :: 0 <= i < |s| ==> !IsDigit(s[i])
  }

  /** `\$?\d` can begin at `i`: a digit, or a dollar sign followed by one. */
  predicate PriceMatchAt(s: string, i: nat) {
    i < |s| && (IsDigit(s[i]) || (s[i] == '$' && i + 1 < |s| && IsDigit(s[i + 1])))
  }

  /** `re.search`: the leftmost position at or after `i` where the price pattern matches. */
  function FirstPriceMatch(s: string, i: nat): (r: Option<nat>)
    requires i <= |s|
    ensures r.None? ==> forall k :: i <= k <= |s| ==> !PriceMatchAt(s, k)
    ensures r.Some? ==>
      && i <= r.value < |s| && PriceMatchAt(s, r.value)
      && forall k :: i <= k < r.value ==> !PriceMatchAt(s, k)
    decreases |s| - i
  {
    if PriceMatchAt(s, i) then Some(i)
    else if i == |s| then None
    else FirstPriceMatch(s, i + 1)
  }

  /** Where group 1 starts in a match found at `st`: after the dollar sign, if one was taken. */
  function PriceGroupStart(s: string, st: nat): (d: nat)
    requires PriceMatchAt(s, st)
    ensures d < |s| && IsDigit(s[d])
  {
    if s[st] == '$' then st + 1 else st
  }

  /** The greedy digit run starting at `d`: the part of group 1 before any decimals. */
  function WholeGroup(s: string, d: nat): (g: string)
    requires d < |s| && IsDigit(s[d])
    ensures g != [] && AllDigits(g)
  {
    s[d..d + DigitRun(s, d)]
  }

  /** `(?:\.\d{2})` matches at `e`. */
  predicate HasCents(s: string, e: nat) {
    e + 3 <= |s| && s[e] == '.' && IsDigit(s[e + 1]) && IsDigit(s[e + 2])
  }

  /** The two decimal digits of a match of `(?:\.\d{2})` at `e`. */
  function CentsGroup(s: string, e: nat): (g: string)
    requires HasCents(s, e)
    ensures |g| == 2 && AllDigits(g)
  {
    s[e + 1..e + 3]
  }

  /** The cents read after the digit run ending at `e`: the two decimals when present, else none. */
  function CentsAt(s: string, e: nat): nat {
    if HasCents(s, e) then DigitsValue(CentsGroup(s, e)) else 0
  }

  /** An amount of whole units and cents, in cents. */
  function Amount(whole: nat, cents: nat): nat {
    whole * 100 + cents
  }

  /** `float(group(1))` in cents: the greedy digit run, then `.` and exactly two digits if present. */
  function PriceCents(s: string, d: nat): nat
    requires d < |s| && IsDigit(s[d])
  {
    Amount(DigitsValue(WholeGroup(s, d)), CentsAt(s, d + DigitRun(s, d)))
  }

  /**
   * The listing price, in cents, read from the raw chat message: the
   * default without a digit, otherwise the amount written at the first
   * digit of the message.
   */
  function ListingPrice(message: string): (cents: nat)
    ensures NoDigits(message) ==> cents == DefaultPriceCents
    ensures forall d :: 0 <= d < |message| && IsDigit(message[d]) && NoDigits(message[..d]) ==>
      cents == PriceCents(message, d)
  {
    PriceAtFirstDigit(message);
    match FirstPriceMatch(message, 0)
    case None => DefaultPriceCents
    case Some(st) => PriceCents(message, PriceGroupStart(message, st))
  }

  /** The price group always starts at the first digit of the whole message, whatever precedes it. */
  lemma {:induction false} PriceGroupAtFirstDigit(s: string, d: nat)
    requires d < |s| && IsDigit(s[d]) && NoDigits(s[..d])
    ensures FirstPriceMatch(s, 0).Some?
    ensures PriceGroupStart(s, FirstPriceMatch(s, 0).value) == d
  {
    assert PriceMatchAt(s, d);
    var st := FirstPriceMatch(s, 0).value;
    assert st <= d;
    if st < d {
      assert s[..d][st] == s[st];
      assert !IsDigit(s[st]);
      if st + 1 < d {
        assert s[..d][st + 1] == s[st + 1];
      }
    }
  }

  lemma {:induction false} PriceAtFirstDigit(s: string)
    ensures forall d :: 0 <= d < |s| && IsDigit(s[d]) && NoDigits(s[..d]) ==>
      FirstPriceMatch(s, 0).Some? && PriceGroupStart(s, FirstPriceMatch(s, 0).value) == d
  {
    forall d | 0 <= d < |s| && IsDigit(s[d]) && NoDigits(s[..d])
      ensures FirstPriceMatch(s, 0).Some? && PriceGroupStart(s, FirstPriceMatch(s, 0).value) == d
    {
      PriceGroupAtFirstDigit(s, d);
    }
  }

  /**
   * A message whose first number is a whole amount, not followed by a point
   * and two digits, is priced at exactly that amount: "$120" as 120.0, and
   * "99.5" as 99.0 since `(?:\.\d{2})` needs two decimals.
   */
  lemma {:induction false} ListingPriceOfWhole(p: string, n: nat, t: string)
    requires NoDigits(p)
    requires t == [] || !IsDigit(t[0])
    requires !HasCents(t, 0)
    ensures ListingPrice(p + NatToString(n) + t) == n * 100
  {
    var w := NatToString(n);
    var s := p + w + t;
    var d, e := |p|, |p| + |w|;
    assert s[..d] == p;
    forall k | d <= k < e
      ensures IsDigit(s[k])
    {
      assert s[k] == w[k - d];
    }
    assert e < |s| ==> s[e] == t[0];
    DigitRunOver(s, d, |w|);
    assert s[d..e] == w;
    if e + 3 <= |s| {
      assert s[e] == t[0] && s[e + 1] == t[1] && s[e + 2] == t[2];
    }
    assert !HasCents(s, e);
    PriceGroupAtFirstDigit(s, d);
    DigitsRoundTrip(n);
  }

  /** The same with a dollar sign before the amount: "sell my bicycle for $120" is priced at 120.0. */
  lemma {:induction false} ListingPriceOfDollars(p: string, n: nat, t: string)
    requires NoDigits(p)
    requires t == [] || !IsDigit(t[0])
    requires !HasCents(t, 0)
    ensures ListingPrice(p + "$" + NatToString(n) + t) == n * 100
  {
    assert NoDigits(p + "$") by {
      forall i | 0 <= i < |p + "$"|
        ensures !IsDigit((p + "$")[i])
      {
        if i < |p| {
          assert (p + "$")[i] == p[i];
        }
      }
    }
    ListingPriceOfWhole(p + "$", n, t);
  }

  /** The pieces of `whole + "." + frac` written at `d`. */
  lemma {:induction false} DecimalPieces(s: string, d: nat, whole: string, frac: string)
    requires |frac| == 2 && AllDigits(frac)
    requires d + |whole| + 3 <= |s| && s[d..d + |whole| + 3] == whole + "." + frac
    ensures s[d..d + |whole|] == whole
    ensures HasCents(s, d + |whole|) && s[d + |whole| + 1..d + |whole| + 3] == frac
  {
    var n := |whole|;
    var u := s[d..d + n + 3];
    assert s[d..d + n] == u[..n] == whole;
    assert s[d + n] == u[n] == '.';
    assert s[d + n + 1..d + n + 3] == u[n + 1..] == frac;
    assert s[d + n + 1] == frac[0] && s[d + n + 2] == frac[1];
  }

  /** A digit run written at `d` and followed by a non-digit is the whole run. */
  lemma {:induction false} DigitRunOfWhole(s: string, d: nat, whole: string)
    requires AllDigits(whole) && d + |whole| < |s| && s[d..d + |whole|] == whole
    requires !IsDigit(s[d + |whole|])
    ensures DigitRun(s, d) == |whole|
  {
    forall k | d <= k < d + |whole|
      ensures IsDigit(s[k])
    {
      assert s[k] == s[d..d + |whole|][k - d] == whole[k - d];
    }
    DigitRunOver(s, d, |whole|);
  }

  /** The two groups read from `whole + "." + frac` written at `d`. */
  lemma {:induction false} DecimalGroups(s: string, d: nat, whole: string, frac: string)
    requires whole != [] && AllDigits(whole) && |frac| == 2 && AllDigits(frac)
    requires d + |whole| + 3 <= |s| && s[d..d + |whole| + 3] == whole + "." + frac
    ensures d < |s| && IsDigit(s[d])
    ensures DigitRun(s, d) == |whole| && WholeGroup(s, d) == whole
    ensures HasCents(s, d + |whole|) && CentsGroup(s, d + |whole|) == frac
  {
    DecimalPieces(s, d, whole, frac);
    assert s[d] == s[d..d + |whole|][0] == whole[0];
    DigitRunOfWhole(s, d, whole);
  }

  /** A number written as digits, a point and two digits is read as that many cents. */
  lemma {:induction false} PriceCentsOfDecimal(s: string, d: nat, whole: string, frac: string)
    requires whole != [] && AllDigits(whole) && |frac| == 2 && AllDigits(frac)
    requires d + |whole| + 3 <= |s| && s[d..d + |whole| + 3] == whole + "." + frac
    ensures d < |s| && IsDigit(s[d])
    ensures PriceCents(s, d) == Amount(DigitsValue(whole), DigitsValue(frac))
  {
    DecimalGroups(s, d, whole, frac);
    PriceCentsOfGroups(s, d, whole, frac);
  }

  /** The price read at `d` from its two groups. */
  lemma {:induction false} PriceCentsOfGroups(s: string, d: nat, whole: string, frac: string)
    requires d < |s| && IsDigit(s[d])
    requires DigitRun(s, d) == |whole| && WholeGroup(s, d) == whole
    requires HasCents(s, d + |whole|) && CentsGroup(s, d + |whole|) == frac
    ensures PriceCents(s, d) == Amount(DigitsValue(whole), DigitsValue(frac))
  {
    assert d + DigitRun(s, d) == d + |whole|;
    assert CentsAt(s, d + |whole|) == DigitsValue(frac);
    assert DigitsValue(WholeGroup(s, d)) == DigitsValue(whole);
  }

  /** A message whose first number is written with two decimals is priced at exactly that amount. */
  lemma {:induction false} ListingPriceOfDecimal(p: string, cents: nat, t: string)
    requires NoDigits(p)
    ensures ListingPrice(p + DecimalText(cents) + t) == cents
  {
    var whole, frac := NatToString(cents / 100), TwoDigits(cents % 100);
    var s := p + DecimalText(cents) + t;
    var d := |p|;
    assert s == p + (whole + "." + frac) + t;
    assert s[..d] == p;
    assert s[d..d + |whole| + 3] == whole + "." + frac;
    PriceCentsOfDecimal(s, d, whole, frac);
    PriceGroupAtFirstDigit(s, d);
    DigitsRoundTrip(cents / 100);
  }

  // ---------------------------------------------------------------------
  // Title

  /** The text before the lazy group in each title pattern `<prefix>(.+?) for`, tried in this order. */
  const TitlePrefixes: seq<string> := ["sell my ", "selling ", "sell ", "my ", "a "]

  const ForWord: string := " for"

  /** The first position at or after `j` where `" for"` occurs. */
  function NextFor(s: string, j: nat): (r: Option<nat>)
    requires j <= |s|
    ensures r.None? ==> forall k :: j <= k <= |s| ==> !(ForWord <= s[k..])
    ensures r.Some? ==>
      && j <= r.value <= |s| && ForWord <= s[r.value..]
      && forall k :: j <= k < r.value ==> !(ForWord <= s[k..])
    decreases |s| - j
  {
    if ForWord <= s[j..] then Some(j)
    else if j == |s| then None
    else NextFor(s, j + 1)
  }

  /**
   * Where the group of `<prefix>(.+?) for` ends for a match attempted at `st`:
   * the group takes at least one character and stops at the first `" for"`
   * after that, provided no line break comes first (`.` does not match one).
   */
  function GroupEndAt(s: string, prefix: string, st: nat): (r: Option<nat>)
    requires st <= |s|
    ensures r.Some? ==> st + |prefix| < r.value <= |s|
  {
    if prefix <= s[st..] && st + |prefix| < |s| then
      match NextFor(s, st + |prefix| + 1)
      case None => None
      case Some(e) => if '\n' in s[st + |prefix|..e] then None else Some(e)
    else None
  }

  /** `re.search`: the leftmost start at or after `i` where the title pattern matches. */
  function FirstTitleMatch(s: string, prefix: string, i: nat): (r: Option<nat>)
    requires i <= |s|
    ensures r.None? ==> forall k :: i <= k <= |s| ==> GroupEndAt(s, prefix, k).None?
    ensures r.Some? ==>
      && i <= r.value <= |s| && GroupEndAt(s, prefix, r.value).Some?
      && forall k :: i <= k < r.value ==> GroupEndAt(s, prefix, k).None?
    decreases |s| - i
  {
    if GroupEndAt(s, prefix, i).Some? then Some(i)
    else if i == |s| then None
    else
      var r := FirstTitleMatch(s, prefix, i + 1);
      // no match at `i` itself, so none from `i` up to the later one
      assert forall k :: i <= k <= i ==> GroupEndAt(s, prefix, k).None?;
      r
  }

  /** `match.group(1)` of the title pattern with the given prefix, if it matches anywhere. */
  function TitleGroup(s: string, prefix: string): (r: Option<string>)
    ensures r.Some? ==> r.value != [] && '\n' !in r.value
  {
    match FirstTitleMatch(s, prefix, 0)
    case None => None
    case Some(st) =>
      var e := GroupEndAt(s, prefix, st).value;
      Some(s[st + |prefix|..e])
  }

  /** The stripped group of the first pattern (in list order) that matches; later patterns are not tried. */
  function PatternTitle(s: string, prefixes: seq<string>): (r: Option<string>)
    ensures r.None? <==> forall k :: 0 <= k < |prefixes| ==> TitleGroup(s, prefixes[k]).None?
  {
    if prefixes == [] then None
    else match TitleGroup(s, prefixes[0])
      case Some(g) => Some(Strip(g))
      case None => PatternTitle(s, prefixes[1..])
  }

  /** The pattern at index `k` matches and none before it does. */
  predicate FirstMatchingPattern(s: string, prefixes: seq<string>, k: nat) {
    && k < |prefixes| && TitleGroup(s, prefixes[k]).Some?
    && forall j :: 0 <= j < k ==> TitleGroup(s, prefixes[j]).None?
  }

  /** The title is the stripped group of the first pattern that matches. */
  lemma {:induction false} PatternTitleOfFirst(s: string, prefixes: seq<string>, k: nat)
    requires FirstMatchingPattern(s, prefixes, k)
    ensures PatternTitle(s, prefixes) == Some(Strip(TitleGroup(s, prefixes[k]).value))
    decreases k
  {
    if k > 0 {
      assert TitleGroup(s, prefixes[0]).None?;
      var rest := prefixes[1..];
      assert rest[k - 1] == prefixes[k];
      forall j | 0 <= j < k - 1
        ensures TitleGroup(s, rest[j]).None?
      {
        assert rest[j] == prefixes[j + 1];
      }
      PatternTitleOfFirst(s, rest, k - 1);
    }
  }

  predicate IsSellWord(w: string) { w == "sell" || w == "selling" }

  /** The index of the first word that is "sell" or "selling". */
  function SellIndex(words: seq<string>): (r: Option<nat>)
    ensures r.None? <==> forall k :: 0 <= k < |words| ==> !IsSellWord(words[k])
    ensures r.Some? ==>
      && r.value < |words| && IsSellWord(words[r.value])
      && forall k :: 0 <= k < r.value ==> !IsSellWord(words[k])
  {
    if words == [] then None
    else if IsSellWord(words[0]) then Some(0)
    else match SellIndex(words[1..])
      case None => None
      case Some(k) => Some(k + 1)
  }

  /** The words `words[from:from + n]`, cut at the end of the list. */
  function Slice(words: seq<string>, from: nat, n: nat): (r: seq<string>)
    requires from <= |words|
    ensures |r| <= n && from + |r| <= |words|
    ensures forall k :: 0 <= k < |r| ==> r[k] == words[from + k]
  {
    if from + n <= |words| then words[from..from + n] else words[from..]
  }

  /**
   * When no pattern gives a title: the (up to) three words after the first
   * "sell"/"selling" of the lower-cased message, separated by single
   * spaces; else, when there is no such word or it is the last one, the
   * first 30 characters of the message as written.
   */
  function FallbackTitle(message: string): (r: string)
    ensures var ws, si := Split(Lower(message)), SellIndex(Split(Lower(message)));
      si.Some? && si.value + 1 < |ws| ==>
        Split(r) == ws[si.value + 1..if si.value + 4 <= |ws| then si.value + 4 else |ws|]
    ensures var ws, si := Split(Lower(message)), SellIndex(Split(Lower(message)));
      si.None? || si.value + 1 == |ws| ==>
        r <= message && |r| == if |message| <= 30 then |message| else 30
  {
    var words := Split(Lower(message));
    match SellIndex(words)
    case Some(i) =>
      if i + 1 < |words| then
        var next := Slice(words, i + 1, 3);
        SplitJoin(next);
        Join(next, " ")
      else Prefix(message, 30)
    case None => Prefix(message, 30)
  }

  /** The title before clean-up: the first pattern's stripped group, unless there is none or it is blank. */
  function RawTitle(message: string): string {
    match PatternTitle(Lower(message), TitlePrefixes)
    case Some(t) => if t != [] then t else FallbackTitle(message)
    case None => FallbackTitle(message)
  }

  /**
   * The three `replace` calls of the clean-up: every "my ", then every
   * "a ", then every "the " is removed as a piece of text, also inside a
   * word ("sofa and" loses the "a " of "sofa ").
   */
  function DropArticles(t: string): string {
    ReplaceAll(ReplaceAll(ReplaceAll(t, "my ", ""), "a ", ""), "the ", "")
  }

  /** A title-cased word is still a word. */
  lemma {:induction false} TitleWordsAreWords(ws: seq<string>)
    requires forall i :: 0 <= i < |ws| ==> IsWord(ws[i])
    ensures forall i :: 0 <= i < |ws| ==> IsWord(TitleWords(ws)[i])
  {
    forall i | 0 <= i < |ws|
      ensures IsWord(TitleWords(ws)[i])
    {
      TitleCaseKeepsSpaces(ws[i]);
    }
  }

  /**
   * Clean-up: drop the articles, keep the first five words, title-case.
   * The result is those words, each title-cased, separated by single
   * spaces; so it is in title case and has at most five words.
   */
  function CleanTitle(t: string): (r: string)
    ensures var ws := Split(DropArticles(t));
      Split(r) == TitleWords(Prefix(ws, 5)) && r == Join(Split(r), " ")
    ensures TitleCase(r) == r
    ensures |Split(r)| <= 5
  {
    var ws := Split(DropArticles(t));
    var kept := Prefix(ws, 5);
    var j := Join(kept, " ");
    TitleCaseJoin(kept);
    TitleWordsAreWords(kept);
    SplitJoin(TitleWords(kept));
    TitleCaseIdempotent(j);
    TitleCase(j)
  }

  /** The clean-up of a text whose articles leave at most five words: those words, title-cased. */
  lemma {:induction false} CleanTitleOfWords(t: string, ws: seq<string>)
    requires forall i :: 0 <= i < |ws| ==> IsWord(ws[i])
    requires |ws| <= 5 && DropArticles(t) == Join(ws, " ")
    ensures CleanTitle(t) == Join(TitleWords(ws), " ")
  {
    SplitJoin(ws);
  }

  /**
   * The articles go as pieces of text, not as words: an "a " inside a word
   * is dropped too, and the text around it closes up.
   */
  lemma {:induction false} DropArticlesInWord(x: string, y: string)
    requires 'm' !in x && 'm' !in y && 'a' !in x && 'a' !in y && 't' !in x && 't' !in y
    ensures DropArticles(x + "a " + y) == x + y
  {
    var t := x + "a " + y;
    assert 'm' !in t by {
      assert forall c :: c in t ==> c in x || c in y || c in "a ";
    }
    assert 't' !in x + y by {
      assert forall c :: c in x + y ==> c in x || c in y;
    }
    calc {
      DropArticles(t);
    ==
      ReplaceAll(ReplaceAll(ReplaceAll(t, "my ", ""), "a ", ""), "the ", "");
    ==  { ReplaceMissingChar(t, "my ", 0); }
      ReplaceAll(ReplaceAll(t, "a ", ""), "the ", "");
    ==  { MissingCharNoPhrase(y, "a ", 0); RemoveSoleOccurrence(x, "a ", y); }
      ReplaceAll(x + y, "the ", "");
    ==  { ReplaceMissingChar(x + y, "the ", 0); }
      x + y;
    }
  }

  /** Replacing a phrase that has a character the text lacks leaves the text alone. */
  lemma {:induction false} ReplaceMissingChar(s: string, phrase: string, k: nat)
    requires k < |phrase| && phrase[k] !in s
    ensures ReplaceAll(s, phrase, "") == s
  {
    MissingCharNoPhrase(s, phrase, k);
    ReplaceAbsent(s, phrase, "");
  }

  /** So "sofa bed" is listed as "Sofbed". */
  lemma {:induction false} CleanTitleDropsPieces(t: string)
    requires t == "sofa bed"
    ensures CleanTitle(t) == "Sofbed"
  {
    var x, y := t[..3], t[5..];
    var w := x + y;
    assert w == "sofbed" && t == x + "a " + y;
    calc {
      CleanTitle(t);
    ==  { DropArticlesInWord(x, y);
          assert Join([w], " ") == w && IsWord(w);
          CleanTitleOfWords(t, [w]); }
      Join(TitleWords([w]), " ");
    ==  { assert TitleWords([w]) == [TitleCase(w)]; }
      TitleCase(w);
    ==  { TitleCaseOfLowerWord(w); }
      [UpperChar(w[0])] + w[1..];
    ==  { assert w[1..] == "ofbed"; }
      "Sofbed";
    }
  }

  /** A phrase with a character that does not occur in the text is not a piece of it. */
  lemma {:induction false} MissingCharNoPhrase(s: string, phrase: string, k: nat)
    requires k < |phrase| && phrase[k] !in s
    ensures !Contains(s, phrase)
  {
    forall i | 0 <= i <= |s| - |phrase|
      ensures !(phrase <= s[i..])
    {
      assert s[i..][k] == s[i + k];
    }
  }

  /** The title of a product listed from a chat message: the cleaned pattern title, or the cleaned fallback. */
  function ListingTitle(message: string): (r: string)
    ensures var found := PatternTitle(Lower(message), TitlePrefixes);
      found.Some? && found.value != [] ==> r == CleanTitle(found.value)
    ensures var found := PatternTitle(Lower(message), TitlePrefixes);
      found.None? || found.value == [] ==> r == CleanTitle(FallbackTitle(message))
    ensures TitleCase(r) == r && |Split(r)| <= 5
  {
    CleanTitle(RawTitle(message))
  }

  /** The pattern loop: try each title pattern in order and stop at the first that matches. */
  method FindPatternTitle(low: string, prefixes: seq<string>) returns (found: Option<string>)
    ensures found == PatternTitle(low, prefixes)
  {
    found := None;
    var k := 0;
    while k < |prefixes|
      invariant 0 <= k <= |prefixes|
      invariant PatternTitle(low, prefixes) == PatternTitle(low, prefixes[k..])
    {
      var rest := prefixes[k..];
      assert rest[0] == prefixes[k] && rest[1..] == prefixes[k + 1..];
      var m := TitleGroup(low, prefixes[k]);
      if m.Some? {
        found := Some(Strip(m.value));
        return;
      }
      k := k + 1;
    }
  }

  /** The scan for the first "sell"/"selling" word; -1 when there is none. */
  method FindSellIndex(words: seq<string>) returns (sellIndex: int)
    ensures sellIndex == match SellIndex(words) case Some(i) => i case None => -1
  {
    sellIndex := -1;
    var i := 0;
    while i < |words|
      invariant 0 <= i <= |words|
      invariant forall j :: 0 <= j < i ==> !IsSellWord(words[j])
    {
      if words[i] == "sell" || words[i] == "selling" {
        sellIndex := i;
        assert SellIndex(words) == Some(i);
        return;
      }
      i := i + 1;
    }
  }

  /**
   * The title steps of the listing handler as written: the pattern loop,
   * then (for a missing or blank title) the word fallback, then the clean-up.
   */
  method ChatListingTitle(message: string) returns (title: string)
    ensures title == ListingTitle(message)
  {
    var low := Lower(message);
    var found := FindPatternTitle(low, TitlePrefixes);
    var raw := if found.Some? then found.value else "";
    if raw == "" {
      var words := Split(low);
      var sellIndex := FindSellIndex(words);
      if sellIndex >= 0 && sellIndex + 1 < |words| {
        raw := Join(Slice(words, sellIndex + 1, 3), " ");
      } else {
        raw := Prefix(message, 30);
      }
      assert raw == FallbackTitle(message);
    }
    assert raw == RawTitle(message);
    title := CleanTitle(raw);
  }

  predicate AllLowerLetters(w: string) {
    forall i :: 0 <= i < |w| ==> IsLower(w[i])
  }

  lemma {:induction false} TitleGroupAtStart(s: string, item: string, rest: string)
    requires item != [] && AllLowerLetters(item)
    requires s == "sell my " + item + ForWord + rest
    ensures TitleGroup(s, "sell my ") == Some(item)
  {
    var g := |"sell my "|;
    var e := g + |item|;
    assert s[0..] == s && "sell my " <= s[0..];
    assert s[e..] == ForWord + rest && ForWord <= s[e..];
    forall k | g + 1 <= k < e
      ensures !(ForWord <= s[k..])
    {
      assert s[k] == item[k - g];
    }
    assert NextFor(s, g + 1) == Some(e);
    assert s[g..e] == item;
    assert GroupEndAt(s, "sell my ", 0) == Some(e);
  }

  lemma {:induction false} LowerOfSellMy(item: string, rest: string)
    requires AllLowerLetters(item)
    ensures Lower("sell my " + item + ForWord + rest) == "sell my " + item + ForWord + Lower(rest)
  {
    var head := "sell my " + item + ForWord;
    LowerOfLowered(head);
    assert "sell my " + item + ForWord + rest == head + rest;
    assert Lower(head + rest) == Lower(head) + Lower(rest);
  }

  /** A single lower-case word passes the clean-up unchanged apart from capitalisation. */
  lemma {:induction false} CleanTitleOfWord(item: string)
    requires item != [] && AllLowerLetters(item)
    ensures CleanTitle(item) == TitleCase(item)
  {
    NoSpaceNoPhrase(item, "my ");
    NoSpaceNoPhrase(item, "a ");
    NoSpaceNoPhrase(item, "the ");
    ReplaceAbsent(item, "my ", "");
    ReplaceAbsent(item, "a ", "");
    ReplaceAbsent(item, "the ", "");
    assert IsWord(item);
    SplitJoin([item]);
    assert Join([item], " ") == item;
  }

  /** "sell my <item> for ..." with a one-word item lists the item, capitalised. */
  lemma {:induction false} ListingTitleOfSellMy(item: string, rest: string)
    requires item != [] && AllLowerLetters(item)
    ensures ListingTitle("sell my " + item + ForWord + rest) == TitleCase(item)
  {
    var m := "sell my " + item + ForWord + rest;
    LowerOfSellMy(item, rest);
    TitleGroupAtStart(Lower(m), item, Lower(rest));
    StripOfStripped(item);
    assert PatternTitle(Lower(m), TitlePrefixes) == Some(item);
    CleanTitleOfWord(item);
  }

  /** A text of lower-case letters contains no phrase that ends in a space. */
  lemma {:induction false} NoSpaceNoPhrase(w: string, phrase: string)
    requires AllLowerLetters(w) && phrase != [] && phrase[|phrase| - 1] == ' '
    ensures !Contains(w, phrase)
  {
    forall i | 0 <= i <= |w| - |phrase|
      ensures !(phrase <= w[i..])
    {
      assert w[i..][|phrase| - 1] == w[i + |phrase| - 1];
    }
  }
}
