/**
 * The deterministic parts of `AIService` that classify a chat message:
 * marketplace intent by ordered keyword sets, search-keyword extraction,
 * and the `order <id>` command.
 */
module Intent {
  import opened Wrappers
  import opened Text

  datatype MarketIntent = ListIntent | BuyIntent | SearchIntent

  const ListKeywords: seq<string> := [
    "sell", "list product", "add product", "create listing", "post product",
    "list hotel", "add hotel", "want to sell", "selling my", "list my"
  ]

  const BuyKeywords: seq<string> := [
    "buy", "order", "purchase", "book hotel", "book room", "want to buy",
    "looking for", "need to buy", "ordering", "get me", "find me",
    "i want", "want a", "want an", "need a", "need an", "get a"
  ]

  const SearchKeywords: seq<string> := [
    "find", "search", "show products", "show items", "browse", "what's available",
    "see products", "list products", "marketplace", "what do you have",
    "available products", "show me", "display", "view products"
  ]

  /** Some keyword of `keys` occurs in `msg`. */
  ghost predicate Mentions(msg: string, keys: seq<string>) {
    exists k :: k in keys && Contains(msg, k)
  }

  /** `any(keyword in msg for keyword in keys)`, tried keyword by keyword. */
  function AnyKeyword(msg: string, keys: seq<string>): (b: bool)
    ensures b <==> Mentions(msg, keys)
  {
    if keys == [] then false
    else if Contains(msg, keys[0]) then true
    else
      var rest := AnyKeyword(msg, keys[1..]);
      assert forall k :: k in keys ==> k == keys[0] || k in keys[1..];
      rest
  }

  /**
   * `detect_marketplace_intent`: the tag of the first keyword set, in the
   * order list, buy, search, that has a keyword in the lower-cased message.
   */
  function DetectMarketplaceIntent(message: string): (r: Option<MarketIntent>)
    ensures r == Some(ListIntent) <==> Mentions(Lower(message), ListKeywords)
    ensures r == Some(BuyIntent) <==>
      !Mentions(Lower(message), ListKeywords) && Mentions(Lower(message), BuyKeywords)
    ensures r == Some(SearchIntent) <==>
      && !Mentions(Lower(message), ListKeywords) && !Mentions(Lower(message), BuyKeywords)
      && Mentions(Lower(message), SearchKeywords)
    ensures r == None <==>
      && !Mentions(Lower(message), ListKeywords) && !Mentions(Lower(message), BuyKeywords)
      && !Mentions(Lower(message), SearchKeywords)
  {
    var msg := Lower(message);
    if AnyKeyword(msg, ListKeywords) then Some(ListIntent)
    else if AnyKeyword(msg, BuyKeywords) then Some(BuyIntent)
    else if AnyKeyword(msg, SearchKeywords) then Some(SearchIntent)
    else None
  }

  /** A message that mentions "sell" is a listing, whatever buying words it also holds. */
  lemma {:induction false} SellOutranksBuy(message: string, i: nat)
    requires i + 4 <= |message| && Lower(message)[i..i + 4] == "sell"
    ensures DetectMarketplaceIntent(message) == Some(ListIntent)
  {
    ContainsAt(Lower(message), "sell", i);
    assert "sell" in ListKeywords;
  }

  // ---------------------------------------------------------------------
  // extract_search_keywords

  const StopWords: seq<string> := [
    "i", "want", "need", "looking", "for", "find", "search", "show", "me",
    "buy", "purchase", "order", "get", "a", "an", "the", "some", "any",
    "to", "can", "you", "help", "please", "thanks", "hello", "hi",
    "do", "have", "is", "are", "there", "what", "where", "how", "much"
  ]

  /** `re.sub(r'[^\w\s]', '', s)`: drop every character that is neither a word character nor whitespace. */
  function RemovePunctuation(s: string): (r: string)
    ensures forall i :: 0 <= i < |r| ==> (IsWordChar(r[i]) || IsSpace(r[i])) && r[i] in s
    ensures forall i :: 0 <= i < |s| && (IsWordChar(s[i]) || IsSpace(s[i])) ==> s[i] in r
    ensures (forall i :: 0 <= i < |s| ==> IsWordChar(s[i]) || IsSpace(s[i])) ==> r == s
  {
    if s == [] then []
    else
      assert forall i :: 1 <= i < |s| ==> s[i] == s[1..][i - 1];
      (if IsWordChar(s[0]) || IsSpace(s[0]) then [s[0]] else []) + RemovePunctuation(s[1..])
  }

  /** Removing punctuation works piece by piece: the kept characters keep their order. */
  lemma {:induction false} RemovePunctuationAppend(a: string, b: string)
    ensures RemovePunctuation(a + b) == RemovePunctuation(a) + RemovePunctuation(b)
    decreases |a|
  {
    if a == [] {
      assert a + b == b;
    } else {
      assert (a + b)[0] == a[0] && (a + b)[1..] == a[1..] + b;
      RemovePunctuationAppend(a[1..], b);
    }
  }

  /** A token kept by the comprehension: not a stop word and longer than two characters. */
  predicate IsKeyword(w: string) {
    w !in StopWords && |w| > 2
  }

  /** `[word for word in words if word not in stop_words and len(word) > 2]` */
  function KeepKeywords(words: seq<string>): (ks: seq<string>)
    ensures forall i :: 0 <= i < |ks| ==> IsKeyword(ks[i]) && ks[i] in words
    ensures forall i :: 0 <= i < |words| && IsKeyword(words[i]) ==> words[i] in ks
    ensures (forall i :: 0 <= i < |words| ==> IsKeyword(words[i])) ==> ks == words
  {
    if words == [] then []
    else
      assert forall i :: 1 <= i < |words| ==> words[i] == words[1..][i - 1];
      (if IsKeyword(words[0]) then [words[0]] else []) + KeepKeywords(words[1..])
  }

  /** The comprehension works token by token: the kept tokens keep their order. */
  lemma {:induction false} KeepKeywordsAppend(a: seq<string>, b: seq<string>)
    ensures KeepKeywords(a + b) == KeepKeywords(a) + KeepKeywords(b)
    decreases |a|
  {
    if a == [] {
      assert a + b == b;
    } else {
      assert (a + b)[0] == a[0] && (a + b)[1..] == a[1..] + b;
      KeepKeywordsAppend(a[1..], b);
    }
  }

  /** The surviving tokens of a message. */
  function Keywords(message: string): seq<string> {
    KeepKeywords(Split(RemovePunctuation(Lower(message))))
  }

  /** A lower-case token of word characters only. */
  predicate IsCleanWord(w: string) {
    IsWord(w) && forall i :: 0 <= i < |w| ==> IsWordChar(w[i]) && !IsUpper(w[i])
  }

  lemma {:induction false} SplitChars(s: string)
    ensures forall i, j :: 0 <= i < |Split(s)| && 0 <= j < |Split(s)[i]| ==> Split(s)[i][j] in s
    decreases |s|
  {
    if s != [] {
      SplitChars(s[1..]);
      if !IsSpace(s[0]) {
        var n := WordLen(s);
        SplitChars(s[n..]);
        forall i, j | 0 <= i < |Split(s)| && 0 <= j < |Split(s)[i]|
          ensures Split(s)[i][j] in s
        {
          if i == 0 {
            assert Split(s)[0] == s[..n];
            assert s[..n][j] == s[j];
          } else {
            assert Split(s)[i] == Split(s[n..])[i - 1];
            assert Split(s)[i][j] in s[n..];
          }
        }
      }
    }
  }

  lemma {:induction false} KeywordsAreClean(message: string)
    ensures forall i :: 0 <= i < |Keywords(message)| ==> IsCleanWord(Keywords(message)[i])
  {
    var t := RemovePunctuation(Lower(message));
    SplitChars(t);
    forall w | w in Split(t)
      ensures IsCleanWord(w)
    {
      forall j | 0 <= j < |w|
        ensures IsWordChar(w[j]) && !IsUpper(w[j])
      {
        assert w[j] in t;
        var k :| 0 <= k < |t| && t[k] == w[j];
        assert t[k] in Lower(message);
      }
    }
  }

  lemma {:induction false} JoinHead(ws: seq<string>, sep: string)
    ensures ws != [] && ws[0] != [] ==> |Join(ws, sep)| > 0 && Join(ws, sep)[0] == ws[0][0]
  {
  }

  /**
   * `extract_search_keywords`: the kept tokens joined by single spaces, or
   * the original message when no token survives.
   */
  function ExtractSearchKeywords(message: string): (r: string)
    ensures Keywords(message) == [] ==> r == message
    ensures Keywords(message) != [] ==>
      Split(r) == Keywords(message) && forall i :: 0 <= i < |Split(r)| ==> IsKeyword(Split(r)[i])
    ensures message != [] ==> r != []
  {
    var ks := Keywords(message);
    var query := Join(ks, " ");
    KeywordsAreClean(message);
    SplitJoin(ks);
    JoinHead(ks, " ");
    StripEmptyIff(query);
    if Strip(query) != [] then query else message
  }

  /** Joining clean words with spaces gives lower-case word characters and spaces only. */
  lemma {:induction false} JoinCleanChars(ks: seq<string>)
    requires forall i :: 0 <= i < |ks| ==> IsCleanWord(ks[i])
    ensures forall i :: 0 <= i < |Join(ks, " ")| ==>
      (IsWordChar(Join(ks, " ")[i]) || IsSpace(Join(ks, " ")[i])) && !IsUpper(Join(ks, " ")[i])
  {
    if |ks| > 1 {
      JoinCleanChars(ks[1..]);
      var w, rest := ks[0], Join(ks[1..], " ");
      assert Join(ks, " ") == w + " " + rest;
      forall i | 0 <= i < |Join(ks, " ")|
        ensures (IsWordChar(Join(ks, " ")[i]) || IsSpace(Join(ks, " ")[i])) && !IsUpper(Join(ks, " ")[i])
      {
        if i < |w| {
          assert Join(ks, " ")[i] == w[i];
        } else if i > |w| {
          assert Join(ks, " ")[i] == rest[i - |w| - 1];
        }
      }
    }
  }

  /** Extracting keywords from the extracted keywords changes nothing. */
  lemma {:induction false} ExtractSearchKeywordsIdempotent(message: string)
    ensures ExtractSearchKeywords(ExtractSearchKeywords(message)) == ExtractSearchKeywords(message)
  {
    var ks := Keywords(message);
    if ks != [] {
      var r := ExtractSearchKeywords(message);
      KeywordsAreClean(message);
      assert r == Join(ks, " ");
      JoinCleanChars(ks);
      LowerOfLowered(r);
      assert RemovePunctuation(Lower(r)) == r;
      SplitJoin(ks);
      assert Keywords(r) == ks;
    }
  }

  // ---------------------------------------------------------------------
  // process_order_from_chat: the pattern (?:order|buy|purchase)\s+(\d+)

  /** Length of the alternative of `(?:order|buy|purchase)` found at `i`, tried in that order. */
  function VerbAt(s: string, i: nat): (r: Option<nat>)
    requires i <= |s|
    ensures r.Some? ==> i + r.value <= |s|
  {
    if "order" <= s[i..] then Some(5)
    else if "buy" <= s[i..] then Some(3)
    else if "purchase" <= s[i..] then Some(8)
    else None
  }

  /** Where the digit group of a match at `i` would start. */
  function OrderDigitsStart(s: string, i: nat): nat
    requires i <= |s| && VerbAt(s, i).Some?
  {
    var j := i + VerbAt(s, i).value;
    j + SpaceRun(s, j)
  }

  /** The order pattern matches at `i`: a verb, at least one whitespace, at least one digit. */
  predicate OrderMatchAt(s: string, i: nat) {
    && i <= |s| && VerbAt(s, i).Some?
    && SpaceRun(s, i + VerbAt(s, i).value) > 0
    && DigitRun(s, OrderDigitsStart(s, i)) > 0
  }

  /** The digits captured by a match at `i`: `group(1)`. */
  function OrderGroupAt(s: string, i: nat): (g: string)
    requires OrderMatchAt(s, i)
    ensures g != [] && AllDigits(g)
  {
    var d := OrderDigitsStart(s, i);
    s[d..d + DigitRun(s, d)]
  }

  /** The captured id of a match at `i`: `int(group(1))`. */
  function OrderIdAt(s: string, i: nat): nat
    requires OrderMatchAt(s, i)
  {
    DigitsValue(OrderGroupAt(s, i))
  }

  /** `re.search` over positions `i..n`: the leftmost position where `at` holds. */
  function FirstMatch(at: nat -> bool, i: nat, n: nat): (r: Option<nat>)
    requires i <= n
    ensures r.None? ==> forall k :: i <= k <= n ==> !at(k)
    ensures r.Some? ==> i <= r.value <= n && at(r.value) && forall k :: i <= k < r.value ==> !at(k)
    decreases n - i
  {
    if at(i) then Some(i)
    else if i == n then None
    else FirstMatch(at, i + 1, n)
  }

  /** The positions of `s` where the order pattern matches. */
  function OrderMatches(s: string): nat -> bool {
    (k: nat) => OrderMatchAt(s, k)
  }

  /** The product id of an order command in `message`, or None when the message is not one. */
  function OrderCommand(message: string): (r: Option<nat>)
    ensures r.None? <==> forall k :: 0 <= k <= |message| ==> !OrderMatchAt(Lower(message), k)
    ensures r.Some? ==> exists k :: (0 <= k <= |message| && OrderMatchAt(Lower(message), k)
      && r.value == OrderIdAt(Lower(message), k)
      && forall k' :: 0 <= k' < k ==> !OrderMatchAt(Lower(message), k'))
  {
    var s := Lower(message);
    assert forall k: nat :: OrderMatches(s)(k) == OrderMatchAt(s, k);
    match FirstMatch(OrderMatches(s), 0, |s|)
    case None => None
    case Some(k) => Some(OrderIdAt(s, k))
  }

  lemma {:induction false} LowerDistributes(a: string, b: string)
    ensures Lower(a + b) == Lower(a) + Lower(b)
  {
  }

  /** An order text written in lower case is its own lower-cased form, apart from what follows it. */
  lemma {:induction false} LowerOfCommand(verb: string, gap: string, digits: string, rest: string)
    requires verb in ["order", "buy", "purchase"] && AllSpace(gap) && AllDigits(digits)
    ensures Lower(verb + gap + digits + rest) == verb + gap + digits + Lower(rest)
  {
    LowerOfLowered(verb + gap + digits);
    LowerDistributes(verb + gap + digits, rest);
  }

  lemma {:induction false} VerbAtStart(verb: string, u: string)
    requires verb in ["order", "buy", "purchase"]
    ensures VerbAt(verb + u, 0) == Some(|verb|)
  {
    var s := verb + u;
    assert s[0..] == s && s[..|verb|] == verb;
    if verb == "order" {
      assert "order" <= s[0..];
    } else if verb == "buy" {
      assert s[0] == 'b' && "buy" <= s[0..];
    } else {
      assert s[0] == 'p' && "purchase" <= s[0..];
    }
  }

  /** A whitespace run of exactly `gap` at `j`, when what follows it is not whitespace. */
  lemma {:induction false} SpaceRunOfGap(s: string, j: nat, gap: string, rest: string)
    requires AllSpace(gap) && (rest == [] || !IsSpace(rest[0]))
    requires j + |gap| + |rest| == |s| && s[j..] == gap + rest
    ensures SpaceRun(s, j) == |gap|
  {
    forall k | j <= k < j + |gap|
      ensures IsSpace(s[k])
    {
      assert s[k] == s[j..][k - j] == gap[k - j];
    }
    if rest != [] {
      assert s[j + |gap|] == s[j..][|gap|] == rest[0];
    }
    SpaceRunOver(s, j, |gap|);
  }

  /** A digit run of exactly `digits` at `d`, when what follows it is not a digit. */
  lemma {:induction false} DigitRunOfDigits(s: string, d: nat, digits: string, t: string)
    requires AllDigits(digits) && (t == [] || !IsDigit(t[0]))
    requires d + |digits| + |t| == |s| && s[d..] == digits + t
    ensures DigitRun(s, d) == |digits|
    ensures s[d..d + DigitRun(s, d)] == digits
  {
    forall k | d <= k < d + |digits|
      ensures IsDigit(s[k])
    {
      assert s[k] == s[d..][k - d] == digits[k - d];
    }
    if t != [] {
      assert s[d + |digits|] == s[d..][|digits|] == t[0];
    }
    DigitRunOver(s, d, |digits|);
    assert s[d..d + |digits|] == s[d..][..|digits|];
  }

  /** A verb at the start, then `n` whitespace characters and the digit run `digits`: a match at 0 whose group is `digits`. */
  lemma {:induction false} GroupAtStart(s: string, v: nat, n: nat, digits: string)
    requires VerbAt(s, 0) == Some(v)
    requires v + n <= |s| && SpaceRun(s, v) == n > 0 && DigitRun(s, v + n) == |digits| > 0
    requires s[v + n..v + n + DigitRun(s, v + n)] == digits
    ensures OrderMatchAt(s, 0)
    ensures OrderGroupAt(s, 0) == digits
  {
    assert OrderDigitsStart(s, 0) == v + n;
  }

  /** After the verb ending at `v`: the whitespace run `gap`, then the digit run `digits`. */
  lemma {:induction false} RunsAfterVerb(s: string, v: nat, gap: string, rest: string, digits: string, t: string)
    requires gap != [] && AllSpace(gap) && digits != [] && AllDigits(digits)
    requires t == [] || !IsDigit(t[0])
    requires rest == digits + t
    requires v + |gap| + |rest| == |s| && s[v..] == gap + rest
    ensures SpaceRun(s, v) == |gap|
    ensures DigitRun(s, v + |gap|) == |digits|
    ensures s[v + |gap|..v + |gap| + DigitRun(s, v + |gap|)] == digits
  {
    assert rest[0] == digits[0];
    SpaceRunOfGap(s, v, gap, rest);
    assert s[v + |gap|..] == s[v..][|gap|..];
    DigitRunOfDigits(s, v + |gap|, digits, t);
  }

  /** A verb at the start, then the whitespace run `gap` and the digit run `digits`: a match at 0 carrying those digits. */
  lemma {:induction false} MatchAtStart(s: string, v: nat, gap: string, rest: string, digits: string, t: string)
    requires VerbAt(s, 0) == Some(v)
    requires gap != [] && AllSpace(gap) && digits != [] && AllDigits(digits)
    requires t == [] || !IsDigit(t[0])
    requires rest == digits + t
    requires v + |gap| + |rest| == |s| && s[v..] == gap + rest
    ensures OrderMatchAt(s, 0)
    ensures OrderGroupAt(s, 0) == digits
  {
    RunsAfterVerb(s, v, gap, rest, digits, t);
    GroupAtStart(s, v, |gap|, digits);
  }

  /** A command written in lower case is matched at its start and yields its digits' value. */
  lemma {:induction false} StartMatch(verb: string, gap: string, digits: string, t: string)
    requires verb in ["order", "buy", "purchase"]
    requires gap != [] && AllSpace(gap) && digits != [] && AllDigits(digits)
    requires t == [] || !IsDigit(t[0])
    ensures FirstMatch(OrderMatches(verb + gap + digits + t), 0, |verb + gap + digits + t|) == Some(0)
    ensures OrderGroupAt(verb + gap + digits + t, 0) == digits
  {
    var rest := digits + t;
    var s := verb + gap + digits + t;
    assert s == verb + (gap + rest);
    VerbAtStart(verb, gap + rest);
    assert s[|verb|..] == gap + rest;
    MatchAtStart(s, |verb|, gap, rest, digits, t);
    assert OrderMatches(s)(0);
  }

  /**
   * "order 17", "buy 17" and "purchase 17" carry the id 17, whatever
   * follows that is not another digit.
   */
  lemma {:induction false} OrderCommandOfVerb(verb: string, gap: string, id: nat, rest: string)
    requires verb in ["order", "buy", "purchase"]
    requires gap != [] && AllSpace(gap)
    requires rest == [] || !IsDigit(rest[0])
    ensures OrderCommand(verb + gap + NatToString(id) + rest) == Some(id)
  {
    var digits := NatToString(id);
    LowerOfCommand(verb, gap, digits, rest);
    var t := Lower(rest);
    assert t == [] || !IsDigit(t[0]);
    StartMatch(verb, gap, digits, t);
    DigitsRoundTrip(id);
  }
}
