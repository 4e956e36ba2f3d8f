/**
 * The chat endpoints: starting a session with one of the three AI friends,
 * the `send_message` dispatch (order command, listing, marketplace search,
 * web fallback, conversation), the marketplace results shown in the chat,
 * and the stand-alone place search.
 *
 * The sessions and messages tables are the fields of `ChatDb`; the
 * marketplace tables are a `Marketplace`. The search API, the language
 * model and the user's stored preference graph are parameters.
 */
module Chat {
  import opened Wrappers
  import opened Text
  import opened Intent
  import opened Listing
  import opened Catalog
  import opened Market
  import opened WebSearch
  import opened Prompt

  /** The error responses of the chat endpoints. */
  datatype ChatError =
    | InvalidPersona    // 400 "Invalid AI friend type"
    | SessionNotFound   // 404: no such session, or another user's
    | ContentRequired   // 400 "Message content is required"
    | QueryRequired     // 400 "Search query is required"

  datatype Reply<+T> = Ok(value: T) | Err(error: ChatError)

  // ---------------------------------------------------------------------
  // Personas and sessions

  const Personas: seq<string> := ["foodie", "travel", "shopping"]

  predicate IsPersona(persona: string) {
    persona in Personas
  }

  /** The title a new session gets: `f'Chat with {persona.title()} Friend'`. */
  function SessionTitle(persona: string): string {
    "Chat with " + TitleCase(persona) + " Friend"
  }

  /**
   * The title of a persona written as one lower-case word: that word with
   * its first letter capitalised, so "foodie" gives "Chat with Foodie Friend".
   */
  lemma {:induction false} SessionTitleOfWord(persona: string)
    requires persona != [] && forall i :: 0 <= i < |persona| ==> IsLower(persona[i])
    ensures SessionTitle(persona) == "Chat with " + [UpperChar(persona[0])] + persona[1..] + " Friend"
  {
    TitleCaseOfLowerWord(persona);
  }

  datatype Session = Session(owner: string, persona: string, title: string)

  /** `id` names a session of the user `username`: what `get_object_or_404(ChatSession, id=..., user=...)` finds. */
  predicate Owns(sessions: map<nat, Session>, id: nat, username: string) {
    id in sessions && sessions[id].owner == username
  }

  // ---------------------------------------------------------------------
  // Messages

  /** A marketplace item as the product list returns it; the list view carries no description. */
  datatype MarketItem = MarketItem(id: nat, title: string, price: string, seller: string, description: Option<string>)

  /** What is stored with an AI message besides its text. */
  datatype Metadata =
    | NoMetadata
    | OrderProcessed
    | ProductListed(productId: nat)
    | MarketplaceResults(items: seq<MarketItem>)
    | SearchMeta(response: SearchResponse)

  datatype Message = Message(sessionId: nat, content: string, fromUser: bool, metadata: Metadata)

  /** The session's messages in the order they were stored, as history turns. */
  function TurnsOf(messages: seq<Message>, sessionId: nat): (turns: seq<Turn>)
    ensures |turns| <= |messages|
  {
    if messages == [] then []
    else
      var last := messages[|messages| - 1];
      TurnsOf(messages[..|messages| - 1], sessionId)
        + (if last.sessionId == sessionId then [Turn(last.fromUser, last.content)] else [])
  }

  /**
   * The history read right after the user's message is stored ends with
   * that message, so the model sees it both as the last turn and as the
   * current message.
   */
  lemma {:induction false} HistoryEndsWithMessage(messages: seq<Message>, m: Message)
    ensures var turns := TurnsOf(messages + [m], m.sessionId);
      |turns| == |TurnsOf(messages, m.sessionId)| + 1 && turns[|turns| - 1] == Turn(m.fromUser, m.content)
  {
    assert (messages + [m])[..|messages|] == messages;
  }

  /** Messages of other sessions never enter a session's history. */
  lemma {:induction false} OtherSessionsIgnored(messages: seq<Message>, others: seq<Message>, sessionId: nat)
    requires forall i :: 0 <= i < |others| ==> others[i].sessionId != sessionId
    ensures TurnsOf(messages + others, sessionId) == TurnsOf(messages, sessionId)
    decreases |others|
  {
    if others != [] {
      var all := messages + others;
      var front := others[..|others| - 1];
      assert all[..|all| - 1] == messages + front;
      assert all[|all| - 1] == others[|others| - 1];
      assert others[|others| - 1].sessionId != sessionId;
      assert TurnsOf(all, sessionId) == TurnsOf(messages + front, sessionId);
      OtherSessionsIgnored(messages, front, sessionId);
    } else {
      assert messages + others == messages;
    }
  }

  // ---------------------------------------------------------------------
  // format_marketplace_results_for_chat

  const NoItemsText: string := "No products or hotels found in our marketplace."
  const NoDescriptionText: string := "No description available"

  /** How many items the chat shows. */
  const EntryLimit: nat := 5

  /** How much of a description an entry shows. */
  const DescriptionLimit: nat := 100

  const OrderHint: string :=
    "\n\n\U{1F4A1} **To place an order**, reply with: 'order [product_id]' or 'buy [product_id]'"
    + "\n\U{1F4F1} **To view in app**, go to Marketplace section"

  /** The entry of the `n`-th item: title and price, description, seller, id. */
  function Entry(n: nat, item: MarketItem): string {
    "\U{1F6CD}\U{FE0F} " + NatToString(n) + ". **" + item.title + "** - $" + item.price + "\n"
    + "   \U{1F4DD} " + Prefix(item.description.GetOr(NoDescriptionText), DescriptionLimit) + "...\n"
    + "   \U{1F464} Seller: " + item.seller + "\n"
    + "   \U{1F194} Product ID: " + NatToString(item.id)
  }

  /** The entries of `items`, numbered from 1. */
  function Entries(items: seq<MarketItem>): (es: seq<string>) {
    seq(|items|, i requires 0 <= i < |items| => Entry(i + 1, items[i]))
  }

  /** The chat text for a list of items: a fixed text when empty, else the first five entries and the ordering hint. */
  function FormatResults(items: seq<MarketItem>): string {
    if items == [] then NoItemsText
    else Join(Entries(Prefix(items, EntryLimit)), "\n\n") + OrderHint
  }

  /** The loop of `format_marketplace_results_for_chat`. */
  method FormatMarketplaceResults(items: seq<MarketItem>) returns (text: string)
    ensures text == FormatResults(items)
  {
    if items == [] {
      return NoItemsText;
    }
    var top := Prefix(items, EntryLimit);
    var lines: seq<string> := [];
    var i := 0;
    while i < |top|
      invariant 0 <= i <= |top|
      invariant |lines| == i
      invariant forall j :: 0 <= j < i ==> lines[j] == Entry(j + 1, top[j])
    {
      lines := lines + [Entry(i + 1, top[i])];
      i := i + 1;
    }
    assert lines == Entries(top);
    text := Join(lines, "\n\n") + OrderHint;
  }

  /**
   * A non-empty list shows each of its first five items under its number
   * and ends with the ordering hint.
   */
  lemma {:induction false} FormatShowsFirstFive(items: seq<MarketItem>)
    requires items != []
    ensures var text := FormatResults(items);
      && |OrderHint| <= |text| && text[|text| - |OrderHint|..] == OrderHint
      && forall i :: 0 <= i < |items| && i < EntryLimit ==> Contains(text, Entry(i + 1, items[i]))
  {
    var body := Join(Entries(Prefix(items, EntryLimit)), "\n\n");
    assert FormatResults(items) == body + OrderHint;
    assert (body + OrderHint)[|body|..] == OrderHint;
    forall i | 0 <= i < |items| && i < EntryLimit
      ensures Contains(FormatResults(items), Entry(i + 1, items[i]))
    {
      FormatShowsEntry(items, i);
    }
  }

  lemma {:induction false} FormatShowsEntry(items: seq<MarketItem>, i: nat)
    requires i < |items| && i < EntryLimit
    ensures Contains(FormatResults(items), Entry(i + 1, items[i]))
  {
    var es := Entries(Prefix(items, EntryLimit));
    var body := Join(es, "\n\n");
    assert es[i] == Entry(i + 1, items[i]);
    JoinHasEach(es, "\n\n", i);
    ContainsInLeft(body, OrderHint, es[i]);
  }

  /** Items after the fifth never change the text. */
  lemma {:induction false} FormatIgnoresRest(items: seq<MarketItem>, extra: seq<MarketItem>)
    requires |items| >= EntryLimit
    ensures FormatResults(items + extra) == FormatResults(items)
  {
    assert Prefix(items + extra, EntryLimit) == Prefix(items, EntryLimit);
  }

  /** A product as the product list serializes it: the price as a decimal string, no description. */
  function ItemOf(p: Product): MarketItem {
    MarketItem(p.id, p.title, DecimalText(p.price), p.seller, None)
  }

  /** Since the list carries no description, every entry says there is none. */
  lemma {:induction false} EntryOfProduct(n: nat, p: Product)
    ensures Entry(n, ItemOf(p)) ==
      "\U{1F6CD}\U{FE0F} " + NatToString(n) + ". **" + p.title + "** - $" + DecimalText(p.price) + "\n"
      + "   \U{1F4DD} " + NoDescriptionText + "...\n"
      + "   \U{1F464} Seller: " + p.seller + "\n"
      + "   \U{1F194} Product ID: " + NatToString(p.id)
  {
  }

  /**
   * The marketplace items a buy or search message gets: the product list
   * searched for the message's keywords, newest first. Each is an available
   * product matching every keyword, and no such product is missing.
   */
  function MarketItems(products: map<nat, Product>, bound: nat, content: string): (items: seq<MarketItem>)
    requires IdsConsistent(products)
    ensures forall i :: 0 <= i < |items| ==>
      var id := items[i].id;
      && id in products && items[i] == ItemOf(products[id]) && products[id].available
      && MatchesTerms(products[id], SearchTerms(ExtractSearchKeywords(content)))
    ensures forall k :: (k in products && k < bound && products[k].available
      && MatchesTerms(products[k], SearchTerms(ExtractSearchKeywords(content)))) ==> ItemOf(products[k]) in items
    ensures forall i, j :: 0 <= i < j < |items| ==> items[i].id > items[j].id
  {
    var keywords := ExtractSearchKeywords(content);
    ListedItems(products, bound, keywords);
    ItemsOf(ListProducts(products, bound, keywords))
  }

  /** The serialized product list holds exactly the listed products. */
  lemma {:induction false} ListedItems(products: map<nat, Product>, bound: nat, search: string)
    requires IdsConsistent(products)
    ensures var items := ItemsOf(ListProducts(products, bound, search));
      && (forall i :: 0 <= i < |items| ==>
        var id := items[i].id;
        && id in products && items[i] == ItemOf(products[id]) && products[id].available
        && MatchesTerms(products[id], SearchTerms(search)))
      && (forall k :: (k in products && k < bound && products[k].available
        && MatchesTerms(products[k], SearchTerms(search))) ==> ItemOf(products[k]) in items)
      && (forall i, j :: 0 <= i < j < |items| ==> items[i].id > items[j].id)
  {
    var found := ListProducts(products, bound, search);
    var items := ItemsOf(found);
    ItemsOfAll(found);
    forall i | 0 <= i < |items|
      ensures items[i].id == found[i].id && items[i] == ItemOf(products[found[i].id])
    {
    }
  }

  /** The list serialization of each product, in order. */
  function ItemsOf(ps: seq<Product>): (items: seq<MarketItem>)
    ensures |items| == |ps|
    ensures forall i :: 0 <= i < |ps| ==> items[i] == ItemOf(ps[i])
  {
    seq(|ps|, i requires 0 <= i < |ps| => ItemOf(ps[i]))
  }

  lemma {:induction false} ItemsOfAll(ps: seq<Product>)
    ensures forall p :: p in ps ==> ItemOf(p) in ItemsOf(ps)
  {
    forall p | p in ps
      ensures ItemOf(p) in ItemsOf(ps)
    {
      var j :| 0 <= j < |ps| && ps[j] == p;
      assert ItemsOf(ps)[j] == ItemOf(p);
    }
  }

  // ---------------------------------------------------------------------
  // Web results in a reply

  /** How many web results a reply lists. */
  const WebShown: nat := 3

  /** `f"- {title}: {snippet}\n"` */
  function WebLine(r: WebResult): string {
    "- " + r.title + ": " + r.snippet + "\n"
  }

  function Lines(rs: seq<WebResult>): string {
    if rs == [] then "" else WebLine(rs[0]) + Lines(rs[1..])
  }

  lemma {:induction false} LinesSnoc(rs: seq<WebResult>, r: WebResult)
    ensures Lines(rs + [r]) == Lines(rs) + WebLine(r)
    decreases |rs|
  {
    if rs == [] {
      assert [r][1..] == [];
    } else {
      assert (rs + [r])[1..] == rs[1..] + [r];
      LinesSnoc(rs[1..], r);
    }
  }

  lemma {:induction false} LinesShowEach(rs: seq<WebResult>, i: nat)
    requires i < |rs|
    ensures Contains(Lines(rs), WebLine(rs[i]))
    decreases |rs|
  {
    var w := WebLine(rs[0]);
    if i == 0 {
      assert w[0..|w|] == w;
      ContainsAt(w, w, 0);
      ContainsInLeft(w, Lines(rs[1..]), w);
    } else {
      LinesShowEach(rs[1..], i - 1);
      assert rs[1..][i - 1] == rs[i];
      ContainsInRight(w, Lines(rs[1..]), WebLine(rs[i]));
    }
  }

  /** The lines of the first three results. */
  function WebLines(rs: seq<WebResult>): string {
    Lines(Prefix(rs, WebShown))
  }

  /** Each of the first three results has its line in the reply. */
  lemma {:induction false} WebLinesShowFirstThree(rs: seq<WebResult>)
    ensures forall i :: 0 <= i < |rs| && i < WebShown ==> Contains(WebLines(rs), WebLine(rs[i]))
  {
    forall i | 0 <= i < |rs| && i < WebShown
      ensures Contains(WebLines(rs), WebLine(rs[i]))
    {
      LinesShowEach(Prefix(rs, WebShown), i);
    }
  }

  /** Results after the third never change the reply. */
  lemma {:induction false} WebLinesIgnoreRest(rs: seq<WebResult>, extra: seq<WebResult>)
    requires |rs| >= WebShown
    ensures WebLines(rs + extra) == WebLines(rs)
  {
    assert Prefix(rs + extra, WebShown) == Prefix(rs, WebShown);
  }

  /** The `for result in results[:3]` loop appending one line per result to `text`. */
  method AppendWebLines(text: string, rs: seq<WebResult>) returns (out: string)
    ensures out == text + WebLines(rs)
  {
    var top := Prefix(rs, WebShown);
    out := text;
    var i := 0;
    while i < |top|
      invariant 0 <= i <= |top|
      invariant out == text + Lines(top[..i])
    {
      LinesSnoc(top[..i], top[i]);
      assert top[..i + 1] == top[..i] + [top[i]];
      out := out + WebLine(top[i]);
      i := i + 1;
    }
    assert top[..i] == top;
  }

  // ---------------------------------------------------------------------
  // Reply texts

  const MarketHeader: string := "Here are some items from our marketplace:\n\n"
  const MarketFooter: string :=
    "\n\nIf you don't find what you want, reply with 'none' or 'not found' to search the web."
  const WebFallbackHeader: string := "No items found in our marketplace. Here are some results from the web:\n\n"
  const NothingFoundText: string := "Sorry, no relevant items found."
  const WebHeader: string := "Here are some results from the web:\n\n"
  const NothingOnlineText: string := "Sorry, no relevant items found online."
  const SearchResultsLabel: string := "\n\nSearch results:\n"

  /** A reply built from a web search: the header and the result lines, or the fallback when the search failed. */
  function WebReply(header: string, fallback: string, resp: SearchResponse): string {
    match resp
    case Found(results, _) => header + WebLines(results)
    case SearchError(_) => fallback
  }

  method WebReplyText(header: string, fallback: string, resp: SearchResponse) returns (text: string)
    ensures text == WebReply(header, fallback, resp)
  {
    match resp
    case Found(results, _) =>
      text := AppendWebLines(header, results);
    case SearchError(_) =>
      text := fallback;
  }

  /**
   * The confirmation of a listing: it shows the title, the price written as
   * the float it was parsed into, and the description.
   */
  function ListingReply(title: string, priceCents: nat, description: string): (r: string)
    ensures Contains(r, title) && Contains(r, FloatText(priceCents)) && Contains(r, description)
  {
    var parts := ["Your product '", title, "' has been listed in the marketplace!\n\nDetails:\nTitle: ", title,
                  "\nPrice: $", FloatText(priceCents), "\nDescription: ", description, ""];
    TemplateShowsFour(parts[0], parts[1], parts[2], parts[3], parts[4], parts[5], parts[6], parts[7], parts[8]);
    assert parts == [parts[0], parts[1], parts[2], parts[3], parts[4], parts[5], parts[6], parts[7], parts[8]];
    Join(parts, "")
  }

  // ---------------------------------------------------------------------
  // The dispatch of send_message

  const NegationWords: seq<string> := ["none", "not found", "no", "nope"]

  /** The user turned the marketplace results down. */
  predicate IsNegation(content: string) {
    Lower(Strip(content)) in NegationWords
  }

  /** The branch of `send_message` a message takes. */
  datatype Route =
    | OrderRoute(productId: nat)
    | ListRoute
    | MarketRoute(intent: MarketIntent)
    | NegationRoute
    | ConversationRoute

  /**
   * The branches in priority order: an order command, then a listing,
   * then a buy or search request, then a negation, then conversation.
   */
  function RouteOf(content: string): (r: Route)
    ensures r.OrderRoute? <==> OrderCommand(content).Some?
    ensures r.OrderRoute? ==> r.productId == OrderCommand(content).value
    ensures r == ListRoute <==>
      OrderCommand(content).None? && Mentions(Lower(content), ListKeywords)
    ensures r.MarketRoute? <==>
      && OrderCommand(content).None? && !Mentions(Lower(content), ListKeywords)
      && (Mentions(Lower(content), BuyKeywords) || Mentions(Lower(content), SearchKeywords))
    ensures r.MarketRoute? ==> (r.intent == BuyIntent <==> Mentions(Lower(content), BuyKeywords))
    ensures r == NegationRoute <==>
      && OrderCommand(content).None? && DetectMarketplaceIntent(content).None? && IsNegation(content)
    ensures r == ConversationRoute <==>
      && OrderCommand(content).None? && DetectMarketplaceIntent(content).None? && !IsNegation(content)
  {
    match OrderCommand(content)
    case Some(id) => OrderRoute(id)
    case None =>
      match DetectMarketplaceIntent(content)
      case Some(ListIntent) => ListRoute
      case Some(intent) => MarketRoute(intent)
      case None => if IsNegation(content) then NegationRoute else ConversationRoute
  }

  /** An order command wins over every keyword, the buying word it starts with included. */
  lemma {:induction false} OrderCommandWins(verb: string, gap: string, id: nat, rest: string)
    requires verb in ["order", "buy", "purchase"]
    requires gap != [] && AllSpace(gap)
    requires rest == [] || !IsDigit(rest[0])
    ensures RouteOf(verb + gap + NatToString(id) + rest) == OrderRoute(id)
  {
    OrderCommandOfVerb(verb, gap, id, rest);
  }

  /** The order pattern needs a digit, so it matches nowhere in a text without one. */
  lemma {:induction false} NoOrderMatchWithoutDigits(s: string, k: nat)
    requires NoDigits(s)
    ensures !OrderMatchAt(s, k)
  {
    if k <= |s| && VerbAt(s, k).Some? {
      var d := OrderDigitsStart(s, k);
      if d < |s| {
        assert !IsDigit(s[d]);
      }
    }
  }

  /** A message without digits is never an order command. */
  lemma {:induction false} NoDigitsNoOrder(content: string)
    requires NoDigits(content)
    ensures OrderCommand(content).None?
  {
    var s := Lower(content);
    assert NoDigits(s) by {
      forall i | 0 <= i < |s|
        ensures !IsDigit(s[i])
      {
        assert s[i] == LowerChar(content[i]);
      }
    }
    forall k | 0 <= k <= |content|
      ensures !OrderMatchAt(s, k)
    {
      NoOrderMatchWithoutDigits(s, k);
    }
  }

  /** A character of a piece is a character of the whole. */
  lemma {:induction false} ContainedChar(s: string, k: string, j: nat)
    requires Contains(s, k) && j < |k|
    ensures k[j] in s
  {
    var i :| 0 <= i <= |s| - |k| && k <= s[i..];
    assert s[i + j] == k[j];
  }

  /**
   * `marks[n]` is the position in `keys[n]` of a character from `letters`,
   * and `s` has none of those letters, so `s` mentions none of the keys.
   */
  lemma {:induction false} NotMentioned(s: string, keys: seq<string>, marks: seq<nat>, letters: set<char>)
    requires |marks| == |keys|
    requires forall n :: 0 <= n < |keys| ==> marks[n] < |keys[n]| && keys[n][marks[n]] in letters
    requires forall i :: 0 <= i < |s| ==> s[i] !in letters
    ensures !Mentions(s, keys)
  {
    forall k | k in keys
      ensures !Contains(s, k)
    {
      var n :| 0 <= n < |keys| && keys[n] == k;
      if Contains(s, k) {
        ContainedChar(s, k, marks[n]);
      }
    }
  }

  /** Letters of which every marketplace keyword has one and no negation word has any. */
  const KeywordLetters: set<char> := {'a', 'b', 'c', 'g', 'i', 'l', 'm', 'r', 's', 'v', 'w'}

  /** A text without those letters mentions no marketplace keyword. */
  lemma {:induction false} NoKeywordLetters(s: string)
    requires forall i :: 0 <= i < |s| ==> s[i] !in KeywordLetters
    ensures !Mentions(s, ListKeywords) && !Mentions(s, BuyKeywords) && !Mentions(s, SearchKeywords)
  {
    NotMentioned(s, ListKeywords, [0, 0, 0, 0, 2, 0, 0, 0, 0, 0], KeywordLetters);
    NotMentioned(s, BuyKeywords, [0, 1, 2, 0, 0, 0, 0, 8, 1, 0, 1, 0, 0, 0, 5, 5, 0], KeywordLetters);
    NotMentioned(s, SearchKeywords, [1, 0, 0, 0, 0, 0, 0, 0, 0, 0, 0, 0, 1, 0], KeywordLetters);
  }

  /** A lower-case, stripped negation word without digits or keyword letters reaches the web search. */
  lemma {:induction false} QuietNegationRoute(w: string)
    requires w in NegationWords && NoDigits(w) && Lower(w) == w
    requires w != [] && !IsSpace(w[0]) && !IsSpace(w[|w| - 1])
    requires forall i :: 0 <= i < |w| ==> w[i] !in KeywordLetters
    ensures RouteOf(w) == NegationRoute
  {
    NoDigitsNoOrder(w);
    StripOfStripped(w);
    NoKeywordLetters(w);
  }

  /** "none", "not found", "no" and "nope" send the user to the web search. */
  lemma {:induction false} NegationWordsSearchWeb(w: string)
    requires w in NegationWords
    ensures RouteOf(w) == NegationRoute
  {
    assert Lower(w) == w;
    QuietNegationRoute(w);
  }

  // ---------------------------------------------------------------------
  // The conversational branch

  const TriggerWords: seq<string> := [
    "find", "search", "recommend", "suggest", "where", "hotel", "restaurant",
    "buy", "purchase", "order", "shop", "product"
  ]
  const StayWords: seq<string> := ["hotel", "accommodation", "stay"]
  const FoodWords: seq<string> := ["restaurant", "food", "eat", "dining"]
  const SightWords: seq<string> := ["attraction", "visit", "see", "tourist"]
  const ShopWords: seq<string> := ["buy", "purchase", "order", "shop", "product", "price"]

  /**
   * The kind of web search a conversational message asks for, if any: a
   * trigger word starts a search, and its kind is the first of hotels,
   * restaurants, attractions and products whose words the message has,
   * products also for the shopping persona, else a general search.
   */
  function SearchTypeFor(content: string, persona: string): (t: Option<string>)
    ensures t.Some? <==> Mentions(Lower(content), TriggerWords)
    ensures t.Some? ==> (t.value == "hotels" <==> Mentions(Lower(content), StayWords))
    ensures t.Some? ==> (t.value == "restaurants" <==>
      !Mentions(Lower(content), StayWords) && Mentions(Lower(content), FoodWords))
    ensures t.Some? ==> (t.value == "attractions" <==>
      && !Mentions(Lower(content), StayWords) && !Mentions(Lower(content), FoodWords)
      && Mentions(Lower(content), SightWords))
    ensures t.Some? ==> (t.value == "products" <==>
      && !Mentions(Lower(content), StayWords) && !Mentions(Lower(content), FoodWords)
      && !Mentions(Lower(content), SightWords)
      && (Mentions(Lower(content), ShopWords) || persona == "shopping"))
    ensures t.Some? ==> (t.value == "general" <==>
      && !Mentions(Lower(content), StayWords) && !Mentions(Lower(content), FoodWords)
      && !Mentions(Lower(content), SightWords)
      && !Mentions(Lower(content), ShopWords) && persona != "shopping")
  {
    var msg := Lower(content);
    if !AnyKeyword(msg, TriggerWords) then None
    else if AnyKeyword(msg, StayWords) then Some("hotels")
    else if AnyKeyword(msg, FoodWords) then Some("restaurants")
    else if AnyKeyword(msg, SightWords) then Some("attractions")
    else if AnyKeyword(msg, ShopWords) || persona == "shopping" then Some("products")
    else Some("general")
  }

  /** A message mentioning a hotel always searches for hotels, whatever else it says. */
  lemma {:induction false} HotelWins(content: string, persona: string, i: nat)
    requires i + 5 <= |content| && Lower(content)[i..i + 5] == "hotel"
    ensures SearchTypeFor(content, persona) == Some("hotels")
  {
    ContainsAt(Lower(content), "hotel", i);
    assert "hotel" in TriggerWords && "hotel" in StayWords;
  }

  /**
   * Only the trigger words that are not marketplace keywords can start a
   * conversational search: "find", "search", "buy", "purchase" and "order"
   * would have sent the message to the marketplace.
   */
  lemma {:induction false} ConversationTriggers(content: string, persona: string)
    requires RouteOf(content) == ConversationRoute && SearchTypeFor(content, persona).Some?
    ensures Mentions(Lower(content), ["recommend", "suggest", "where", "hotel", "restaurant", "shop", "product"])
  {
    var msg := Lower(content);
    var k :| k in TriggerWords && Contains(msg, k);
    assert "find" in SearchKeywords && "search" in SearchKeywords;
    assert "buy" in BuyKeywords && "purchase" in BuyKeywords && "order" in BuyKeywords;
    assert k in ["recommend", "suggest", "where", "hotel", "restaurant", "shop", "product"];
  }

  /** The message sent to the model: the user's text, with the first three web results when a search found some. */
  function EnhancedMessage(content: string, search: Option<SearchResponse>): (r: string)
    ensures content <= r
    ensures |r| > |content| <==> search.Some? && search.value.Found?
    ensures search.Some? && search.value.Found? ==> r == content + SearchResultsLabel + WebLines(search.value.results)
  {
    if search.Some? && search.value.Found? then content + SearchResultsLabel + WebLines(search.value.results)
    else content
  }

  /** Each of the first three results found has its "- title: snippet" line in the message to the model. */
  lemma {:induction false} EnhancedShowsFirstThree(content: string, rs: seq<WebResult>, kind: string, i: nat)
    requires i < |rs| && i < WebShown
    ensures Contains(EnhancedMessage(content, Some(Found(rs, kind))), WebLine(rs[i]))
  {
    WebLinesShowFirstThree(rs);
    ContainsInRight(content + SearchResultsLabel, WebLines(rs), WebLine(rs[i]));
  }

  /** Results after the third never reach the model. */
  lemma {:induction false} EnhancedIgnoresRest(content: string, rs: seq<WebResult>, extra: seq<WebResult>, kind: string)
    requires |rs| >= WebShown
    ensures EnhancedMessage(content, Some(Found(rs + extra, kind))) == EnhancedMessage(content, Some(Found(rs, kind)))
  {
    WebLinesIgnoreRest(rs, extra);
  }

  // ---------------------------------------------------------------------
  // Answers

  /**
   * What a branch answers: the reply text, the web search response if one
   * ran, and the branch's own marker for the message metadata.
   */
  datatype Answer = Answer(text: string, search: Option<SearchResponse>, extra: Metadata)

  /** `search_results or extra_info or {}`: a search response is never empty, so it wins whenever a search ran. */
  function StoredMetadata(a: Answer): (m: Metadata)
    ensures a.search.Some? ==> m == SearchMeta(a.search.value)
    ensures a.search.None? ==> m == a.extra
  {
    if a.search.Some? then SearchMeta(a.search.value) else a.extra
  }

  /**
   * A buy or search request: the marketplace items when there are any,
   * otherwise a web search for products (buy) or in general (search).
   */
  function MarketAnswer(configured: bool, fetch: SerpRequest -> FetchOutcome, content: string,
                        intent: MarketIntent, items: seq<MarketItem>): (a: Answer)
    ensures items != [] ==>
      && a.search.None? && a.extra == MarketplaceResults(items)
      && a.text == MarketHeader + FormatResults(items) + MarketFooter
    ensures items == [] ==>
      && a.search == Some(SearchPlacesResult(configured, fetch, content,
                                             if intent == BuyIntent then "products" else "general", ""))
      && a.text == WebReply(WebFallbackHeader, NothingFoundText, a.search.value)
      && a.extra == NoMetadata
  {
    if items != [] then
      Answer(MarketHeader + FormatResults(items) + MarketFooter, None, MarketplaceResults(items))
    else
      var resp := SearchPlacesResult(configured, fetch, content, if intent == BuyIntent then "products" else "general", "");
      Answer(WebReply(WebFallbackHeader, NothingFoundText, resp), Some(resp), NoMetadata)
  }

  method AnswerMarketQuery(configured: bool, fetch: SerpRequest -> FetchOutcome, content: string,
                           intent: MarketIntent, items: seq<MarketItem>) returns (a: Answer)
    ensures a == MarketAnswer(configured, fetch, content, intent, items)
  {
    if items != [] {
      var formatted := FormatMarketplaceResults(items);
      a := Answer(MarketHeader + formatted + MarketFooter, None, MarketplaceResults(items));
    } else {
      var searchType := if intent == BuyIntent then "products" else "general";
      var resp := SearchPlaces(configured, fetch, content, searchType, "");
      var text := WebReplyText(WebFallbackHeader, NothingFoundText, resp);
      a := Answer(text, Some(resp), NoMetadata);
    }
  }

  /** A negation: a web product search for the message itself. */
  function NegationAnswer(configured: bool, fetch: SerpRequest -> FetchOutcome, content: string): (a: Answer)
    ensures a.search == Some(SearchPlacesResult(configured, fetch, content, "products", ""))
    ensures a.text == WebReply(WebHeader, NothingOnlineText, a.search.value) && a.extra == NoMetadata
  {
    var resp := SearchPlacesResult(configured, fetch, content, "products", "");
    Answer(WebReply(WebHeader, NothingOnlineText, resp), Some(resp), NoMetadata)
  }

  method AnswerNegation(configured: bool, fetch: SerpRequest -> FetchOutcome, content: string) returns (a: Answer)
    ensures a == NegationAnswer(configured, fetch, content)
  {
    var resp := SearchPlaces(configured, fetch, content, "products", "");
    var text := WebReplyText(WebHeader, NothingOnlineText, resp);
    a := Answer(text, Some(resp), NoMetadata);
  }

  /**
   * Conversation: a web search of the kind the message asks for, if any,
   * then the model's reply to the message with the search results added,
   * given the session's history and the user's preferences.
   */
  function ConversationAnswer(configured: bool, fetch: SerpRequest -> FetchOutcome, llm: seq<PromptMessage> -> LlmOutcome,
                              content: string, persona: string, history: seq<Turn>, preferences: PreferenceGraph): (a: Answer)
    ensures a.search.Some? <==> SearchTypeFor(content, persona).Some?
    ensures a.search.Some? ==> a.search.value == SearchPlacesResult(configured, fetch, content, SearchTypeFor(content, persona).value, "")
    ensures a.extra == NoMetadata
    ensures a.text == AiReply(llm, EnhancedMessage(content, a.search), persona, history, Some(preferences))
  {
    var search := match SearchTypeFor(content, persona)
      case None => None
      case Some(t) => Some(SearchPlacesResult(configured, fetch, content, t, ""));
    Answer(AiReply(llm, EnhancedMessage(content, search), persona, history, Some(preferences)), search, NoMetadata)
  }

  method AnswerConversation(configured: bool, fetch: SerpRequest -> FetchOutcome, llm: seq<PromptMessage> -> LlmOutcome,
                            content: string, persona: string, history: seq<Turn>, preferences: PreferenceGraph)
    returns (a: Answer)
    ensures a == ConversationAnswer(configured, fetch, llm, content, persona, history, preferences)
  {
    var search: Option<SearchResponse> := None;
    var searchType := SearchTypeFor(content, persona);
    if searchType.Some? {
      var resp := SearchPlaces(configured, fetch, content, searchType.value, "");
      search := Some(resp);
    }
    var enhanced := content;
    if search.Some? && search.value.Found? {
      enhanced := AppendWebLines(content + SearchResultsLabel, search.value.results);
    }
    var text := GetAiResponse(llm, enhanced, persona, history, Some(preferences));
    a := Answer(text, search, NoMetadata);
  }

  /**
   * What a message may draw on besides the tables: whether the search API
   * key is set, the search API, the language model, and the user's stored
   * preference graph.
   */
  datatype Env = Env(configured: bool, fetch: SerpRequest -> FetchOutcome, llm: seq<PromptMessage> -> LlmOutcome,
                     preferences: PreferenceGraph)

  /**
   * The answer to `content` taking `route`, given the marketplace as it
   * was before the message: `orderCount` orders so far and `nextProductId`
   * the id of the next product. An order reply opens with the success mark
   * exactly when the product exists, and then names the new order and the
   * product; a listing reply shows the title and price the listing got.
   */
  function ExpectedAnswer(route: Route, products: map<nat, Product>, orderCount: nat, nextProductId: nat,
                          content: string, persona: string, history: seq<Turn>, env: Env): (a: Answer)
    requires IdsConsistent(products)
    ensures route.OrderRoute? ==> |a.text| > 0 && (a.text[0] == SuccessMark <==> route.productId in products)
    ensures route.OrderRoute? && route.productId in products ==>
      Contains(a.text, NatToString(orderCount + 1)) && Contains(a.text, products[route.productId].title)
    ensures route == ListRoute ==>
      Contains(a.text, ListingTitle(content)) && Contains(a.text, FloatText(ListingPrice(content)))
  {
    var Env(configured, fetch, llm, preferences) := env;
    match route
    case OrderRoute(id) =>
      var text := if id in products
        then OrderSuccessText(orderCount + 1, products[id].title, products[id].price, Pending)
        else OrderFailedText(ProductMissingText);
      Answer(text, None, OrderProcessed)
    case ListRoute =>
      Answer(ListingReply(ListingTitle(content), ListingPrice(content), content), None, ProductListed(nextProductId))
    case MarketRoute(intent) =>
      MarketAnswer(configured, fetch, content, intent, MarketItems(products, nextProductId, content))
    case NegationRoute =>
      NegationAnswer(configured, fetch, content)
    case ConversationRoute =>
      ConversationAnswer(configured, fetch, llm, content, persona, history, preferences)
  }

  /**
   * The stored metadata says what happened: the order marker for an order,
   * the new product's id for a listing, the items when the marketplace had
   * some, and otherwise the web search response when a search ran.
   */
  lemma {:induction false} MetadataOfRoutes(products: map<nat, Product>, orderCount: nat, nextProductId: nat,
                         content: string, persona: string, history: seq<Turn>, env: Env)
    requires IdsConsistent(products)
    ensures var m := StoredMetadata(ExpectedAnswer(RouteOf(content), products, orderCount, nextProductId,
                                                   content, persona, history, env));
      && (RouteOf(content).OrderRoute? ==> m == OrderProcessed)
      && (RouteOf(content) == ListRoute ==> m == ProductListed(nextProductId))
      && (RouteOf(content).MarketRoute? ==>
           var items := MarketItems(products, nextProductId, content);
           (items != [] ==> m == MarketplaceResults(items)) && (items == [] ==> m.SearchMeta?))
      && (RouteOf(content) == NegationRoute ==> m.SearchMeta?)
      && (RouteOf(content) == ConversationRoute ==>
           (m.SearchMeta? <==> SearchTypeFor(content, persona).Some?) && (!m.SearchMeta? ==> m == NoMetadata))
  {
  }

  // ---------------------------------------------------------------------
  // The marketplace side of a message

  /**
   * What answering a message does to the marketplace: an order command that
   * names a product takes one unit of it and appends the chat order; a
   * listing stores the chat listing under the next id, in the "General"
   * category (created if missing); nothing else changes products, orders,
   * the next product id or the categories.
   */
  ghost predicate MarketEffect(route: Route, user: User, content: string,
                               products: map<nat, Product>, orders: seq<Order>, nextProductId: nat,
                               categories: map<string, nat>,
                               products': map<nat, Product>, orders': seq<Order>, nextProductId': nat,
                               categories': map<string, nat>)
  {
    match route
    case OrderRoute(id) =>
      && nextProductId' == nextProductId && categories' == categories
      && (id in products ==>
           && products' == products[id := AfterOrder(products[id], 1)]
           && orders' == orders + [ChatOrder(|orders| + 1, user, id, products[id].price)])
      && (id !in products ==> products' == products && orders' == orders)
    case ListRoute =>
      && nextProductId' == nextProductId + 1 && GeneralAdded(categories, categories')
      && products' == products[nextProductId := ChatListing(nextProductId, user.username, content, categories'[GeneralCategory])]
      && orders' == orders
    case _ =>
      products' == products && orders' == orders && nextProductId' == nextProductId && categories' == categories
  }

  /** Carry out the branch a message takes: place the order or list the product, or answer without touching the marketplace. */
  method Respond(market: Marketplace, user: User, route: Route, content: string, persona: string,
                 history: seq<Turn>, env: Env) returns (a: Answer)
    requires market.Valid() && route == RouteOf(content)
    modifies market
    ensures market.Valid()
    ensures a == ExpectedAnswer(route, old(market.products), |old(market.orders)|, old(market.nextProductId),
                                content, persona, history, env)
    ensures MarketEffect(route, user, content, old(market.products), old(market.orders), old(market.nextProductId),
                         old(market.categories), market.products, market.orders, market.nextProductId, market.categories)
    ensures market.wishlist == old(market.wishlist)
  {
    var Env(configured, fetch, llm, preferences) := env;
    match route
    case OrderRoute(id) =>
      var reply := market.ProcessOrderFromChat(user, content);
      a := Answer(reply.value, None, OrderProcessed);
    case ListRoute =>
      var p := market.CreateListingFromChat(user, content);
      a := Answer(ListingReply(p.title, ListingPrice(content), p.description), None, ProductListed(p.id));
    case MarketRoute(intent) =>
      var items := MarketItems(market.products, market.nextProductId, content);
      a := AnswerMarketQuery(configured, fetch, content, intent, items);
    case NegationRoute =>
      a := AnswerNegation(configured, fetch, content);
    case ConversationRoute =>
      a := AnswerConversation(configured, fetch, llm, content, persona, history, preferences);
  }

  // ---------------------------------------------------------------------
  // The chat tables

  /** Every session id is below the next one to hand out, and every session has a known persona. */
  ghost predicate SessionIdsFresh(sessions: map<nat, Session>, nextSessionId: nat) {
    forall id :: id in sessions ==> id < nextSessionId && IsPersona(sessions[id].persona)
  }

  /** A user has at most one session per persona. */
  ghost predicate OneSessionPerPersona(sessions: map<nat, Session>) {
    forall a, b :: (a in sessions && b in sessions && sessions[a].owner == sessions[b].owner
      && sessions[a].persona == sessions[b].persona) ==> a == b
  }

  /** Every message belongs to a stored session. */
  ghost predicate MessagesInSessions(messages: seq<Message>, sessions: map<nat, Session>) {
    forall i :: 0 <= i < |messages| ==> messages[i].sessionId in sessions
  }

  class ChatDb {
    var sessions: map<nat, Session>
    var nextSessionId: nat
    var messages: seq<Message>

    /** Ids are fresh, a user has at most one session per persona, and every message belongs to a session. */
    ghost predicate Valid()
      reads this
    {
      && 1 <= nextSessionId
      && SessionIdsFresh(sessions, nextSessionId)
      && OneSessionPerPersona(sessions)
      && MessagesInSessions(messages, sessions)
    }

    constructor ()
      ensures Valid()
      ensures sessions == map[] && messages == []
    {
      sessions, nextSessionId, messages := map[], 1, [];
    }

    /**
     * `start_chat_session`: reject an unknown persona; otherwise return the
     * user's session with that persona, creating it (`created`) when there
     * is none.
     */
    method StartChatSession(username: string, persona: string) returns (r: Reply<(nat, bool)>)
      requires Valid()
      modifies this
      ensures Valid()
      ensures messages == old(messages)
      ensures !IsPersona(persona) ==>
        r == Err(InvalidPersona) && sessions == old(sessions) && nextSessionId == old(nextSessionId)
      ensures IsPersona(persona) ==> r.Ok? && Owns(sessions, r.value.0, username) && sessions[r.value.0].persona == persona
      ensures forall k :: Owns(old(sessions), k, username) && old(sessions)[k].persona == persona ==>
        r == Ok((k, false)) && sessions == old(sessions)
      ensures IsPersona(persona) && (forall k :: !(Owns(old(sessions), k, username) && old(sessions)[k].persona == persona)) ==>
        && r == Ok((old(nextSessionId), true))
        && sessions == old(sessions)[old(nextSessionId) := Session(username, persona, SessionTitle(persona))]
      ensures r.Ok? && r.value.1 ==>
        && r.value.0 == old(nextSessionId)
        && sessions == old(sessions)[r.value.0 := Session(username, persona, SessionTitle(persona))]
    {
      if !IsPersona(persona) {
        return Err(InvalidPersona);
      }
      if k :| k in sessions && sessions[k].owner == username && sessions[k].persona == persona {
        return Ok((k, false));
      }
      var id := nextSessionId;
      sessions := sessions[id := Session(username, persona, SessionTitle(persona))];
      nextSessionId := nextSessionId + 1;
      r := Ok((id, true));
    }

    /** `Message.objects.create` for an existing session. */
    method Store(m: Message)
      requires Valid() && m.sessionId in sessions
      modifies this
      ensures Valid()
      ensures messages == old(messages) + [m]
      ensures sessions == old(sessions) && nextSessionId == old(nextSessionId)
    {
      messages := messages + [m];
    }

    /**
     * The exchange of `send_message` once the session and the content are
     * checked: store the user's message, answer it with the session's
     * history (read after that message is stored), store the answer with
     * its metadata.
     */
    method Exchange(market: Marketplace, user: User, sessionId: nat, content: string, env: Env)
      returns (asked: Message, answer: Message)
      requires Valid() && market.Valid() && sessionId in sessions
      modifies this, market
      ensures Valid() && market.Valid()
      ensures sessions == old(sessions) && nextSessionId == old(nextSessionId)
      ensures asked == Message(sessionId, content, true, NoMetadata)
      ensures
        var a := ExpectedAnswer(RouteOf(content), old(market.products), |old(market.orders)|, old(market.nextProductId),
          content, old(sessions)[sessionId].persona, TurnsOf(old(messages) + [asked], sessionId), env);
        answer == Message(sessionId, a.text, false, StoredMetadata(a))
      ensures messages == old(messages) + [asked, answer]
      ensures MarketEffect(RouteOf(content), user, content, old(market.products), old(market.orders),
                           old(market.nextProductId), old(market.categories),
                           market.products, market.orders, market.nextProductId, market.categories)
      ensures market.wishlist == old(market.wishlist)
    {
      asked := Message(sessionId, content, true, NoMetadata);
      Store(asked);
      var history := TurnsOf(messages, sessionId);
      assert history == TurnsOf(old(messages) + [asked], sessionId);
      var persona := sessions[sessionId].persona;
      assert persona == old(sessions)[sessionId].persona;
      var a := Respond(market, user, RouteOf(content), content, persona, history, env);
      answer := Message(sessionId, a.text, false, StoredMetadata(a));
      Store(answer);
      AppendTwo(old(messages), asked, answer);
    }

    /**
     * `send_message`: find the user's session, reject empty content, then
     * store the message and its answer.
     */
    method SendMessage(market: Marketplace, user: User, sessionId: nat, raw: string, env: Env)
      returns (r: Reply<(Message, Message)>)
      requires Valid() && market.Valid()
      modifies this, market
      ensures Valid() && market.Valid()
      ensures sessions == old(sessions) && nextSessionId == old(nextSessionId)
      ensures !Owns(old(sessions), sessionId, user.username) ==> r == Err(SessionNotFound)
      ensures Owns(old(sessions), sessionId, user.username) && AllSpace(raw) ==> r == Err(ContentRequired)
      ensures Owns(old(sessions), sessionId, user.username) && !AllSpace(raw) ==> r.Ok?
      ensures r.Err? ==> messages == old(messages) && unchanged(market)
      ensures r.Ok? ==>
        var content := Strip(raw);
        var asked := Message(sessionId, content, true, NoMetadata);
        var a := ExpectedAnswer(RouteOf(content), old(market.products), |old(market.orders)|, old(market.nextProductId),
          content, old(sessions)[sessionId].persona, TurnsOf(old(messages) + [asked], sessionId), env);
        && r.value == (asked, Message(sessionId, a.text, false, StoredMetadata(a)))
        && messages == old(messages) + [r.value.0, r.value.1]
        && MarketEffect(RouteOf(content), user, content, old(market.products), old(market.orders),
                        old(market.nextProductId), old(market.categories),
                        market.products, market.orders, market.nextProductId, market.categories)
        && market.wishlist == old(market.wishlist)
    {
      if sessionId !in sessions || sessions[sessionId].owner != user.username {
        return Err(SessionNotFound);
      }
      StripEmptyIff(raw);
      var content := Strip(raw);
      if content == [] {
        return Err(ContentRequired);
      }
      var asked, answer := Exchange(market, user, sessionId, content, env);
      r := Ok((asked, answer));
    }
  }

  /**
   * The `search_places` endpoint: the query is stripped and must not be
   * empty; the kind defaults to a general search and the location to none.
   */
  method SearchPlacesView(configured: bool, fetch: SerpRequest -> FetchOutcome, query: string,
                          searchType: Option<string>, location: Option<string>) returns (r: Reply<SearchResponse>)
    ensures AllSpace(query) ==> r == Err(QueryRequired)
    ensures !AllSpace(query) ==>
      r == Ok(SearchPlacesResult(configured, fetch, Strip(query), searchType.GetOr("general"), location.GetOr("")))
  {
    StripEmptyIff(query);
    var q := Strip(query);
    if q == [] {
      return Err(QueryRequired);
    }
    var resp := SearchPlaces(configured, fetch, q, searchType.GetOr("general"), location.GetOr(""));
    r := Ok(resp);
  }
}
