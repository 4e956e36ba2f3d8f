# EchoMate chat backend — a Dafny model

EchoMate is a chat application in which a user talks to one of three AI
friends: foodie, travel or shopping. Each message goes through a fixed
dispatch in `send_message`:
- an `order <id>` command places a marketplace order;
- a "sell …" message lists a product;
- a buy or search request shows matching marketplace products, falling back to a web search;
- "none" or "not found" turns the results down and searches the web;
- anything else goes to a language model, with web results added when the message asks for places or products.

This project models that core and proves what it promises:
- the chat service's text rules: intent keywords, keyword extraction, the order-command regex, the listing title and price extraction, and the result formatting;
- the web-search service;
- the language-model request;
- the chat endpoints;
- the marketplace serializers and views that the chat drives.

Layout, one module per file:

| file | module | models |
|---|---|---|
| `wrappers.dfy` | `Wrappers` | `Option`, Python's `None` versus a value |
| `text.dfy` | `Text` | the Python string operations used: `isspace`, `lower`, `split`, `join`, `strip`, `replace`, `title`, `str`/`int` of numbers, `Decimal`/`float` price text |
| `intent.dfy` | `Intent` | `detect_marketplace_intent`, `extract_search_keywords`, the order regex `(?:order\|buy\|purchase)\s+(\d+)` |
| `listing.dfy` | `Listing` | price and title extraction of `create_marketplace_product_from_chat` |
| `catalog.dfy` | `Catalog` | products and orders as values, `search_products`, `ProductListView` |
| `market.dfy` | `Market` | class `Marketplace` (products, orders, wishlist, categories) with the serializers' `create`, the chat order and listing, the detail view counter, the wishlist toggle and the seller-only update |
| `websearch.dfy` | `WebSearch` | `SearchService.search_places` and its `_process_*_results` helpers |
| `prompt.dfy` | `Prompt` | `get_user_preferences_context` and `get_ai_response` |
| `chat.dfy` | `Chat` | class `ChatDb` (sessions, messages) with `start_chat_session` and `send_message`, and the `search_places` view |

Modelling choices:
- Prices are integer cents. A product read back from the database prints as a `Decimal` ("120.00"). The reply to a chat listing prints the in-memory `float` ("120.0").
- A product's id stands in for its creation time, so "newest first" is "highest id first".
- Messages are ordered by when they were stored.
- The search API and the language model are function-typed parameters: `fetch` and `llm`.
- Whether the search API key is set is a boolean.
- The user's stored preference graph is a parameter.
- The logged-in user is a username, or `None` where the serializers fall back to their test users.
- `create_product_from_chat` and `create_order_from_chat` copy `chat_session_id` into the request data, but neither serializer lists that field, so the value is dropped and the stored product or order keeps null. The model's requests have no such field, and the stored reference is `None`.

## Model

| member | source | states |
|---|---|---|
| Intent.AnyKeyword | backend/chat/services.py:16 | the keyword scan answers true exactly when some keyword of the list occurs in the message |
| Intent.DetectMarketplaceIntent | backend/chat/services.py:7-37 | list iff a list keyword occurs in the lower-cased message; buy iff none does and a buy keyword does; search iff only a search keyword does; None iff no keyword of the three lists occurs |
| Intent.SellOutranksBuy | backend/chat/services.py:12-17 | any message containing "sell" is a listing, whatever buying words it also holds |
| Intent.RemovePunctuation | backend/chat/services.py:52 | the result holds only word and whitespace characters, each taken from the input; every word or whitespace character of the input appears in it; text with nothing to remove is returned unchanged |
| Intent.RemovePunctuationAppend | backend/chat/services.py:52 | removing punctuation from two texts read one after the other is removing it from each: characters are kept or dropped one by one, in order |
| Intent.KeepKeywords | backend/chat/services.py:56 | every kept token is an input token that is not a stop word and is longer than two characters; every such input token is kept; a list made only of such tokens is kept whole |
| Intent.KeepKeywordsAppend | backend/chat/services.py:56 | filtering two token lists read one after the other is filtering each: tokens are kept or dropped one by one, in order |
| Intent.KeywordsAreClean | backend/chat/services.py:52-56 | every surviving token is a non-empty lower-case word of word characters |
| Intent.ExtractSearchKeywords | backend/chat/services.py:39-62 | with no surviving token the result is the original message; otherwise splitting the result gives back exactly the surviving tokens; a non-empty message never gives an empty query |
| Intent.ExtractSearchKeywordsIdempotent | backend/chat/services.py:39-62 | extracting keywords from extracted keywords changes nothing |
| Intent.OrderGroupAt | backend/chat/services.py:198 | the captured group of an order match is a non-empty run of digits |
| Intent.FirstMatch | backend/chat/services.py:198 | the leftmost matching position: None iff no position in range matches; otherwise that position matches and none before it does |
| Intent.OrderCommand | backend/chat/services.py:193-200 | None iff the order pattern matches nowhere in the lower-cased message; otherwise the id is `int(group(1))` of the leftmost match |
| Intent.StartMatch | backend/chat/services.py:198 | a verb, whitespace, digits and a non-digit tail are matched at position 0 and the group is exactly those digits |
| Intent.MatchAtStart | backend/chat/services.py:198 | after a verb at the start, a whitespace run followed by a digit run makes a match at 0 whose group is that digit run |
| Intent.OrderCommandOfVerb | backend/chat/services.py:198-200 | "order", "buy" or "purchase", whitespace, `str(id)` and anything not starting with a digit carry exactly `id`, in any letter case |
| Text.StripEmptyIff | backend/chat/views.py:56-58 | `strip()` gives "" exactly when the text is all whitespace |
| Text.SplitJoin | backend/chat/services.py:59 | splitting words joined by single spaces gives the words back |
| Text.ReplaceAtFirst | backend/chat/services.py:125 | `replace` keeps the text before the first occurrence, puts the replacement there and goes on after the occurrence |
| Text.RemoveSoleOccurrence | backend/chat/services.py:125 | removing a pattern that occurs once, after a prefix that lacks its first character, closes the text up around it |
| Text.TitleCaseJoin | backend/chat/services.py:126-127 | `title()` of words joined by spaces title-cases each word on its own |
| Text.TitleCaseIdempotent | backend/chat/services.py:127 | `title()` of a title-cased text changes nothing |
| Text.DigitsRoundTrip | backend/chat/services.py:200 | `int(str(n)) == n` |
| Text.DecimalText | backend/marketplace/models.py:46 | the two-decimal text of an amount, `[-]d+.dd`, reads back as the same amount in cents |
| Listing.FirstPriceMatch | backend/chat/services.py:90 | the leftmost position where `\$?\d` can start: none before it, and None iff there is none |
| Listing.ListingPrice | backend/chat/services.py:90-91 | a message without a digit is priced at the default 50.0; otherwise the price is the amount written at the message's first digit |
| Listing.PriceGroupAtFirstDigit | backend/chat/services.py:90 | the price group starts at the message's first digit, with or without a dollar sign in front |
| Listing.PriceCentsOfDecimal | backend/chat/services.py:90-91 | digits, a point and two digits are read as that whole amount plus those cents |
| Listing.ListingPriceOfDecimal | backend/chat/services.py:90-91 | a message whose first number is an amount written with two decimals is priced at exactly that amount |
| Listing.ListingPriceOfWhole | backend/chat/services.py:90-91 | a message whose first number is a whole amount n, not followed by a point and two digits, is priced at exactly n (so "99.5" is priced 99.0) |
| Listing.ListingPriceOfDollars | backend/chat/services.py:90-91 | the same with a dollar sign before the amount: "sell my bicycle for $120" is priced 120.0 |
| Listing.NextFor | backend/chat/services.py:96-100 | the first occurrence of " for" at or after a position, or None iff there is none |
| Listing.GroupEndAt | backend/chat/services.py:96-100 | a lazy group of a title pattern holds at least one character |
| Listing.FirstTitleMatch | backend/chat/services.py:105 | the leftmost start where a title pattern matches, and None iff there is none |
| Listing.TitleGroup | backend/chat/services.py:104-107 | a title group is non-empty and has no line break (`.` does not match one) |
| Listing.PatternTitle | backend/chat/services.py:95-108 | no title iff none of the patterns matches the lower-cased message |
| Listing.PatternTitleOfFirst | backend/chat/services.py:103-108 | when pattern k matches and none before it does, the title is the stripped group of pattern k; later patterns are not tried |
| Listing.FindPatternTitle | backend/chat/services.py:103-108 | the pattern loop, stopping at the first match, gives that title: the stripped group of the first pattern that matches, or None |
| Listing.SellIndex | backend/chat/services.py:112-117 | the index of the first "sell"/"selling" word, None iff there is no such word |
| Listing.FindSellIndex | backend/chat/services.py:113-117 | the loop gives that index, or -1 when there is none |
| Listing.Slice | backend/chat/services.py:120 | `words[from:from + n]`: at most `n` consecutive words, cut at the end of the list |
| Listing.FallbackTitle | backend/chat/services.py:110-121 | after a "sell"/"selling" word that is not the last one, the title's words are the (up to) three words following it; without such a word, the first 30 characters of the message as written |
| Listing.CleanTitle | backend/chat/services.py:124-127 | the cleaned title is the first five words left after removing "my ", "a " and "the ", each title-cased, joined by single spaces; so it is in title case and has at most five words |
| Listing.CleanTitleOfWords | backend/chat/services.py:124-127 | a text that is at most five words once the articles are removed is listed as those words title-cased |
| Listing.DropArticlesInWord | backend/chat/services.py:125 | the articles are removed as pieces of text, not words: an "a " at the end of a word goes too and the words close up |
| Listing.CleanTitleDropsPieces | backend/chat/services.py:124-127 | so "sofa bed" is listed as "Sofbed" |
| Listing.CleanTitleOfWord | backend/chat/services.py:124-127 | a single lower-case word passes the clean-up only capitalised |
| Listing.TitleGroupAtStart | backend/chat/services.py:96 | in "sell my X for …" with a one-word X, the first pattern captures X |
| Listing.ListingTitleOfSellMy | backend/chat/services.py:95-127 | "sell my X for …" with a one-word lower-case X lists the product as X capitalised |
| Listing.ListingTitle | backend/chat/services.py:93-127 | the cleaned pattern title when a pattern gives a non-blank one, otherwise the cleaned fallback; in title case with at most five words |
| Listing.ChatListingTitle | backend/chat/services.py:93-127 | the title steps as written (pattern loop, word fallback, clean-up) give that listing title |
| Catalog.NewestFirst | backend/marketplace/views.py:29 | newest first; holds exactly the stored products below the id bound |
| Catalog.Where | backend/marketplace/views.py:83 | a filter keeps exactly the elements satisfying it, in their order, and keeps newest-first order |
| Catalog.WhereAgrees | backend/marketplace/views.py:83-109 | two filters that agree on every product select the same products |
| Catalog.SearchProducts | backend/marketplace/views.py:73-117 | `count` is the number of results, at most 20, newest first; each is an available stored product passing every given filter; a matching product is missing only when 20 newer matches fill the page |
| Catalog.TopOfDescending | backend/marketplace/views.py:111 | the first n of a newest-first list hold every element newer than one they leave out |
| Catalog.ListProducts | backend/marketplace/views.py:22-29 | newest first; holds exactly the available products matching every search term |
| Catalog.SearchAgreesWithList | backend/marketplace/views.py:73-117 | for a one-word query, `search_products` returns the first 20 products of the list view's search |
| Market.NewProduct | backend/marketplace/serializers.py:50-74 | the stored product gets the given id, seller and category, takes every other field from the request, is available, has no views and no chat session reference |
| Market.NewProductIgnoresReadOnly | backend/marketplace/serializers.py:39 | whatever a client sends for `available`, `seller` and `views`, the stored product is the same |
| Market.AfterOrder | backend/marketplace/serializers.py:142-150 | stock not above the ordered quantity: sold, unavailable, quantity kept; otherwise the stock drops by exactly the quantity and stays at least 1; nothing else changes |
| Market.ChatOrdersTakeOneUnit | backend/chat/services.py:156-164 | before the last unit each chat order takes exactly one unit and leaves the product on sale |
| Market.ChatOrdersSellOut | backend/chat/services.py:156-164 | a stock of q is sold out by the q-th chat order, which leaves quantity 1 on record |
| Market.ChatOrderOfSoldProduct | backend/chat/services.py:142-164 | a sold-out product can still be ordered from the chat, and its record does not change |
| Market.ChatOrderEmail | backend/chat/services.py:151 | the user's e-mail when set, otherwise `<username>@example.com` |
| Market.Toggled | backend/marketplace/views.py:157-174 | the entry is in the new wishlist iff it was not in the old one; all other entries are kept as they were |
| Market.ToggleTwice | backend/marketplace/views.py:153-178 | toggling the same entry twice restores the wishlist |
| Market.Patched | backend/marketplace/serializers.py:39 | an update keeps id, seller and views, and sets the price iff one is given |
| Market.EmptyPatch | backend/marketplace/views.py:48-56 | an update that sets no field leaves the product as it was |
| Market.Marketplace.GetOrCreateGeneral | backend/chat/services.py:130 | returns the "General" category's id, creating it only when it does not exist |
| Market.Marketplace.CreateProduct | backend/marketplace/serializers.py:50-84 | the new product, built from the request, is stored under the next id, which advances by one; orders and wishlist are unchanged; the seller is the requester or "test_seller"; the category is the given one, with categories unchanged, or, when none is given, "General", and the only change to categories is creating "General" when it is missing |
| Market.Marketplace.CreateProductFromChatView | backend/marketplace/views.py:199-213 | the stored product is `NewProduct` of the request flagged as listed via chat, sold by the requester, under the next id (which advances by one); its category is the given one with categories unchanged, or "General", created only when missing; the session id the view copies is not a serializer field, so no chat session is recorded |
| Market.Marketplace.CreateOrder | backend/marketplace/serializers.py:121-151 | unknown product: an error and nothing changes; no quantity: an error (the `KeyError`) and nothing changes; otherwise the order is numbered next, the buyer is the requester or "anonymous_buyer", the total is price times quantity, the other fields come from the request, no chat session is recorded, and the product becomes `AfterOrder` |
| Market.Marketplace.CreateOrderFromChatView | backend/marketplace/views.py:218-232 | the three cases of `CreateOrder`: a missing product or a missing quantity is an error that changes nothing (too little stock is no error: the order is created and the product sells out); otherwise the order with the next number, the requester as buyer, the price times the quantity and the request's other fields, flagged as ordered via chat and with no chat session (the copied id is not a serializer field), is appended and the product becomes `AfterOrder(p, quantity)`; wishlist, categories and the next product id are unchanged |
| Market.Marketplace.CreateChatOrder | backend/chat/services.py:142-165 | unknown product: an error and nothing changes; otherwise one pending unit at the product's price, flagged as a chat order, and the product becomes `AfterOrder(p, 1)` |
| Market.Marketplace.ProcessOrderFromChat | backend/chat/services.py:193-207 | no reply iff the message is no order command; a known product gets the success text with the new order's id, title, price and "pending", the order `ChatOrder` for one unit at its price is appended and the product becomes `AfterOrder(p, 1)`; an unknown one gets the failure text and nothing changes |
| Market.Marketplace.CreateListingFromChat | backend/chat/services.py:84-140 | the product stored under the next id (which advances by one) is `ChatListing` of the message, the sender and the "General" category; categories change only by creating "General" when it is missing; orders and wishlist are unchanged |
| Market.ChatListing | backend/chat/services.py:130-139 | a chat listing has the extracted title and price, the message as description, the given seller, id and category, is flagged as listed via chat, is available, has no views and no chat session |
| Market.ChatOrder | backend/chat/services.py:146-154 | a chat order is one pending unit of the product at its price, bought by the user, confirmed to `ChatOrderEmail(user)`, flagged as ordered via chat, with no chat session |
| Market.OrderSuccessText | backend/chat/services.py:203 | the reply opens with the success mark and shows the order id, the product's title, its price as a decimal and the order's status |
| Market.OrderFailedText | backend/chat/services.py:206 | the reply opens with the failure mark and shows the error |
| Market.Marketplace.RetrieveProduct | backend/marketplace/views.py:31-41 | the product is returned with its view count raised by exactly one, and that is the only change |
| Market.Marketplace.ToggleWishlist | backend/marketplace/views.py:153-178 | a missing product is an error and nothing changes; otherwise the entry is toggled and the reply says whether it is now in the wishlist |
| Market.Marketplace.UpdateProduct | backend/marketplace/views.py:48-56 | only the requester's own products can be updated; any other id is not found and nothing changes |
| Prompt.Fragment | backend/chat/services.py:224-225 | a category's fragment is never empty |
| Prompt.Fragments | backend/chat/services.py:221-226 | at most one fragment per category, none of them empty, and none at all iff every category's list is empty |
| Prompt.FragmentsOfOne | backend/chat/services.py:221-226 | a one-category graph gives no fragment for an empty list and otherwise exactly that category's fragment |
| Prompt.FragmentsAppend | backend/chat/services.py:221-226 | the fragments of two graphs read one after the other are those of the first, then those of the second |
| Prompt.PreferencesEmptyIff | backend/chat/services.py:217-227 | the context is "" exactly when every category's list is empty |
| Prompt.PreferencesOfOneCategory | backend/chat/services.py:222-227 | one non-empty category gives `<category>: <p1>, <p2>, …` |
| Prompt.PreferencesAppend | backend/chat/services.py:221-227 | the context of two graphs read one after the other is the two contexts joined by "; ", or just the non-empty one |
| Prompt.PreferencesContext | backend/chat/services.py:211-227 | the loop gives the fragments joined by "; " |
| Prompt.UnknownPersonaIsFoodie | backend/chat/services.py:262 | any persona other than foodie, travel and shopping gets the foodie prompt |
| Prompt.LastTurns | backend/chat/services.py:270 | at most the last ten turns, all of them when there are at most ten, and always a suffix of the history |
| Prompt.PromptMessages | backend/chat/services.py:264-274 | the system prompt first, then the last ten turns with their roles, then the message as a user turn: at most 12 messages |
| Prompt.BuildMessages | backend/chat/services.py:264-274 | the building loop gives exactly that request |
| Prompt.GetAiResponse | backend/chat/services.py:232-288 | the model's reply to that request, or the apology carrying the error |
| Prompt.AiReply | backend/chat/services.py:232-288 | the model is asked with the system prompt of the persona and (when given) the preference context, the history and the message; its text is returned as is, and a failure gives the apology followed by the error |
| Prompt.FailureIsApology | backend/chat/services.py:284-288 | a failing model call always answers with the apology ending in the error text |
| WebSearch.QueryIsSearched | backend/chat/services.py:301-311 | whatever the kind of search, the user's query is part of the web query |
| WebSearch.SearchQuery | backend/chat/services.py:301-311 | hotel, restaurant and attraction queries show the location; an unknown kind of search sends the query as it is |
| WebSearch.RequestFor | backend/chat/services.py:314-322 | the request asks for five results and carries the location iff the search is for hotels, restaurants or attractions and a location is given |
| WebSearch.Processed | backend/chat/services.py:402-423 | title, link and snippet are kept and typed by the kind of search; product searches add a price note that is the snippet iff it mentions "$" or "price" |
| WebSearch.ProcessedResults | backend/chat/services.py:342-425 | the first five organic results, in order, each processed |
| WebSearch.ProcessResults | backend/chat/services.py:342-425 | the processing loop gives those results with the list's kind |
| WebSearch.SearchPlacesResult | backend/chat/services.py:294-340 | without an API key the "not configured" error; with one, a successful call of `RequestFor(...)` gives `ProcessedResults` of its organic results with the kind of the search, and a failed call gives "Search failed: " followed by the error; a found result list has at most five entries |
| WebSearch.SearchPlaces | backend/chat/services.py:294-340 | the steps as written give that answer |
| WebSearch.ProductAndShoppingAlike | backend/chat/services.py:334-335 | "products" and "shopping" searches process results alike |
| Chat.SessionTitleOfWord | backend/chat/views.py:25 | a one-word persona's session is titled "Chat with <Persona> Friend", its first letter capitalised |
| Chat.TurnsOf | backend/chat/views.py:68 | a session's history has at most as many turns as there are messages |
| Chat.HistoryEndsWithMessage | backend/chat/views.py:61-68 | the history read after storing the user's message ends with that message |
| Chat.OtherSessionsIgnored | backend/chat/views.py:68 | messages of other sessions never enter a session's history |
| Chat.FormatMarketplaceResults | backend/chat/services.py:167-191 | the loop gives the fixed text for no items, otherwise the first five entries joined and the ordering hint |
| Chat.FormatShowsFirstFive | backend/chat/services.py:173-191 | each of the first five items appears under its number, and the text ends with the ordering hint |
| Chat.FormatIgnoresRest | backend/chat/services.py:173 | items after the fifth never change the text |
| Chat.EntryOfProduct | backend/chat/services.py:176 | a product from the list view has no description, so its entry always shows the default text |
| Chat.MarketItems | backend/chat/views.py:95-96 | the items shown are exactly the available products matching every extracted keyword, newest (highest id) first |
| Chat.WebLinesShowFirstThree | backend/chat/views.py:107-108 | each of the first three web results has its line in the reply |
| Chat.WebLinesIgnoreRest | backend/chat/views.py:107 | results after the third never change the reply |
| Chat.AppendWebLines | backend/chat/views.py:106-108 | the loop appends the lines of the first three results |
| Chat.WebReplyText | backend/chat/views.py:104-110 | the header and the result lines, or the fallback text when the search failed |
| Chat.RouteOf | backend/chat/views.py:77-147 | the branches in priority order, each as an if-and-only-if: order command, then listing, then buy or search (buy iff a buy keyword occurs), then negation, then conversation |
| Chat.OrderCommandWins | backend/chat/views.py:80-85 | an order command is an order whatever keyword it also holds, its own verb included |
| Chat.NoDigitsNoOrder | backend/chat/services.py:198 | a message without digits is never an order command |
| Chat.NoKeywordLetters | backend/chat/services.py:12-35 | a text without certain letters mentions no marketplace keyword |
| Chat.NegationWordsSearchWeb | backend/chat/views.py:111-113 | "none", "not found", "no" and "nope" take the web-search branch |
| Chat.SearchTypeFor | backend/chat/views.py:123-134 | a search iff a trigger word occurs; its kind is the first of hotels, restaurants and attractions whose words occur, then products (also for the shopping persona), else general, each as an if-and-only-if |
| Chat.HotelWins | backend/chat/views.py:125-126 | a message mentioning "hotel" always searches for hotels |
| Chat.ConversationTriggers | backend/chat/views.py:120-124 | in the conversation branch only "recommend", "suggest", "where", "hotel", "restaurant", "shop" and "product" can start a search |
| Chat.StoredMetadata | backend/chat/views.py:154 | the search response whenever a search ran, otherwise the branch's marker |
| Chat.MarketAnswer | backend/chat/views.py:92-110 | with marketplace items: the header, the formatted items and the footer, the items as metadata, no web search; without: a web search for the message of kind "products" for a buy and "general" for a search, with no location, replying with the header and result lines or the "nothing found" text |
| Chat.AnswerMarketQuery | backend/chat/views.py:92-110 | the branch as written gives that answer |
| Chat.NegationAnswer | backend/chat/views.py:111-119 | a web product search for the message itself, without location, replying with the header and result lines or the fallback text |
| Chat.AnswerNegation | backend/chat/views.py:111-119 | the branch as written gives that answer |
| Chat.ConversationAnswer | backend/chat/views.py:120-147 | a web search ran iff the message asks for one, of the kind it asks for; the reply is the model's answer (`AiReply`) to the message enhanced with that search's results, with the persona, the history and the user's preferences; no branch marker |
| Chat.AnswerConversation | backend/chat/views.py:120-147 | the branch as written gives that answer |
| Chat.MetadataOfRoutes | backend/chat/views.py:80-155 | the stored metadata is the order marker for an order, the new product's id for a listing, the items when the marketplace had some, and otherwise the search response exactly when a search ran |
| Chat.Respond | backend/chat/views.py:80-147 | the answer is `ExpectedAnswer` of the branch the message takes; `MarketEffect`: an order for a known product appends `ChatOrder` and takes one unit, a listing stores `ChatListing` under the next id (which advances by one) and may only create "General"; every other branch, and an order for an unknown product, leaves products, orders, categories and the next id unchanged; the wishlist never changes |
| Chat.ExpectedAnswer | backend/chat/views.py:80-147 | an order reply opens with the success mark exactly when the product exists and then shows the new order's number and the product's title; a listing reply shows the extracted title and price |
| Chat.ListingReply | backend/chat/views.py:88-91 | the listing confirmation shows the title, the price as the float it was parsed into, and the description |
| Chat.EnhancedMessage | backend/chat/views.py:137-141 | the message to the model is the user's text, followed, exactly when a search found results, by "Search results:" and the result lines (`WebLines`) |
| Chat.EnhancedShowsFirstThree | backend/chat/views.py:138-141 | each of the first three results found has its "- title: snippet" line in the message to the model |
| Chat.EnhancedIgnoresRest | backend/chat/views.py:140 | results after the third never reach the model |
| Chat.ChatDb.StartChatSession | backend/chat/views.py:14-29 | an unknown persona is rejected and nothing changes; an existing session of the user with that persona is returned, not created, and nothing changes; otherwise a new one is created (`created` is true) under the next id with the user, the persona and the persona's title; at most one session per user and persona |
| Chat.ChatDb.Exchange | backend/chat/views.py:61-155 | the user's message and then the answer `ExpectedAnswer`, with its metadata, are appended and nothing else; the history given to the model ends with the user's message; the marketplace changes exactly as `MarketEffect` says and the wishlist not at all |
| Chat.ChatDb.SendMessage | backend/chat/views.py:53-164 | another user's or a missing session is not found; blank content is rejected; in both cases nothing changes; otherwise the stripped message and its `ExpectedAnswer` are stored and the marketplace changes exactly as `MarketEffect` says |
| Chat.SearchPlacesView | backend/chat/views.py:169-181 | a blank query is rejected; otherwise the stripped query is searched, by default as a general search without location |

## Left out

- The language model and the search API are `llm` and `fetch` parameters: HTTP, the model name, temperature and token limit are not modelled.
- The search API key is the `configured` flag.
- `fetch_marketplace_items` goes through an internal HTTP client to the product list view. The model calls the list view directly, so a non-200 response (which yields no items) is not modelled. Pagination is taken to be off.
- The response body of `send_message` also repeats `marketplace_results` and `search_results`. The model returns the two stored messages; the same data is their metadata.
- `session.save()` (which only refreshes the session's timestamps) is not modelled.
- `get_user_preferences_context` turns any exception into "". The model reads a given graph and has no failure path.
- Exceptions other than the modelled ones are not modelled: database errors in a chat listing, and invalid numbers in `search_products` parameters.
- Request validation by the serializers is not modelled: field types, choices, lengths and required fields. The create methods take validated data. The "General" default of `ProductSerializer.create` is modelled even though validation requires `category_id`.
- Image upload (`ProductImage`) and the computed `average_rating` and `review_count` fields are not modelled.
- Authentication and the JWT layer are reduced to the requester's username. The serializers get `None` when no one is logged in.
- `toggle_wishlist` catches the 404 of a missing product and answers with a 400 error. The model reports `ProductNotFound`.
- Catalog.SearchTerms: splits the search text of `ProductListView`'s `SearchFilter` on commas and whitespace. Newer Django REST framework versions keep a quoted phrase together as one term; the model does not.
- Text.FloatText: prints the decimal amount exactly, as Python's `str(float)` does while the float holds it exactly: below 2^46 (about 7.0e13) for an amount with cents, and below 2^53 (about 9.0e15) for a whole amount. Above those bounds the float rounds the amount and `str` shows the rounded value; that rounding, and the exponent form from 1e16 up, are not modelled.
- Letter case, `\w` and `\d` are ASCII only. Whitespace follows Python's `str.isspace()` exactly. Unicode case mapping is not modelled.
- Prices are integer cents, with no floating point: every price the regex reads has at most two decimals. The `float` the chat listing goes through holds such an amount exactly below 2^46 (with cents) or 2^53 (whole amounts); the rounding of larger amounts is not modelled (see Text.FloatText).
- Creation times are product ids, and message timestamps are storage order.
- Concurrent requests and the race in `get_or_create` are not modelled.
- The endpoints outside the chat core are not part of this model: listing and deleting sessions, `test_ai`, categories, reviews, order and wishlist lists, and product deletion.
- Chat.SessionTitleOfWord: the title is proved for every one-word lower-case persona. It is not restated for the three persona names one by one.
- Prompt.SystemPrompt: it has no contract of its own. The three persona texts are written out as in the source, and `UnknownPersonaIsFoodie` states the fallback.
- Chat.TurnsOf: its own contract bounds only the length. `HistoryEndsWithMessage` and `OtherSessionsIgnored` state what it holds.
