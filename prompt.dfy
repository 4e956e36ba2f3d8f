/**
 * Assembling the language-model request of `AIService.get_ai_response`:
 * the user's preference context, the persona's system prompt, the
 * ten-turn history window and the current message. The model call itself
 * is the `llm` parameter.
 */
module Prompt {
  import opened Wrappers
  import opened Text

  // ---------------------------------------------------------------------
  // get_user_preferences_context

  /** A preference graph: categories in insertion order, each with its list of preferences. */
  type PreferenceGraph = seq<(string, seq<string>)>

  /** The fragment `"<category>: <p1>, <p2>, ..."` of one category. */
  function Fragment(category: string, prefs: seq<string>): (f: string)
    ensures f != []
  {
    category + ": " + Join(prefs, ", ")
  }

  /** The fragments of the categories whose list is not empty, in graph order. */
  function Fragments(graph: PreferenceGraph): (fs: seq<string>)
    ensures |fs| <= |graph|
    ensures forall i :: 0 <= i < |fs| ==> fs[i] != []
    ensures fs == [] <==> forall i :: 0 <= i < |graph| ==> graph[i].1 == []
  {
    if graph == [] then []
    else
      var rest := Fragments(graph[1..]);
      assert forall i :: 1 <= i < |graph| ==> graph[i] == graph[1..][i - 1];
      if graph[0].1 != [] then [Fragment(graph[0].0, graph[0].1)] + rest else rest
  }

  /** A one-category graph gives that category's fragment, or nothing when its list is empty. */
  lemma {:induction false} FragmentsOfOne(category: string, prefs: seq<string>)
    ensures Fragments([(category, prefs)]) == if prefs == [] then [] else [Fragment(category, prefs)]
  {
    var g: PreferenceGraph := [(category, prefs)];
    assert g[1..] == [];
  }

  /** The fragments of two graphs read one after the other: those of the first, then those of the second. */
  lemma {:induction false} FragmentsAppend(g1: PreferenceGraph, g2: PreferenceGraph)
    ensures Fragments(g1 + g2) == Fragments(g1) + Fragments(g2)
    decreases |g1|
  {
    if g1 == [] {
      assert g1 + g2 == g2;
    } else {
      assert (g1 + g2)[0] == g1[0];
      assert (g1 + g2)[1..] == g1[1..] + g2;
      FragmentsAppend(g1[1..], g2);
    }
  }

  /** The preference context: the fragments joined by "; ". */
  function PreferencesText(graph: PreferenceGraph): string {
    Join(Fragments(graph), "; ")
  }

  /** The context is empty exactly when every category's list is empty (in particular for an empty graph). */
  lemma {:induction false} PreferencesEmptyIff(graph: PreferenceGraph)
    ensures PreferencesText(graph) == "" <==> forall i :: 0 <= i < |graph| ==> graph[i].1 == []
  {
    JoinEmptyIff(Fragments(graph), "; ");
  }

  /** A graph whose only non-empty category is `category` gives just that category's fragment. */
  lemma {:induction false} PreferencesOfOneCategory(category: string, prefs: seq<string>)
    requires prefs != []
    ensures PreferencesText([(category, prefs)]) == category + ": " + Join(prefs, ", ")
  {
    var g: PreferenceGraph := [(category, prefs)];
    assert g[1..] == [];
    assert Fragments(g) == [Fragment(category, prefs)];
  }

  /**
   * Two graphs read one after the other: the first context, "; ", then the
   * second, the separator left out when either context is empty.
   */
  lemma {:induction false} PreferencesAppend(g1: PreferenceGraph, g2: PreferenceGraph)
    ensures var t1, t2 := PreferencesText(g1), PreferencesText(g2);
      PreferencesText(g1 + g2) == if t1 == "" then t2 else if t2 == "" then t1 else t1 + "; " + t2
  {
    FragmentsAppend(g1, g2);
    var f1, f2 := Fragments(g1), Fragments(g2);
    JoinEmptyIff(f1, "; ");
    JoinEmptyIff(f2, "; ");
    if f1 == [] {
      assert f1 + f2 == f2;
    } else if f2 == [] {
      assert f1 + f2 == f1;
    } else {
      JoinAppend(f1, f2, "; ");
    }
  }

  /** The loop of `get_user_preferences_context`: collect the fragments, then join them. */
  method PreferencesContext(graph: PreferenceGraph) returns (context: string)
    ensures context == PreferencesText(graph)
  {
    var parts: seq<string> := [];
    var k := 0;
    while k < |graph|
      invariant 0 <= k <= |graph|
      invariant parts + Fragments(graph[k..]) == Fragments(graph)
    {
      assert graph[k..][1..] == graph[k + 1..];
      if graph[k].1 != [] {
        parts := parts + [Fragment(graph[k].0, graph[k].1)];
      }
      k := k + 1;
    }
    assert Fragments(graph[|graph|..]) == [];
    assert parts == Fragments(graph);
    context := if parts != [] then Join(parts, "; ") else "";
  }

  // ---------------------------------------------------------------------
  // System prompts

  /** The line break and indentation inside the prompt texts. */
  const Indent: string := "\n            "

  const PreferencesLabel: string := "User's preferences: "

  /** Which of the three system prompts a session gets. */
  datatype PromptKind = FoodiePrompt | TravelPrompt | ShoppingPrompt

  /** Any persona other than travel and shopping gets the foodie prompt. */
  function PromptKindOf(persona: string): PromptKind {
    if persona == "travel" then TravelPrompt
    else if persona == "shopping" then ShoppingPrompt
    else FoodiePrompt
  }

  /** The introduction of each system prompt. */
  function Intro(kind: PromptKind): string {
    match kind
    case TravelPrompt =>
      "You are Travel Guru, a knowledgeable travel advisor and guide. You help users plan " + Indent
      + "trips, find accommodations, discover attractions, and navigate travel logistics. You're expert in " + Indent
      + "destinations worldwide, travel tips, budgeting, and creating memorable experiences. Be helpful, " + Indent
      + "informative, and inspiring about travel."
    case ShoppingPrompt =>
      "You are Shopping Assistant, your personal shopping companion. You help users find " + Indent
      + "products, compare prices, read reviews, and assist with purchase decisions. You can search for any " + Indent
      + "product the user wants, provide detailed product information, suggest alternatives, and help guide " + Indent
      + "them through the ordering process. You're knowledgeable about e-commerce, product categories, " + Indent
      + "brands, and shopping best practices. Be helpful, informative, and enthusiastic about finding " + Indent
      + "the perfect products for users."
    case FoodiePrompt =>
      "You are Foodie Friend, an enthusiastic food expert and restaurant recommender. " + Indent
      + "You help users discover amazing restaurants, cuisines, and food experiences. You're knowledgeable " + Indent
      + "about different types of food, dietary restrictions, and can suggest restaurants based on location, " + Indent
      + "cuisine type, budget, and preferences. Be friendly, enthusiastic about food, and helpful."
  }

  /**
   * The system prompt: the persona's introduction, a new indented line, and
   * on it the user's preferences when there are any.
   */
  function SystemPrompt(persona: string, context: string): string {
    Intro(PromptKindOf(persona)) + Indent + (if context != "" then PreferencesLabel + context else "")
  }

  /** An unknown persona is answered with the foodie prompt. */
  lemma {:induction false} UnknownPersonaIsFoodie(persona: string, context: string)
    requires persona != "foodie" && persona != "travel" && persona != "shopping"
    ensures SystemPrompt(persona, context) == SystemPrompt("foodie", context)
  {
    assert PromptKindOf(persona) == FoodiePrompt == PromptKindOf("foodie");
  }

  // ---------------------------------------------------------------------
  // The message list

  datatype Role = SystemRole | UserRole | AssistantRole

  datatype PromptMessage = PromptMessage(role: Role, content: string)

  /** A stored chat message as the history sees it: who sent it and its text. */
  datatype Turn = Turn(fromUser: bool, content: string)

  /** How many past turns go into the request. */
  const HistoryWindow: nat := 10

  /** `history[-10:]` */
  function LastTurns(history: seq<Turn>): (w: seq<Turn>)
    ensures |w| <= HistoryWindow && |w| <= |history|
    ensures |history| <= HistoryWindow ==> w == history
    ensures w == history[|history| - |w|..]
  {
    if |history| <= HistoryWindow then history else history[|history| - HistoryWindow..]
  }

  function AsMessage(t: Turn): PromptMessage {
    PromptMessage(if t.fromUser then UserRole else AssistantRole, t.content)
  }

  /**
   * The request: the system prompt, then the last ten turns with their
   * roles, then the current message as a user turn, so at most 12 messages.
   */
  function PromptMessages(system: string, history: seq<Turn>, message: string): (ms: seq<PromptMessage>)
    ensures |ms| == |LastTurns(history)| + 2 && |ms| <= HistoryWindow + 2
    ensures ms[0] == PromptMessage(SystemRole, system)
    ensures ms[|ms| - 1] == PromptMessage(UserRole, message)
    ensures forall i :: 1 <= i < |ms| - 1 ==> ms[i] == AsMessage(LastTurns(history)[i - 1])
  {
    var w := LastTurns(history);
    [PromptMessage(SystemRole, system)] + seq(|w|, i requires 0 <= i < |w| => AsMessage(w[i]))
      + [PromptMessage(UserRole, message)]
  }

  /** The message-building loop of `get_ai_response`. */
  method BuildMessages(system: string, history: seq<Turn>, message: string) returns (ms: seq<PromptMessage>)
    ensures ms == PromptMessages(system, history, message)
  {
    ms := [PromptMessage(SystemRole, system)];
    var w := LastTurns(history);
    var i := 0;
    while i < |w|
      invariant 0 <= i <= |w|
      invariant |ms| == i + 1 && ms[0] == PromptMessage(SystemRole, system)
      invariant forall j :: 0 <= j < i ==> ms[j + 1] == AsMessage(w[j])
    {
      ms := ms + [AsMessage(w[i])];
      i := i + 1;
    }
    ms := ms + [PromptMessage(UserRole, message)];
  }

  // ---------------------------------------------------------------------
  // get_ai_response

  /** What the language-model call gives: the reply text, or the text of the exception it raised. */
  datatype LlmOutcome = Completed(text: string) | LlmFailed(error: string)

  const ApologyPrefix: string := "I'm sorry, I'm having trouble responding right now. Please try again. Error: "

  /**
   * The reply: the model's text, or the apology carrying the error. The
   * preference context is looked up only when a user is given.
   */
  function AiReply(llm: seq<PromptMessage> -> LlmOutcome, message: string, persona: string,
                   history: seq<Turn>, preferences: Option<PreferenceGraph>): (reply: string)
    ensures var out := llm(PromptMessages(SystemPrompt(persona, if preferences.Some? then PreferencesText(preferences.value) else ""),
                                          history, message));
      && (out.Completed? ==> reply == out.text)
      && (out.LlmFailed? ==> ApologyPrefix <= reply && reply[|ApologyPrefix|..] == out.error)
  {
    var context := if preferences.Some? then PreferencesText(preferences.value) else "";
    match llm(PromptMessages(SystemPrompt(persona, context), history, message))
    case Completed(text) => text
    case LlmFailed(error) => ApologyPrefix + error
  }

  /** `get_ai_response` */
  method GetAiResponse(llm: seq<PromptMessage> -> LlmOutcome, message: string, persona: string,
                       history: seq<Turn>, preferences: Option<PreferenceGraph>) returns (reply: string)
    ensures reply == AiReply(llm, message, persona, history, preferences)
  {
    var context := "";
    if preferences.Some? {
      context := PreferencesContext(preferences.value);
    }
    var system := SystemPrompt(persona, context);
    var messages := BuildMessages(system, history, message);
    match llm(messages)
    case Completed(text) =>
      reply := text;
    case LlmFailed(error) =>
      reply := ApologyPrefix + error;
  }

  /** A failed model call always answers with the apology, which ends with the error text. */
  lemma {:induction false} FailureIsApology(llm: seq<PromptMessage> -> LlmOutcome, message: string, persona: string,
                         history: seq<Turn>, preferences: Option<PreferenceGraph>, error: string)
    requires forall ms :: llm(ms) == LlmFailed(error)
    ensures AiReply(llm, message, persona, history, preferences) == ApologyPrefix + error
  {
  }
}
