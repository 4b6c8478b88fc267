/**
 * The Telegram chatbot's message handling: commands, greetings and free
 * questions, and the popular-products listing. The Telegram transport
 * (receiving updates, sending replies, the keyboard) is not modelled; a
 * message arrives as its text and the sender's first name.
 */
module ChatBot {
  import opened Wrappers
  import opened JavaText
  import opened Catalog
  import opened VectorStore
  import opened Rag

  const Greetings := ["bonjour", "salut", "hello", "hi", "coucou", "hey", "bonsoir"]
  const MissingTermMessage := "Veuillez spécifier un terme de recherche. Exemple: /search smartphone"
  const UnknownCommandMessage := "Commande non reconnue. Tapez /help pour voir les commandes disponibles."
  const SearchPrefix := "Rechercher: "
  const PopularQuery := "populaire meilleur"
  const PopularLimit := 5
  const NoPopularMessage := "📦 Aucun produit disponible pour le moment. Revenez bientôt!"
  const PopularHeader := "🌟 **Produits Populaires** 🌟\n\n"
  const PopularClosing := "Demandez-moi plus de détails sur n'importe quel produit! 😊"

  // ---------------------------------------------------------------------------
  // Dispatch (processMessage, handleCommand, isGreeting)

  /** The message, lower-cased then trimmed: a piece of the lower-cased message with no blank at either end. */
  function Normalized(message: string): (r: string)
    ensures |r| <= |message|
    ensures r == "" || (!IsTrimmed(r[0]) && !IsTrimmed(r[|r| - 1]))
    ensures exists b :: StripsTo(ToLower(message), b, r)
  {
    Trim(ToLower(message))
  }

  /** Some greeting word occurs in the message, anywhere, even inside another word. */
  predicate Greets(message: string) {
    exists i | 0 <= i < |Greetings| :: Contains(message, Greetings[i])
  }

  /** What the bot does with a message. */
  datatype Action =
    | Greet
    | ShowHelp
    | ShowPopular
    | Ask(query: string)
    | MissingTerm
    | UnknownCommand

  /** No message starts with two of the command prefixes. */
  lemma CommandsExclusive(command: string)
    ensures StartsWith(command, "/start") ==>
      !StartsWith(command, "/help") && !StartsWith(command, "/products") && !StartsWith(command, "/search ")
    ensures StartsWith(command, "/help") ==> !StartsWith(command, "/products") && !StartsWith(command, "/search ")
    ensures StartsWith(command, "/products") ==> !StartsWith(command, "/search ")
  {
    if StartsWith(command, "/start") {
      assert command[..6][1] == 's' && command[..6][2] == 't';
    }
    if StartsWith(command, "/help") {
      assert command[..5][1] == 'h';
    }
    if StartsWith(command, "/products") {
      assert command[..9][1] == 'p';
    }
    if StartsWith(command, "/search ") {
      assert command[..8][1] == 's' && command[..8][2] == 'e';
    }
  }

  /**
   * The commands, tried by prefix in this order on the normalised message. No two of
   * the prefixes can both start one message, so each clause below holds on its own.
   */
  function Command(command: string): (a: Action)
    ensures a == Greet <==> StartsWith(command, "/start")
    ensures StartsWith(command, "/help") ==> a == ShowHelp
    ensures StartsWith(command, "/products") ==> a == ShowPopular
    ensures StartsWith(command, "/search ") ==>
      a == (if Trim(command[8..]) == "" then MissingTerm else Ask(SearchPrefix + Trim(command[8..])))
    ensures a.Ask? ==> StartsWith(a.query, SearchPrefix) && |a.query| > |SearchPrefix|
    ensures a == UnknownCommand <==>
      !StartsWith(command, "/start") && !StartsWith(command, "/help") && !StartsWith(command, "/products")
      && !StartsWith(command, "/search ")
  {
    CommandsExclusive(command);
    if StartsWith(command, "/start") then Greet
    else if StartsWith(command, "/help") then ShowHelp
    else if StartsWith(command, "/products") then ShowPopular
    else if StartsWith(command, "/search ") then
      var query := Trim(command[8..]);
      if query == "" then MissingTerm else Ask(SearchPrefix + query)
    else UnknownCommand
  }

  /** A message starting with "/" is a command; otherwise a greeting, or else a question asked as typed. */
  function Dispatch(message: string): (a: Action)
    ensures a.Ask? ==> a.query == message || StartsWith(a.query, SearchPrefix)
    ensures a in {ShowHelp, ShowPopular, MissingTerm, UnknownCommand} ==> StartsWith(Normalized(message), "/")
    ensures !StartsWith(Normalized(message), "/") ==> a in {Greet, Ask(message)}
  {
    var lower := Normalized(message);
    if StartsWith(lower, "/") then Command(lower)
    else if Greets(lower) then Greet
    else Ask(message)
  }

  /** A command is never taken for a greeting or a question: only /start greets, and only /search asks. */
  lemma CommandsOnly(message: string)
    requires StartsWith(Normalized(message), "/")
    ensures Dispatch(message) == Greet <==> StartsWith(Normalized(message), "/start")
    ensures Dispatch(message).Ask? ==> StartsWith(Dispatch(message).query, SearchPrefix)
  {
  }

  /** Any other message greets exactly when a greeting word occurs in it, and is otherwise asked unchanged. */
  lemma GreetingOrQuestion(message: string)
    requires !StartsWith(Normalized(message), "/")
    ensures Dispatch(message) == Greet <==> Greets(Normalized(message))
    ensures Dispatch(message) == Ask(message) <==> !Greets(Normalized(message))
  {
  }

  /** "hi" inside "chips" makes a greeting. */
  lemma ChipsGreets()
    ensures Dispatch("Des chips?") == Greet
  {
    var lower := "des chips?";
    assert ToLower("Des chips?") == lower;
    TrimOfTrimmed(lower);
    assert Normalized("Des chips?") == lower;
    assert lower[..1] != "/" by {
      assert lower[0] == 'd';
    }
    assert lower[5..7] == Greetings[3];
    assert OccursAt(lower, Greetings[3], 5);
    assert Greets(lower);
  }

  /** Trimming cannot empty a string whose last character is not blank. */
  lemma TrimKeepsLast(s: string)
    requires s != [] && !IsTrimmed(s[|s| - 1])
    ensures Trim(s) != ""
  {
  }

  /** After "/search ", a text ending in a kept character has a non-blank rest. */
  lemma SearchTermKept(lower: string)
    requires StartsWith(lower, "/search ") && !IsTrimmed(lower[|lower| - 1])
    ensures |lower| > 8 && Trim(lower[8..]) != ""
  {
    assert lower[7] == ' ';
    TrimKeepsLast(lower[8..]);
  }

  /**
   * The empty-search-term answer is unreachable: the message is trimmed
   * before dispatch, so "/search " is always followed by a non-blank term,
   * and the search forwards "Rechercher: " and that term, trimmed.
   */
  lemma SearchAlwaysHasTerm(message: string)
    requires StartsWith(Normalized(message), "/search ")
    ensures var lower := Normalized(message);
      |lower| > 8 && Trim(lower[8..]) != "" && Dispatch(message) == Ask(SearchPrefix + Trim(lower[8..]))
  {
    var lower := Normalized(message);
    assert StartsWith(lower, "/") by {
      assert lower[..1] == lower[..8][..1];
    }
    assert Dispatch(message) == Command(lower);
    SearchTermKept(lower);
  }

  /** The empty-search-term answer is never given. */
  lemma NeverMissingTerm(message: string)
    ensures Dispatch(message) != MissingTerm
  {
    if StartsWith(Normalized(message), "/search ") {
      SearchAlwaysHasTerm(message);
    }
  }

  // ---------------------------------------------------------------------------
  // Popular products (getPopularProductsMessage)

  /** One numbered entry: the name ("null" when missing), the price and the stock, missing ones shown as 0. */
  function Entry(i: nat, p: Product): string {
    IntToString(i + 1) + ". **" + p.name.GetOr("null") + "**\n"
    + "   💰 Prix: " + FormatPrice(p.price.GetOr(0.0)) + " €\n"
    + "   📦 Stock: " + IntToString(p.quantity.GetOr(0)) + "\n\n"
  }

  function Entries(products: seq<Product>): string {
    if products == [] then "" else Entries(products[..|products| - 1]) + Entry(|products| - 1, products[|products| - 1])
  }

  /** The fixed "nothing available" text, or the header, the numbered entries and the closing invitation. */
  function PopularMessage(products: seq<Product>): (r: string)
    ensures r == NoPopularMessage <==> products == []
    ensures products != [] ==> StartsWith(r, PopularHeader) && |r| >= |PopularClosing|
                                && r[|r| - |PopularClosing|..] == PopularClosing
  {
    if products == [] then NoPopularMessage
    else
      var body := PopularHeader + Entries(products);
      var r := body + PopularClosing;
      assert r[..|PopularHeader|] == PopularHeader by {
        assert r[..|PopularHeader|] == body[..|PopularHeader|];
      }
      assert r[|body|..] == PopularClosing;
      assert r[|r| - 1] == PopularClosing[|PopularClosing| - 1] == '😊';
      assert NoPopularMessage[|NoPopularMessage| - 1] == '!';
      r
  }

  /** The entries of a prefix of the products start the entries of all of them. */
  lemma {:induction false} EntriesPrefix(products: seq<Product>, i: nat)
    requires i <= |products|
    ensures StartsWith(Entries(products), Entries(products[..i]))
  {
    if i < |products| {
      var init := products[..|products| - 1];
      EntriesPrefix(init, i);
      assert init[..i] == products[..i];
      PrefixAppend(Entries(init), Entry(|products| - 1, products[|products| - 1]), Entries(products[..i]));
    } else {
      assert products[..i] == products;
    }
  }

  lemma EntriesStep(products: seq<Product>, i: nat)
    requires i < |products|
    ensures Entries(products[..i + 1]) == Entries(products[..i]) + Entry(i, products[i])
  {
    assert products[..i + 1][..i] == products[..i];
  }

  /** The i-th product is listed as entry i + 1, right after the entries of the products before it. */
  lemma PopularEntry(products: seq<Product>, i: nat)
    requires i < |products|
    ensures StartsWith(PopularMessage(products), PopularHeader + (Entries(products[..i]) + Entry(i, products[i])))
  {
    EntriesPrefix(products, i + 1);
    EntriesStep(products, i);
    PrefixInside(PopularHeader, Entries(products), PopularClosing, Entries(products[..i + 1]));
  }

  /** A product without price or stock is shown with a price of 0.00 and a stock of 0. */
  lemma EntryDefaults(i: nat, p: Product)
    requires p.price.None? && p.quantity.None?
    ensures Entry(i, p) == IntToString(i + 1) + ". **" + p.name.GetOr("null") + "**\n"
                           + "   💰 Prix: 0.00 €\n" + "   📦 Stock: 0\n\n"
  {
    assert Cents(0.0) == 0;
    assert NatToString(0) == "0" && TwoDigits(0) == "00";
    assert FormatPrice(0.0) == "0.00";
    assert IntToString(0) == "0";
  }

  /** The popular list asks for at most five recommendations, so it is never the search's error. */
  lemma PopularRecommendations(documents: map<string, Document>, sqrt: real -> real, result: Result<seq<Product>>)
    requires IsRecommendation(documents, sqrt, PopularQuery, PopularLimit, result)
    ensures result.Ok? && |result.value| <= PopularLimit
  {
    RecommendationBounds(documents, sqrt, PopularQuery, PopularLimit, result);
  }

  // ---------------------------------------------------------------------------
  // The bot

  /** What the bot may reply when it takes `action` for a message from `userName`, given the retrieval service. */
  ghost predicate IsReplyTo(rag: RagService, complete: ChatRequest -> Completion, action: Action, userName: Option<string>,
                            reply: string)
    reads rag, rag.store
  {
    match action
    case Greet => reply == GreetingResponse(userName)
    case ShowHelp => reply == HelpMessage
    case ShowPopular =>
      exists products :: IsRecommendation(rag.store.documents, rag.store.sqrt, PopularQuery, PopularLimit, Ok(products))
                         && reply == PopularMessage(products)
    case Ask(query) =>
      IsAnswer(rag.store.documents, rag.store.sqrt, rag.topK, rag.apiKey, rag.model, complete, query, reply)
    case MissingTerm => reply == MissingTermMessage
    case UnknownCommand => reply == UnknownCommandMessage
  }

  class EcomChatBot {
    const rag: RagService

    constructor (rag: RagService)
      ensures this.rag == rag
    {
      this.rag := rag;
    }

    /** isGreeting: tries the greeting words in turn and stops at the first that occurs. */
    method IsGreeting(message: string) returns (r: bool)
      ensures r == Greets(message)
    {
      for i := 0 to |Greetings|
        invariant forall k :: 0 <= k < i ==> !Contains(message, Greetings[k])
      {
        if Contains(message, Greetings[i]) {
          return true;
        }
      }
      return false;
    }

    /** getPopularProductsMessage: the header, one entry per product, then the invitation. */
    method BuildPopularMessage(products: seq<Product>) returns (text: string)
      ensures text == PopularMessage(products)
    {
      if |products| == 0 {
        return NoPopularMessage;
      }
      var entries := "";
      for i := 0 to |products|
        invariant entries == Entries(products[..i])
      {
        EntriesStep(products, i);
        entries := entries + Entry(i, products[i]);
      }
      assert products[..|products|] == products;
      text := PopularHeader + entries + PopularClosing;
    }

    method GetPopularProductsMessage() returns (text: string)
      requires rag.store.Valid()
      ensures exists products :: IsRecommendation(rag.store.documents, rag.store.sqrt, PopularQuery, PopularLimit, Ok(products))
                                 && text == PopularMessage(products)
    {
      var found := rag.GetProductRecommendations(PopularQuery, PopularLimit);
      PopularRecommendations(rag.store.documents, rag.store.sqrt, found);
      text := BuildPopularMessage(found.value);
    }

    /** handleCommand: the normalised message is a command. */
    method HandleCommand(command: string, userName: Option<string>, complete: ChatRequest -> Completion)
      returns (reply: string)
      requires rag.store.Valid()
      ensures IsReplyTo(rag, complete, Command(command), userName, reply)
    {
      if StartsWith(command, "/start") {
        return GreetingResponse(userName);
      }
      if StartsWith(command, "/help") {
        return HelpMessage;
      }
      if StartsWith(command, "/products") {
        reply := GetPopularProductsMessage();
        return;
      }
      if StartsWith(command, "/search ") {
        var query := Trim(command[8..]);
        if query == "" {
          return MissingTermMessage;
        }
        reply := rag.ProcessQuery(SearchPrefix + query, complete);
        return;
      }
      return UnknownCommandMessage;
    }

    /** processMessage: commands first, then greetings, then the retrieval service on the message as typed. */
    method ProcessMessage(message: string, userName: Option<string>, complete: ChatRequest -> Completion)
      returns (reply: string)
      requires rag.store.Valid()
      ensures IsReplyTo(rag, complete, Dispatch(message), userName, reply)
    {
      var lower := Trim(ToLower(message));
      if StartsWith(lower, "/") {
        reply := HandleCommand(lower, userName, complete);
        assert Dispatch(message) == Command(lower);
        return;
      }
      var greets := IsGreeting(lower);
      if greets {
        assert Dispatch(message) == Greet;
        return GreetingResponse(userName);
      }
      reply := rag.ProcessQuery(message, complete);
      assert Dispatch(message) == Ask(message);
    }
  }
}
