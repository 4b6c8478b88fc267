/**
 * Retrieval-augmented answering: search the vector store, lay the hits out as
 * a numbered context, then ask the remote chat model or fall back to a
 * templated answer.
 *
 * The remote chat-completion call, with its HTTP transport and JSON parsing,
 * is a function `complete` from the request to `Replied(content)` or
 * `Failed`; `Failed` stands for every exception the call can raise.
 */
module Rag {
  import opened Wrappers
  import opened JavaText
  import opened Catalog
  import opened VectorStore

  const Apology := "Désolé, je rencontre des difficultés techniques. Veuillez réessayer dans quelques instants. 🙏"
  const NotFoundMarker := "Aucun produit"
  const NoProductsContext := NotFoundMarker + " trouvé dans la base de données."
  const NotFound := "Je n'ai pas trouvé de produits correspondant à votre recherche. Essayez avec d'autres mots-clés ou consultez notre catalogue complet. 📦"
  const FallbackIntro := "Voici les produits que j'ai trouvés pour votre recherche:\n\n"
  const FallbackOutro := "\n\nN'hésitez pas à me demander plus de détails sur un produit! 😊\n"

  /** The system prompt, up to the place where the context goes. */
  const SystemPromptIntro :=
    "Tu es un assistant e-commerce intelligent et amical pour la plateforme ECOMplus.\n"
    + "Tu aides les clients à trouver des produits, répondre à leurs questions sur les prix,\n"
    + "la disponibilité et les caractéristiques des produits.\n"
    + "\n"
    + "Instructions:\n"
    + "- Réponds toujours en français de manière naturelle et professionnelle\n"
    + "- Utilise les informations des produits fournis dans le contexte\n"
    + "- Si tu ne trouves pas l'information, dis-le poliment\n"
    + "- Suggère des produits similaires quand c'est pertinent\n"
    + "- Sois concis mais informatif\n"
    + "- Utilise des emojis pour rendre la conversation plus conviviale\n"
    + "\n"
    + "Contexte des produits disponibles:\n"

  const Temperature := 0.7
  const MaxTokens := 500

  // ---------------------------------------------------------------------------
  // Context (buildContext)

  /** "%d. %s\n": the 1-based position, a point, a space, the text and a newline. */
  function Line(i: nat, text: string): string {
    IntToString(i + 1) + ". " + text + "\n"
  }

  /** The numbered lines of all documents, in order. */
  function Lines(docs: seq<Document>): string {
    if docs == [] then "" else Lines(docs[..|docs| - 1]) + Line(|docs| - 1, docs[|docs| - 1].text)
  }

  /** The lines of a prefix of the documents start the lines of all of them. */
  lemma {:induction false} LinesPrefix(docs: seq<Document>, i: nat)
    requires i <= |docs|
    ensures StartsWith(Lines(docs), Lines(docs[..i]))
  {
    if i < |docs| {
      var init := docs[..|docs| - 1];
      LinesPrefix(init, i);
      assert init[..i] == docs[..i];
    } else {
      assert docs[..i] == docs;
    }
  }

  /** Lines for at least one document start with the number 1. */
  lemma {:induction false} LinesStartWithOne(docs: seq<Document>)
    requires docs != []
    ensures |Lines(docs)| > 0 && Lines(docs)[0] == '1'
  {
    if |docs| == 1 {
      assert IntToString(1) == "1";
    } else {
      LinesStartWithOne(docs[..|docs| - 1]);
    }
  }

  /** The context: the fixed "no product" sentence when nothing was found, else the numbered lines. */
  function Context(docs: seq<Document>): (r: string)
    ensures r == NoProductsContext <==> docs == []
  {
    if docs == [] then NoProductsContext
    else
      var r := Lines(docs);
      assert r[|r| - 1] == '\n' && NoProductsContext[|NoProductsContext| - 1] == '.';
      r
  }

  /** The i-th document appears as line i + 1, after the lines of the documents before it. */
  lemma ContextLine(docs: seq<Document>, i: nat)
    requires i < |docs|
    ensures StartsWith(Context(docs), Lines(docs[..i]) + Line(i, docs[i].text))
  {
    LinesPrefix(docs, i + 1);
    assert docs[..i + 1][..i] == docs[..i];
  }

  /** Every retrieved text is copied verbatim into the context. */
  lemma ContextContainsText(docs: seq<Document>, i: nat, t: string)
    requires i < |docs| && Contains(docs[i].text, t)
    ensures Contains(Context(docs), t)
  {
    var text := docs[i].text;
    ContainsInfix(IntToString(i + 1) + ". ", text, "\n", t);
    ContainsInfix(Lines(docs[..i]), Line(i, text), "", t);
    assert Lines(docs[..i]) + Line(i, text) + "" == Lines(docs[..i]) + Line(i, text);
    ContextLine(docs, i);
    ContainsInPrefix(Context(docs), Lines(docs[..i]) + Line(i, text), t);
  }

  // ---------------------------------------------------------------------------
  // Answers (generateFallbackResponse, callOpenAI)

  /**
   * The templated answer: the fixed "not found" message when the context
   * mentions "Aucun produit", otherwise the context framed by an introduction
   * and an invitation. The query is not used.
   */
  function Fallback(query: string, context: string): (r: string)
    ensures r == NotFound <==> Contains(context, NotFoundMarker)
    ensures !Contains(context, NotFoundMarker) ==> StartsWith(r, FallbackIntro) && Contains(r, context)
  {
    if Contains(context, NotFoundMarker) then NotFound
    else
      var r := FallbackIntro + context + FallbackOutro;
      assert r[|r| - 1] == '\n' && NotFound[|NotFound| - 1] == '📦';
      assert OccursAt(r, context, |FallbackIntro|);
      r
  }

  /** The chat-completion request sent to the remote model. */
  datatype ChatRequest = ChatRequest(
    model: string,
    systemPrompt: string,
    userMessage: string,
    temperature: real,
    maxTokens: int,
    authorization: string)

  /** The content at choices[0].message.content of the reply ("" when the path is missing), or a failure. */
  datatype Completion = Replied(content: string) | Failed

  function Request(apiKey: string, model: string, query: string, context: string): ChatRequest {
    ChatRequest(model, SystemPromptIntro + context + "\n", query, Temperature, MaxTokens, "Bearer " + apiKey)
  }

  predicate HasKey(apiKey: Option<string>) {
    apiKey.Some? && apiKey.value != ""
  }

  /**
   * callOpenAI: without a key the fallback answers; with one, the model's
   * content is returned, and any failure gives the fallback instead.
   */
  function CallModel(apiKey: Option<string>, model: string, query: string, context: string,
                     complete: ChatRequest -> Completion): (r: string)
    ensures !HasKey(apiKey) ==> r == Fallback(query, context)
    ensures HasKey(apiKey) && complete(Request(apiKey.value, model, query, context)).Failed? ==> r == Fallback(query, context)
    ensures HasKey(apiKey) && complete(Request(apiKey.value, model, query, context)).Replied? ==>
      r == complete(Request(apiKey.value, model, query, context)).content
  {
    if !HasKey(apiKey) then
      Fallback(query, context)
    else
      match complete(Request(apiKey.value, model, query, context))
      case Replied(content) => content
      case Failed => Fallback(query, context)
  }

  /** Without a key the answer is the same whatever the remote model would say: no call is made. */
  lemma NoKeyNoCall(apiKey: Option<string>, model: string, query: string, context: string,
                    complete1: ChatRequest -> Completion, complete2: ChatRequest -> Completion)
    requires !HasKey(apiKey)
    ensures CallModel(apiKey, model, query, context, complete1) == CallModel(apiKey, model, query, context, complete2)
  {
  }

  /** With a key, the answer depends only on the one request the model receives. */
  lemma KeyOneRequest(apiKey: Option<string>, model: string, query: string, context: string,
                      complete1: ChatRequest -> Completion, complete2: ChatRequest -> Completion)
    requires HasKey(apiKey)
    requires complete1(Request(apiKey.value, model, query, context)) == complete2(Request(apiKey.value, model, query, context))
    ensures CallModel(apiKey, model, query, context, complete1) == CallModel(apiKey, model, query, context, complete2)
  {
  }

  /** The fallback is never the apology. */
  lemma FallbackNotApology(query: string, context: string)
    ensures Fallback(query, context) != Apology
  {
    var r := Fallback(query, context);
    assert Apology[|Apology| - 1] == '🙏';
    if r == NotFound {
      assert r[|r| - 1] == '📦';
    } else {
      assert r[|r| - 1] == '\n';
    }
  }

  // ---------------------------------------------------------------------------
  // Queries (processQuery, getProductRecommendations)

  /**
   * What processQuery may answer: the apology when the search throws, which
   * happens on a non-empty store with a negative `topK`; otherwise the model's
   * answer over the context of some valid search result.
   */
  ghost predicate IsAnswer(documents: map<string, Document>, sqrt: real -> real, topK: int, apiKey: Option<string>,
                           model: string, complete: ChatRequest -> Completion, query: string, answer: string) {
    if |documents| != 0 && topK < 0 then answer == Apology
    else exists docs :: IsSearchResult(documents, query, topK, sqrt, Ok(docs))
                         && answer == CallModel(apiKey, model, query, Context(docs), complete)
  }

  /** The products of the documents that have one, in document order. */
  function ProductsOf(docs: seq<Document>): (r: seq<Product>)
    ensures |r| <= |docs|
    ensures forall p :: p in r <==> exists i :: 0 <= i < |docs| && docs[i].product == Some(p)
  {
    if docs == [] then []
    else
      var rest := ProductsOf(docs[1..]);
      assert forall p :: (exists i :: 0 <= i < |docs| - 1 && docs[1..][i].product == Some(p))
                         <==> (exists i :: 1 <= i < |docs| && docs[i].product == Some(p)) by {
        forall p, i | 1 <= i < |docs| && docs[i].product == Some(p)
          ensures docs[1..][i - 1].product == Some(p)
        {
        }
      }
      match docs[0].product
      case Some(p) => [p] + rest
      case None => rest
  }

  /** Filtering keeps order: the products of two runs of documents are the products of each, in turn. */
  lemma {:induction false} ProductsOfConcat(a: seq<Document>, b: seq<Document>)
    ensures ProductsOf(a + b) == ProductsOf(a) + ProductsOf(b)
  {
    if a != [] {
      assert (a + b)[1..] == a[1..] + b;
      ProductsOfConcat(a[1..], b);
    } else {
      assert a + b == b;
    }
  }

  /** What getProductRecommendations may return: the error of the search, or the products of a valid result. */
  ghost predicate IsRecommendation(documents: map<string, Document>, sqrt: real -> real, query: string, limit: int,
                                   result: Result<seq<Product>>) {
    if |documents| != 0 && limit < 0 then result == Err
    else result.Ok? && exists docs :: IsSearchResult(documents, query, limit, sqrt, Ok(docs)) && result.value == ProductsOf(docs)
  }

  /** At most `limit` products, each the product of a stored document. */
  lemma RecommendationBounds(documents: map<string, Document>, sqrt: real -> real, query: string, limit: int,
                             result: Result<seq<Product>>)
    requires IsRecommendation(documents, sqrt, query, limit, result) && result.Ok?
    ensures |result.value| <= if limit < 0 then 0 else limit
    ensures forall p :: p in result.value ==> exists id :: id in documents && documents[id].product == Some(p)
  {
    var docs: seq<Document> :| IsSearchResult(documents, query, limit, sqrt, Ok(docs)) && result.value == ProductsOf(docs);
    forall p | p in result.value
      ensures exists id :: id in documents && documents[id].product == Some(p)
    {
      var i :| 0 <= i < |docs| && docs[i].product == Some(p);
      assert documents[docs[i].id] == docs[i];
    }
  }

  /** An empty store with no key answers the "not found" message, not the apology. */
  lemma EmptyStoreNoKey(sqrt: real -> real, topK: int, apiKey: Option<string>, model: string,
                        complete: ChatRequest -> Completion, query: string, answer: string)
    requires !HasKey(apiKey)
    requires IsAnswer(map[], sqrt, topK, apiKey, model, complete, query, answer)
    ensures answer == NotFound
  {
    assert OccursAt(NoProductsContext, NotFoundMarker, 0);
  }

  /** Without a key, the apology comes exactly from a negative `topK` on a non-empty store. */
  lemma NoKeyApology(documents: map<string, Document>, sqrt: real -> real, topK: int, apiKey: Option<string>,
                     model: string, complete: ChatRequest -> Completion, query: string, answer: string)
    requires !HasKey(apiKey)
    requires IsAnswer(documents, sqrt, topK, apiKey, model, complete, query, answer)
    ensures answer == Apology <==> |documents| != 0 && topK < 0
  {
    if !(|documents| != 0 && topK < 0) {
      var docs: seq<Document> :| IsSearchResult(documents, query, topK, sqrt, Ok(docs))
                  && answer == CallModel(apiKey, model, query, Context(docs), complete);
      FallbackNotApology(query, Context(docs));
    }
  }

  /**
   * Without a key, a retrieved document whose text mentions "Aucun produit"
   * turns the whole answer into the "not found" message.
   */
  lemma MarkerInTextHidesResults(docs: seq<Document>, i: nat, apiKey: Option<string>, model: string,
                                 complete: ChatRequest -> Completion, query: string)
    requires !HasKey(apiKey) && i < |docs| && Contains(docs[i].text, NotFoundMarker)
    ensures CallModel(apiKey, model, query, Context(docs), complete) == NotFound
  {
    ContextContainsText(docs, i, NotFoundMarker);
  }

  // ---------------------------------------------------------------------------
  // Fixed replies (getGreetingResponse, getHelpMessage)

  /** The welcome text after the user's name. */
  const GreetingTail :=
    "! 👋\n"
    + "\n"
    + "Je suis l'assistant ECOMplus, votre guide shopping personnel! \U{1F6CD}\U{FE0F}\n"
    + "\n"
    + "Je peux vous aider à:\n"
    + "🔍 Rechercher des produits\n"
    + "💰 Comparer les prix\n"
    + "📦 Vérifier la disponibilité\n"
    + "❓ Répondre à vos questions\n"
    + "\n"
    + "Comment puis-je vous aider aujourd'hui?\n"

  /** The welcome text, greeting the user by first name (nothing when it is null). */
  function GreetingResponse(userName: Option<string>): (r: string)
    ensures StartsWith(r, "Bonjour ")
    ensures OccursAt(r, userName.GetOr(""), 8)
  {
    "Bonjour " + userName.GetOr("") + GreetingTail
  }

  const HelpMessage :=
    "🤖 **Guide d'utilisation du Chatbot ECOMplus**\n"
    + "\n"
    + "Voici ce que je peux faire pour vous:\n"
    + "\n"
    + "📱 **Commandes disponibles:**\n"
    + "• /start - Démarrer une conversation\n"
    + "• /help - Afficher cette aide\n"
    + "• /products - Voir les produits populaires\n"
    + "• /search [terme] - Rechercher un produit\n"
    + "\n"
    + "💬 **Vous pouvez aussi me poser des questions comme:**\n"
    + "• \"Quels sont vos smartphones disponibles?\"\n"
    + "• \"Avez-vous des promotions?\"\n"
    + "• \"Quel est le prix du [produit]?\"\n"
    + "• \"Recommandez-moi un cadeau\"\n"
    + "\n"
    + "N'hésitez pas à me parler naturellement! 😊\n"

  // ---------------------------------------------------------------------------
  // The service

  /** RagService: the store it searches, how many documents a query retrieves, and the model settings. */
  class RagService {
    const store: SimpleVectorStore
    const topK: int
    const apiKey: Option<string>
    const model: string

    constructor (store: SimpleVectorStore, topK: int, apiKey: Option<string>, model: string)
      ensures this.store == store && this.topK == topK && this.apiKey == apiKey && this.model == model
    {
      this.store := store;
      this.topK := topK;
      this.apiKey := apiKey;
      this.model := model;
    }

    /** buildContext: the fixed sentence for no documents, else one numbered line per document. */
    method BuildContext(docs: seq<Document>) returns (context: string)
      ensures context == Context(docs)
    {
      if |docs| == 0 {
        return NoProductsContext;
      }
      var sb := "";
      for i := 0 to |docs|
        invariant sb == Lines(docs[..i])
      {
        assert docs[..i + 1][..i] == docs[..i];
        sb := sb + Line(i, docs[i].text);
      }
      assert docs[..|docs|] == docs;
      context := sb;
    }

    /** processQuery: search, build the context, answer; an exception from the search gives the apology. */
    method ProcessQuery(query: string, complete: ChatRequest -> Completion) returns (answer: string)
      requires store.Valid()
      ensures IsAnswer(store.documents, store.sqrt, topK, apiKey, model, complete, query, answer)
    {
      var found := store.SimilaritySearch(query, topK);
      if found.Err? {
        return Apology;
      }
      var context := BuildContext(found.value);
      answer := CallModel(apiKey, model, query, context, complete);
      assert IsSearchResult(store.documents, query, topK, store.sqrt, Ok(found.value));
    }

    /** getProductRecommendations: the products of the top `limit` documents, skipping documents without one. */
    method GetProductRecommendations(query: string, limit: int) returns (result: Result<seq<Product>>)
      requires store.Valid()
      ensures IsRecommendation(store.documents, store.sqrt, query, limit, result)
    {
      var found := store.SimilaritySearch(query, limit);
      if found.Err? {
        return Err;
      }
      result := Ok(ProductsOf(found.value));
      assert IsSearchResult(store.documents, query, limit, store.sqrt, Ok(found.value));
    }
  }
}
