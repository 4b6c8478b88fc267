# ECOMplus core, modelled in Dafny

This project models the core logic of the ECOMplus e-commerce platform and proves properties of it:

- **Chatbot retrieval engine** (`VectorStore`, `Ranking`, `Catalog`):
  - an in-memory store of documents keyed by id;
  - a bag-of-terms embedding over a fixed 57-term vocabulary, cosine scoring and top-K search;
  - refresh from the inventory catalog.
- **Answer generator** (`Rag`):
  - builds a numbered context from the search hits;
  - asks an optional remote chat model, with a templated fallback that also covers every error path;
  - gives product recommendations, the greeting and the help text.
- **Telegram bot dispatch** (`ChatBot`): lower-casing and trimming, command prefixes, greeting detection and the numbered popular-products listing.
- **Kafka consumer service** (`Consumer`, with `EventState`):
  - the order and page-view counters;
  - the per-key counter maps;
  - the capped "recent events" lists, where the newest event goes first.
- **Kafka Streams analytics service** (`Analytics`):
  - its ad-hoc JSON parser;
  - the capped list of recent analytics records;
  - the order and page-view statistics, including the revenue in cents with 64-bit wrap-around.
- **Kafka Streams configuration** (`StreamsConfig`):
  - the `indexOf`/`substring` field extractors;
  - the format of the output records;
  - how the analytics parser reads those records back.
- **Gateway role converter** (`GatewaySecurity`): flattens the Keycloak `realm_access` and `resource_access` claims into `ROLE_` authorities.
- **Web app route guards** (`AuthGuard`): `authGuard` and `adminGuard`.

`JavaText` models the Java string operations the code relies on:

- `contains`, `indexOf`, `trim`;
- `toLowerCase`, `toUpperCase`;
- `String.valueOf`, `Long.parseLong`;
- `replace`, `split`.

`Wrappers` holds `Option` and `Result`.

Each class whose fields the code updates is a Dafny `class`: `SimpleVectorStore`, `RagService`, `EcomChatBot`, `KafkaConsumerService` and `AnalyticsService`. Its methods are proved against specification functions or predicates, and the lemmas beside them prove the properties those functions have. The loops of the code are loops here, with their invariants:

- the embedding and cosine sums;
- the context and listing builders;
- the refresh loop;
- the JSON parser;
- the role accumulation.

The stream pipelines and expressions are functions.

Nondeterminism is stated as a relation rather than fixed:

- **Iteration order.** The store's map order is not fixed. So `similaritySearch` is specified by `IsTopK`: `min(k, size)` distinct stored documents, best first, and no document left out scores above one that is kept. The order among equal scores is not fixed.
- **External inputs are parameters.** `Math.sqrt` is a function `sqrt` that must be an exact square root (`IsSqrt`). The remote chat model is a function from the request to `Replied(text)` or `Failed`. The clock reading is a string `now`. The inventory fetch is a `Result` of a list of possibly-null products.

Three consequences of the code that a reader may not expect:

- **A query with no vocabulary term scores 0.** A query such as "casque sans fil" contains none of the 57 vocabulary terms. It embeds to the zero vector and scores 0 against every document (`EmbeddingNorm`, `CosineDegenerate`).
- **The empty-search-term reply is unreachable.** The message is trimmed before dispatch, so that reply never happens (`NeverMissingTerm`).
- **Parsed records lose their window.** The window start is an ISO instant, which contains ':'. So the analytics parser drops the `window` member of every Streams output record (`ParsedRecord`).

## Model

| member | source | states |
|---|---|---|
| Catalog.FormatPrice | chatbot-service/src/main/java/com/ecommerce/chatbot/model/Product.java:29 | "%.2f" of a price: a minus sign exactly for a negative amount, then a decimal point third from the end, then exactly two fractional digits |
| Catalog.FormatPriceValue | chatbot-service/src/main/java/com/ecommerce/chatbot/model/Product.java:29 | for every price, after the sign, the whole part and the two fractional digits together spell the magnitude in cents, rounded half up |
| Catalog.FormatNegative | chatbot-service/src/main/java/com/ecommerce/chatbot/model/Product.java:29 | a negative price is shown as '-' followed by exactly the text of its magnitude |
| Catalog.CentsWithinHalf | chatbot-service/src/main/java/com/ecommerce/chatbot/model/Product.java:29 | the rounded amount in cents is within half a cent of the price |
| Catalog.FormatWholeCents | chatbot-service/src/main/java/com/ecommerce/chatbot/model/Product.java:29 | a price that is a whole number of cents is shown exactly |
| Catalog.EmbeddingText | chatbot-service/src/main/java/com/ecommerce/chatbot/model/Product.java:27-35 | the product text opens with "Produit: " followed by the name (or "N/A"), and closes with " unités." |
| Catalog.NullsReadAsDefaults | chatbot-service/src/main/java/com/ecommerce/chatbot/model/Product.java:30-34 | a null name, description, category, price or quantity reads exactly like "N/A", "Aucune description", "Non catégorisé", 0.0 or 0 |
| Catalog.EmbeddingTextIgnoresId | chatbot-service/src/main/java/com/ecommerce/chatbot/model/Product.java:27-35 | the text does not depend on the product id |
| Ranking.Insert | chatbot-service/src/main/java/com/ecommerce/chatbot/rag/SimpleVectorStore.java:73 | inserting into a list sorted by non-increasing score keeps it sorted and adds exactly that element |
| Ranking.SortDesc | chatbot-service/src/main/java/com/ecommerce/chatbot/rag/SimpleVectorStore.java:73 | the sort by descending score is sorted and a permutation of its input |
| Ranking.RankedPrefixDominates | chatbot-service/src/main/java/com/ecommerce/chatbot/rag/SimpleVectorStore.java:73-74 | an element left after the first n of the sorted list scores no more than any of those n |
| Ranking.PermutationMembers | chatbot-service/src/main/java/com/ecommerce/chatbot/rag/SimpleVectorStore.java:71-73 | a permutation has the same length and the same members as the original |
| Ranking.PermutationDistinct | chatbot-service/src/main/java/com/ecommerce/chatbot/rag/SimpleVectorStore.java:71-73 | a permutation of a list without duplicates has none |
| VectorStore.Presence | chatbot-service/src/main/java/com/ecommerce/chatbot/rag/SimpleVectorStore.java:96-102 | the presence vector has one component per vocabulary term |
| VectorStore.Embedding | chatbot-service/src/main/java/com/ecommerce/chatbot/rag/SimpleVectorStore.java:83-117 | every embedding has exactly 57 components, one per vocabulary term |
| VectorStore.EmbeddingTerms | chatbot-service/src/main/java/com/ecommerce/chatbot/rag/SimpleVectorStore.java:96-114 | component i of an embedding is non-zero exactly when the lower-cased text contains term i; no component is negative and all non-zero ones are equal |
| VectorStore.EmbeddingNorm | chatbot-service/src/main/java/com/ecommerce/chatbot/rag/SimpleVectorStore.java:104-114 | a text without any vocabulary term embeds to the zero vector; otherwise the squares of the embedding sum to 1 |
| VectorStore.NormalizedUnit | chatbot-service/src/main/java/com/ecommerce/chatbot/rag/SimpleVectorStore.java:104-114 | dividing a non-zero vector by its Euclidean norm gives squared length 1 |
| VectorStore.NormalizeBinaryUnit | chatbot-service/src/main/java/com/ecommerce/chatbot/rag/SimpleVectorStore.java:104-114 | a 0/1 vector with at least one 1 normalises to squared length 1 |
| VectorStore.NormalizeBinaryComponents | chatbot-service/src/main/java/com/ecommerce/chatbot/rag/SimpleVectorStore.java:104-114 | normalising a 0/1 vector keeps exactly its 1 positions non-zero, all equal and positive |
| VectorStore.SumSqBinary | chatbot-service/src/main/java/com/ecommerce/chatbot/rag/SimpleVectorStore.java:104-108 | the squared length of a 0/1 vector is non-negative, bounds every component, and is 0 exactly for the zero vector |
| VectorStore.SumSqNormalized | chatbot-service/src/main/java/com/ecommerce/chatbot/rag/SimpleVectorStore.java:110-114 | dividing every component by d divides the squared length by d squared |
| VectorStore.DotSelf | chatbot-service/src/main/java/com/ecommerce/chatbot/rag/SimpleVectorStore.java:127-131 | a vector's dot product with itself is its squared length |
| VectorStore.DotSymmetric | chatbot-service/src/main/java/com/ecommerce/chatbot/rag/SimpleVectorStore.java:127-131 | the dot product is symmetric |
| VectorStore.DotZero | chatbot-service/src/main/java/com/ecommerce/chatbot/rag/SimpleVectorStore.java:127-131 | the dot product with the zero vector is 0 |
| VectorStore.CosineDegenerate | chatbot-service/src/main/java/com/ecommerce/chatbot/rag/SimpleVectorStore.java:119-135 | the similarity is 0 when the lengths differ or either vector is all zero |
| VectorStore.CosineSymmetric | chatbot-service/src/main/java/com/ecommerce/chatbot/rag/SimpleVectorStore.java:119-135 | the similarity is symmetric in its arguments |
| VectorStore.CosineSelf | chatbot-service/src/main/java/com/ecommerce/chatbot/rag/SimpleVectorStore.java:119-135 | every vector that is not all zero scores exactly 1 against itself |
| VectorStore.CosineBounded | chatbot-service/src/main/java/com/ecommerce/chatbot/rag/SimpleVectorStore.java:119-135 | every similarity lies between -1 and 1 |
| VectorStore.CauchySchwarz | chatbot-service/src/main/java/com/ecommerce/chatbot/rag/SimpleVectorStore.java:127-131 | the squared dot product is at most the product of the two squared norms |
| VectorStore.DotWithinNorms | chatbot-service/src/main/java/com/ecommerce/chatbot/rag/SimpleVectorStore.java:127-134 | the dot product lies between minus and plus the product of the two norms, the denominator of the similarity |
| VectorStore.SumSqSign | chatbot-service/src/main/java/com/ecommerce/chatbot/rag/SimpleVectorStore.java:127-131 | a squared norm is never negative, and it is 0 exactly for the all-zero vector |
| VectorStore.EmbeddingSelfMatch | chatbot-service/src/main/java/com/ecommerce/chatbot/rag/SimpleVectorStore.java:83-135 | a text mentioning some vocabulary term is a perfect match for itself |
| VectorStore.TopOf | chatbot-service/src/main/java/com/ecommerce/chatbot/rag/SimpleVectorStore.java:74-75 | taking the first n of the ranked pairs keeps min(n, size) documents, in ranked order |
| VectorStore.RankedIdsDistinct | chatbot-service/src/main/java/com/ecommerce/chatbot/rag/SimpleVectorStore.java:71-73 | sorting the scored documents keeps their ids distinct |
| VectorStore.RankedDominance | chatbot-service/src/main/java/com/ecommerce/chatbot/rag/SimpleVectorStore.java:71-73 | a stored document placed after position i scores no more than the one at i |
| VectorStore.RankedEntries | chatbot-service/src/main/java/com/ecommerce/chatbot/rag/SimpleVectorStore.java:71-73 | every ranked pair is a stored document with its own score |
| VectorStore.TopOfRanked | chatbot-service/src/main/java/com/ecommerce/chatbot/rag/SimpleVectorStore.java:73-75 | the kept documents are stored ones, distinct, in non-increasing score order |
| VectorStore.TopOfDominates | chatbot-service/src/main/java/com/ecommerce/chatbot/rag/SimpleVectorStore.java:73-75 | no stored document left out scores above one that is kept |
| VectorStore.ScoredListing | chatbot-service/src/main/java/com/ecommerce/chatbot/rag/SimpleVectorStore.java:71-72 | scoring the listing covers every stored document exactly once |
| VectorStore.RankingIsTopK | chatbot-service/src/main/java/com/ecommerce/chatbot/rag/SimpleVectorStore.java:69-76 | sorting the scored documents and keeping the first k is a top-k answer: min(k, size) distinct stored documents, best first, none left out scoring higher |
| VectorStore.PartialListingStep | chatbot-service/src/main/java/com/ecommerce/chatbot/rag/SimpleVectorStore.java:79-80 | taking one more id out of the remaining ones extends a partial listing by its document |
| VectorStore.DocumentId | chatbot-service/src/main/java/com/ecommerce/chatbot/rag/SimpleVectorStore.java:40 | a product's document id starts with "product_" |
| VectorStore.Processed | chatbot-service/src/main/java/com/ecommerce/chatbot/rag/SimpleVectorStore.java:39-50 | the refresh loop handles the fetched products up to the first null one, in order |
| VectorStore.ProcessedStep | chatbot-service/src/main/java/com/ecommerce/chatbot/rag/SimpleVectorStore.java:39-50 | a non-null head product is processed first, and its id joins those of the rest |
| VectorStore.RefreshedKeys | chatbot-service/src/main/java/com/ecommerce/chatbot/rag/SimpleVectorStore.java:34-56 | after a refresh the keys are the old keys together with the ids of the processed products: nothing is removed |
| VectorStore.RefreshedKeeps | chatbot-service/src/main/java/com/ecommerce/chatbot/rag/SimpleVectorStore.java:34-56 | a stored document whose id no processed product has is unchanged by a refresh |
| VectorStore.HeadIdNotLater | chatbot-service/src/main/java/com/ecommerce/chatbot/rag/SimpleVectorStore.java:39-50 | an id not repeated later in the fetch is absent from the ids of the later products |
| VectorStore.RefreshedUpserts | chatbot-service/src/main/java/com/ecommerce/chatbot/rag/SimpleVectorStore.java:39-50 | the refreshed store is the old one with each processed product's document put under its id, in fetch order |
| VectorStore.UpsertedLastWins | chatbot-service/src/main/java/com/ecommerce/chatbot/rag/SimpleVectorStore.java:58-61 | after the puts, an id holds the last document put under it |
| VectorStore.UpsertedKeeps | chatbot-service/src/main/java/com/ecommerce/chatbot/rag/SimpleVectorStore.java:58-61 | an id that none of the documents uses keeps its old document |
| VectorStore.RefreshedLastWins | chatbot-service/src/main/java/com/ecommerce/chatbot/rag/SimpleVectorStore.java:34-56 | under each processed id sits the document of the last product fetched with that id, with its text and embedding |
| VectorStore.SquaredLength | chatbot-service/src/main/java/com/ecommerce/chatbot/rag/SimpleVectorStore.java:104-108 | the loop's accumulated sum equals the vector's squared length |
| VectorStore.DivideAll | chatbot-service/src/main/java/com/ecommerce/chatbot/rag/SimpleVectorStore.java:110-114 | every array component is divided by the norm, in place |
| VectorStore.SimpleVectorStore.constructor | chatbot-service/src/main/java/com/ecommerce/chatbot/rag/SimpleVectorStore.java:25 | the store starts empty |
| VectorStore.SimpleVectorStore.CreateSimpleEmbedding | chatbot-service/src/main/java/com/ecommerce/chatbot/rag/SimpleVectorStore.java:83-117 | the loops compute exactly the normalised presence vector of the lower-cased text |
| VectorStore.SimpleVectorStore.CosineSimilarity | chatbot-service/src/main/java/com/ecommerce/chatbot/rag/SimpleVectorStore.java:119-135 | the loop computes exactly the cosine similarity, 0 for different lengths or a zero norm |
| VectorStore.SimpleVectorStore.AddDocument | chatbot-service/src/main/java/com/ecommerce/chatbot/rag/SimpleVectorStore.java:58-61 | the document with the embedding of its text is stored under its id, replacing any old one; every other id is unchanged |
| VectorStore.SimpleVectorStore.RefreshProductData | chatbot-service/src/main/java/com/ecommerce/chatbot/rag/SimpleVectorStore.java:34-56 | a failed fetch leaves the store unchanged; otherwise every product up to the first null one is upserted in order under its document id |
| VectorStore.SimpleVectorStore.Values | chatbot-service/src/main/java/com/ecommerce/chatbot/rag/SimpleVectorStore.java:71 | lists every stored document exactly once |
| VectorStore.SimpleVectorStore.GetAllDocuments | chatbot-service/src/main/java/com/ecommerce/chatbot/rag/SimpleVectorStore.java:79-81 | returns every stored document exactly once |
| VectorStore.SimpleVectorStore.ScoreAll | chatbot-service/src/main/java/com/ecommerce/chatbot/rag/SimpleVectorStore.java:71-72 | pairs each listed document with its similarity to the query embedding |
| VectorStore.SimpleVectorStore.SimilaritySearch | chatbot-service/src/main/java/com/ecommerce/chatbot/rag/SimpleVectorStore.java:63-77 | an empty store answers an empty list; a negative topK on a non-empty store fails; any other topK yields a top-k answer for the query's embedding |
| VectorStore.EmptyStoreSearch | chatbot-service/src/main/java/com/ecommerce/chatbot/rag/SimpleVectorStore.java:64-67 | an empty store answers every query with an empty list, even for a negative topK |
| VectorStore.SearchFindsExactText | chatbot-service/src/main/java/com/ecommerce/chatbot/rag/SimpleVectorStore.java:63-77 | searching for the text of a stored document that mentions a vocabulary term puts first a document that is a perfect match, scoring exactly 1 |
| Rag.LinesPrefix | chatbot-service/src/main/java/com/ecommerce/chatbot/rag/RagService.java:82-88 | the context lines of the first i documents are a prefix of all the lines |
| Rag.LinesStartWithOne | chatbot-service/src/main/java/com/ecommerce/chatbot/rag/RagService.java:82-88 | the lines of a non-empty document list start with "1" |
| Rag.Context | chatbot-service/src/main/java/com/ecommerce/chatbot/rag/RagService.java:77-89 | the context is the fixed "Aucun produit trouvé dans la base de données." exactly when there are no documents |
| Rag.ContextLine | chatbot-service/src/main/java/com/ecommerce/chatbot/rag/RagService.java:82-88 | document i appears as line "(i+1). text\n" after the lines of the documents before it, in input order |
| Rag.ContextContainsText | chatbot-service/src/main/java/com/ecommerce/chatbot/rag/RagService.java:77-89 | any text occurring in a document's text occurs in the context |
| Rag.Fallback | chatbot-service/src/main/java/com/ecommerce/chatbot/rag/RagService.java:133-146 | the fallback is the fixed not-found message exactly when the context contains "Aucun produit"; otherwise it starts with the template's introduction and contains the context verbatim |
| Rag.FallbackNotApology | chatbot-service/src/main/java/com/ecommerce/chatbot/rag/RagService.java:133-146 | the fallback is never the apology |
| Rag.CallModel | chatbot-service/src/main/java/com/ecommerce/chatbot/rag/RagService.java:91-131 | without an API key, or when the remote call fails, the answer is the fallback; with a key and a successful reply, the answer is the reply's content |
| Rag.NoKeyNoCall | chatbot-service/src/main/java/com/ecommerce/chatbot/rag/RagService.java:92-95 | without an API key, the answer does not depend on the remote model at all |
| Rag.KeyOneRequest | chatbot-service/src/main/java/com/ecommerce/chatbot/rag/RagService.java:97-131 | with an API key, the answer depends only on the model's reply to the one request built from the key, model, query and context |
| Rag.MarkerInTextHidesResults | chatbot-service/src/main/java/com/ecommerce/chatbot/rag/RagService.java:133-137 | without an API key, a retrieved document whose text contains "Aucun produit" turns the answer into the not-found message |
| Rag.ProductsOf | chatbot-service/src/main/java/com/ecommerce/chatbot/rag/RagService.java:150-154 | the recommended products are exactly the products of the documents that have one, never more than the documents |
| Rag.ProductsOfConcat | chatbot-service/src/main/java/com/ecommerce/chatbot/rag/RagService.java:150-154 | products are taken in document order |
| Rag.RecommendationBounds | chatbot-service/src/main/java/com/ecommerce/chatbot/rag/RagService.java:148-155 | at most max(limit, 0) recommendations, each the product of a stored document |
| Rag.EmptyStoreNoKey | chatbot-service/src/main/java/com/ecommerce/chatbot/rag/RagService.java:56-75 | with an empty store and no API key the answer is the not-found message, never the apology |
| Rag.NoKeyApology | chatbot-service/src/main/java/com/ecommerce/chatbot/rag/RagService.java:56-75 | without an API key, the answer is the apology exactly when the store is non-empty and topK is negative |
| Rag.GreetingResponse | chatbot-service/src/main/java/com/ecommerce/chatbot/rag/RagService.java:157-171 | the welcome starts with "Bonjour " followed by the user's first name |
| Rag.RagService.constructor | chatbot-service/src/main/java/com/ecommerce/chatbot/rag/RagService.java:25-33 | keeps the store, topK, API key and model it is given |
| Rag.RagService.BuildContext | chatbot-service/src/main/java/com/ecommerce/chatbot/rag/RagService.java:77-89 | the loop builds exactly the context: the fixed sentence for no documents, else the numbered lines |
| Rag.RagService.ProcessQuery | chatbot-service/src/main/java/com/ecommerce/chatbot/rag/RagService.java:56-75 | the answer is the apology when the search throws, else the model's answer over the context of a valid search result for the query |
| Rag.RagService.GetProductRecommendations | chatbot-service/src/main/java/com/ecommerce/chatbot/rag/RagService.java:148-155 | fails when the search throws; else the products of a valid top-limit search result, in result order |
| ChatBot.Normalized | chatbot-service/src/main/java/com/ecommerce/chatbot/telegram/EcomChatBot.java:84 | the normalised message is a piece of the lower-cased message, no longer than the message, with no blank at either end |
| ChatBot.Command | chatbot-service/src/main/java/com/ecommerce/chatbot/telegram/EcomChatBot.java:103-125 | the whole command table: "/start" greets (and only it does), "/help" shows the help, "/products" the popular products, and "/search " followed by a blank term the missing-term reply, else asks "Rechercher: " followed by the trimmed term; a command with none of these prefixes is unknown |
| ChatBot.Dispatch | chatbot-service/src/main/java/com/ecommerce/chatbot/telegram/EcomChatBot.java:83-98 | a question is either the message as typed or a search; help, the listing, the missing-term reply and the unknown-command reply only answer a message starting with "/"; any other message greets or is asked as typed |
| ChatBot.CommandsOnly | chatbot-service/src/main/java/com/ecommerce/chatbot/telegram/EcomChatBot.java:84-89 | a normalised message starting with "/" is handled only as a command: it greets only for "/start" and asks only a "Rechercher: " query |
| ChatBot.GreetingOrQuestion | chatbot-service/src/main/java/com/ecommerce/chatbot/telegram/EcomChatBot.java:91-97 | any other message greets exactly when a greeting word occurs in it, and is otherwise asked unchanged |
| ChatBot.ChipsGreets | chatbot-service/src/main/java/com/ecommerce/chatbot/telegram/EcomChatBot.java:130-137 | "hi" inside "chips" makes "Des chips?" a greeting |
| ChatBot.TrimKeepsLast | chatbot-service/src/main/java/com/ecommerce/chatbot/telegram/EcomChatBot.java:84 | trimming cannot empty a string whose last character is not blank |
| ChatBot.SearchAlwaysHasTerm | chatbot-service/src/main/java/com/ecommerce/chatbot/telegram/EcomChatBot.java:116-121 | a message normalised to start with "/search " always has a non-blank term after it, and forwards "Rechercher: " plus the trimmed term |
| ChatBot.NeverMissingTerm | chatbot-service/src/main/java/com/ecommerce/chatbot/telegram/EcomChatBot.java:116-119 | the empty-search-term reply is unreachable from any message |
| ChatBot.PopularMessage | chatbot-service/src/main/java/com/ecommerce/chatbot/telegram/EcomChatBot.java:143-163 | the listing is the fixed "Aucun produit disponible" text exactly for no products; otherwise it starts with the header and is at least as long as the closing line |
| ChatBot.EntriesPrefix | chatbot-service/src/main/java/com/ecommerce/chatbot/telegram/EcomChatBot.java:153-158 | the entries of the first i products are a prefix of all entries |
| ChatBot.EntriesStep | chatbot-service/src/main/java/com/ecommerce/chatbot/telegram/EcomChatBot.java:153-158 | each product adds one entry after those of the products before it |
| ChatBot.PopularEntry | chatbot-service/src/main/java/com/ecommerce/chatbot/telegram/EcomChatBot.java:150-158 | product i appears as entry number i+1 after the header and the entries before it |
| ChatBot.EntryDefaults | chatbot-service/src/main/java/com/ecommerce/chatbot/telegram/EcomChatBot.java:155-157 | a product with null price and quantity is listed with its number and name, its price and its stock shown as 0 |
| ChatBot.PopularRecommendations | chatbot-service/src/main/java/com/ecommerce/chatbot/telegram/EcomChatBot.java:144 | the listing asks for at most 5 recommendations for "populaire meilleur", and that request never fails |
| ChatBot.EcomChatBot.constructor | chatbot-service/src/main/java/com/ecommerce/chatbot/telegram/EcomChatBot.java:35-39 | keeps the retrieval service it is given |
| ChatBot.EcomChatBot.IsGreeting | chatbot-service/src/main/java/com/ecommerce/chatbot/telegram/EcomChatBot.java:130-138 | the loop answers true exactly when one of the seven greeting words occurs in the message |
| ChatBot.EcomChatBot.BuildPopularMessage | chatbot-service/src/main/java/com/ecommerce/chatbot/telegram/EcomChatBot.java:146-162 | the loop builds exactly the popular-products listing |
| ChatBot.EcomChatBot.GetPopularProductsMessage | chatbot-service/src/main/java/com/ecommerce/chatbot/telegram/EcomChatBot.java:143-163 | the listing is built from a valid recommendation for "populaire meilleur" with limit 5 |
| ChatBot.EcomChatBot.HandleCommand | chatbot-service/src/main/java/com/ecommerce/chatbot/telegram/EcomChatBot.java:103-125 | the reply is the one of the command chosen by prefix, in the order /start, /help, /products, "/search " |
| ChatBot.EcomChatBot.ProcessMessage | chatbot-service/src/main/java/com/ecommerce/chatbot/telegram/EcomChatBot.java:83-98 | the reply is the one of the action chosen by the dispatch rules |
| JavaText.Contains | chatbot-service/src/main/java/com/ecommerce/chatbot/telegram/EcomChatBot.java:133 | String.contains: true exactly when the text occurs at some position |
| JavaText.IndexOf | kafka-streams-service/src/main/java/com/ecommerce/kafka/streams/config/KafkaStreamsConfig.java:95-97 | String.indexOf: the first occurrence at or after the start, or -1 when there is none |
| JavaText.Trim | chatbot-service/src/main/java/com/ecommerce/chatbot/telegram/EcomChatBot.java:84 | String.trim: the result is the piece of the input left after removing only blanks from both ends; it has no blank at either end, and is empty exactly when every character is blank |
| JavaText.ToLower | chatbot-service/src/main/java/com/ecommerce/chatbot/telegram/EcomChatBot.java:84 | String.toLowerCase keeps the length and maps each character |
| JavaText.ToUpper | gateway-service/src/main/java/org/example/gatewayservice/security/SecurityConfig.java:84 | String.toUpperCase never shortens a text and is empty exactly for the empty text |
| JavaText.ParseLong | kafka-streams-service/src/main/java/com/ecommerce/kafka/streams/service/AnalyticsService.java:147 | Long.parseLong accepts only a text starting with a digit or a sign, and its value lies within the 64-bit long range |
| JavaText.ToUpperIdempotent | gateway-service/src/main/java/org/example/gatewayservice/security/SecurityConfig.java:84 | upper-casing twice is upper-casing once |
| JavaText.ParseLongOfIntToString | kafka-streams-service/src/main/java/com/ecommerce/kafka/streams/service/AnalyticsService.java:147 | Long.parseLong reads back every long as printed |
| JavaText.Split | kafka-streams-service/src/main/java/com/ecommerce/kafka/streams/service/AnalyticsService.java:140 | String.split with a single-character separator: no part contains the separator; a text without the separator is its own single part; with the separator, trailing empty parts are dropped; and joining the parts with the separator gives the input back minus some trailing separators |
| JavaText.SplitPair | kafka-streams-service/src/main/java/com/ecommerce/kafka/streams/service/AnalyticsService.java:142 | a key and value joined by the separator split back into the two |
| JavaText.SplitTriple | kafka-streams-service/src/main/java/com/ecommerce/kafka/streams/service/AnalyticsService.java:140 | three separator-free parts, the last non-empty, split back into the three |
| JavaText.RemoveChar | kafka-streams-service/src/main/java/com/ecommerce/kafka/streams/service/AnalyticsService.java:139 | String.replace with an empty replacement removes every occurrence and nothing else |
| EventState.Increment | kafka-consumer-service/src/main/java/com/ecommerce/kafka/consumer/service/KafkaConsumerService.java:37 | computeIfAbsent(k, 0).incrementAndGet(): the key's counter goes up by one and every other counter is unchanged |
| EventState.TotalIncrement | kafka-consumer-service/src/main/java/com/ecommerce/kafka/consumer/service/KafkaConsumerService.java:35-37 | incrementing one counter raises the sum of the counters by one |
| EventState.TotalUpdate | kafka-consumer-service/src/main/java/com/ecommerce/kafka/consumer/service/KafkaConsumerService.java:37 | replacing one counter changes the sum by the difference |
| EventState.CountsSnoc | kafka-consumer-service/src/main/java/com/ecommerce/kafka/consumer/service/KafkaConsumerService.java:37 | counting one more key is one increment of the counts |
| EventState.CountsOccurrences | kafka-consumer-service/src/main/java/com/ecommerce/kafka/consumer/service/KafkaConsumerService.java:37 | the counter of each key is its number of occurrences, and only occurring keys have one |
| EventState.TotalCounts | kafka-consumer-service/src/main/java/com/ecommerce/kafka/consumer/service/KafkaConsumerService.java:35-37 | the counters of a key history sum to its length |
| EventState.PushFront | kafka-consumer-service/src/main/java/com/ecommerce/kafka/consumer/service/KafkaConsumerService.java:39-44 | add at index 0 and drop the last past the capacity: the new event is first and the others shift by one |
| EventState.Latest | kafka-consumer-service/src/main/java/com/ecommerce/kafka/consumer/service/KafkaConsumerService.java:39-44 | the newest events, newest first, at most the capacity |
| EventState.PushFrontLatest | kafka-consumer-service/src/main/java/com/ecommerce/kafka/consumer/service/KafkaConsumerService.java:39-44 | pushing an event onto the latest events gives the latest events of the longer history |
| EventState.CopyOf | kafka-consumer-service/src/main/java/com/ecommerce/kafka/consumer/service/KafkaConsumerService.java:85-89 | a fresh array holding the list's events |
| Consumer.KeyOf | kafka-consumer-service/src/main/java/com/ecommerce/kafka/consumer/service/KafkaConsumerService.java:36 | a missing key gives the default; a present key gives its text, or nothing when the value is null or not a string (the map or the cast throws) |
| Consumer.KafkaConsumerService.constructor | kafka-consumer-service/src/main/java/com/ecommerce/kafka/consumer/service/KafkaConsumerService.java:22-29 | empty lists, zero counters and empty counter maps |
| Consumer.KafkaConsumerService.ConsumeOrderEvent | kafka-consumer-service/src/main/java/com/ecommerce/kafka/consumer/service/KafkaConsumerService.java:32-48 | orderCount goes up by one; the status counter (UNKNOWN when absent) goes up by one, and the order goes first in the capped recent list, unless the status is not a string; page-view state is unchanged |
| Consumer.KafkaConsumerService.StoreOrder | kafka-consumer-service/src/main/java/com/ecommerce/kafka/consumer/service/KafkaConsumerService.java:35-44 | the order-side state update for an accepted order |
| Consumer.KafkaConsumerService.ConsumePageViewEvent | kafka-consumer-service/src/main/java/com/ecommerce/kafka/consumer/service/KafkaConsumerService.java:51-67 | the same for page views, with default page "/unknown"; order state is unchanged |
| Consumer.KafkaConsumerService.StorePageView | kafka-consumer-service/src/main/java/com/ecommerce/kafka/consumer/service/KafkaConsumerService.java:54-63 | the page-view-side state update for an accepted page view |
| Consumer.KafkaConsumerService.GetStatistics | kafka-consumer-service/src/main/java/com/ecommerce/kafka/consumer/service/KafkaConsumerService.java:76-83 | totals and counter maps as stored; the counter sums plus the events that threw equal the totals |
| Consumer.KafkaConsumerService.GetRecentOrders | kafka-consumer-service/src/main/java/com/ecommerce/kafka/consumer/service/KafkaConsumerService.java:85-89 | a fresh copy of the recent orders |
| Consumer.KafkaConsumerService.GetRecentPageViews | kafka-consumer-service/src/main/java/com/ecommerce/kafka/consumer/service/KafkaConsumerService.java:91-95 | a fresh copy of the recent page views |
| Consumer.PushRecent | kafka-consumer-service/src/main/java/com/ecommerce/kafka/consumer/service/KafkaConsumerService.java:39-44 | the in-place add-at-front-and-trim equals PushFront |
| Consumer.TracksStep | kafka-consumer-service/src/main/java/com/ecommerce/kafka/consumer/service/KafkaConsumerService.java:35-44 | one accepted event keeps the recent list equal to the latest events and the counters equal to the key counts |
| Consumer.CountersMatchTotals | kafka-consumer-service/src/main/java/com/ecommerce/kafka/consumer/service/KafkaConsumerService.java:35-56 | when no event threw, the status counters sum to orderCount and the page counters to pageViewCount |
| Consumer.RecentBounded | kafka-consumer-service/src/main/java/com/ecommerce/kafka/consumer/service/KafkaConsumerService.java:39-63 | the recent lists never exceed 100 events, and the newest order is first |
| Analytics.Cleaned | kafka-streams-service/src/main/java/com/ecommerce/kafka/streams/service/AnalyticsService.java:139 | no '{', '}' or '"' is left, and the text does not grow |
| Analytics.CleanedConcat | kafka-streams-service/src/main/java/com/ecommerce/kafka/streams/service/AnalyticsService.java:139 | removal works piece by piece |
| Analytics.CleanedPlain | kafka-streams-service/src/main/java/com/ecommerce/kafka/streams/service/AnalyticsService.java:139 | a text without braces or quotes is unchanged |
| Analytics.PairsOf | kafka-streams-service/src/main/java/com/ecommerce/kafka/streams/service/AnalyticsService.java:141-142 | one optional pair per piece, in order |
| Analytics.PutAllKeys | kafka-streams-service/src/main/java/com/ecommerce/kafka/streams/service/AnalyticsService.java:141-152 | a key is in the result exactly when some kept piece has it |
| Analytics.PutAllConcat | kafka-streams-service/src/main/java/com/ecommerce/kafka/streams/service/AnalyticsService.java:141-152 | later pieces override earlier ones |
| Analytics.ParsedKeys | kafka-streams-service/src/main/java/com/ecommerce/kafka/streams/service/AnalyticsService.java:140-152 | a key is parsed exactly when some piece yields it |
| Analytics.LastPairWins | kafka-streams-service/src/main/java/com/ecommerce/kafka/streams/service/AnalyticsService.java:146-150 | for a repeated key the last piece wins |
| Analytics.PairOfKeyValue | kafka-streams-service/src/main/java/com/ecommerce/kafka/streams/service/AnalyticsService.java:142-150 | "key:value" with no further ':' yields the trimmed key and the parsed trimmed value |
| Analytics.EmptyValueDropped | kafka-streams-service/src/main/java/com/ecommerce/kafka/streams/service/AnalyticsService.java:142-143 | "k:" is dropped, because split drops the trailing empty part |
| Analytics.ColonInValueDropped | kafka-streams-service/src/main/java/com/ecommerce/kafka/streams/service/AnalyticsService.java:142-143 | a value containing ':' (a timestamp) is dropped |
| Analytics.ParseValue | kafka-streams-service/src/main/java/com/ecommerce/kafka/streams/service/AnalyticsService.java:146-150 | a value is stored as a number exactly when Long.parseLong accepts it, and that number is a long; otherwise it is stored as the text itself |
| Analytics.PairOf | kafka-streams-service/src/main/java/com/ecommerce/kafka/streams/service/AnalyticsService.java:142-150 | a piece without ':' yields no pair; a pair's key is trimmed and free of ':', and a text value is free of ':' |
| Analytics.Parsed | kafka-streams-service/src/main/java/com/ecommerce/kafka/streams/service/AnalyticsService.java:136-154 | every key of the parsed map is trimmed and free of ':' |
| Analytics.ToLong | kafka-streams-service/src/main/java/com/ecommerce/kafka/streams/service/AnalyticsService.java:109 | the (long) cast truncates toward zero and saturates at the long range |
| Analytics.Wrap | kafka-streams-service/src/main/java/com/ecommerce/kafka/streams/service/AnalyticsService.java:109 | the long addition wraps modulo 2^64 into the long range, and keeps values already in range |
| Analytics.PutAllStep | kafka-streams-service/src/main/java/com/ecommerce/kafka/streams/service/AnalyticsService.java:141-151 | one more piece puts its trimmed key and parsed value over the map built so far when it splits on ":" into exactly two parts, and leaves the map alone otherwise |
| Analytics.ParseJson | kafka-streams-service/src/main/java/com/ecommerce/kafka/streams/service/AnalyticsService.java:136-154 | the loop computes exactly the parsed map of the text |
| Analytics.AnalyticsService.constructor | kafka-streams-service/src/main/java/com/ecommerce/kafka/streams/service/AnalyticsService.java:33-42 | zero counters, empty counter maps, an empty recent list |
| Analytics.AnalyticsService.ConsumeAnalytics | kafka-streams-service/src/main/java/com/ecommerce/kafka/streams/service/AnalyticsService.java:48-69 | the parsed map with receivedAt added goes first in the recent list, capped at 50 |
| Analytics.AnalyticsService.UpdateOrderStats | kafka-streams-service/src/main/java/com/ecommerce/kafka/streams/service/AnalyticsService.java:107-111 | one more order, the status counter up by one, and the amount in whole cents added to the revenue with long wrap-around |
| Analytics.AnalyticsService.UpdatePageViewStats | kafka-streams-service/src/main/java/com/ecommerce/kafka/streams/service/AnalyticsService.java:116-120 | one more page view, and the page and action counters each up by one |
| Analytics.AnalyticsService.GetStatistics | kafka-streams-service/src/main/java/com/ecommerce/kafka/streams/service/AnalyticsService.java:83-93 | the counters as stored, the revenue in euros, and the counter sums equal to the totals (page and action sums both equal the page-view total) |
| Analytics.AnalyticsService.GetRecentAnalytics | kafka-streams-service/src/main/java/com/ecommerce/kafka/streams/service/AnalyticsService.java:98-102 | a fresh copy of the recent list |
| StreamsConfig.Marker | kafka-streams-service/src/main/java/com/ecommerce/kafka/streams/config/KafkaStreamsConfig.java:95 | the marker is the field name between quotes, followed by ':' and an opening quote |
| StreamsConfig.Extract | kafka-streams-service/src/main/java/com/ecommerce/kafka/streams/config/KafkaStreamsConfig.java:93-104 | no marker gives the default; any other result never contains '"' |
| StreamsConfig.ExtractUnclosed | kafka-streams-service/src/main/java/com/ecommerce/kafka/streams/config/KafkaStreamsConfig.java:97-103 | a marker without a closing quote after it gives the default |
| StreamsConfig.ExtractAfter | kafka-streams-service/src/main/java/com/ecommerce/kafka/streams/config/KafkaStreamsConfig.java:95-98 | the text between the first marker and the next quote is returned |
| StreamsConfig.ExtractStatus | kafka-streams-service/src/main/java/com/ecommerce/kafka/streams/config/KafkaStreamsConfig.java:93-104 | no "status" marker gives "UNKNOWN"; any other result is free of '"' |
| StreamsConfig.ExtractPage | kafka-streams-service/src/main/java/com/ecommerce/kafka/streams/config/KafkaStreamsConfig.java:106-117 | no "page" marker gives "/unknown"; any other result is free of '"' |
| StreamsConfig.ExtractAction | kafka-streams-service/src/main/java/com/ecommerce/kafka/streams/config/KafkaStreamsConfig.java:119-130 | no "action" marker gives "VIEW"; any other result is free of '"' |
| StreamsConfig.Record | kafka-streams-service/src/main/java/com/ecommerce/kafka/streams/config/KafkaStreamsConfig.java:54-55 | extracting a record's own field from it gives back its key whenever the key is free of '"', whatever the default |
| StreamsConfig.StatusOutput | kafka-streams-service/src/main/java/com/ecommerce/kafka/streams/config/KafkaStreamsConfig.java:52-55 | a status count is keyed by the status, and extractStatus reads the status back from its value |
| StreamsConfig.PageOutput | kafka-streams-service/src/main/java/com/ecommerce/kafka/streams/config/KafkaStreamsConfig.java:73-76 | a page count is keyed by the page, and extractPage reads the page back from its value |
| StreamsConfig.ActionOutput | kafka-streams-service/src/main/java/com/ecommerce/kafka/streams/config/KafkaStreamsConfig.java:84-87 | an action count is keyed "action-" followed by the action, so distinct actions get distinct keys, and extractAction reads the action back from its value |
| StreamsConfig.CleanedQuotedText | kafka-streams-service/src/main/java/com/ecommerce/kafka/streams/config/KafkaStreamsConfig.java:54-55 | removing the quotes from a quoted text gives the text |
| StreamsConfig.CleanedMember | kafka-streams-service/src/main/java/com/ecommerce/kafka/streams/config/KafkaStreamsConfig.java:54-55 | a cleaned JSON member is its name, ':' and its cleaned value |
| StreamsConfig.CleanedObject | kafka-streams-service/src/main/java/com/ecommerce/kafka/streams/config/KafkaStreamsConfig.java:54-55 | a cleaned three-member record is its members joined by ',' |
| StreamsConfig.ColonWindowDropped | kafka-streams-service/src/main/java/com/ecommerce/kafka/streams/config/KafkaStreamsConfig.java:54-55 | the window member, whose value contains ':', yields no pair |
| StreamsConfig.ParsedObject | kafka-streams-service/src/main/java/com/ecommerce/kafka/streams/config/KafkaStreamsConfig.java:54-55 | parsing a three-member record keeps the field and the count and drops the window |
| StreamsConfig.ParsedRecord | kafka-streams-service/src/main/java/com/ecommerce/kafka/streams/config/KafkaStreamsConfig.java:54-55 | parsing an output record whose window holds ':' gives exactly the field and the count |
| GatewaySecurity.AuthorityOfRole | gateway-service/src/main/java/org/example/gatewayservice/security/SecurityConfig.java:84 | an authority is "ROLE_" followed by the upper-cased role, and upper-casing the role first changes nothing |
| GatewaySecurity.AuthoritiesOfRoles | gateway-service/src/main/java/org/example/gatewayservice/security/SecurityConfig.java:81-85 | the roles map to authorities exactly when all are strings, one authority per role, in order |
| GatewaySecurity.RolesAreAuthorities | gateway-service/src/main/java/org/example/gatewayservice/security/SecurityConfig.java:83-85 | every authority from a roles list is "ROLE_" and an upper-cased name |
| GatewaySecurity.ClientsAreAuthorities | gateway-service/src/main/java/org/example/gatewayservice/security/SecurityConfig.java:91-101 | so is every authority from the clients |
| GatewaySecurity.RealmAreAuthorities | gateway-service/src/main/java/org/example/gatewayservice/security/SecurityConfig.java:79-87 | every authority from the realm roles is "ROLE_" followed by text that upper-casing leaves unchanged |
| GatewaySecurity.ResourceAreAuthorities | gateway-service/src/main/java/org/example/gatewayservice/security/SecurityConfig.java:89-102 | every authority from the client roles is "ROLE_" followed by text that upper-casing leaves unchanged |
| GatewaySecurity.Converted | gateway-service/src/main/java/org/example/gatewayservice/security/SecurityConfig.java:76-105 | every authority the converter produces is "ROLE_" followed by text that upper-casing leaves unchanged |
| GatewaySecurity.RolesCount | gateway-service/src/main/java/org/example/gatewayservice/security/SecurityConfig.java:81-85 | one authority per role |
| GatewaySecurity.ClientsCount | gateway-service/src/main/java/org/example/gatewayservice/security/SecurityConfig.java:91-101 | the clients contribute one authority per client role |
| GatewaySecurity.ConvertedCount | gateway-service/src/main/java/org/example/gatewayservice/security/SecurityConfig.java:76-105 | the authorities number the realm roles plus all client roles: duplicates are kept |
| GatewaySecurity.ClientsConcat | gateway-service/src/main/java/org/example/gatewayservice/security/SecurityConfig.java:91-101 | two runs of clients succeed together exactly when each does, and then the first run's authorities come before the second's |
| GatewaySecurity.ClientsSnoc | gateway-service/src/main/java/org/example/gatewayservice/security/SecurityConfig.java:91-101 | a further client appends its own authorities after the earlier ones, or fails the run |
| GatewaySecurity.ClientsOne | gateway-service/src/main/java/org/example/gatewayservice/security/SecurityConfig.java:92-100 | a single client yields exactly its own authorities |
| GatewaySecurity.ClientSkipped | gateway-service/src/main/java/org/example/gatewayservice/security/SecurityConfig.java:92-100 | a client entry that is not a map, or has no roles, contributes nothing |
| GatewaySecurity.ClientsErrSuffix | gateway-service/src/main/java/org/example/gatewayservice/security/SecurityConfig.java:91-101 | a failing client makes the whole conversion fail whatever follows |
| GatewaySecurity.ClientsErrPersists | gateway-service/src/main/java/org/example/gatewayservice/security/SecurityConfig.java:91-101 | a failure among the first clients persists |
| GatewaySecurity.ClientsStep | gateway-service/src/main/java/org/example/gatewayservice/security/SecurityConfig.java:91-101 | the first i + 1 clients are the first i joined with client i: its authorities follow, or the run fails |
| GatewaySecurity.NoRealmRoles | gateway-service/src/main/java/org/example/gatewayservice/security/SecurityConfig.java:79-87 | a missing realm_access claim contributes nothing |
| GatewaySecurity.NoClaims | gateway-service/src/main/java/org/example/gatewayservice/security/SecurityConfig.java:77-104 | with neither claim the result is empty |
| GatewaySecurity.Convert | gateway-service/src/main/java/org/example/gatewayservice/security/SecurityConfig.java:76-105 | the accumulation computes exactly the realm authorities followed by the client authorities, or fails as the casts do |
| GatewaySecurity.AddClients | gateway-service/src/main/java/org/example/gatewayservice/security/SecurityConfig.java:89-102 | adding the clients' authorities in order to those gathered so far, or failing |
| AuthGuard.AnyInRole | ecom-web-app/src/app/auth/auth.guard.ts:21-23 | true exactly when the user holds one of the required roles |
| AuthGuard.Guard | ecom-web-app/src/app/auth/auth.guard.ts:5-32 | not logged in: login with the requested URL and no access; logged in with no required roles: access; otherwise access exactly when some required role is held |
| AuthGuard.AdminGuard | ecom-web-app/src/app/auth/auth.guard.ts:34-53 | access exactly when logged in with role ADMIN; otherwise login or the unauthorized page |
| AuthGuard.AdminGuardIsGuard | ecom-web-app/src/app/auth/auth.guard.ts:18-52 | authGuard with roles ["ADMIN"] decides exactly as adminGuard |
| AuthGuard.NotLoggedInBlocked | ecom-web-app/src/app/auth/auth.guard.ts:11-16 | no guard lets a user in who is not logged in |
| AuthGuard.MoreRolesNoStricter | ecom-web-app/src/app/auth/auth.guard.ts:20-28 | adding required roles never turns away a logged-in user who was let in |

## Left out

- Consumer.KafkaConsumerService.GetRecentOrders, Consumer.KafkaConsumerService.GetRecentPageViews, Analytics.AnalyticsService.GetRecentAnalytics: the code returns a new list that shares its element maps with the service (kafka-consumer-service/src/main/java/com/ecommerce/kafka/consumer/service/KafkaConsumerService.java:85-95, kafka-streams-service/src/main/java/com/ecommerce/kafka/streams/service/AnalyticsService.java:98-102), so a caller that changes a returned map changes the stored event. Here events are immutable values, so that aliasing is not modelled.

- **Transport and I/O.** None of these is modelled:
  - the Telegram transport: `onUpdateReceived`, `sendResponse` with its Markdown retry, the quick-reply keyboard, `registerBot`, `getBotUsername`;
  - the WebSocket broadcasts, including `consumeAnalyticsEvent`, whose only effect is a broadcast;
  - `broadcastStatistics` and `getStreamsState`.
- **The remote chat model.** The HTTP call and the JSON parsing of its reply are a function parameter.
- **The inventory fetch.** It is a `Result` parameter. The request itself is library code.
- **Scheduling, startup hooks and concurrency.** `@Scheduled`, `@PostConstruct`, `ConcurrentHashMap`, `AtomicLong` and `synchronized` are modelled as sequential updates of plain fields.
- **Floating point.** Amounts, vector components and scores are exact reals, and `Math.sqrt` is an exact square root passed as a parameter. Rounding of doubles is not modelled.
- **Kafka Streams topology and windowing.** The grouping, the one-minute and 30-second windows and the windowed counts are not modelled. Only the key extractors and the output record format are.
- **Gateway configuration.** The filter chain and the CORS configuration are not modelled, because they depend on Spring path matching.
- **Claim map order.** The map order of the `resource_access` claim is taken as the order of its members.
- **The guards' side effects.** The login redirect and the navigation to "/unauthorized" are recorded in the `Outcome` instead of being performed.
- **Guard roles.** `isUserInRole` is reduced to membership in a set of roles. A route `roles` entry that is not an array is not modelled.
- Catalog.FormatPrice: uses rounding half up on the exact amount and a '.' separator. The default locale's decimal separator and the rounding of the binary double are not modelled.
- JavaText.ToUpper: is the root-locale mapping, and only for ASCII and Latin-1 letters (with 'ß' to "SS"). Java's no-argument toUpperCase uses the JVM's default locale instead. Under a Turkish locale "admin" becomes "ADMİN", so the authority built at SecurityConfig.java:84 would be "ROLE_ADMİN". Other Unicode case mappings are not modelled either.
- JavaText.ToLower: is the root-locale mapping, and only for ASCII and Latin-1 letters. Java's no-argument toLowerCase uses the JVM's default locale instead; under a Turkish locale "I" becomes a dotless "ı".
- JavaText.ParseLong: accepts only ASCII digits. Java also accepts other Unicode decimal digits.
- **Null strings are not modelled.** Message texts, user names, queries and JSON texts are never null. A null user name is an `Option`, and the greeting shows nothing for it.
- Analytics.AnalyticsService.UpdateOrderStats: does not wrap the `AtomicLong` counters `totalOrders` and the per-key counters at 2^63. The revenue does wrap.
- Analytics.AnalyticsService.UpdatePageViewStats: does not wrap the `AtomicLong` counters at 2^63.
- Consumer.KafkaConsumerService.ConsumeOrderEvent: does not wrap the `AtomicLong` counters at 2^63.
- Consumer.KafkaConsumerService.ConsumePageViewEvent: does not wrap the `AtomicLong` counters at 2^63.
- **`getHelpMessage` is a constant.** It is the constant `Rag.HelpMessage`, with no contract of its own.
- **The system prompt and the chat request parameters are constants.** Temperature and max tokens are carried in the request record, and the request has no proved property beyond being the one request sent.
