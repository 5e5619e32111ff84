# Retrieval core of a RAG chat backend, in Dafny

This project models the query-time core of a retrieval-augmented chat backend
and proves properties of that model:

- **Context assembly** (`retrieve_context`, module `Chain`, file `chain.dfy`).
  - The query is embedded and only the first vector is used.
  - The vector index is searched for `top_k` hits. Every hit with non-empty
    text becomes a block `[Source <rank> - Score: <score> - <source>]\n<text>\n`,
    where `<rank>` is the hit's 1-based position in the original list.
  - The blocks are joined with `\n---\n`.
  - An empty hit list gives a fixed "no relevant documentation" sentinel.
  - Any exception gives `"Error retrieving context: " + message` instead of
    propagating.
  - The loop of the source is a method, `Chain.RetrieveContext`. It is proved
    equal to the specification function `Chain.RetrieveContextSpec`, and the
    properties are proved as lemmas about that function.
- **Greeting classifier and chat handler** (`is_greeting` and `chat`, module
  `Chat`, file `chat.dfy`).
  - `is_greeting` is a substring and equality heuristic over the lower-cased,
    stripped question.
  - The handler rejects an empty message list with status 400. It takes the
    last message as the question and skips retrieval for greetings.
  - It builds the fixed three-message request and turns a non-200 status of
    the language-model service into an HTTP error with that status.
- **Vector-index adapter** (`QdrantService` and `get_qdrant_service`, module
  `VectorIndex`, file `vector_index.dfy`).
  - The state is an abstract picture of the vector database: collection
    configurations, and per collection a map from point id to vector and
    payload.
  - `QdrantService` and the module global `_qdrant_service` are classes whose
    methods change that state in place.
  - `EnsureCollection` and `AddDocuments` are each tied to a pure step function
    of the old state. Idempotence, overwrite semantics and error propagation
    are proved as lemmas about those functions.
  - `Search` changes no state; its result is a function of the client's reply.
  - The singleton behaviour of `get_qdrant_service` is stated directly in the
    ensures of `ServiceRegistry.GetQdrantService`. The method `GetTwice` shows
    that a second call returns the instance the first call built.
  - `WellFormed` (every collection has a point table and no other table
    exists) is a stand-alone invariant. No operation requires it, and
    `VectorIndex.StepsPreserveWellFormed` proves that both write steps
    preserve it.

Support modules:

- `Wrappers` (`wrappers.dfy`): the `Option`, `Result` and `Outcome` types that
  stand in for `None` and for raised exceptions.
- `PyStr` (`pystr.dfy`): the Python `str` built-ins the core uses. These are
  `isspace`, `lower`, `strip`, the word count of `split()`, `in`, `join` and
  `str` of an integer.

Calls into code outside the core are parameters:

- the embeddings service's `encode`;
- the vector database's answer to a search;
- the three-decimal score formatting (`fmt`);
- the HTTP response of the language-model service (`upstream`);
- the model name and the system prompt (`ChatConfig`);
- whether a given client call raises (the `fault` arguments).

## Model

| member | source | states |
|---|---|---|
| PyStr.IsSpace | backend/app/routes/chat.py:20 | defines Python's `isspace`: ASCII whitespace, the separators U+001C to U+001F, and the Unicode spaces Python strips |
| PyStr.Lower | backend/app/routes/chat.py:20 | `lower()`: same length, and each character lower-cased on its own |
| PyStr.Strip | backend/app/routes/chat.py:20 | `strip()`: leading and then trailing whitespace removed. `PyStr.StripKeepsNonSpace` proves it removes nothing else |
| PyStr.WordCount | backend/app/routes/chat.py:22 | `len(split())`, counted as the number of maximal runs of non-whitespace. `PyStr.WordCountAtMostNonSpace` bounds it |
| PyStr.WordCountAtMostNonSpace | backend/app/routes/chat.py:22 | `split()` never yields more words than there are non-whitespace characters |
| PyStr.StripKeepsNonSpace | backend/app/routes/chat.py:20 | `strip()` keeps every non-whitespace character |
| PyStr.LowerKeepsNonSpace | backend/app/routes/chat.py:20 | `lower()` keeps the number of non-whitespace characters |
| PyStr.IsSubstring | backend/app/routes/chat.py:22 | defines Python's `in` on strings recursively. `PyStr.IsSubstringIff` characterizes it |
| PyStr.Join | backend/app/services/utilities/chain.py:50 | `sep.join(parts)`. `PyStr.JoinLength` and `PyStr.JoinStartsWithFirst` state its shape |
| PyStr.JoinStartsWithFirst | backend/app/services/utilities/chain.py:50 | a non-empty join begins with its first part |
| PyStr.NatToString | backend/app/services/utilities/chain.py:47 | `str(idx)`: a non-empty string of decimal digits |
| PyStr.NatToStringValue | backend/app/services/utilities/chain.py:47 | `str(n)` reads back as `n` and has no leading zero, so the rank label is `n` written in decimal |
| PyStr.IsSubstringIff | backend/app/routes/chat.py:22 | `greet in question_lower` holds exactly when the phrase occurs at some offset of the question |
| PyStr.JoinLength | backend/app/services/utilities/chain.py:50 | joining k parts adds exactly k-1 separators to the parts' total length |
| Chain.ScoreOf | backend/app/services/utilities/chain.py:40 | `result.get("score", 0)`: a missing score is 0 (stated in full by `Chain.BlockDefaults`) |
| Chain.FieldsOf | backend/app/services/utilities/chain.py:41 | `result.get("payload", {})` for a payload that is not `None`; a missing payload is the empty map |
| Chain.TextOf | backend/app/services/utilities/chain.py:42 | `payload.get("text", payload.get("content", ""))`. `Chain.EmptyTextShadowsContent` and `Chain.ContentFallback` state the fallback |
| Chain.SourceOf | backend/app/services/utilities/chain.py:43 | `payload.get("source", "Unknown")` (stated in full by `Chain.BlockDefaults`) |
| Chain.Kept | backend/app/services/utilities/chain.py:45 | `if text:`, for a hit whose payload is not `None` |
| Chain.Block | backend/app/services/utilities/chain.py:40-48 | the block of one hit at a given rank, built from its score, source and text |
| Chain.Parts | backend/app/services/utilities/chain.py:38-48 | `context_parts` after the loop. `Chain.PartsAreRankedBlocks` characterizes it independently through `Chain.KeptRanks` |
| Chain.KeptRanks | backend/app/services/utilities/chain.py:39-45 | the 1-based ranks of the kept hits. `Chain.KeptRanksExact` characterizes it |
| Chain.HasNullPayload | backend/app/services/utilities/chain.py:41-42 | some hit has a `None` payload, on which `payload.get` raises |
| Chain.Retrieve | backend/app/services/utilities/chain.py:20-53 | the outcome of obtaining the services, encoding, taking the first vector and searching for `top_k` hits; any failure is `Failed`. Its properties are `Chain.FailureIsVisible`, `Chain.OnlyFirstVectorAndTopKMatter` and `Chain.ServiceFailuresBecomeErrorString` |
| Chain.Render | backend/app/services/utilities/chain.py:33-57 | the string for each outcome: the join, the sentinel, or the error prefix with the message |
| Chain.RetrieveContextSpec | backend/app/services/utilities/chain.py:10-57 | `retrieve_context` as a function; `Chain.RetrieveContext` is proved equal to it |
| Chain.FormatBlock | backend/app/services/utilities/chain.py:46-48 | every block begins with `[Source <rank> - Score: ` with the rank written in decimal |
| Chain.Assemble | backend/app/services/utilities/chain.py:33-53 | the sentinel outcome occurs exactly for an empty hit list; failure occurs exactly when a non-empty hit list holds a `None` payload, on which `payload.get` raises |
| Chain.RetrieveContext | backend/app/services/utilities/chain.py:10-57 | the loop over `enumerate(results, 1)` with its early returns yields exactly the context the specification function gives for the same services, query and `top_k` |
| Chain.EmptyResultsGiveSentinel | backend/app/services/utilities/chain.py:33-35 | the result is the sentinel if and only if the search returned no hits |
| Chain.JoinedPartsStartWithBracket | backend/app/services/utilities/chain.py:46-50 | a non-empty join of blocks begins with `[`, so it can never be mistaken for the sentinel or the error text |
| Chain.KeptRanksExact | backend/app/services/utilities/chain.py:39-48 | the ranks carried by blocks are exactly the 1-based positions of hits with non-empty text, strictly increasing, so skipped hits leave gaps |
| Chain.PartsAreRankedBlocks | backend/app/services/utilities/chain.py:38-48 | block j is the formatted block of the hit at the j-th kept rank, labelled with that rank, in the original hit order |
| Chain.AllKeptRanks | backend/app/services/utilities/chain.py:39-48 | when every hit has text, the kept ranks are 1..n in order |
| Chain.AllKeptGivesOneBlockPerHit | backend/app/services/utilities/chain.py:38-50 | when every hit has text there is exactly one block per hit, block i belonging to hit i with rank i+1 |
| Chain.BlockDefaults | backend/app/services/utilities/chain.py:40-47 | a hit without a score key is shown with score 0, and its source defaults to `Unknown` |
| Chain.ContextLength | backend/app/services/utilities/chain.py:50 | the context of k blocks is their total length plus k-1 copies of `\n---\n` |
| Chain.NoneKeptNoParts | backend/app/services/utilities/chain.py:45-48 | when no hit has text, no block is emitted |
| Chain.NoTextGivesEmptyContext | backend/app/services/utilities/chain.py:38-50 | non-empty hits that all lack text give the empty string, not the sentinel |
| Chain.EmptyTextShadowsContent | backend/app/services/utilities/chain.py:42 | a hit whose `text` is present but empty is skipped even if `content` is non-empty |
| Chain.ContentFallback | backend/app/services/utilities/chain.py:42 | a hit without `text` falls back to `content` and is kept when that is non-empty |
| Chain.FailureIsVisible | backend/app/services/utilities/chain.py:55-57 | the returned string starts with `Error retrieving context: ` if and only if retrieval failed |
| Chain.OnlyFirstVectorAndTopKMatter | backend/app/services/utilities/chain.py:27-31 | two backends that agree on the first encoded vector and on the search for `top_k` hits give the same context |
| Chain.ServiceFailuresBecomeErrorString | backend/app/services/utilities/chain.py:20-27 | a failure to obtain the services or to encode is returned as the error-prefixed message and never raised |
| Chat.IsGreeting | backend/app/routes/chat.py:17-22 | `is_greeting`, written as in the source. `Chat.IsGreetingCharacterized` characterizes it |
| Chat.ContextFor | backend/app/routes/chat.py:47-52 | the greeting context for a greeting, and otherwise the result of `retrieve_context(question)` with the default `top_k` |
| Chat.HandleChat | backend/app/routes/chat.py:39-83 | an empty list gives status 400 without retrieval or request. Otherwise: the question is the last message's content; retrieval runs exactly when it is not a greeting, and a greeting gets the fixed context; the request holds system, assistant (`Relevant documentation:\n\n` + context) and user messages in order, with `stream` false and temperature 0.1; a non-200 status becomes an error with that status |
| Chat.IsGreetingCharacterized | backend/app/routes/chat.py:17-22 | `is_greeting` holds exactly when the lower-cased stripped question contains a greeting phrase or equals `yo`; the word-count test never decides anything |
| Chat.GreetingPhraseIsGreeting | backend/app/routes/chat.py:19-22 | a question that normalizes to a greeting phrase is a greeting |
| Chat.GreetingExamples | backend/app/routes/chat.py:17-22 | `Hello` and `hi` are greetings |
| Chat.PaddedGreeting | backend/app/routes/chat.py:20-22 | case and surrounding whitespace are ignored: ` Sup\n` is a greeting |
| Chat.ThisIsAGreeting | backend/app/routes/chat.py:22 | the substring test misfires: `this` is a greeting because it contains `hi` |
| Chat.TechnicalQuestionIsNotAGreeting | backend/app/routes/chat.py:17-22 | `How do I configure a connection pool?` is not a greeting. The question is passed as two literal pieces whose concatenation it is, and the helper lemmas beside it are proof steps for this one example |
| VectorIndex.CreateCollection | backend/app/services/qdrant_service.py:31-37 | `create_collection`: the collection gets the given configuration and an empty point table |
| VectorIndex.Upsert | backend/app/services/qdrant_service.py:90-93 | upsert semantics: points written in order, a later id overwriting an earlier one. `VectorIndex.UpsertConsecutive` characterizes it |
| VectorIndex.ClientUpsert | backend/app/services/qdrant_service.py:90-93 | `client.upsert`: fails when the collection is missing, and otherwise upserts into its table only |
| VectorIndex.PointCount | backend/app/services/qdrant_service.py:81-88 | the number of `zip(documents, embeddings)` pairs |
| VectorIndex.SlotOf | backend/app/services/qdrant_service.py:65 | `hit.payload` as put into the result dict: `None`, or the payload |
| VectorIndex.WellFormed | backend/app/services/qdrant_service.py:31-37 | every collection has a point table and no other table exists |
| VectorIndex.EnsureCollectionStep | backend/app/services/qdrant_service.py:23-43 | when the name is already listed, the step passes and the state is unchanged, whatever that collection's configuration. When it is missing and creation succeeds, exactly that collection is added, with the configured dimension, cosine distance and an empty point table. A raising list or create call propagates its error and leaves the state unchanged. Other collections' configurations and points are untouched |
| VectorIndex.EnumeratePoints | backend/app/services/qdrant_service.py:81-88 | `min(len(documents), len(embeddings))` points; point i has id i, vector `embeddings[i]` and payload `documents[i]` |
| VectorIndex.AddDocumentsStep | backend/app/services/qdrant_service.py:73-97 | a raising client call, or a collection that does not exist, propagates an error and leaves the state unchanged; success keeps the set of collections |
| VectorIndex.HitRecords | backend/app/services/qdrant_service.py:62-68 | one `{score, payload}` record per client hit, with the same length and order |
| VectorIndex.SearchResults | backend/app/services/qdrant_service.py:55-71 | a client error gives `[]`; otherwise the records of the client's hits |
| VectorIndex.UpsertConsecutive | backend/app/services/qdrant_service.py:90-93 | upserting points with consecutive ids stores each under its id and keeps every other id |
| VectorIndex.UpsertEnumerated | backend/app/services/qdrant_service.py:81-93 | the upsert of `add_documents` stores point i for i < n and keeps every other id |
| VectorIndex.AddDocumentsContents | backend/app/services/qdrant_service.py:81-94 | after success, point i holds `embeddings[i]` and `documents[i]` for i < n; other points, other collections and the configurations are untouched |
| VectorIndex.AddDocumentsOverwrites | backend/app/services/qdrant_service.py:81-93 | ids restart at 0 on every call, so a second call overwrites points 0..n2-1; points of the first call beyond n2 survive, and older points beyond both are untouched |
| VectorIndex.AddDocumentsIdempotent | backend/app/services/qdrant_service.py:90-93 | adding the same documents twice leaves the state of adding them once |
| VectorIndex.EnsureCollectionIdempotent | backend/app/services/qdrant_service.py:26-40 | after `_ensure_collection` succeeded, calling it again succeeds and changes nothing |
| VectorIndex.StepsPreserveWellFormed | backend/app/services/qdrant_service.py:23-97 | both write operations keep the collections and their point tables in step |
| VectorIndex.QdrantClient.constructor | backend/app/services/qdrant_service.py:19 | the client handle starts on the given server state |
| VectorIndex.QdrantService.constructor | backend/app/services/qdrant_service.py:16-20 | the service keeps the client, the collection name and the dimension |
| VectorIndex.QdrantService.EnsureCollection | backend/app/services/qdrant_service.py:23-43 | outcome and new client state are exactly those of the `_ensure_collection` step on the old state |
| VectorIndex.QdrantService.Search | backend/app/services/qdrant_service.py:45-71 | the records of the client's reply for this collection, vector and limit, or `[]` when the client raised |
| VectorIndex.QdrantService.AddDocuments | backend/app/services/qdrant_service.py:73-97 | outcome and new client state are exactly those of the `add_documents` step on the old state |
| VectorIndex.ServiceRegistry.constructor | backend/app/services/qdrant_service.py:100-101 | the global starts as `None` |
| VectorIndex.ServiceRegistry.GetQdrantService | backend/app/services/qdrant_service.py:104-113 | once the global is set, the same instance is returned and nothing changes. Otherwise a new service is built and `_ensure_collection` runs: on success the fresh service is stored and returned; on failure the error propagates and the global stays `None` |
| VectorIndex.GetTwice | backend/app/services/qdrant_service.py:110-113 | once a call has built the service, the next call returns that same instance |

### Behaviours of the code worth noting

- A reader might expect a hit to be skipped only when both `text` and
  `content` are absent or empty. In the code, a `text` key that is present but
  empty also skips the hit, because `content` is consulted only when `text`
  is absent (`Chain.EmptyTextShadowsContent`).
- The short-greeting test with its word count looks like a second way to be a
  greeting. It never changes the result: `hi`, `hello` and `hey` are already
  found by the substring test, and a question that strips to `yo` always has
  one word (`Chat.IsGreetingCharacterized`).
- On a non-200 status, the upstream body is not passed on verbatim: the code
  prefixes it with `Ollama API error: `.
- `get_qdrant_service` has no locking, so nothing prevents two concurrent
  first calls from each building a service. The model is sequential.
- The `try` in `retrieve_context` covers the loop as well as the embedding and
  search steps. A hit whose payload is `None` makes `payload.get` raise, and
  the whole call then returns the error string (`Chain.Assemble`).

## Left out

- The embeddings service (`embeddings.py`) is a parameter: `encode` either
  returns a list of vectors or fails with a message.
- The HTTP POST to the language-model service, its 120-second timeout and the
  parsing of the response JSON are left out. The response is a parameter
  (`upstream`), and the JSON body is an opaque string.
- Floating point is not modelled.
  - Scores and vector components are `real`.
  - The `:.3f` formatting is the parameter `fmt`.
  - The temperature is the constant 0.1.
- `str.lower` is modelled for ASCII letters only. Non-ASCII case mappings are
  not modelled.
- Payload values are modelled as strings only. The truthiness of non-string
  `text` values is not modelled.
- Async/await and concurrency are not modelled; `get_qdrant_service` is
  modelled sequentially.
- Logging, settings loading and the text of `SYSTEM_PROMPT` are left out. The
  model name and the prompt are the parameters in `ChatConfig`.
- The vector database client's internals are left out: nearest-neighbour
  ranking, the bound of at most `limit` hits, and the wording of its error
  messages.
  - A search answer is a parameter.
  - Which client calls raise is given by the `fault` arguments.
  - An upsert into a missing collection fails with a message of the model's
    own wording.
- `main.py`, `health.py` and the frontend are framework plumbing and user
  interface, and are not part of this model.
