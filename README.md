# reviewbot core, modelled in Dafny

reviewbot takes an Amazon product URL and scrapes the product's details and
reviews. It runs a four-stage pipeline over them: scrape, sentiment, summary,
then embedding of the product text into chunks. The result is kept in a short
per-user list of recent searches, and questions about a stored product are
answered by retrieval-augmented generation over its chunks. This project
models the decision logic of that server and proves what it promises:

- `search_pipeline.dfy` (module `SearchPipeline`): the pipeline object. Its
  stage methods update one accumulating record, and the run stops with a 400
  at the first stage that records an `error`. The class is proved against a
  pure run function (`Outcome`), and the lemmas state what that run does.
- `recent_store.dfy` (module `RecentStore`): the HTTP handlers of the server
  over an in-memory map from user name to user document:
  - search: product-id extraction, cache hit, scheme check, pipeline, then the
    bounded first-in-first-out update of the list;
  - delete, product lookup, login and the dashboard list projections;
  - registration and the question endpoint;
  - the rewrapping of every raised HTTP error into a 400 whose detail is
    `"<status>: <detail>"`.
- `query_handler.dfy` (module `QueryHandler`): top-k retrieval by similarity
  score, the prompt and the chat-completion call, and `handle_query`'s error
  mapping. `HandleQuery`, which the question endpoint uses, follows the
  search as written, including its failure on fewer than seven chunks;
  `HandleQueryCorrected` is the same handler over the intended search.
- `embedding.dfy` (module `Embedding`): the raw document list with its fixed
  prefixes and order, the splitter settings, the chunk concatenation loop and
  the first-occurrence deduplication.
- `sentiment.dfy` (module `Sentiment`): bucketing by label, the counters, the
  score list and the mean over an abstract classifier.
- `summarize.dfy` (module `Summarize`): validation, the bulleted prompt block
  and the post-processing of the model output.
- `jwt_auth.dfy` (module `JwtAuth`): the bearer-header parsing of
  `get_current_user` and the claims a new token carries.
- `register.dfy` (module `Register`): the Angular registration form. It runs
  three checks in order, then handles the server's answer.
- `records.dfy` and `strings.dfy` hold the shared records and Python's string
  operations (`split`, `join`, `strip`, `lower`, `find`, `in`).

Foreign services are function-typed parameters: the scraper, the classifier,
the text generator, the embedder, the splitter, the chat client, the password
hash and the token signer. An exception they raise is the `Raised(message)`
case of `Records.Call`.

Points where the model follows what the code actually does:

- `execute`'s outer "Processing error" 500 path (server/util/search_pipeline.py:43-45)
  cannot be reached, because every stage catches its own exceptions. The
  model therefore has no such result.
- The 404 at server/app.py:191-192 is dead code: the function has already
  returned on both branches of the loop's outcome.
- Every `HTTPException` raised inside `register`, `login`, `mysearches` and
  `delete` reaches the outer `except Exception` and comes back as 400 with
  detail `"<status>: <detail>"`. So "User not found" is answered as
  `400 "404: User not found"`, not as a 404.
- `get_product` catches every exception into a 500, including its own 404.

## Model

| member | source | states |
|---|---|---|
| SearchPipeline.Pipeline.constructor | server/util/search_pipeline.py:14-17 | a new pipeline holds the url and a record with only `url` set |
| SearchPipeline.Pipeline.ScrapeData | server/util/search_pipeline.py:47-68 | the record after `_scrape_data` is the scrape step of the old record |
| SearchPipeline.Pipeline.AnalyzeSentiment | server/util/search_pipeline.py:70-85 | the record after `_analyze_sentiment` is the sentiment step of the old record |
| SearchPipeline.Pipeline.GenerateSummary | server/util/search_pipeline.py:87-102 | the record after `_generate_summary` is the summary step of the old record |
| SearchPipeline.Pipeline.EmbedDocuments | server/util/search_pipeline.py:104-126 | the record after `_embed_documents`, whose list is built with a loop of appends, is the embed step of the old record |
| SearchPipeline.Pipeline.Execute | server/util/search_pipeline.py:19-45 | the answer, status and final record are those of the staged run, and the stages executed are exactly those the run reaches |
| SearchPipeline.EmbedInput | server/util/search_pipeline.py:115-119 | the embed input cannot be built exactly when a detail is present with value None |
| SearchPipeline.Outcome | server/util/search_pipeline.py:19-130 | a run stops after the first stage that sets `error`, with status 400 and `{error, url}`; otherwise it runs all four stages and answers the record with 200 |
| SearchPipeline.Pipeline.ErrorResponse | server/util/search_pipeline.py:128-130 | the error answer carries the stored error value unchanged, the pipeline's url and the given status |
| SearchPipeline.ScrapeDetailsNone | server/util/search_pipeline.py:56-68 | a 200 whose `product_details` is None fails with "Scraping error: " and the mapping-unpack message, status 400, after the scrape stage only |
| SearchPipeline.StageRunsOnlyAfterSuccess | server/util/search_pipeline.py:22-39 | a stage runs if and only if every earlier stage left no error |
| SearchPipeline.ScrapeErrorIgnoresLaterStages | server/util/search_pipeline.py:22-24 | after a scrape error no other service is consulted, and only the scrape stage ran |
| SearchPipeline.SentimentErrorIgnoresLaterStages | server/util/search_pipeline.py:26-29 | after a sentiment error the summarizer and embedder are never consulted |
| SearchPipeline.ScrapeStatusFailure | server/util/search_pipeline.py:50-54 | a status other than 200 fails with the scraper's `error`, or "Scraping failed" when absent |
| SearchPipeline.ScrapeExceptionFailure | server/util/search_pipeline.py:67-68 | an exception in the scraper fails the run with "Scraping error: " and its message, status 400 |
| SearchPipeline.ScrapeSuccess | server/util/search_pipeline.py:56-65 | a 200 stores the reviews and the details merged with `about`; no reviews fails with "No reviews found for this product" |
| SearchPipeline.SentimentResultStored | server/util/search_pipeline.py:72-85 | only None fails the sentiment stage; any other value is stored unchanged; an exception is prefixed |
| SearchPipeline.SummaryResultStored | server/util/search_pipeline.py:89-102 | only None fails the summary stage; any other value is stored unchanged; an exception is prefixed |
| SearchPipeline.EmbedInputLayout | server/util/search_pipeline.py:115-119 | the embedder gets `about`, then the reviews, then the Name, Image Link, Price and Rating lines |
| SearchPipeline.EmbedFailures | server/util/search_pipeline.py:107-123 | no `about` gives "No data available for embedding"; an empty embedder result gives "Embedding generation failed" |
| SearchPipeline.SuccessCarriesEverything | server/util/search_pipeline.py:16-41 | a 200 answers the record itself, with the original url and every stage's output present |
| Records.FirstMatch | server/app.py:179-180 | the index of the first search with the product id, or None when no search has it |
| RecentStore.Rewrapped | server/app.py:65-66 | a rewrapped error is a 400 whose detail is the original status, ": ", then the original detail |
| RecentStore.RewrappedNoInput | server/app.py:46-66 | an empty body is answered 400 "400: No input data provided" |
| RecentStore.RewrappedNoProductId | server/app.py:144-167 | a missing product id is answered 400 "400: Product ID is required" |
| RecentStore.RewrappedUserNotFound | server/app.py:120-133 | an unknown user is answered 400 "404: User not found" |
| RecentStore.RewrappedBadCredentials | server/app.py:79-104 | bad credentials are answered 400 "401: Invalid credentials" |
| RecentStore.RewrappedDuplicate | server/app.py:51-66 | a taken user name is answered 400 "409: Username already exists" |
| RecentStore.FirstIdAt | server/app.py:210-214 | the leftmost position at or after `from` where "/dp/" and ten id characters start, or None when there is none |
| RecentStore.ExtractProductId | server/app.py:210-214 | None if and only if no "/dp/" is followed by ten characters from A-Z and 0-9; otherwise the ten characters after the leftmost such match |
| RecentStore.Briefs | server/app.py:87-93 | one `{product_id, url, name, image}` projection per stored search, in stored order |
| RecentStore.PushBounded | server/app.py:255-259 | the new record ends the list; the length grows by one unless the list was full |
| RecentStore.PushBoundedKeepsOrder | server/app.py:255-259 | a full list loses exactly its head, the rest keep their order, and a positive bound is kept |
| RecentStore.ToRecord | server/app.py:241-253 | a record is built if and only if details, summary and sentiment are present and the schema accepts them; it carries the product id, the url, those three parts and the `info_docs` (empty when absent) |
| RecentStore.SearchSpec | server/app.py:198-273 | only a fresh analysis writes; no user is added or removed and only the caller's list can change; a failed run is answered 400 with the pipeline's `{error, url}` |
| RecentStore.Search | server/app.py:198-273 | the answer and the new store are those of the search specification: cache scan loop, pipeline run, bounded push |
| RecentStore.CacheHitIsPure | server/app.py:221-230 | a cache hit answers the first stored entry for the product and writes nothing |
| RecentStore.BadSchemeRejectedOnMiss | server/app.py:221-233 | a URL without http:// or https:// is rejected if and only if the product is not cached, and nothing is written |
| RecentStore.PipelineFailureStoresNothing | server/app.py:235-239 | a failed pipeline run is answered unchanged with 400 and the store is untouched |
| RecentStore.AnalyzedStoresRecord | server/app.py:241-268 | a fresh analysis answers the record with product id and url but no `info_docs`; only this user's list changes, gaining the record at its tail and losing its head when full |
| RecentStore.SearchKeepsBound | server/app.py:255-259 | search keeps every list within a positive bound |
| RecentStore.Without | server/app.py:154-162 | the filtered list has no entry with the product id and keeps every other entry |
| RecentStore.WithoutAppend | server/app.py:154-162 | the filter distributes over concatenation, so entries keep their relative order |
| RecentStore.Delete | server/app.py:136-167 | an error is a 400 that leaves the store alone; a missing product id is an error; a non-empty body with a product id for a known user succeeds with "Product deleted successfully", removing the product's entries from this user's list only |
| RecentStore.DeleteErrors | server/app.py:140-167 | the three error answers of delete: no input, no product id, unknown user |
| RecentStore.DeleteKeepsBound | server/app.py:154-162 | delete keeps every list within its bound |
| RecentStore.GetProduct | server/app.py:170-195 | an unknown user is a 500; otherwise the first entry for the product, or "not found" when no entry has it |
| RecentStore.Login | server/app.py:69-104 | login succeeds if and only if the user exists and the password checks; success carries a token for the user and the projections of the stored searches in order |
| RecentStore.MySearches | server/app.py:115-133 | an unknown user is 400 "404: User not found"; otherwise the projections of the stored searches in order |
| RecentStore.Register | server/app.py:42-66 | an error leaves the store alone with a 400; a body with a user name not yet taken and a password succeeds with "User registered successfully"; success inserts the new user with the hashed password and no searches |
| RecentStore.RegisterDuplicate | server/app.py:51-66 | a taken user name gives 400 "409: Username already exists" and no change |
| RecentStore.RegisterKeepsBound | server/app.py:56-62 | registration keeps every list within a non-negative bound |
| RecentStore.Query | server/app.py:276-297 | every failure is 500 "Internal server error"; a success is a non-empty answer |
| RecentStore.QueryFailsOnFewDocs | server/app.py:276-297 | a question about a stored product with one to six chunks is answered 500 "Internal server error" |
| RecentStore.QueryPassesAnswer | server/app.py:288-294 | the endpoint succeeds if and only if the handler gives a non-empty answer, which it passes through unchanged |
| QueryHandler.Insert | server/models/query_handler.py:44-45 | inserting an index into the ranking adds exactly that index |
| QueryHandler.InsertKeepsOrder | server/models/query_handler.py:44-45 | inserting keeps the ranking distinct and in non-increasing score order |
| QueryHandler.SortIndices | server/models/query_handler.py:44-45 | the ranking over the first n scores holds exactly the indices below n |
| QueryHandler.SortIndicesOrdered | server/models/query_handler.py:44-45 | the ranking is distinct and in non-increasing score order |
| QueryHandler.TopKIndicesCorrect | server/models/query_handler.py:43-46 | the selection has min(k, n) distinct indices, best first, and no index left out scores above a selected one |
| QueryHandler.Scores | server/models/query_handler.py:40-42 | one similarity score per document, taken against its `vectors` |
| QueryHandler.TextsAt | server/models/query_handler.py:47 | the `doc_text` of each selected index, in selection order |
| QueryHandler.SimilaritySearch | server/models/query_handler.py:25-54 | the corrected search: succeeds if and only if the query embeds, else "Failed to perform similarity search"; min(k, n) texts, each the text of some document |
| QueryHandler.SimilaritySearchAsWritten | server/models/query_handler.py:25-54 | the search as written: succeeds if and only if the query embeds and there are at least one and at least k documents, else "Failed to perform similarity search"; k texts (all n when k is 0) |
| QueryHandler.SimilaritySearchRanks | server/models/query_handler.py:25-47 | retrieval returns the texts of the min(k, n) best-scoring chunks in non-increasing score order |
| QueryHandler.AsWrittenFailsOnFewDocs | server/models/query_handler.py:43-54 | with one to six chunks the search as written fails with "Failed to perform similarity search", while the corrected one returns every chunk |
| QueryHandler.AsWrittenAgreesWithEnoughDocs | server/models/query_handler.py:43-47 | with at least k chunks the search as written and the corrected one agree |
| QueryHandler.JoinFramed | server/models/query_handler.py:64-68 | a newline join of a head, middle parts and a tail is the head, each part after a separator, then the tail |
| QueryHandler.LinesJoined | server/models/query_handler.py:64-68 | the retrieved documents appear one per line in retrieval order |
| QueryHandler.Context | server/models/query_handler.py:64-68 | the context is "Extracted Documents:", each document on its own line, then a blank line and "Question: " with the query |
| QueryHandler.ChatFor | server/models/query_handler.py:70-82 | one user message whose content is the prompt around the context, 500 tokens, temperature 0.3 |
| QueryHandler.GenerateResponse | server/models/query_handler.py:57-91 | the answer is the first choice unchanged; no choice or a raised call gives "Failed to generate response" |
| QueryHandler.ProductDocs | server/models/query_handler.py:103-120 | a failing lookup is "Failed to process query"; no user is 404 "User not found"; the chunks of the first entry with the product id, or 404 "Product not found or has no documents" when none or empty |
| QueryHandler.HandleQuery | server/models/query_handler.py:94-133 | `handle_query` as written: the lookup's errors pass through, and every error is one of the five the handler raises |
| QueryHandler.HandleQueryCorrected | server/models/query_handler.py:94-133 | the same handler over the corrected search, with the same error set |
| QueryHandler.HandleQueryNotFound | server/models/query_handler.py:104-120 | no user gives 404 "User not found"; no matching product or no chunks gives 404 "Product not found or has no documents" |
| QueryHandler.HandleQueryUsesFirstMatch | server/models/query_handler.py:112-124 | with at least seven chunks, the answer is generated from the top seven chunks of the first entry with the product id |
| QueryHandler.HandleQueryFailsOnFewDocs | server/models/query_handler.py:112-124 | with one to six chunks the handler as written fails with "Failed to perform similarity search", while the corrected one answers from every chunk |
| JwtAuth.CreateAccessToken | backend/util/jwt_auth.py:8-16 | the token encodes the claims subject = user name and expiry = now + 60 minutes |
| JwtAuth.VerifyToken | backend/util/jwt_auth.py:19-28 | a user name comes back if and only if the token decodes and carries a subject, and it is that subject |
| JwtAuth.BearerSplit | backend/util/jwt_auth.py:35 | splitting a "Bearer " header on spaces gives "Bearer", then the token read up to the next space |
| JwtAuth.TokenOf | backend/util/jwt_auth.py:35 | the token is the first space-separated piece after "Bearer " |
| JwtAuth.TokenOfHeader | backend/util/jwt_auth.py:35 | the token is the text after "Bearer " up to the next space, and holds no space |
| JwtAuth.GetCurrentUser | backend/util/jwt_auth.py:31-41 | a missing or non-bearer header is 401 "Missing or invalid token"; any error is one of the two 401s; for a bearer header, success if and only if the token's subject is a non-empty name, and the result is that subject |
| JwtAuth.IssuedTokenAuthenticates | backend/util/jwt_auth.py:8-41 | a token issued for a user, with subject the name and expiry now + 3600, authenticates that user |
| JwtAuth.RejectedTokens | backend/util/jwt_auth.py:36-39 | a token that does not decode, or has no subject, is 401 "Invalid or expired token" |
| Embedding.BuildRawKnowledgeBase | backend/models/embedding_processor.py:27-60 | the raw documents are the about items, the reviews, then the present detail lines |
| Embedding.RawDocumentsLayout | backend/models/embedding_processor.py:37-60 | about items first, then reviews, then detail lines; the count is their sum |
| Embedding.DetailDocsPrefixes | backend/models/embedding_processor.py:47-58 | a detail line exists exactly when its key is present, with prefixes "name : ", "price : ", "Rating : ", "Image link : ", in that order |
| Embedding.DetailDocPresent | backend/models/embedding_processor.py:47-58 | the price and rating lines are among the detail lines exactly when their keys are present |
| Embedding.Overlap | backend/models/embedding_processor.py:84 | the overlap is chunk_size / 10 truncated toward zero |
| Embedding.DefaultConfig | backend/models/embedding_processor.py:84-137 | the default chunk size 512 gives overlap 51 with the gte-small tokenizer |
| Embedding.AllChunks | backend/models/embedding_processor.py:92-94 | every chunk of every raw document is among the chunks |
| Embedding.AllChunksAppend | backend/models/embedding_processor.py:92-94 | the chunks of two document lists are the chunks of each, concatenated in order |
| Embedding.TextSetSnoc | backend/models/embedding_processor.py:99-102 | adding a chunk adds its text to the set of texts |
| Embedding.Dedup | backend/models/embedding_processor.py:97-104 | the deduplicated list is no longer than the input and holds only input chunks |
| Embedding.DedupTexts | backend/models/embedding_processor.py:97-104 | the deduplicated list has exactly the texts of all chunks |
| Embedding.DedupDistinct | backend/models/embedding_processor.py:97-104 | the deduplicated texts are pairwise distinct |
| Embedding.DedupKeepsFirsts | backend/models/embedding_processor.py:98-102 | the deduplication keeps exactly the first chunk with each text, in order |
| Embedding.SplitDocuments | backend/models/embedding_processor.py:63-104 | the result is the deduplication of the chunks of every raw document, in order |
| Embedding.TextsOf | backend/models/embedding_processor.py:127-128 | the texts handed to the embedder are the chunks' contents in order |
| Embedding.ProcessDataForEmbedding | backend/models/embedding_processor.py:134-153 | the documents are the deduplicated chunks, with distinct texts covering every chunk text, and the embeddings are computed from exactly those texts |
| Sentiment.BucketOf | backend/models/sentiment.py:24-32 | "negative" in the lowercased label gives negative; otherwise "neutral" gives neutral; anything else positive |
| Sentiment.ScoresOf | backend/models/sentiment.py:23-34 | one score per top prediction, in order |
| Sentiment.AnalysisOf | backend/models/sentiment.py:11-43 | the analysis fails if and only if classifying the batch raises; a success's counters sum to the number of scores and of reviews |
| Sentiment.AnalyzeSentiment | backend/models/sentiment.py:11-43 | the loop computes the specified analysis: counters, scores, mean, or the first error |
| Sentiment.TopsStopAtFailure | backend/models/sentiment.py:19-43 | once a prefix of the batch fails, the whole batch fails with the same message |
| Sentiment.CountsAddUp | backend/models/sentiment.py:26-32 | every review increments exactly one counter |
| Sentiment.TopsInOrder | backend/models/sentiment.py:19-25 | a successful batch has one top prediction per review, in input order |
| Sentiment.FirstFailure | backend/models/sentiment.py:19-43 | a failed batch reports the message of its first failing review |
| Sentiment.AnalysisSummary | backend/models/sentiment.py:15-43 | counters sum to the number of reviews and scores; scores are the top scores in order; the average is their mean or 0.0; failure if and only if some review fails |
| Sentiment.EmptyBatch | backend/models/sentiment.py:15-39 | no reviews give zero counts, no scores and 0.0 |
| Summarize.Bullets | backend/models/summarize.py:39 | one "- " bullet per review among the first twenty, each cut to 500 characters |
| Summarize.PromptUsesFirstTwenty | backend/models/summarize.py:39-58 | reviews beyond the twentieth and characters beyond the 500th never reach the model |
| Summarize.RequestFor | backend/models/summarize.py:39-58 | the prompt holds the bullet block between the fixed head and tail; 250 new tokens, temperature 0.5, top_p 0.9, sampling, stop at "</s>" |
| Summarize.CleanSummary | backend/models/summarize.py:60-61 | the summary is the text after the marker with every `"` turned into `'` and every other character kept in place, so it holds no double quote |
| Summarize.AfterMarker | backend/models/summarize.py:60 | without a marker the whole output stripped; otherwise the stripped text after the last "Summary:" |
| Summarize.SummarizeReviews | backend/models/summarize.py:10-73 | empty input if and only if 400 "Please provide a non-empty list of reviews"; for non-empty input, a raised generation call if and only if 500 "Failed to generate summary. Please try again later."; success counts all reviews and holds no double quote |
| Summarize.SummaryOfOutput | backend/models/summarize.py:60-69 | a success is the cleaned text after the last marker and its word count is the number of whitespace-separated tokens |
| Register.ValidationError | client_angular/src/app/components/register/register.component.ts:31-44 | the first failed check in the fixed order: empty field, mismatch, shorter than 6; none if and only if all pass |
| Register.ErrorMessage | client_angular/src/app/components/register/register.component.ts:68-74 | the 409 detail maps to "This Username is already registered"; otherwise a non-empty message, then a non-empty detail, then the fallback |
| Register.RegisterComponent.constructor | client_angular/src/app/components/register/register.component.ts:16-21 | all fields empty and not loading |
| Register.RegisterComponent.OnSubmit | client_angular/src/app/components/register/register.component.ts:28-54 | a failed check sets its message and sends nothing; passing clears the error, sets loading and sends the name and password |
| Register.RegisterComponent.OnNext | client_angular/src/app/components/register/register.component.ts:56-66 | success shows the success message; otherwise the reply's message or "Registration failed"; loading ends |
| Register.RegisterComponent.OnError | client_angular/src/app/components/register/register.component.ts:67-76 | the error message is the mapped one and loading ends |
| Register.DuplicateShownAsRegistered | client_angular/src/app/components/register/register.component.ts:68-69 | the server's answer to a taken name is shown as "This Username is already registered" |

## Left out

- Scrapers, the Hugging Face clients, the tokenizer, LangChain's splitter and the embedder: browser and network I/O or foreign ML code, so each is a function parameter.
- QueryHandler.Scores: cosine similarity in floating point is replaced by an abstract integer score per document, and the order of tied scores is not stated.
- Sentiment.AnalyzeSentiment: scores and their mean are exact reals, not floats.
- MongoDB and async scheduling: each request is a sequential read-modify-write over an in-memory map. Database failures are not modelled, except `HandleQuery`'s failing lookup. Concurrent requests are not modelled.
- RecentStore.ToRecord: Pydantic validation of the stored record is an abstract predicate `accepts`, because the server's schema module is not part of this model.
- Password hashing and its check, and JWT signing, decoding and expiry, are foreign functions. The clock is a `now` parameter, and `created_at` is not stored.
- Request bodies hold only string values. The "All reviews must be text strings" check of summarize.py and the non-list input case are left out for that reason.
- RecentStore.Query: a body without "query" is modelled as failing, on the assumption that embedding a missing query raises.
- Strings.Lower and Strings.IsSpace: ASCII only; no Unicode case mapping or Unicode whitespace.
- Register.ValidationError: the length is counted in characters, not UTF-16 code units.
- The redirect timer and navigation after a successful registration: browser UI state.
- The protected route, the health route and the other client code: not part of the server logic modelled here.
- The wrappers in server/util/sentiment.py and backend/util/summarize.py: the pipeline's sentiment and summary services are abstract calls returning a value or None.
- backend/models/rag.py, backend/app.py and backend/backup_app.py: superseded or incomplete variants of the modelled files.
- SearchPipeline.ScrapeStep: a `reviews` or `about` entry that is missing or None in the scraper's answer is read as an empty list; both lead to the same outcome in the code.
- The pipeline's unused `errors` field, and the user schema's `max_items=2`: the bound on a user's list is the parameter `maxRecent` (`MAX_RECENT_SEARCHES`, default 5) instead.

## Findings

| source | as written | input that shows it | evidently intended | confidence | as-written member | corrected member |
|---|---|---|---|---|---|---|
| server/models/query_handler.py:43-54 | `argpartition(similarities, -k)` with k = 7 raises when there are fewer than 7 chunks, so the search answers 500 "Failed to perform similarity search" | a product whose embedding produced two chunks | return the texts of the min(k, n) best chunks | not executed | QueryHandler.HandleQueryFailsOnFewDocs | QueryHandler.SimilaritySearchRanks |
