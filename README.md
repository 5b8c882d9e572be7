# A Dafny model of the rag-doc retrieval-augmented question service

rag-doc is a small web service. A user uploads a document and then asks
questions about it. An upload is stored in a Supabase bucket. Its text is
extracted (PDF pages, CSV rows, flattened JSON, or plain decoded text). The
text is cut into overlapping windows, and each window is embedded through a
Hugging Face feature-extraction endpoint and upserted into Pinecone as a
vector record.

A question first goes through a process-wide answer cache. On a miss, a
language model classifies the question: generic or not, about the current
document or not, with a few search variants. The variants are embedded and
searched, and their matches are de-duplicated by id and sorted by score. The
matches above a scope-dependent threshold among the first ten become the
context of a grounded prompt. Without context, a "no information" prompt is
sent instead. The language model is a Hugging Face chat model, with an OpenAI
model as fallback.

The model covers the deterministic logic around those remote calls:

- `Common`: the Python string operations the services use: `strip`,
  `lower`, `find`, `rfind`, slicing, `endswith`, `join`, `str(int)`.
- `JsonValue`: the values `json.loads` produces, plus truth value, `str()`,
  `dict.get` and iteration over them.
- `Chunker`: `chunk_text`, a `while` loop proved against the window
  function `Chunks`.
- `Parser`: `extract_text` and its helpers. JSON flattening is a recursive
  method proved against the leaf function `Leaves`.
- `Embeddings`: the retry loop of `generate_embedding`, proved against the
  attempt function `AttemptsFrom`.
- `Providers`: the two providers and the `LLMEngine` fallback chain, as
  classes whose constructors set the fields the methods read.
- `Storage`: file-name sanitisation and the URL fallback chain of
  `SupabaseStorage`.
- `Upload`: the upload route, with its chunk-to-record loop proved against
  `Records`.
- `Retrieval`: the list operations of `process_query`:
  - first-seen de-duplication (`KeepFirst`);
  - the stable descending sort (`SortByScore`);
  - the context selection (`Relevant`, `SelectContext`).
- `RagPipeline`:
  - intent extraction;
  - the cache key;
  - the multi-query search;
  - `process_query` itself, as a method of the class `QueryPipeline`. The
    class holds the engine and the cache and is proved against the step
    function `QueryStep`.

Every remote collaborator is an oracle, passed as a function-typed parameter
or field:

- the chat completions;
- the embedding endpoint, given per attempt;
- Pinecone search and upsert;
- Supabase upload, signed and public URLs;
- pypdf, `csv.reader`, `json.loads`;
- UTF-8 decoding;
- `uuid4`, given per record.

`process_query` records the remote calls it makes, in order, as a trace of
`Call` values. The trace is what the cache-hit and generic-path properties
speak about. Similarity scores are `real` values and are only compared.

## Model

| member | source | states |
|---|---|---|
| Chunker.ChunkText | backend/services/chunker.py:3-24 | The result is `Chunks(text, chunkSize, overlap)`. A text no longer than `chunkSize` gives exactly `[text]`, even when it is empty. Otherwise there are `ceil(len / (chunkSize - overlap))` chunks, and chunk k is `text[k*stride : min(k*stride + chunkSize, len)]`. Every chunk is at most `chunkSize` long and is non-empty unless the text is empty or `chunkSize` is 0. The loop is only entered for a text longer than `chunkSize`, and then it terminates because `chunkSize > overlap`. |
| Chunker.CountBounds | backend/services/chunker.py:11-22 | A window start `k * stride` lies inside the text exactly when k is below `ceil(len / stride)`, so the loop makes exactly that many windows. |
| Chunker.WindowLength | backend/services/chunker.py:12-13 | A window that starts inside the text is at most `chunkSize` long, and it is non-empty when `chunkSize > 0`. |
| Chunker.WindowsCoverText | backend/services/chunker.py:11-22 | For a non-negative overlap, every character index lies in window `i / stride`. The last window starts inside the text and ends at its end. |
| Chunker.ConsecutiveWindowsOverlap | backend/services/chunker.py:12-17 | Consecutive starts are `stride` apart. What follows the first `stride` characters of window k is a prefix of window k+1. For full windows this shared part is exactly `overlap` characters. |
| Chunker.DefaultStride | backend/services/chunker.py:3-17 | With the defaults 500 and 50, starts are 450 apart and a text of n > 500 characters gives `(n + 449) / 450` chunks. |
| Parser.FormatOf | backend/services/parser.py:7-20 | The branch is chosen by the lower-cased name's suffix, in the order `.pdf`, `.csv`, `.json`. Each condition is stated in both directions. |
| Parser.ExtractText | backend/services/parser.py:6-23 | The result equals `ExtractedText`. A PDF gives its non-empty pages joined by newlines, a CSV gives its rows, a JSON file gives its flattened leaves, and anything else gives the decoded bytes. A library that raises gives "". |
| Parser.ExtensionCaseInsensitive | backend/services/parser.py:7-20 | A file name and its lower-cased form extract alike. |
| Parser.TextLikeFilesDecoded | backend/services/parser.py:16-20 | `.txt` and `.md` names take the plain decoding path, the same one as unknown suffixes. |
| Parser.RaisingParserGivesEmpty | backend/services/parser.py:21-23 | When the PDF, CSV or JSON library raises, `extract_text` returns "". |
| Parser.FlattenInto | backend/services/parser.py:48-58 | The recursive closure appends exactly `Leaves(x)` to what was already collected: dict values in order with keys dropped, list elements in order, and scalars as `str(x)`. |
| Parser.FlattenJson | backend/services/parser.py:47-59 | The result is the leaves joined by single spaces. A scalar top-level value gives just its `str()`. |
| Parser.LeavesAllAppend | backend/services/parser.py:54-56 | The leaves of a list concatenate: depth-first, left to right. |
| Parser.DictKeysDropped | backend/services/parser.py:50-53 | A dict contributes the leaves of its values, the same as the list of its values, so its keys never appear. |
| Parser.EmptyContainersVanish | backend/services/parser.py:50-57 | An empty list or dict anywhere in a list contributes no token. |
| Parser.NonEmptyPages | backend/services/parser.py:28-31 | Exactly the non-empty pages are kept, and nothing else. |
| Parser.ParsePdfPages | backend/services/parser.py:25-32 | The page loop gives the non-empty page texts in page order, joined by newlines. |
| Parser.RowLines | backend/services/parser.py:38-39 | A definition, not a proved property: one line per row, in row order, each the row's fields joined by a space. |
| Parser.ParseCsvRows | backend/services/parser.py:34-40 | The row loop gives the row lines joined by newlines. |
| Embeddings.Classify | backend/services/embeddings.py:14-32 | One attempt is retried exactly when the POST raised, the status is a non-200 of 500 or more, or a 200 body does not decode. Another non-200 status gives `[]`, and so does a 200 body that is not a list. A non-empty vector only comes from a 200 list reply. |
| Embeddings.AttemptsFrom | backend/services/embeddings.py:10-38 | From attempt k, at least k and at most `max(retries, k)` attempts are made in all. |
| Embeddings.GenerateEmbedding | backend/services/embeddings.py:9-38 | The retry loop returns the vector and attempt count of `Embedding`: the first attempt that does not retry decides, and after `retries` retried attempts the result is `[]`. |
| Embeddings.AttemptsFromStops | backend/services/embeddings.py:10-38 | Every attempt before the last was retried. Stopping before `retries` means the last attempt returned, and the result is its vector. Running out of attempts gives `[]`. |
| Embeddings.ExhaustedRetriesGiveEmpty | backend/services/embeddings.py:9-38 | When every attempt is retried (a status of 500 or more, an exception, or undecodable JSON), `max(retries, 0)` requests are made (none for a negative `retries`, as `range(retries)` is then empty) and the result is `[]`. |
| Embeddings.RetriedPrefix | backend/services/embeddings.py:10-36 | Attempts that are all retried do not change the outcome of the loop. |
| Embeddings.ClientErrorStops | backend/services/embeddings.py:14-20 | A non-200 status below 500 ends the loop at that attempt with `[]`, and no further request is made. |
| Embeddings.ResponseShapes | backend/services/embeddings.py:26-32 | A 200 batch `[[v...], ...]` yields `v`. A flat 200 list, including `[]`, yields itself. |
| Providers.HFProvider.constructor | backend/services/providers.py:11-12 | The provider keeps the chat-completion client it is given. |
| Providers.HFProvider.Generate | backend/services/providers.py:14-22 | A definition, not a proved property: the reply is the chat completion's reply, unchanged, either its text or the exception it raised. |
| Providers.OpenAIProvider.constructor | backend/services/providers.py:25-35 | The provider is available exactly when an API key is set and the client could be created. |
| Providers.OpenAIProvider.Generate | backend/services/providers.py:37-48 | An unavailable provider always raises "OpenAI not available". An available one gives its client's reply. |
| Providers.LLMEngine.constructor | backend/services/providers.py:51-54 | The primary is the Hugging Face provider. The fallback's availability follows its key and client. |
| Providers.LLMEngine.Generate | backend/services/providers.py:56-64 | The result is the primary's text if it answers. Otherwise it is the fallback's text for the same prompt. Otherwise it is a string that starts with "Error: Both providers failed." and carries both messages. It never raises. |
| Providers.FallbackUnusedWhenPrimaryAnswers | backend/services/providers.py:57-58 | When the primary answers, the result does not depend on the fallback. |
| Providers.UnavailableFallbackReportsBoth | backend/services/providers.py:59-64 | With the fallback unavailable, a failing primary yields the error string with the primary's message and "OpenAI not available". |
| Storage.SanitizeFilename | backend/services/storage.py:70 | The result has the same length as the name. Each allowed character stays in place, and each other character becomes `_`. |
| Storage.SanitizedIsAllowed | backend/services/storage.py:70 | Every character of a sanitised name is in `[a-zA-Z0-9._-]`. |
| Storage.SanitizeFixedPoints | backend/services/storage.py:70 | A name is unchanged by sanitisation exactly when all its characters are allowed. |
| Storage.SanitizeIdempotent | backend/services/storage.py:70 | Sanitising twice equals sanitising once. |
| Storage.SupabaseStorage.constructor | backend/services/storage.py:7-22 | A missing URL or key leaves no client. Otherwise the client is whatever `create_client` gave, and None when it raised. |
| Storage.SupabaseStorage.GetFileUrl | backend/services/storage.py:92-115 | The result is a truthy signed URL (valid for 604800 seconds), else a truthy public URL, else `{url}/storage/v1/object/public/{bucket}/{filename}`. It is never empty. |
| Storage.SupabaseStorage.UploadFile | backend/services/storage.py:60-90 | The result is None exactly when there is no client or the upload raises. Otherwise it is the URL for the sanitised name. |
| Storage.ManualUrlEndsWithSafeName | backend/services/storage.py:70-115 | A hand-made URL ends with `/` and the sanitised name, which holds allowed characters only. |
| Storage.MissingCredentialsGiveNone | backend/services/storage.py:65-66 | Without a client, `upload_file` returns None. |
| Upload.ChunkVectors | backend/routes/upload.py:34-35 | A definition, not a proved property: one embedding per chunk, made with the default retries. |
| Upload.EmbedCalls | backend/routes/upload.py:34-35 | A definition, not a proved property: one embedding request per chunk, in chunk order. |
| Upload.KeptIndices | backend/routes/upload.py:34-37 | These are exactly the positions of the non-empty embeddings, strictly increasing. |
| Upload.BuildRecords | backend/routes/upload.py:33-49 | The loop embeds every chunk, in order, and builds `Records`: one record per chunk whose embedding is non-empty, in chunk order. |
| Upload.RecordsOfKeptChunks | backend/routes/upload.py:33-49 | Record j belongs to the j-th kept chunk. It carries that chunk's text, its position in `chunks` and its embedding, and it draws the j-th uuid. |
| Upload.ChunkIndexNotBelowPosition | backend/routes/upload.py:34-46 | A record's `chunk_index` is its chunk's position in `chunks`, never below its own position in `vectors`. Its text and embedding are that chunk's, and the embedding is non-empty. |
| Upload.RecordShape | backend/routes/upload.py:39-48 | The id is `"{filename}_{i}_"` followed by six hexadecimal digits, and the digits of `i` denote the record's `chunk_index`. `document_name` is the file name, and `file_url` is the URL or "". |
| Common.NatToString | backend/routes/upload.py:39 | `str(i)` is a non-empty string of decimal digits, with no leading zero unless `i` is zero. |
| Common.NatToStringValue | backend/routes/upload.py:39 | The digits of `str(i)` denote `i`. |
| Upload.UploadFile | backend/routes/upload.py:13-65 | The route's calls come in order. With storage configured, the first call is the bucket upload of the sanitised name, in every branch. So a file without text is still stored when the route answers HTTP 400, and that happens before any chunk is embedded. A storage failure does not stop the upload. Otherwise every chunk is embedded in order, and the records are upserted only when there are any. The response carries `chunks_count` equal to the number of records, or HTTP 500 with the upsert's message. |
| Upload.ChunksCountMatchesRecords | backend/routes/upload.py:52-57 | The number of records is the number of non-empty embeddings, so never more than the number of chunks. There are no records exactly when every embedding is empty. |
| Retrieval.FirstIndex | backend/services/rag_pipeline.py:70-73 | The result is the first position holding the id, or the length when no match has it. |
| Retrieval.KeepFirstStep | backend/services/rag_pipeline.py:70-73 | One more match is kept exactly when its id has not been seen. |
| Retrieval.MergeNew | backend/services/rag_pipeline.py:70-73 | The inner merge loop extends `KeepFirst(before)` to `KeepFirst(before + results)` and keeps `seen_ids` equal to the ids merged. |
| Retrieval.KeepFirstIds | backend/services/rag_pipeline.py:57-73 | De-duplication loses no id. |
| Retrieval.KeepFirstUnique | backend/services/rag_pipeline.py:57-73 | No two merged matches share an id. |
| Retrieval.KeepFirstFirstOccurrence | backend/services/rag_pipeline.py:57-73 | Each merged match is the earliest match with its id, from the earliest variant and position. |
| Retrieval.KeepFirstOrder | backend/services/rag_pipeline.py:57-73 | Merged matches appear in the order their ids first occur. |
| Retrieval.KeepFirstComplete | backend/services/rag_pipeline.py:57-73 | Every id's first match is kept. |
| Retrieval.Insert | backend/services/rag_pipeline.py:78 | Insertion adds exactly the one match, as a multiset. |
| Retrieval.InsertSorted | backend/services/rag_pipeline.py:78 | Insertion keeps the scores non-increasing. |
| Retrieval.SortByScore | backend/services/rag_pipeline.py:78 | The result has non-increasing scores and is a permutation of the input. |
| Retrieval.InsertWithScore | backend/services/rag_pipeline.py:78 | Among the matches of any one score, the inserted match comes first, ahead of those of `r`. |
| Retrieval.SortIsStable | backend/services/rag_pipeline.py:78 | The sort is stable: matches of equal score keep their input order. |
| Retrieval.Relevant | backend/services/rag_pipeline.py:86-87 | A match is kept exactly when it is in the input and scores strictly above the threshold. |
| Retrieval.ChunkTexts | backend/services/rag_pipeline.py:88-90 | A definition, not a proved property: one text per match, in order: `chunk_text`, else `text`, else "". |
| Retrieval.SelectionStep | backend/services/rag_pipeline.py:86-91 | One loop step appends the match's text and adds its document name exactly when its score is above the threshold. |
| Retrieval.SelectContext | backend/services/rag_pipeline.py:83-91 | The selection loop gives the texts and source names of the relevant matches among the first ten. |
| Retrieval.SelectedMatches | backend/services/rag_pipeline.py:86-91 | A match gives context exactly when it is among the first ten and scores above the threshold. There are no context chunks exactly when there are no sources. |
| Retrieval.OnlyFirstTenCount | backend/services/rag_pipeline.py:86 | Matches after the tenth never affect the context. |
| Retrieval.ThresholdFollowsScope | backend/services/rag_pipeline.py:81-87 | A score in (0.25, 0.30] gives context exactly when the question is about the current file: the threshold is 0.25 for a current-file question and 0.30 otherwise. |
| RagPipeline.CacheKey | backend/services/rag_pipeline.py:42 | The key ends with `|` followed by the document name, or "global" when there is none. The question part before it has no upper-case letter and no whitespace at either end. |
| RagPipeline.CacheKeyIgnoresOuterSpace | backend/services/rag_pipeline.py:42 | Questions that differ only in surrounding whitespace share a cache key. |
| RagPipeline.CacheKeyIgnoresCase | backend/services/rag_pipeline.py:42 | Questions that differ only in letter case share a cache key. |
| RagPipeline.CacheKeyDocumentCollisions | backend/services/rag_pipeline.py:42 | No document, an empty document name and a document named "global" share a key. |
| RagPipeline.CacheKeyQuestionCollision | backend/services/rag_pipeline.py:42 | A `|` in the question can make it share a key with a different question and document. |
| RagPipeline.IntentFromResponse | backend/services/rag_pipeline.py:28-37 | Without a `{`, or with the last `}` before the first `{`, the result is the default intent. Otherwise it is the parse of the text from the first `{` through the last `}`, or the default intent when parsing fails. |
| RagPipeline.AnalyzeQueryIntent | backend/services/rag_pipeline.py:13-37 | The model is sent the intent prompt for the question and the active document. The intent is either the default one, or what `json.loads` made of the model's reply from its first `{` through its last `}`. |
| RagPipeline.ExtractsEmbeddedObject | backend/services/rag_pipeline.py:30-33 | Prose around one braced object hands exactly that object to `json.loads`. |
| RagPipeline.DefaultIntentSearchesQuestion | backend/services/rag_pipeline.py:37 | The default intent is neither generic nor about the current file, and it searches for the question itself. |
| RagPipeline.MissingKeysDefault | backend/services/rag_pipeline.py:48-54 | Missing keys read as not generic, not about the current file, and `[question]`. |
| RagPipeline.DocumentFilter | backend/services/rag_pipeline.py:60-62 | A filter is set exactly when the intent says "current file" and a non-empty document name is given, and it names that document. |
| RagPipeline.VariantVectors | backend/services/rag_pipeline.py:64-65 | A definition, not a proved property: one embedding per query variant, in order. |
| RagPipeline.SearchVariant | backend/services/rag_pipeline.py:65-69 | The variant is embedded. An empty embedding is skipped with no search. Otherwise it is searched with top_k 5 and the filter, and a search that raises contributes nothing. |
| RagPipeline.FoundAppend | backend/services/rag_pipeline.py:64-75 | Variants contribute independently, one after another. |
| RagPipeline.SearchCallsAppend | backend/services/rag_pipeline.py:64-75 | The calls of successive variants concatenate. |
| RagPipeline.SkippedVariant | backend/services/rag_pipeline.py:64-75 | A variant with an empty embedding, or whose search raises, adds no match, and the later variants are still embedded and searched. |
| RagPipeline.NoHitsNothingFound | backend/services/rag_pipeline.py:64-75 | A search that never returns a match leaves nothing to merge. |
| RagPipeline.FoundStep | backend/services/rag_pipeline.py:64-75 | One more variant appends its hits and its calls. |
| RagPipeline.GatherMatches | backend/services/rag_pipeline.py:57-75 | The variant loop gives the first-seen de-duplication of all variants' matches, and the calls it made. |
| RagPipeline.QueryPipeline.constructor | backend/services/rag_pipeline.py:7-11 | The pipeline starts with its engine and an empty cache. |
| RagPipeline.QueryPipeline.ProcessQuery | backend/services/rag_pipeline.py:39-111 | The outcome, the remote calls in order and the new cache are those of `QueryStep` on the old cache. |
| RagPipeline.QueryPipeline.AnswerUncached | backend/services/rag_pipeline.py:47-109 | After a miss: the generic answer, the `TypeError`, or the search followed by the answer, as in `IntentStep`. |
| RagPipeline.QueryPipeline.Respond | backend/services/rag_pipeline.py:93-109 | No context gives the "no information" answer with no sources and the cache unchanged. Otherwise the grounded answer is stored under the key. |
| RagPipeline.CacheHit | backend/services/rag_pipeline.py:43-44 | A cache hit returns the stored result unchanged, with no remote call and the cache unchanged. |
| RagPipeline.CacheWrittenOnlyWhenGrounded | backend/services/rag_pipeline.py:48-111 | The cache either stays the same or gains just this question's key. That happens on the grounded path only: after the grounded prompt for a non-empty context, as the last call, and with non-empty sources. |
| RagPipeline.AnswerStepCache | backend/services/rag_pipeline.py:94-108 | The answer step either leaves the cache alone or writes the grounded result. |
| RagPipeline.GroundedPromptPrefix | backend/services/rag_pipeline.py:98-103 | The grounded prompt opens with "Context provided:\n". |
| RagPipeline.EmptySourcesLeaveCache | backend/services/rag_pipeline.py:94-108 | A `TypeError` or a result without sources leaves the cache unchanged. |
| RagPipeline.GenericQuestion | backend/services/rag_pipeline.py:47-50 | A generic question is answered with the generic prompt after the intent analysis, with no search, no sources and no cache entry. |
| RagPipeline.RepeatedQuestionHitsCache | backend/services/rag_pipeline.py:42-108 | Once a question was answered from context, a question with the same key returns the same result with no call. |
| RagPipeline.EmptyIndexGivesNoInfo | backend/services/rag_pipeline.py:64-96 | When search never returns a match, a question that is not generic gets the "no information" answer. There are no sources and no cache entry. |
| RagPipeline.TypeErrorExactly | backend/services/rag_pipeline.py:48-64 | `process_query` raises exactly when the cache misses, the intent is not generic, and its `queries` entry is null, a boolean or a number. |

## Left out

- I/O and timing are not modelled: `print`, `time.sleep(1)` between retries, request timeouts, and `await file.read()`, whose bytes are a parameter.
- Bucket management (`_ensure_bucket_exists`) is not modelled. It only lists, creates or updates buckets and reports problems.
- Concurrency is not modelled. `QUERY_CACHE` is a plain dict without locking, and the model is single-threaded. The module-level `llm` and `QUERY_CACHE` become the fields of `QueryPipeline`.
- Floating point is not modelled. Scores are `real`, and embedding components are opaque JSON values.
- Python's `str.lower` folds every Unicode letter, but `Common.Lower` folds ASCII letters only. This affects the cache key and the extension dispatch for non-ASCII names. `Strip` uses the full `str.isspace` set.
- `str()` of a JSON number is not computed. A number carries the text Python prints for it.
- Deeply nested JSON that makes the recursive `flatten` raise `RecursionError` is not modelled; such input yields "" in the source.
- Chunker.ChunkText: requires `0 <= chunkSize`, and `overlap < chunkSize` only for a text longer than one chunk. A text that fits in one chunk gives `[text]` whatever the overlap. A longer text with `chunk_size <= overlap` makes the source loop never end. A negative `chunk_size` relies on Python's negative slicing. The route only calls it with 500 and 50.
- RagPipeline.QueryPipeline.ProcessQuery: `sources` is a set, because `list(set)` has a hash-dependent order.
- RagPipeline.QueryPipeline.ProcessQuery: prompts are recorded in the call trace by what they are built from. Their text is given by the prompt functions.
- RagPipeline.QueryPipeline.ProcessQuery: every match is assumed to have an `id` and a `score`, and its metadata is assumed to be a dict of strings. In the source, a match without an `id` raises `KeyError` inside the per-variant `try`, which keeps the matches of that variant merged before it. A match without a `score` makes `sorted` raise.
- The `except` at `backend/services/rag_pipeline.py:110-111` is never reached, because `LLMEngine.generate` never raises. Likewise the `except` in `analyze_query_intent` only ever sees `json.loads` failing, which the parse oracle reports as None.
- Providers.HFProvider.Generate: a completion whose `content` is None is treated as text. The chat request parameters (model names, `max_tokens`) are part of the client oracle.
- The embedding endpoint is an oracle indexed by input and attempt number. So two equal chunks or query variants always get identical outcomes, which a live endpoint does not guarantee. `response.text` in the error log is not modelled.
- The chat-completion clients and Pinecone's search are pure functions of their inputs. So an equal prompt, or an equal vector and filter, always gets the same reply or the same raise, within one query and across queries, which the live services do not guarantee.
- The call traces (`Call` in `RagPipeline`, `RouteCall` in `Upload`) are appended by the methods next to the oracle calls they stand for. That they match those calls rests on reading the method bodies, not on the oracles themselves.
- `uuid4().hex` is an oracle indexed by record number. The route draws one uuid per record, in order.
- Pinecone's `query_vectors` and `upsert_vectors` are oracles. A search reply without `matches` is a reply with no match.
- Upload.UploadFile: `file.filename` is always a string. A missing file name (None) is not modelled.
- `backend/routes/query.py`, `backend/routes/health.py`, `backend/services/pinecone_store.py`, `backend/main.py` and `backend/config.py` are not part of this model. They hold HTTP wiring, reachability probes, client wrappers and settings.
