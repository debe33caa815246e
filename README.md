# Candidate recommendation engine, modelled in Dafny

This project models the core of a résumé-ranking web service.

- A recruiter uploads résumés (PDF, DOCX or TXT) together with a job description.
- The service extracts each résumé's text and guesses the candidate's name.
- It ranks the candidates by the similarity of their résumé to the job, and returns the ten best.
- Separately, a session can configure one of five AI providers (OpenAI, Anthropic, Google, Groq, Ollama). That provider writes short "why this candidate fits" summaries for a batch of candidates.

The model has one module per source file:

| module | file | what it covers |
|---|---|---|
| `Providers` | providers.dfy | the provider registry and factory; each adapter's constructor defaults, request excerpts, reply handling and cost formula |
| `AIManager` | ai_manager.dfy | the per-session configuration store, the summary batch, the cost estimate, and `configure_ai` with its failure classification |
| `Embedding` | embedding_engine.dfy | lazy model loading and the ranking: zip, then a stable descending sort, done in place on an array |
| `TextExtractor` | text_extractor.dfy | reader dispatch by extension, and the name heuristic (the name regular expression, the five-line scan, the filename fallback) |
| `Recommend` | recommend.dfy | the `/recommend` endpoint (validation, extraction loop, ranking, top ten, résumé lookup) and `get_session_id` |
| `AISummarizer` | ai_summarizer.dfy | the single-provider summarizer: excerpt rule, short-circuit without a key, availability |
| `PyStr`, `Wrappers` | pystr.dfy, wrappers.dfy | the Python string operations the code relies on (`strip`, `lower`, `title`, `split`, `splitext`, `in`, `str(int)`), plus `Option`/`Result` and a three-way dict lookup result |

Things outside the program become inputs:

- **Network replies.** `Reply` is a status and body, or a raised error.
- **Batch task outcomes.** `TaskOutcome` says whether each task completed or raised.
- **Similarity.** It is a function from model, job and résumé to a real score.
- **File readers.** Each upload carries the outcome of each reader, `Reader -> ReadOutcome`.
- **The OpenAI client's answer.** `Completion` is either the reply content or a raised error.
- **The API key.** The OpenAI key arrives as the constructor argument.
- **The session id.** A fresh session id is a parameter.

Python semantics modelled explicitly:

- **Regular expression.** The name pattern `^([A-Z][a-z]+\s+[A-Z][a-z]+(?:\s+[A-Z][a-z]+)?)\s*$` is decided by a greedy scan. That scan is proved sound and complete against a declarative description of the pattern.
- **Whitespace.** `\s` and `str.strip` both use Python's whitespace set.
- **Sorting.** `list.sort(reverse=True)` is stable.
- **Builtins.** `zip` truncates to the shortest list; `next(...)` returns the first match.
- **Slices and division.** `s[:n]` follows Python's rules for every integer `n`. `//` is floor division.
- **Dictionary lookups.** `dict.get(k, default)` distinguishes a missing key from a key that holds `None`.

## Model

| member | source | states |
|---|---|---|
| Providers.RegistryRows | services/ai_providers.py:448-462 | The two registry tables have exactly the five provider keys. Each key names its adapter class and that class's model list. |
| Providers.RegistryLookup | services/ai_providers.py:448-462 | A name is in the registry exactly when some adapter class is listed under it. The class found under a key is the one whose key it is. |
| Providers.ValidateProviderConfig | services/ai_providers.py:479-483 | Validation holds exactly when the name is a registry key and the model is on the model list of the class registered under it. |
| Providers.ValidateIff | services/ai_providers.py:479-483 | A pair validates exactly when some adapter kind has that registry key and lists that model. |
| Providers.ValidationExamples | services/ai_providers.py:456-462 | ("openai", "gpt-3.5-turbo") validates, ("openai", "not-a-model") does not, and an unknown provider never does. |
| Providers.AvailableProviders | services/ai_providers.py:474-476 | The copy of `MODELS` has each kind's list under its key, and only registry keys. |
| Providers.ProviderNames | services/ai_providers.py:15 | The derived `provider_name` (class name without "Provider", lower-cased) is openai, anthropic, googleai, groq or ollama. Google's is "googleai", not its registry key. |
| Providers.NewAdapter | services/ai_providers.py:11-15 | A constructed adapter keeps the model and endpoint, and takes its kind's provider name. Its base URL is the custom endpoint when that is non-empty, else the default. Ollama replaces an empty key with "local". |
| Providers.DefaultModelsValid | services/ai_providers.py:36 | Every constructor's default model validates against its own registry list. |
| Providers.CreateProvider | services/ai_providers.py:465-471 | An unregistered name fails with "Unsupported provider: <name>". A registered name yields that kind's adapter, built from the given key, model and endpoint. |
| Providers.CreateRefusesUnknown | services/ai_providers.py:465-471 | The factory fails exactly for names under which no adapter kind is registered. |
| Providers.BuildSummaryRequest | services/ai_providers.py:43-44 | The request carries prefixes of the job description and the résumé, of at most 1200 and 1500 characters, cut hard with nothing appended. |
| Providers.GenerateSummary | services/ai_providers.py:40-88 | Whatever the reply, the request it sends carries the adapter's model and hard prefixes of the job description and the résumé, of at most 1200 and 1500 characters. Status 200 with a decoded body gives the generated text stripped. Any other status gives "Error generating summary: <status>". A raised request or an undecodable body gives "Unable to generate AI summary: <e>". |
| Providers.GoogleErrorDetail | services/ai_providers.py:273-279 | The error detail is the decoded message. Otherwise it is the first 200 characters of the raw body, or all of a shorter body, or "No error details" when the body is empty. |
| Providers.TestConnection | services/ai_providers.py:90-116 | Success exactly on status 200, with "Connection successful". Otherwise "API Error: <status>" (Google: "API Error <status>: <detail>"), or "Connection failed: <e>" when the request raised. |
| Providers.CostEstimate | services/ai_providers.py:118-122 | Groq and Ollama cost 0. The others charge `(length // 4) / 1000` times their price per thousand tokens. |
| Providers.CostMonotone | services/ai_providers.py:207-210 | The estimate never decreases as the text grows, and is never negative for a non-negative length. |
| AIManager.StoredFrom | services/ai_manager.py:30-37 | The stored record keeps provider, model and key. The endpoint is present when the key is present. Temperature and max_tokens default to 0.7 and 200 only for an absent key; a key holding None stays None. |
| AIManager.AdapterFor | services/ai_manager.py:40-45 | A validated configuration always yields an adapter, namely the one the factory builds from its key, model and endpoint. |
| AIManager.RemovalKeepsPairs | services/ai_manager.py:70-75 | Removing one session from both maps keeps the two maps over the same sessions and keeps every other session's pairing. Removing an absent session changes nothing. |
| AIManager.ConfigurationManager.constructor | services/ai_manager.py:11-13 | Both maps start empty. |
| AIManager.ConfigurationManager.StoreConfig | services/ai_manager.py:15-52 | It succeeds exactly when provider, model and key are truthy and the pair validates. Success writes both maps for this session only, replacing any earlier pair. Failure changes nothing. The two maps stay paired. |
| AIManager.ConfigurationManager.GetConfig | services/ai_manager.py:54-56 | The stored record, exactly when the session has one. |
| AIManager.ConfigurationManager.GetProvider | services/ai_manager.py:58-60 | The stored adapter, exactly when the session has one. |
| AIManager.ConfigurationManager.TestConnection | services/ai_manager.py:62-68 | Without an adapter the result is (false, "No provider configured"); otherwise it is the adapter's own test. Success implies an adapter exists. |
| AIManager.ConfigurationManager.ClearConfig | services/ai_manager.py:70-75 | The session leaves both maps. Afterwards config and provider read None and the test reports "No provider configured". Clearing an absent session changes nothing. |
| AIManager.Candidate.constructor | services/ai_manager.py:93 | A new record has its name and résumé entries, and none of the three AI keys. |
| AIManager.Rendered | services/ai_manager.py:167 | An f-string shows an absent name as the default and a None name as "None". |
| AIManager.FallbackAnnotation | services/ai_manager.py:163-172 | The fallback text opens with the name (or "This candidate") followed by the fixed sentence. The label is "Fallback (No AI Configured)" and the record is not generated. |
| AIManager.FallbackInjective | services/ai_manager.py:166-170 | Two records get the same fallback exactly when their names render alike. |
| AIManager.SingleSummary | services/ai_manager.py:136-161 | A missing, None or empty résumé gives "No resume text available for analysis". Otherwise the result is the adapter's summary, with the name rendered with default "Candidate". |
| AIManager.NoResumeNoCall | services/ai_manager.py:148-149 | Without a résumé the provider's reply is never consulted. |
| AIManager.ProviderLabel | services/ai_manager.py:124 | The label is "<name> (<model>)": three characters longer than name and model together, with " (" after the name and ")" at the end. |
| AIManager.ProviderLabels | services/ai_manager.py:124 | Each adapter's label is its title-cased provider name; Google's reads "Googleai (<model>)". |
| AIManager.BatchAnnotation | services/ai_manager.py:120-130 | A completed task writes its summary, the provider label and generated true. A raised task writes "Unable to generate AI summary: <e>", "Error" and false. |
| AIManager.ErrorLabelOnlyOnFailure | services/ai_manager.py:122-130 | The label is "Error" exactly when the task raised. A completed task whose adapter returned "Error generating summary: 500" is still marked generated. |
| AIManager.SummaryGenerator.constructor | services/ai_manager.py:85-87 | It keeps the manager and three workers. |
| AIManager.SummaryGenerator.AddFallbackSummaries | services/ai_manager.py:163-174 | Every record in the list gets the fallback built from its own name. The name and résumé are kept, and the same list is returned. |
| AIManager.SummaryGenerator.AddFallback | services/ai_manager.py:166-172 | One record gets the fallback built from its own name, and its name and résumé are kept. |
| AIManager.SummaryGenerator.GenerateSummariesBatch | services/ai_manager.py:89-134 | The result is `candidates[:max_summaries]` in input order. Without an adapter every selected record gets the fallback. With one, each record's last write is the annotation for its own task's outcome. Records past the cut are not modified. |
| AIManager.SummaryGenerator.EstimateCostAsWritten | services/ai_manager.py:176-193 | As written: 0 without a provider; with one, it fails exactly when a selected record's résumé holds None. |
| AIManager.SummaryGenerator.EstimateCost | services/ai_manager.py:176-193 | 0 without a provider. Otherwise the adapter's estimate for len(job) × max_summaries plus the summed résumé lengths of the selected records. It agrees with the as-written version wherever that one succeeds. |
| AIManager.ResumeEntries | services/ai_manager.py:190 | The `resume_text` entries of the records, one per record, in order. |
| AIManager.EntriesOfPrefix | services/ai_manager.py:190 | Selecting `[:max_summaries]` and then reading the résumés equals reading them and then selecting. |
| AIManager.ResumeLengthAsWritten | services/ai_manager.py:190 | The sum fails exactly when some entry holds None; an absent key counts 0. |
| AIManager.ResumeLengthAgrees | services/ai_manager.py:190 | Where the as-written sum succeeds, it equals the intended sum. |
| AIManager.ResumeLengthAppend | services/ai_manager.py:190 | Adding a record adds its résumé's length. |
| AIManager.JobChargedPerRequestedSummary | services/ai_manager.py:191 | Past the number of records, each further requested summary still adds one job length to the priced text. |
| AIManager.NullResumeDiscrepancy | services/ai_manager.py:146-149 | A None résumé makes the as-written sum fail. The batch answers the same record without error, and the corrected sum counts it as 0. |
| AIManager.DefaultModelFor | services/ai_manager.py:218-225 | An unknown provider gets "gpt-3.5-turbo"; the chosen model is never empty. |
| AIManager.ConfigureDefaultsValid | services/ai_manager.py:218-225 | Each provider's configure-time default validates. It differs from the constructor default exactly for Anthropic. |
| AIManager.ChosenModel | services/ai_manager.py:217-226 | The given model when truthy, else the default; never empty. |
| AIManager.WithModel | services/ai_manager.py:226 | Only `config['model']` is replaced, by the chosen model. |
| AIManager.SummaryGenerator.AnnotateAll | services/ai_manager.py:119-134 | The collection loop returns the selected records in submission order. Each record's last write is the annotation for its own task's outcome. Names and résumés are kept. |
| AIManager.SummaryGenerator.Annotate | services/ai_manager.py:121-130 | A completed task writes its summary, the provider label and true. A failed one writes the error text, "Error" and false. |
| AIManager.Rejection | services/ai_manager.py:211-230 | The pre-store checks in order: a missing provider, then a key shorter than 3 after strip, then an invalid pair, each with its message. Nothing is rejected otherwise. |
| AIManager.AcceptedIsStorable | services/ai_manager.py:229-264 | A configuration that passes the checks is always stored, so the "Failed to save configuration" branch is unreachable. |
| AIManager.StoreThenClear | services/ai_manager.py:232-238 | Storing a session and clearing it again leaves the map as clearing alone would. |
| AIManager.FailureKindOf | services/ai_manager.py:241-262 | The first test that matches decides the kind, in the source's order: "401"; then "404"; "400"; "429"; "403"; "500", "502" or "503"; "Connection"; otherwise the fallback. Each kind holds exactly when its test matches and no earlier test does. |
| AIManager.FailureAnswer | services/ai_manager.py:241-262 | Each kind gives its own answer, built from the title-cased provider, the model or the message; `Wording` spells each answer as the source does. A bad request names the Groq model restriction only for "groq". A connection failure asks to start Ollama only for "ollama"; any other provider gets the network-error answer. |
| AIManager.ProviderSpecificMessages | services/ai_manager.py:245-260 | Groq answered "400" without "401" or "404": the Groq model-access answer. Ollama failed with a digit-free error mentioning "Connection": the "Ollama not running" answer. |
| AIManager.StatusCodeIn | services/ai_manager.py:241-254 | A three-digit code occurs in "API Error: <status>" exactly when it is the status. |
| AIManager.NoConnectionInStatus | services/ai_manager.py:256 | "Connection" never occurs in "API Error: <status>". |
| AIManager.StatusClassification | services/ai_manager.py:241-262 | A non-Google adapter's failed test with a three-digit status is classified by that status alone. |
| AIManager.NoCodesWithoutDigits | services/ai_manager.py:241-254 | No status code occurs in a text without digits. |
| AIManager.RaisedClassification | services/ai_manager.py:256-260 | A probe that raised an error without digits is reported as a connection problem. |
| AIManager.InsightEngine.constructor | services/ai_manager.py:199-201 | A fresh, empty configuration manager, shared with the summary generator. |
| AIManager.InsightEngine.ConfigureAI | services/ai_manager.py:203-266 | A rejected request leaves the store unchanged. An accepted one is stored and put through the connection test. Success reports the provider and model. Failure clears the session and returns the classified message. |
| AIManager.InsightEngine.TestStoredConfig | services/ai_manager.py:232-262 | A passing test keeps the session. A failing one removes it from both maps and explains the failure. |
| AIManager.InsightEngine.GetProviderInfo | services/ai_manager.py:268-279 | Present exactly when the session is configured, with its provider, model and endpoint. |
| AIManager.InsightEngine.GenerateCandidateInsights | services/ai_manager.py:281-308 | It runs the batch and then the cost estimate as written. The selected records stay annotated either way. It fails exactly when a provider is configured and a selected record's résumé holds None. Otherwise the statistics hold all candidates counted, the summaries generated, the provider info, and a cost equal to the corrected estimate. |
| Embedding.Zip3 | services/embedding_engine.py:48 | The zip is as long as the shortest list, and entry i pairs name i, filename i and score i. |
| Embedding.InsertBound | services/embedding_engine.py:49 | Inserting keeps every score under a common bound. |
| Embedding.InsertPermutes | services/embedding_engine.py:49 | Insertion adds exactly the new entry. |
| Embedding.InsertDescends | services/embedding_engine.py:49 | Insertion into a descending list keeps it descending. |
| Embedding.SortPermutes | services/embedding_engine.py:49 | The sort is a permutation of its input. |
| Embedding.SortDescends | services/embedding_engine.py:49 | Scores never increase along the sorted list. |
| Embedding.SortKeeps | services/embedding_engine.py:49 | The sort is a permutation, descending, of the same length. |
| Embedding.WithScoreAppend | services/embedding_engine.py:49 | Selecting one score value distributes over concatenation. |
| Embedding.WithScoreInsert | services/embedding_engine.py:49 | Insertion puts the new entry after every earlier entry of equal score. |
| Embedding.SortStable | services/embedding_engine.py:49 | For each score value, the entries with that score keep their input order (stable with reverse=True). |
| Embedding.InsertAt | services/embedding_engine.py:49 | Insertion places the new entry after every entry scoring at least as much. |
| Embedding.InsertLands | services/embedding_engine.py:49 | A list formed by the shifted prefix with the entry at the first lower score is the insertion. |
| Embedding.InsertInPlace | services/embedding_engine.py:49 | One in-place insertion pass turns the array prefix into the insertion of the next entry and leaves the rest alone. |
| Embedding.SortInPlace | services/embedding_engine.py:49 | The array ends as the stable descending sort of its initial contents. |
| Embedding.EmbeddingEngine.constructor | services/embedding_engine.py:8-9 | No model is loaded. |
| Embedding.EmbeddingEngine.LoadModel | services/embedding_engine.py:11-14 | A model exists afterwards. An already loaded one is never replaced; otherwise "all-MiniLM-L6-v2" is loaded. |
| Embedding.EmbeddingEngine.RankCandidates | services/embedding_engine.py:33-51 | A model loaded earlier is kept; otherwise "all-MiniLM-L6-v2" is loaded. The result is the stable descending sort of the zip of names, filenames and that model's scores. |
| Embedding.Scores | services/embedding_engine.py:39-45 | One score per résumé, each the similarity of that résumé to the job under the model. |
| Embedding.Ranking | services/embedding_engine.py:48-49 | The ranking is a permutation of the zip, never increases in score, and keeps the input order among equal scores. |
| TextExtractor.LowerRun | services/text_extractor.py:56 | The longest run of lower-case letters starting at a position. |
| TextExtractor.SpaceRun | services/text_extractor.py:56 | The longest whitespace run starting at a position. |
| TextExtractor.WordEnd | services/text_extractor.py:56 | A found word end lies at least two characters on, and no lower-case letter follows it. |
| TextExtractor.WordEndIsWord | services/text_extractor.py:56 | What `WordEnd` finds is a `[A-Z][a-z]+` word. |
| TextExtractor.WordEndFinds | services/text_extractor.py:56 | Every word that ends before a non-lower-case character, or at the end, is the one `WordEnd` finds. |
| TextExtractor.SpaceRunFinds | services/text_extractor.py:56 | Every whitespace run that ends before a non-space, or at the end, is the one `SpaceRun` finds. |
| TextExtractor.NameMatchSound | services/text_extractor.py:56 | Whatever the scan captures matches the pattern. |
| TextExtractor.NameMatchComplete | services/text_extractor.py:56 | Every capture the pattern admits is the one the scan returns, so there is only one. |
| TextExtractor.WholeTrimmedLine | services/text_extractor.py:53-58 | On a stripped line, a match captures the whole line. |
| TextExtractor.TrimmedMatchIff | services/text_extractor.py:53-58 | A stripped line matches exactly when it is name-shaped, and the name is then the whole line. |
| TextExtractor.FirstMatch | services/text_extractor.py:53-58 | The first line that matches wins, and none matches exactly when the result is None. |
| TextExtractor.FirstMatchShaped | services/text_extractor.py:53-58 | The found name is the first name-shaped stripped line, and no earlier line is name-shaped. |
| TextExtractor.FallbackName | services/text_extractor.py:61 | The fallback has the length of the filename's stem. |
| TextExtractor.FallbackNameShape | services/text_extractor.py:61 | '_' and '-' become spaces and other characters keep their identity up to case. A letter is upper-case exactly when it starts a word. |
| TextExtractor.FirstLines | services/text_extractor.py:52 | At most the first five '\n'-separated lines, as a prefix of all lines. |
| TextExtractor.NameFromLinesShape | services/text_extractor.py:52-63 | The name is either the first name-shaped stripped line among the five, or the filename fallback when none is. |
| TextExtractor.ReaderText | services/text_extractor.py:19-45 | A failed read gives empty text; otherwise the text is the read text stripped. |
| TextExtractor.ReaderFor | services/text_extractor.py:68-77 | ".pdf", ".docx" and ".txt" select their readers; every other extension selects none. |
| TextExtractor.ProcessFile | services/text_extractor.py:66-83 | The reader is chosen by lower-cased extension, and an unknown extension gives empty text. Empty text returns the raw filename as the name; otherwise the name is extracted from the text. |
| TextExtractor.ExtractedTextTrimmed | services/text_extractor.py:19-45 | Extracted text never starts or ends with whitespace. |
| TextExtractor.UpperCaseExtension | services/text_extractor.py:68 | "CV.PDF" is read by the PDF reader: dispatch ignores case. |
| Recommend.FileNames | main.py:172-173 | One filename per upload, in order. |
| Recommend.Unsupported | main.py:171-178 | A reported extension is never an allowed one. |
| Recommend.UnsupportedNone | main.py:171-178 | Nothing is reported exactly when every extension is allowed. |
| Recommend.UnsupportedFirst | main.py:172-178 | The extension reported is the first disallowed one. |
| Recommend.Validation | main.py:164-178 | The request passes exactly when the job has non-whitespace text, there are uploads, and every extension is allowed. |
| Recommend.AllowedHaveReaders | main.py:171 | The allowed extensions are exactly those with a reader. |
| Recommend.Extract | main.py:194 | Each extraction keeps its upload's filename. |
| Recommend.Extractions | main.py:187-194 | One extraction per upload, in order. |
| Recommend.WithText | main.py:199-204 | It keeps only extractions with non-empty text. |
| Recommend.WithTextEmpty | main.py:199-206 | Nothing is kept exactly when every text is empty. |
| Recommend.WithTextFrom | main.py:199-204 | Every kept extraction is one of the inputs. |
| Recommend.WithTextSnoc | main.py:199-204 | One more upload is kept exactly when its text is not empty. |
| Recommend.NothingExtracted | main.py:206 | The no-text response applies exactly when every upload yields empty text. |
| Recommend.ExtractedFromUploads | main.py:199-204 | Every kept extraction is that of some upload. |
| Recommend.FirstText | main.py:229-230 | The text of the first entry with that name and filename. None exactly when no entry matches. |
| Recommend.RankedEntriesFound | main.py:229-230 | Every ranked entry finds its résumé, so `next` never runs dry. |
| Recommend.ResultFor | main.py:233-242 | The record carries the entry's name, filename and score, AI fields unset, and the résumé text. |
| Recommend.CheckRequest | main.py:164-178 | The checks made before any upload is read give exactly the detail of `Validation`, in the same order. |
| Recommend.CheckFileTypes | main.py:171-178 | The loop reports the first disallowed extension, or none. |
| Recommend.ExtractAll | main.py:182-204 | The four lists are the extractions with non-empty text and their projections, so they grow together. |
| Recommend.BuildResults | main.py:224-244 | Each top entry gets its record, with the résumé of the first matching extraction. |
| Recommend.RecommendCandidates | main.py:155-254 | Rejections are 400 with their detail. No text gives success false with no candidates and 0 processed. Otherwise success is true, `total_processed` counts every upload, and the candidates are the records of the top ten of the ranking. A rejection or a request with no text leaves the engine as it was. A model loaded earlier is always kept; a ranking request on a fresh engine loads "all-MiniLM-L6-v2". |
| Recommend.RankExtracted | main.py:215-244 | The ranking half: the engine keeps a loaded model or loads "all-MiniLM-L6-v2", and the records answer the top ten of that model's ranking. |
| Recommend.TopTenInOrder | main.py:221-244 | At most ten records, in ranking order and never increasing in score. AI fields are unset, and each résumé is the text extracted under that name and filename. |
| Recommend.Session.constructor | main.py:57-61 | The session starts with the given data. |
| Recommend.Session.GetSessionId | main.py:57-61 | An existing id is returned and nothing changes. Otherwise the fresh id is stored and returned. |
| AISummarizer.InitialClient | services/ai_summarizer.py:11-16 | A client exists exactly when OPENAI_API_KEY is set and non-empty, and it holds that key. |
| AISummarizer.ResumeExcerpt | services/ai_summarizer.py:28 | A résumé of at most 1500 characters is unchanged. A longer one becomes its first 1500 characters plus "...". |
| AISummarizer.ExcerptIdempotent | services/ai_summarizer.py:28 | Cutting an excerpt again changes nothing. |
| AISummarizer.ExcerptUnchangedIff | services/ai_summarizer.py:28 | The excerpt equals the résumé exactly when the résumé fits, or is 1503 characters ending in "...". |
| AISummarizer.Summarizer.constructor | services/ai_summarizer.py:7-9 | The client is the one the key yields. |
| AISummarizer.Summarizer.IsAvailable | services/ai_summarizer.py:56-58 | True exactly when a client exists. |
| AISummarizer.Summarizer.GenerateSummary | services/ai_summarizer.py:18-54 | Without a client: the "unavailable" message and no request. With one: the prompt holds the first 1000 characters of the job, the name and the excerpt. Content gives the stripped text; a failure or missing content gives "<name> shows relevant experience…". |
| AISummarizer.UnavailableIgnoresReply | services/ai_summarizer.py:23-24 | Without a client the answer does not depend on any reply, and no request is made. |
| AISummarizer.PromptBounds | services/ai_summarizer.py:28-36 | The prompt holds at most 1000 characters of the job and 1503 of the résumé, both taken from the front. |

## Left out

- **HTTP, JSON and prompts.** The adapters' HTTP requests, headers, JSON payloads and prompt wording are network I/O. Each call takes the reply it received as an input.
- **Concurrency.** The thread pool, `future.result(timeout=30)` and async/await of the summary batch are sequentialised. Results are collected in submission order, so each task's outcome is an input indexed by position.
- **Embeddings and cosine similarity.** Both are floating-point maths in foreign libraries, so the similarity is a function parameter returning a real.
- **Float rounding and timing.** `round(similarity * 100, 1)`, `round(similarity, 4)` and the processing time are left out. Scores and costs are exact reals.
- **File I/O.**
  - The readers' loops over PDF pages and DOCX paragraphs are replaced by the text (or failure) each reader yields.
  - The temporary save and removal of each upload are not modelled.
  - `ReaderText` keeps the strip the readers apply.
- **Exceptions, user ids and the web layer.**
  - The broad `except` around the extraction and ranking in `recommend_candidates` catches I/O and library failures, none of which the model has. The "An error occurred while processing candidates" response is therefore not modelled.
  - The `except` in `store_config` and `configure_ai` guards the same kind of failure and is left out too.
  - `uuid4` is a parameter.
  - FastAPI routing, the session middleware, templates and response wrapping are not modelled.
- **Unicode case.**
  - `lower`, `title` and `isupper` follow the ASCII letters; other characters are left unchanged.
  - The name pattern itself is ASCII (`[A-Z][a-z]+`).
  - `\s` and `strip` use Python's full whitespace set.
- **Ignored record keys.** Candidate record keys other than the name, the résumé and the three AI keys are carried by the source but never read, so they are not modelled.
- **Pass-through wrappers.** `get_available_providers` and `test_provider_connection` on the manager and the engine only pass the call on. They are covered by `Providers.AvailableProviders` and `AIManager.ConfigurationManager.TestConnection`.
- **`generate_embedding(s)` and `calculate_cosine_similarity`.** Each only calls a foreign library after loading the model; their effect on the engine's state is captured in `RankCandidates`.
- **Behaviour that follows the code rather than its description.**
  - The cost estimate charges the job length once per requested summary, not once per selected record.
  - A completed task whose adapter returned an error string is still marked generated.
- **Summarizer prompt wording.** The single-provider summarizer's prompt text, system message, model name, `max_tokens` and temperature are not modelled. `Prompt` records only the parts of the inputs that reach the request.

## Findings

| source | as written | input that shows it | evidently intended | confidence | as-written member | corrected member |
|---|---|---|---|---|---|---|
| services/ai_manager.py:190 | `len(c.get('resume_text', ''))` raises TypeError when a selected record holds `resume_text: None` | one selected candidate `{"name": "A", "resume_text": None}` with a provider configured | a None résumé counts as no text, as `_generate_single_summary` (services/ai_manager.py:146-149) treats it | not executed | AIManager.SummaryGenerator.EstimateCostAsWritten, AIManager.NullResumeDiscrepancy, AIManager.InsightEngine.GenerateCandidateInsights | AIManager.SummaryGenerator.EstimateCost |
