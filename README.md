# Memories service — a Dafny model

This project models the request-handling core of a small memory service. The
service stores short "memories" as embedding vectors in a vector database. A
memory bank is a collection in that database. The model covers:

- the request models and their validators: tags and entities split on commas,
  closed sets of sentiments, actions and moderation points, `top_k`, the
  single-word tag, and the flattening of a list input;
- saving a memory: the five-key payload, upserted under a fresh id;
- recalling memories: the filter built from the optional entity, sentiment and
  tag, the search request, and the formatting of the hits;
- managing banks: create (with its three payload indexes), delete, and forget
  one memory by its UUID;
- the phone-tap moderation hook and its global message tally;
- the embeddings endpoint: its response envelope and its in-flight counter;
- the shared embedding model (a set-once singleton) and the API-key check;
- the clustering scheduler: the initial delay, run-then-stamp ordering, and
  the trigger it installs.

Python's string operations are modelled in `text.dfy`: `isspace`, `strip`,
`split(sep)`, `split()` and `join`. The vector database is modelled in
`store.dfy` as a class holding a map of collections. Each handler that writes
to it is a method with a `modifies` clause. The embedding inference and the
similarity search are function-typed parameters, because their numerics are not
modelled. Clocks, UUIDs and environment variables are parameters too.

Each handler funnels every exception into an HTTP 500, and the model keeps that
funnel. An `HTTPException` raised inside a `try` block is caught again, so its
status is folded into the 500's detail. The model renders it as
`"<status>: <detail>"`, which is what `str()` of Starlette's `HTTPException`
gives.

## Model

| member | source | states |
|---|---|---|
| Text.Strip | app/models.py:29 | `str.strip()`: the result has no whitespace at either end; it is the infix of the input between a whitespace-only prefix and a whitespace-only suffix; it is empty exactly when the input is all whitespace |
| Text.SplitOn | app/models.py:29 | `s.split(",")`: at least one piece, no piece holds the separator, and joining the pieces with it gives `s` back |
| Text.SplitOnJoin | app/models.py:36 | splitting undoes joining, for at least one part and parts without the separator |
| Text.Words | app/routes/embeddings.py:46 | `s.split()`: every word is non-empty and holds no whitespace |
| Text.WordsMeaning | app/routes/embeddings.py:46 | for every `s`, `s.split()` has one word per word start (a non-whitespace character at the beginning or after whitespace), and the words laid end to end are exactly the non-whitespace characters of `s`, in order |
| Text.WordsOfJoin | app/routes/embeddings.py:46 | `" ".join(words).split() == words` for non-empty whitespace-free words |
| Models.StrippedNonBlank | app/models.py:29 | the comprehension keeps at most as many items, each non-empty and stripped, and adds no character absent from every piece |
| Models.StrippedNonBlankMembers | app/models.py:29 | an item is in the result exactly when it is the non-empty strip of some piece |
| Models.StrippedNonBlankClean | app/models.py:36 | a list of non-empty stripped items passes the comprehension unchanged |
| Models.SplitTags | app/models.py:26-30 | a list is kept as given; a string becomes non-empty, stripped, comma-free items |
| Models.SplitEntities | app/models.py:33-37 | the same rule as tags; a list is kept as given |
| Models.SplitCommaListJoin | app/models.py:26-37 | joining clean items with commas and splitting again gives the items back, for tags and entities |
| Models.SplitTagsIdempotent | app/models.py:26-30 | splitting the comma-joined result of a split gives the same list |
| Models.ValidateSentiment | app/models.py:40-44 | accepted exactly for positive, neutral, negative; the value is kept; otherwise the sentiment error text |
| Models.ValidateTopK | app/models.py:68-72 | accepted exactly when at least 1; otherwise the top_k error text |
| Models.ValidateTag | app/models.py:82-86 | refused exactly when given, non-empty and holding a space; the value is kept otherwise |
| Models.ValidateAction | app/models.py:101-105 | accepted exactly for create, delete, forget |
| Models.ValidatePoint | app/models.py:145-149 | accepted exactly for "ping" and "app.moderation.input" |
| Models.FlattenInput | app/models.py:123-127 | a string is kept; a one-item list becomes its item |
| Models.FlattenInputSplit | app/models.py:123-127 | splitting the flattened text on single spaces gives back a list whose items hold no space |
| Models.FlattenInputWords | app/models.py:123-127 | `split()` of the flattened text gives back a list of non-empty whitespace-free items |
| Models.ValidateModel | app/models.py:130-136 | accepted exactly when the model equals LOCAL_MODEL |
| Models.NewSaveParams | app/models.py:10-44 | valid exactly when the sentiment is; tags and entities are the split values |
| Models.NewSearchParams | app/models.py:48-86 | valid exactly when each supplied top_k, tag and sentiment is; top_k defaults to 5 and is at least 1; otherwise the errors are exactly one message per failing field, in the order top_k, tag, sentiment |
| Models.NewManageMemoryParams | app/models.py:90-105 | valid exactly when the action is one of the three |
| Models.NewEmbeddingParams | app/models.py:109-136 | the input is flattened; a supplied model must equal LOCAL_MODEL; the default model is LOCAL_MODEL |
| Store.VectorStore.GetCollection | app/routes/phonetap.py:33 | the bank's description, or NotFound when there is no such bank |
| Store.VectorStore.CreateCollection | app/routes/manage.py:31-43 | a new empty bank with no indexes; an existing name or a size below 1 is refused and changes nothing |
| Store.VectorStore.CreatePayloadIndex | app/routes/manage.py:48-52 | the field is added to the bank's indexes once; a missing bank fails and changes nothing |
| Store.VectorStore.DeleteCollection | app/routes/manage.py:60 | the bank is removed; a missing bank is NotFound |
| Store.VectorStore.DeletePoints | app/routes/manage.py:71-73 | exactly the listed ids leave the bank |
| Store.VectorStore.Upsert | app/routes/memory.py:37-52 | the point is stored under its id when its vector has the bank's size; otherwise nothing changes |
| Dependencies.SingletonTextEmbedding.GetInstance | app/dependencies.py:15-19 | the held model, or the "has not been initialized" error |
| Dependencies.SingletonTextEmbedding.Initialize | app/dependencies.py:21-26 | set once: a held model is kept; otherwise the model for LOCAL_MODEL, cache dir /app/models, parallel 0 |
| Dependencies.InitializeThenGet | app/dependencies.py:30-36 | after initialisation, get_instance succeeds with the held model |
| Dependencies.EmbedText | app/dependencies.py:35-36 | getting the model and embedding a text: the not-initialized error, or what inference gives |
| Dependencies.GetApiKey | app/dependencies.py:48-55 | 403 "Invalid or missing API key" exactly when a key is configured and the credential differs from it; otherwise the credential |
| Memory.BuildFilter | app/routes/memory.py:77-98 | the appended conditions are those of `Conditions`, in the order entity, sentiment, tag |
| Memory.ConditionsShape | app/routes/memory.py:77-95 | one condition per truthy parameter, on entities, sentiment and tags in that order; none given gives an empty filter |
| Memory.FilterMeaning | app/routes/memory.py:77-98 | a payload passes the filter exactly when it holds the entity, has the sentiment and holds the tag that were given |
| Memory.EmptyFilterMatchesAll | app/routes/memory.py:98 | with no filter parameters every payload passes |
| Memory.SavedPayload | app/routes/memory.py:42-48 | the payload has exactly the keys memory, timestamp, sentiment, entities, tags |
| Memory.SaveMemory | app/routes/memory.py:21-60 | the point is upserted under the fresh id with the embedded vector and the payload; the reply is "Memory saved successfully"; a model or store failure is a 500 with the prefixed message, and the store is unchanged |
| Memory.FormatHit | app/routes/memory.py:113-122 | succeeds exactly when the payload has all five keys; then it copies id, score and the five values; otherwise a KeyError text for a missing key |
| Memory.FormatHits | app/routes/memory.py:113-124 | succeeds exactly when every hit formats; one record per hit, in order; otherwise the error of some hit |
| Memory.SavedPointRecalled | app/routes/memory.py:113-122 | a point saved by save_memory formats back into the values it was saved with |
| Memory.SavedPointMatchesOwnFilter | app/routes/memory.py:77-95 | a saved memory passes the filter built from any of its entities, its sentiment and any of its tags |
| Memory.RecallRequest | app/routes/memory.py:98-110 | the search targets the bank with the query vector, the built filter, and top_k as the limit |
| Memory.RecallMemory | app/routes/memory.py:65-131 | the handler's outcome equals the recall outcome: embed, build the filter, search, format; each failure is a 500 with str(e) |
| Memory.RecallFailuresAre500 | app/routes/memory.py:128-131 | every failed recall is reported with status 500 |
| Memory.RecallKeepsHits | app/routes/memory.py:113-126 | a successful recall has one record per hit of the issued search, with the same id, score, memory, entities and tags |
| Memory.RecallRespectsFilter | app/routes/memory.py:97-110 | if the store honours filter and limit, a recall returns at most top_k records, each with the requested entity, tag and sentiment |
| PhoneTap.EchoInputs | app/routes/phonetap.py:67 | the given inputs, or an empty mapping when none were given |
| PhoneTap.AppendDate | app/routes/phonetap.py:50 | the query, then a blank line and "(Current Date: …)" |
| PhoneTap.NextTally | app/routes/phonetap.py:44-55 | the tally goes up by one modulo 10 and stays in 0..9 |
| PhoneTap.ModeratedQuery | app/routes/phonetap.py:53-77 | on the tenth message the summary instruction comes before the dated query; otherwise only the dated query; the dated query always ends the answer |
| PhoneTap.PhoneTapRoute.constructor | app/routes/phonetap.py:16 | the tally starts at 0 |
| PhoneTap.PhoneTapRoute.Handle | app/routes/phonetap.py:21-84 | a ping gives pong when the bank exists, else a 500 carrying "404: Collection not found"; a moderated input advances the tally and answers direct_output with the echoed inputs; unparsable params give a 500 before counting; the tally stays in 0..9 |
| PhoneTap.TallyCounts | app/routes/phonetap.py:43-55 | from tally t, after n messages the tally is (t+n) mod 10 and (t+n) div 10 of them carried the summary instruction |
| Manage.ManageMemories | app/routes/manage.py:23-82 | create adds a DIM-sized cosine bank indexing sentiment, entities and tags; delete removes the bank; forget removes one point and needs a UUID; each reply message is stated; each failure is a 500 with str(e), leaving the store unchanged |
| Manage.CreateThenDelete | app/routes/manage.py:29-62 | creating a new bank and then deleting it leaves the store as it was |
| Embeddings.BuildResponse | app/routes/embeddings.py:41-49 | a "list" holding one "embedding" datum at index 0; the model is LOCAL_MODEL; prompt tokens count the input's words; total tokens are the vector length |
| Embeddings.EmbeddingOutcomeMeaning | app/routes/embeddings.py:32-57 | success exactly when inference succeeds, returning its vector; a missing model or an inference failure is a 500 with the prefixed message |
| Embeddings.PromptTokensCountWords | app/routes/embeddings.py:46 | for any input, prompt_tokens is the number of word starts, and the counted words hold every non-whitespace character of the input |
| Embeddings.ListPromptTokens | app/routes/embeddings.py:46 | a list input of single words reports one prompt token per item |
| Embeddings.EmbeddingsRoute.EmbeddingRequest | app/routes/embeddings.py:22-66 | the counter is one higher while the request runs and restored afterwards, on success and on failure alike; the reply is the embedding outcome |
| Scheduler.InitialDelay | app/scheduler.py:14-24 | never negative; zero with no record or once three days have passed; otherwise it ends exactly three days after the last run |
| Scheduler.ClusterJob.GetInitialDelay | app/scheduler.py:14-24 | the delay computed from the recorded last run |
| Scheduler.ClusterJob.UpdateLastRunTime | app/scheduler.py:27-32 | the metadata file now records the given time |
| Scheduler.StampAfter | app/scheduler.py:35-38 | the last run is stamped after every pass that create_clusters returns from, including a failed pass it caught; only an escaping exception leaves the record unchanged |
| Scheduler.ClusterJob.ScheduledTask | app/scheduler.py:35-38 | clustering runs before the stamp; the new record is `StampAfter` of the old one; an exception that escapes create_clusters propagates and skips the stamp |
| Scheduler.IntendedStampAfter | app/scheduler.py:35-38 | as intended, only a successful clustering pass stamps the last run |
| Scheduler.ClusterJob.ScheduledTaskIntended | app/scheduler.py:35-38 | the corrected task: the new record is `IntendedStampAfter` of the old one, and the stamp follows only a successful pass |
| Scheduler.IntendedRecordIsLastSuccess | app/scheduler.py:35-38 | with the intended stamping, after any sequence of runs the record is the time of the latest successful pass, or the earlier record if no pass succeeded |
| Scheduler.AsWrittenStampsFailedPass | app/scheduler.py:38 | as written, a failed pass that create_clusters caught is stamped, so the next start-up waits three days instead of retrying at once |
| Scheduler.IntervalTrigger | app/scheduler.py:45-46 | days and seconds add up to one interval, and the first run comes one interval after start-up |
| Scheduler.ClusterJob.StartScheduler | app/scheduler.py:41-47 | the trigger as written: three days plus the initial delay |
| Scheduler.ClusterJob.StartSchedulerIntended | app/scheduler.py:41-47 | the trigger as intended: first run after the initial delay, then every three days |
| Scheduler.IntendedSchedule | app/scheduler.py:41-47 | the intended first run is max(now, last run + 3 days), or now with no record; runs are exactly three days apart |
| Scheduler.AsWrittenDelaysFirstRun | app/scheduler.py:45-46 | with a run recorded one day before start-up, the written trigger first fires six days after that run, and later runs are five days apart |
| Scheduler.AsWrittenWaitsWithoutRecord | app/scheduler.py:24 | with no record, the written trigger waits three days instead of running at once |

## Left out

- Clustering itself (the DBSCAN pass of app/tasks/create_clusters.py) is not part of this model. How create_clusters ends is a parameter of `ScheduledTask`, with three cases: the pass succeeded; it failed and create_clusters caught and printed the failure; or an exception escaped (building the database client).
- Embedding inference (fastembed `model.embed`, `next()` on its generator) is a function-typed parameter. Any failure it raises reaches the handler as its message.
- Similarity search ranking, quantization settings and search parameters are not modelled. The search is a function-typed parameter. `RecallRespectsFilter` assumes it honours filter and limit.
- Memory.RecallRespectsFilter: holds under the assumption that the store honours filter and limit; the handler itself does not check this.
- The vector database's behaviour is a model: its failures are missing bank, existing bank, size below 1 and wrong vector size. The texts of its errors are this model's own wording.
- `str()` of an `HTTPException` is taken to be `"<status>: <detail>"`; older Starlette versions print differently.
- Clocks (`datetime.now`, `utcnow`, `time.time`), `uuid4`, and the date format are parameters. Processing-time measurement and all `print` logging are left out.
- Environment variables (LOCAL_MODEL, DIM, MEMORIES_API_KEY) are parameters. `int(DIM)` is given as its value or its error text.
- Scheduler times are whole seconds on one clock. Sub-second precision, time zones, and an unreadable or malformed metadata file are left out. The APScheduler machinery is reduced to a start date and an interval.
- Concurrency is left out: asyncio, `to_thread`, and interleaved updates of `message_tally` and `current_embeddings`. Each handler runs atomically in the model.
- Pydantic mechanics are reduced: type coercion and the error envelope of a 422 are not modelled. Validators run on supplied values only, and each builder returns the list of messages.
- InputParams is not part of this model's sources. It is modelled as a query with optional inputs, and parsing it is a parameter of `PhoneTapRoute.Handle`.
- Model loading inside `SingletonTextEmbedding.initialize` can fail. Its failure is a parameter.
- Store.VectorStore.CreatePayloadIndex: records only the field name, not its `field_schema` ("keyword" for all three fields); the schema has no effect on anything else the model states.
- `create_qdrant_client`, app/config.py, app/functions.py, app/main.py, app/routes/root.py and app/embeddings.py are not part of this model.
- PhoneTap.PhoneTapRoute.Handle: the summary instruction's text is kept as written, including the missing space between "conversation" and "and".

## Findings

| source | as written | input that shows it | evidently intended | confidence | as-written member | corrected member |
|---|---|---|---|---|---|---|
| app/scheduler.py:45-46 | `IntervalTrigger(seconds=initial_delay, days=3)` adds the delay to the interval. The first run comes one whole interval after start-up, and every later run is 3 days + delay apart. | last run recorded one day before start-up: delay is two days, first run six days after the last run, later runs five days apart; with no record the first run waits three days | first run after the delay, that is at max(now, last run + 3 days), then every three days | not executed | Scheduler.AsWrittenDelaysFirstRun | Scheduler.IntendedSchedule |
| app/scheduler.py:35-38 | `scheduled_task` stamps `last_run` whenever `create_clusters` returns. But `create_clusters` catches and only prints every failure of the clustering pass (app/tasks/create_clusters.py:15, 61-62), so a failed pass is recorded as a run. | no earlier record; the scroll fails during the pass: the record becomes the time of the failed pass, and a start-up right after it waits three days instead of retrying at once | the record marks the last successful clustering pass; a failed pass leaves it unchanged | not executed | Scheduler.AsWrittenStampsFailedPass | Scheduler.IntendedRecordIsLastSuccess |
