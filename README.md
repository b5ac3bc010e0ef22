# hot-tour-radar, modelled in Dafny

hot-tour-radar collects offers of cheap package tours from Telegram channels and makes them
searchable. The system has two pipelines:

- A Python **scraper** listens to the monitored chats. It keeps the messages from resolved
  channels and publishes one record per message to Kafka.
- A Go **backend** runs three parts:
  - a **worker** that consumes the records, normalises them, de-duplicates them and indexes
    them in Elasticsearch, and sends the messages it cannot process to a dead-letter topic;
  - an **API** that turns query-string parameters into an Elasticsearch bool query;
  - a **retention** job that deletes old documents in batches.

This project models the sequential logic under that I/O:

- the worker's de-duplication cache (a map plus a FIFO queue with capacity and TTL eviction);
- the text processor (URL extraction and removal, text cleaning, top-k keywords, title
  generation, document IDs);
- the worker's message processing, timestamp parsing and dead-letter retry/commit rule;
- the scraper's channel filter, record builder and start-up order;
- search-request construction and the batched delete loop of the Elasticsearch client;
- configuration loading from the environment;
- the API's request-parameter validators;
- the scraper's configuration and entry point;
- the log-level switch.

One Dafny module stands for each source file:

| module | file |
|---|---|
| `Dedupe` | `dedupe.dfy` |
| `Processing` | `processing.dfy` |
| `Urls` | `urls.dfy` (the URL pattern of the processor) |
| `Worker` | `worker.dfy` |
| `Telegram` | `telegram.dfy` |
| `Elasticsearch` | `elasticsearch.dfy` |
| `Config` | `config.dfy` |
| `ApiServer` | `api.dfy` |
| `ScraperMain` | `scraper_main.dfy` |
| `Logger` | `logger.dfy` |
| `Pipeline` | `pipeline.dfy` (how the worker decodes a scraper record) |

Shared pieces live in modules of their own:

- `Text` (`text.dfy`): Go's and Python's white space, trimming, splitting, joining, `Fields`,
  byte-order comparison and `strconv.Atoi`.
- `Platform` (`host.dfy`): library behaviour treated as given functions.
- `Models` (`models.dfy`): the stored document.
- `Wrappers` (`wrappers.dfy`): `Option` and `Result`.

Code that updates state step by step is written as methods, each proved against a pure
specification function:

- the cache's `MarkSeen` and `compact`;
- the loops of `ExtractURLs`, `ExtractKeywords`, `splitAndTrim` and `parseCSV`;
- the dead-letter retry loop;
- the `DeleteOlderThan` loop;
- `SearchNews`'s appends;
- the Telegram parser's `add_channel` and `start`.

The dedupe cache and the Telegram parser are classes whose fields those methods update.
Time is an integer number of nanoseconds. Go's zero time is 0.

## Model

| member | source | states |
|---|---|---|
| Dedupe.Init | backend/internal/dedupe/cache.go:23-36 | A new cache stores nothing. A capacity ≤ 0 becomes 1 and a ttl ≤ 0 becomes one hour; positive values are kept. |
| Dedupe.Cache.constructor | backend/internal/dedupe/cache.go:23-36 | NewCache's state is `Init(capacity, ttl)` and satisfies the cache invariant. |
| Dedupe.Cache.IsSeen | backend/internal/dedupe/cache.go:40-52 | The answer is true exactly when the key is stored with a mark at most ttl before now. Nothing changes. |
| Dedupe.Cache.MarkSeen | backend/internal/dedupe/cache.go:55-64 | The new state is the key stored with a fresh stamp, appended to the queue, then compacted. With a clock that has not gone back, the invariant holds afterwards, at most `capacity` keys are stored, and the key reads as seen. This is the corrected cache (generation stamps), see "## Findings". |
| Dedupe.Cache.Compact | backend/internal/dedupe/cache.go:66-79 | The loop pops the queue front while the map is over capacity or the front has expired. It ends in `Compacted(old state, now)`. This is the corrected cache (generation stamps), see "## Findings". |
| Dedupe.Compacted | backend/internal/dedupe/cache.go:66-79 | Compaction ends with the loop condition false. Capacity and ttl are unchanged and the queue only shrinks. This is the corrected cache (generation stamps), see "## Findings". |
| Dedupe.InitValid | backend/internal/dedupe/cache.go:23-36 | A fresh cache satisfies the invariant and has seen no key. |
| Dedupe.PopFrame | backend/internal/dedupe/cache.go:70-77 | One loop round drops the queue front and at most its key. The key goes only when the front entry carries the key's current stamp (timestamp and generation); the source compares timestamps only. This is the corrected cache (generation stamps), see "## Findings". |
| Dedupe.PopValid | backend/internal/dedupe/cache.go:69-77 | One loop round keeps the invariant: every stored key has a queue entry with its current mark, and the queue is in time order. This is the corrected cache (generation stamps), see "## Findings". |
| Dedupe.CompactedFrame | backend/internal/dedupe/cache.go:69-77 | Compaction removes queue entries from the front only and never changes a stored mark. A key disappears only if a popped entry carried its current stamp, so a stale entry deletes nothing. In the source a stale entry with an equal timestamp does delete. This is the corrected cache (generation stamps), see "## Findings". |
| Dedupe.CompactedValid | backend/internal/dedupe/cache.go:66-79 | Compaction keeps the invariant. This is the corrected cache (generation stamps), see "## Findings". |
| Dedupe.StoppedBounds | backend/internal/dedupe/cache.go:69 | When the loop stops on a valid state, the map is within capacity and every stored mark is at most ttl old. |
| Dedupe.AppendValid | backend/internal/dedupe/cache.go:61-62 | Storing a key and queueing it keeps the invariant when the clock has not gone back. |
| Dedupe.MarkedValid | backend/internal/dedupe/cache.go:55-64 | MarkSeen keeps the invariant. It leaves at most `capacity` keys, each marked within ttl of now. This is the corrected cache (generation stamps), see "## Findings". |
| Dedupe.MarkedNotAfter | backend/internal/dedupe/cache.go:56-63 | After MarkSeen at now, no queued mark is later than now. |
| Dedupe.CompactKeepsLast | backend/internal/dedupe/cache.go:69-77 | Compaction never removes the key of the last queue entry when that entry is the key's latest mark and has not expired. This is the corrected cache (generation stamps), see "## Findings". |
| Dedupe.MarkThenSeen | backend/internal/dedupe/cache.go:55-64 | Right after MarkSeen(key) at now, the key is stored with the new stamp and IsSeen(key) at now is true. This is the corrected cache (generation stamps), see "## Findings". |
| Dedupe.MarkedAddsOnlyKey | backend/internal/dedupe/cache.go:55-64 | MarkSeen stores no key other than the one it marks. |
| Dedupe.SeenWithinTtl | backend/internal/dedupe/cache.go:40-64 | A key marked at t reads as seen at a later time `now` exactly when `now - t ≤ ttl` (both directions). This is the corrected cache (generation stamps), see "## Findings". |
| Dedupe.CapacityOneKeepsOnlyLast | backend/internal/dedupe/cache.go:69-77 | With capacity 1, MarkSeen leaves exactly the marked key in the map. This is the corrected cache (generation stamps), see "## Findings". |
| Dedupe.CapacityEvictsOldest | backend/internal/dedupe/cache.go:69-72 | With capacity 1, marking "first" then "second" leaves "first" unseen and "second" seen. |
| Dedupe.ExpiredIsUnseen | backend/internal/dedupe/cache.go:47 | A key marked at t is unseen once more than ttl has passed. |
| Dedupe.GoCompacted | backend/internal/dedupe/cache.go:66-79 | The compaction loop as written, where queue entries carry only a timestamp. It never grows the queue and keeps capacity and ttl. |
| Dedupe.TieLosesMark | backend/internal/dedupe/cache.go:73-77 | As written: with capacity 1 and all marks at the same instant, marking b, b, c, b leaves IsSeen(b) false right after MarkSeen(b). |
| Processing.DedupSpec | backend/internal/processing/processor.go:37-44 | The de-duplicated list has no repeats. It holds exactly the input's elements, in the order of their first occurrence. |
| Processing.ExtractUrls | backend/internal/processing/processor.go:28-46 | The loop returns the pattern's matches with repeats dropped, in first-occurrence order. The result is empty exactly when nothing matches, including for "". Every entry is a URL. |
| Urls.MatchIsUrl | backend/internal/processing/processor.go:14 | A match is "http://" or "https://", then a non-empty tail with no `\s` character. |

| Urls.FindUrls | backend/internal/processing/processor.go:32 | FindAllString returns matches of the pattern, and every one of them is a URL in that sense. |
| Urls.RemoveUrls | backend/internal/processing/processor.go:49-51 | ReplaceAllString never lengthens the text, since each match has at least eight characters and becomes one space. |
| Urls.WeaveKept | backend/internal/processing/processor.go:32 | The text is its non-URL pieces interleaved with the matches, in order. There is one more piece than there are matches. |
| Urls.RemoveUrlsJoinsKept | backend/internal/processing/processor.go:49-51 | RemoveURLs puts exactly one space where each match was and keeps every other character in place. |
| Urls.RemovedHasNoNewMatch | backend/internal/processing/processor.go:49-51 | A match at the start of RemoveURLs' output was already a match at the start of its input. |
| Urls.NoUrlAfterRemove | backend/internal/processing/processor.go:49-51 | No match starts anywhere in RemoveURLs' output. |
| Urls.RemoveUrlsWithoutMatch | backend/internal/processing/processor.go:49-51 | A text without a match is left unchanged. |
| Urls.RemoveUrlsIdempotent | backend/internal/processing/processor.go:49-51 | Removing URLs twice is the same as removing them once. |
| Processing.Depunct | backend/internal/processing/processor.go:60 | After punctuation removal, only letters, numbers and `\s` characters remain. |
| Processing.Squeeze | backend/internal/processing/processor.go:61 | Whitespace squeezing turns each `\s` run into one space and keeps every other character. The output is empty iff the input is, and has no two spaces in a row. |
| Processing.CleanTextShape | backend/internal/processing/processor.go:54-64 | CleanText("") is "". Any result holds only letters, numbers and single spaces, has no space at either end, and contains no URL. |
| Processing.CleanText | backend/internal/processing/processor.go:54-64 | CleanText("") is "". A result never starts or ends with white space. |
| Processing.TrimToken | backend/internal/processing/processor.go:75-77 | A trimmed token is no longer than the token and starts and ends with a letter or number (or is empty). |
| Processing.QualifyingQualifies | backend/internal/processing/processor.go:78-83 | Every counted token has at least minLen runes and is not a stop-word. |
| Processing.Tally | backend/internal/processing/processor.go:78-84 | One loop iteration leaves the table alone for a short token or a stop-word. Otherwise it adds one to that token's count and changes no other entry. |
| Processing.CountStep | backend/internal/processing/processor.go:73-85 | After one more token, the frequency table is `Tally` of the previous table. |
| Processing.CountTokens | backend/internal/processing/processor.go:73-85 | The frequency loop builds the counts of the qualifying tokens. |
| Processing.CountsSpec | backend/internal/processing/processor.go:84 | The table holds exactly the counted words. Each maps to its number of occurrences. |
| Processing.RankTotal | backend/internal/processing/processor.go:101-106 | The sort order ranks any two distinct words one way or the other. |
| Processing.RankAsymmetric | backend/internal/processing/processor.go:101-106 | The sort order never ranks two words both ways. |
| Processing.RankTransitive | backend/internal/processing/processor.go:101-106 | The sort order is transitive. |
| Processing.Insert | backend/internal/processing/processor.go:101-106 | Inserting a word into a ranked list keeps it ranked. The result is a permutation of the list plus that word. |
| Processing.SortByRank | backend/internal/processing/processor.go:96-106 | The sorted pairs are exactly the table's words, each once, ordered by count descending and then by word in byte order. |
| Processing.RankedUnique | backend/internal/processing/processor.go:96-106 | Two ranked lists of the same words are equal, so the result does not depend on the map's iteration order. |
| Processing.PrefixIsTop | backend/internal/processing/processor.go:108-116 | The first `limit` entries of the full ranking are its top. All of them are taken when limit ≤ 0 or limit exceeds the number of words. |
| Processing.TopOfCounts | backend/internal/processing/processor.go:87-116 | The keywords are qualifying words. The list is empty exactly when no token qualified. |
| Processing.TopKeywords | backend/internal/processing/processor.go:87-118 | The ranking part returns the top `limit` words of the table, in rank order. |
| Processing.ExtractKeywords | backend/internal/processing/processor.go:67-119 | The keywords are qualifying tokens, each once, and form the top of the ranking of their counts. The list is empty (Go's nil) exactly when no token qualifies. |
| Processing.IndexAny | backend/internal/processing/processor.go:138 | The result is the first '.', '!' or '?' in the text, or -1 when there is none. |
| Processing.GenerateTitle | backend/internal/processing/processor.go:129-159 | The title of "" is "". For other text the title is empty exactly when the first sentence of the URL-free text has no words. |
| Processing.TitleWords | backend/internal/processing/processor.go:146-158 | The title is the first maxWords words joined by single spaces, with "..." exactly when words were cut. maxWords ≤ 0 means no limit. The title's words read back as those words. |
| Processing.FirstSentenceHasNoEnd | backend/internal/processing/processor.go:138-144 | When the first sentence end is past index 0, the first sentence holds no '.', '!' or '?'. |
| Processing.TitleStopsAtSentenceEnd | backend/internal/processing/processor.go:135-147 | When the URL-free text has a sentence end past index 0, no title word contains a sentence end. |
| Processing.DocumentIdSeparatorAmbiguity | backend/internal/processing/processor.go:122-125 | The ID depends only on the joined string. Moving a '|' between title and text gives the same ID. |
| Processing.BuildDocumentId | backend/internal/processing/processor.go:122-125 | The ID is the hex SHA-1 of `HashInput`: title, text and the UTC RFC 3339 second, joined by '|'. |
| Processing.HashInput | backend/internal/processing/processor.go:124 | The hashed string has the title, the text, two separators and the formatted time, and ends with the formatted time. |
| Processing.HashInputsDiffer | backend/internal/processing/processor.go:124 | For the same title and text, two instants that format to different seconds give different strings to hash. |
| Worker.FirstParseSpec | backend/worker/main.go:228-234 | The layout loop returns the value of the first layout that parses, and the zero time when none does. |
| Worker.ParseTimestamp | backend/worker/main.go:216-235 | The method returns the zero time for blank input. Otherwise it tries the layouts on the trimmed input, in order. |
| Worker.TimestampOfPadded | backend/worker/main.go:217 | Surrounding white space does not change the parsed time. |
| Worker.TimestampLayouts | backend/worker/main.go:222-234 | RFC 3339 with nanoseconds wins, then RFC 3339, then "2006-01-02 15:04:05". The zero time results when none parses. |
| Worker.SourceOfShape | backend/worker/main.go:183-186 | The source is the trimmed source, or "unknown" when that is blank. It is never blank and never padded. |
| Worker.SourceOf | backend/worker/main.go:183-186 | The source is never empty. A non-blank source is kept as trimmed. |
| Worker.TitleOf | backend/worker/main.go:163-173 | A non-blank title is kept as trimmed. A blank title with non-blank text becomes `GenerateTitle(text, 10)` of the trimmed text. With both blank the title is "". |
| Worker.DocumentIdOf | backend/worker/main.go:189-200 | The document ID is never empty. A fresh UUID replaces an empty hash. |
| Worker.BuildDocument | backend/worker/main.go:163-200 | The document has the (generated) title and the trimmed text. Its keywords come from title + " " + cleaned text with the configured limit and minimum length. It also has the URLs of the trimmed text, the time (now when the parse gives zero), the defaulted source and the ID. |
| Worker.ProcessMessage | backend/worker/main.go:157-214 | `Processed` holds. Malformed JSON is rejected exactly when the payload does not decode. A payload whose trimmed title and text are both blank is rejected as empty. Neither rejection touches the cache. Any other payload is the document `BuildDocument` describes. It is a duplicate exactly when its ID is seen; then the indexer is not called and the call succeeds. Otherwise the cache is marked (and the ID reads as seen) only after the indexer succeeds, and an indexer error leaves the cache unchanged. The cache invariant is kept. |
| Worker.RedeliveryIsDuplicate | backend/worker/main.go:175-211 | A message indexed at `now` and delivered again at any `later` within ttl, with nothing marked in between, gets the same ID and reads as seen, when its timestamp parses or both clock readings format to the same second. |
| Worker.ClockInIdWhenUnparsed | backend/worker/main.go:175-189 | When the timestamp does not parse, a delivery whose clock reading formats to another second gets another ID. Unless that ID was already stored, it reads as unseen right after the first delivery was marked. SHA-1 is required only to give non-empty, distinct digests for the two strings hashed. |
| Worker.DistinctTimesDistinctIds | backend/internal/processing/processor.go:122-125 | Two instants that format differently give two different, non-empty IDs, when SHA-1 gives non-empty, distinct digests for the two strings hashed. |
| Worker.GeneratedTitle | backend/worker/main.go:171-173 | A blank title becomes `GenerateTitleFromText(text, 10)`: at most 10 words of the first sentence, plus "..." when words were cut. |
| Worker.DlqRunSpec | backend/worker/main.go:110-135 | Delivery happens on attempt n exactly when write n is the first to succeed and no earlier back-off was canceled. Exhaustion happens exactly when all five writes fail uncanceled. |
| Worker.DeliverToDlq | backend/worker/main.go:109-135 | The retry loop's outcome and waits are those of the attempt-by-attempt specification. |
| Worker.WaitsSpec | backend/worker/main.go:121-133 | The loop waits 2^attempt seconds after each failed write. There are at most five waits. |
| Worker.WaitsTotal | backend/worker/main.go:111-133 | The retry loop waits at most 1 + 2 + 4 + 8 + 16 = 31 seconds in all. |
| Worker.ConsumeOne | backend/worker/main.go:80-153 | A canceled fetch stops the loop and another fetch error continues it, both without touching the cache. A fetched message is processed as `ProcessMessage` states (`Processed`). A processed message is committed. A failed one is committed only when the dead-letter write succeeded, and the loop stops when canceled during a back-off. |
| Worker.CommitAfterFailure | backend/worker/main.go:137-147 | A failed message's offset is committed exactly when one of the five dead-letter writes succeeded before any cancellation. |
| Telegram.AcceptedId | scraper/src/parsers/telegram_parser.py:52-72 | An accepted message has a truthy ID that is resolved. A present channel_id takes precedence over chat_id. |
| Telegram.AcceptsMonotone | scraper/src/parsers/telegram_parser.py:69-72 | Resolving more channels never rejects a message that was accepted. |
| Telegram.Parser.constructor | scraper/src/parsers/telegram_parser.py:27-28 | A missing or empty channel list gives no channels. The resolved set and the sent list start empty. |
| Telegram.Parser.ShouldProcess | scraper/src/parsers/telegram_parser.py:52-72 | The check fails closed. A message without a channel or chat attribute, an empty channel list, or a falsy or unresolved ID is rejected; otherwise the message is accepted. Nothing changes. |
| Telegram.TextOf | scraper/src/parsers/telegram_parser.py:87 | The record's text is non-empty exactly when message.text or message.message is a non-empty string. |
| Telegram.BuildRecord | scraper/src/parsers/telegram_parser.py:80-89 | The record carries the fresh id, source "telegram", the peer's ID, the given channel name and title, the message id and the text of `TextOf`. It has a date exactly when the message has one. |
| Telegram.ParseMessage | scraper/src/parsers/telegram_parser.py:74-95 | The record is None exactly when get_chat raises, or when the chat lacks a username attribute (a basic group) or a title attribute (a user), since reading it raises AttributeError. Otherwise it has the fresh id, source "telegram", the peer's ID and the message id. Name and title are the chat's attributes, and None when get_chat gives None. |
| Telegram.KeyIsChannelId | scraper/src/parsers/telegram_parser.py:43-44 | An accepted message is published under the decimal form of the channel ID its record carries, never under "unknown". |
| Telegram.KeyOf | scraper/src/parsers/telegram_parser.py:43 | A missing ID gives "None". A present int64 ID gives a decimal string that strconv.Atoi reads back as that ID. |
| Telegram.Parser.HandleMessage | scraper/src/parsers/telegram_parser.py:35-50 | An accepted message whose record could be built is sent once with its key. Anything else sends nothing. The resolved set is unchanged. |
| Telegram.Parser.AddChannel | scraper/src/parsers/telegram_parser.py:97-110 | The set grows by the entity's ID exactly when the identifier resolves, and is unchanged otherwise. The call returns true only when, in addition, `entity.username or entity.title` does not raise: username is present, and either non-empty or title is present. Otherwise it returns false with the ID already added. |
| Telegram.ResolvedIdsSpec | scraper/src/parsers/telegram_parser.py:119-121 | An ID is added exactly when it is the ID of the entity a string entry of the channel list resolves to, whether or not add_channel then returns false. |
| Telegram.Parser.Start | scraper/src/parsers/telegram_parser.py:112-132 | Start runs the client start, one resolution per string entry in order, and the run. Every exit ends with disconnect and then closing the producer. Every exception except a keyboard interrupt is re-raised. |
| Elasticsearch.NormalSize | backend/internal/elasticsearch/client.go:108-113 | A size ≤ 0 becomes 20 and a size > 200 becomes 200; other sizes are kept. |
| Elasticsearch.NormalFrom | backend/internal/elasticsearch/client.go:114-116 | A negative offset becomes 0 and other offsets are kept, so the result is never negative. |
| Elasticsearch.BuildBool | backend/internal/elasticsearch/client.go:161-172 | Neither must nor filter is ever set to an empty list. Non-empty must clauses and non-empty filters are each set as given. With no filters, filter is absent. With no must clauses, must is absent when there are filters and is a lone match_all when there are none. |
| Elasticsearch.SearchNews | backend/internal/elasticsearch/client.go:107-199 | The method's appends build the body `SearchBodyOf` describes, with a size in [1, 200] and a non-negative offset. |
| Elasticsearch.AppendFilters | backend/internal/elasticsearch/client.go:130-159 | The filter appends build the filters in the fixed order keywords, source, range. |
| Elasticsearch.SearchBodyShape | backend/internal/elasticsearch/client.go:108-181 | Paging is normalised. There is a multi_match over "title^2" and "text" exactly when the query is non-empty. A lone match_all appears exactly when no criterion is given. The filter is the list of filter clauses when there is one, and absent otherwise. |
| Elasticsearch.FilterOrder | backend/internal/elasticsearch/client.go:130-159 | There is one filter per criterion given, in the order terms, term, range. The range has gte exactly when Start is set and lte exactly when End is set. |
| Elasticsearch.ParseSort | backend/internal/elasticsearch/client.go:183-196 | The parsed sort always has a non-empty field and a non-empty order. |
| Elasticsearch.ParseSortFieldOrder | backend/internal/elasticsearch/client.go:183-196 | "field:order" with both parts non-empty reads as written. |
| Elasticsearch.ParseSortIgnoresRest | backend/internal/elasticsearch/client.go:188-196 | Whatever follows a second ':' is ignored. |
| Elasticsearch.ParseSortFieldOnly | backend/internal/elasticsearch/client.go:189-196 | A field without ':' sorts descending. |
| Elasticsearch.EffectiveBatch | backend/internal/elasticsearch/client.go:250-252 | A batch size ≤ 0 becomes 1000 and a positive one is kept, so the result is always positive. |
| Elasticsearch.DeleteOlderThan | backend/internal/elasticsearch/client.go:249-308 | The loop stops after the first batch with fewer deletions than the batch size and returns the sum of all counts. On the first error it returns the total before the failing batch together with that error. Every earlier batch was full. |
| Elasticsearch.FullBatchesSum | backend/internal/elasticsearch/client.go:300-304 | Each full batch adds at least the batch size to the total. |
| Config.GetEnv | backend/internal/config/config.go:137-142 | The result is the variable's value when it is set and non-empty, and the fallback when it is unset or empty (both directions). |
| Config.GetInt | backend/internal/config/config.go:144-151 | The result is the Atoi value when the variable is set and parses, and the fallback when it is unset, empty or not an integer. |
| Config.GetIntReadsDecimal | backend/internal/config/config.go:144-151 | Setting a variable to the decimal form of an int64 makes getInt return that number. |
| Config.GetDuration | backend/internal/config/config.go:153-164 | When the variable is set, non-empty and parses as a duration, the result is its value. In every other case (unset, empty or malformed) it is the fallback's value. The fallback must parse, since Go panics otherwise. |
| Config.GetDurationFallback | backend/internal/config/config.go:155-161 | A duration that does not parse gives the fallback's value. |
| Config.SplitAndTrim | backend/internal/config/config.go:166-176 | The loop keeps the trimmed non-empty pieces of the ','-split, in order. |
| Config.TrimPieces | backend/internal/config/config.go:169-174 | The loop over the pieces builds `KeepTrimmed` of them. |
| Config.SplitAndTrimShape | backend/internal/config/config.go:166-176 | Every kept entry is non-empty, unpadded and free of ','. |
| Config.BrokersRoundTrip | backend/internal/config/config.go:166-176 | Joining clean broker names with ',' and reading them back gives the same list. |
| Config.WorkerCheck | backend/internal/config/config.go:65-82 | The worker settings are refused exactly when brokers are empty, the batch size, capacity or keyword limit is ≤ 0, or the minimum length is < 0. |
| Config.LoadWorker | backend/internal/config/config.go:48-83 | LoadWorker returns the settings exactly when no check fails, and otherwise the first failing check. |
| Config.DefaultBrokers | backend/internal/config/config.go:54 | The default broker list is ["kafka:9092"]. |
| Config.WorkerDefaults | backend/internal/config/config.go:49-63 | With nothing set, the worker gets its defaults and they pass validation. |
| Config.WorkerFrom | backend/internal/config/config.go:49-63 | The worker settings carry the given broker list. Each other setting takes its default when its variable is unset or empty: the Elasticsearch address and index, topic "news_raw", group "news-worker", keyword limit 8, minimum length 4, capacity 20000, ttl 24 h, batch size 10 and commit interval 2 s. |
| Config.LoadApi | backend/internal/config/config.go:86-108 | LoadAPI fails exactly when a page size is ≤ 0 or the default exceeds the maximum; a default page size ≤ 0 is the error reported. On success the settings are `ApiFrom(env)`, the variables with their fallbacks, and 0 < default ≤ maximum. |
| Config.ApiDefaults | backend/internal/config/config.go:87-95 | With nothing set, the API loads with pages of 20 and at most 100. |
| Config.LoadRetention | backend/internal/config/config.go:111-135 | LoadRetention succeeds exactly when maximum age, interval and batch size are all positive. A bad maximum age is reported first. |
| Config.RetentionDefaults | backend/internal/config/config.go:112-120 | With nothing set, retention runs every 24 h on documents older than 168 h, 500 at a time. |
| Config.RetentionFrom | backend/internal/config/config.go:111-120 | Each retention setting takes its default when its variable is unset or empty: the Elasticsearch address and index, interval 24 h, maximum age 168 h and batch size 500. |
| ApiServer.ClampInt | backend/api/main.go:162-177 | An empty, non-integer or non-positive value gives the fallback, a value above max gives max, and any other value is kept. |
| ApiServer.ClampIntBounds | backend/api/main.go:162-177 | The result is the fallback or lies in [1, max], so it is ≤ max whenever the fallback is. |
| ApiServer.ClampIntReadsDecimal | backend/api/main.go:166-176 | A positive decimal value within the cap comes back as itself. |
| ApiServer.ParseCsv | backend/api/main.go:147-160 | "" gives nothing. Otherwise the result is the trimmed non-empty pieces, in order. |
| ApiServer.ParseTime | backend/api/main.go:136-145 | Blank or whitespace-only input gives None. Any other input gives the RFC 3339 reading of the trimmed input (a value or None). |
| ApiServer.ParseTimeIgnoresPadding | backend/api/main.go:137 | Surrounding white space does not change the result. |
| ApiServer.SearchParamsFrom | backend/api/main.go:101-125 | Query, source and sort are the trimmed parameters. `from` and `size` are the clamped values, so `from` lies in [0, 10000] and `size` in [1, MaxPage] for a valid configuration. Start and end are the parsed times. The keywords are passed through. |
| ApiServer.HandleSearchParams | backend/api/main.go:101-125 | handleSearch's parameters field by field: trimmed query, source and sort; clamped from and size; parsed start and end; keywords from parseCSV, none when the parameter is empty. They obey the same bounds. |
| ScraperMain.LoadConfig | scraper/src/main.py:17-32 | The required settings are passed through. The topic defaults to "news_raw" only when unset. |
| ScraperMain.NoChannelsByDefault | scraper/src/main.py:31 | An unset or empty TELEGRAM_CHANNELS gives no channels. |
| ScraperMain.ChannelsAreStripped | scraper/src/main.py:31 | Every channel entry is non-empty and stripped. |
| ScraperMain.ChannelsRoundTrip | scraper/src/main.py:31 | Clean channel names joined with ',' read back as the same list, in order. |
| ScraperMain.ResolutionsOfNames | scraper/src/main.py:52-57 | The parser resolves every configured name, in order. |
| ScraperMain.StartParser | scraper/src/main.py:44-66 | The events are `StartParserEvents`. A producer that fails to start raises out of main with nothing else done. Otherwise the producer is created, then the parser. A non-integer API id raises out of main. Otherwise start runs, its failure is logged and not re-raised, and "stopped" is always logged. |
| ScraperMain.RunScraper | scraper/src/main.py:35-66 | main creates nothing unless the API id, the hash and the brokers are all set and non-empty. When they are, its events are `StartParserEvents` of the loaded configuration. |
| Pipeline.ScrapedRedeliveryIsNew | backend/worker/main.go:26-31 | As written, a scraper record decodes with an empty timestamp, so its redelivery in another clock second gets another ID and reads as unseen. SHA-1 is required only to separate the two strings hashed. |
| Pipeline.ScrapedRedeliveryIsDuplicate | scraper/src/parsers/telegram_parser.py:80-89 | With the record's date read as the timestamp, a record whose date parses keeps its ID on every delivery, so a redelivery within ttl reads as seen whatever the clock says. |
| Pipeline.DecodeAsWritten | backend/worker/main.go:26-31 | As written, the decoded payload has an empty title and an empty timestamp. It differs from the corrected decoding only in the timestamp. |
| Pipeline.Decode | backend/worker/main.go:26-31 | Corrected, the payload has an empty title, the record's text and source, and the record's date as its timestamp ("" when there is none). |
| Logger.LevelOf | backend/internal/logger/logger.go:17-26 | The level is Debug, Warn or Error exactly for "debug", "warn" and "error", and Info for every other string. |
| Logger.ParseLevel | backend/internal/logger/logger.go:16-27 | A level other than Info is chosen only by its own name, once trimmed and lower-cased. Info is chosen exactly when that string is none of "debug", "warn" and "error". |
| Logger.ParseLevelName | backend/internal/logger/logger.go:16-27 | Each level's name reads back as that level. |
| Logger.ParseLevelIgnoresPadding | backend/internal/logger/logger.go:17 | Surrounding white space is ignored. |
| Logger.ParseLevelIgnoresCase | backend/internal/logger/logger.go:17 | ASCII text whose lower case is a level's name selects that level. |
| Logger.ParseLevelUpperCase | backend/internal/logger/logger.go:17-19 | "DEBUG" selects Debug. |
| Logger.ParseLevelWarning | backend/internal/logger/logger.go:20-25 | "warning" is not "warn" and selects Info. |
| Platform.DefaultDurations | backend/internal/config/config.go:60-62 | The default durations "24h", "168h" and "2s" parse to what they say. |
| Platform.ParseDuration | backend/internal/config/config.go:155 | A `<digits><unit>` duration parses to a value in [0, MaxInt64], and is an error exactly when digits times unit exceeds MaxInt64. Every other form is read by the host's time.ParseDuration. |
| Platform.ToLower | backend/internal/processing/processor.go:68 | strings.ToLower maps each rune and keeps the length. ASCII upper-case letters move to lower case. |
| Text.TrimIdempotent | backend/worker/main.go:163-164 | Trimming twice is trimming once. |
| Text.TrimPadded | backend/worker/main.go:217 | Padding with white space does not change what TrimSpace returns. |
| Text.KeepTrimmedJoin | backend/internal/config/config.go:166-176 | Clean names joined with ',' and then split, trimmed and filtered give back the names. |
| Text.FieldsJoin | backend/internal/processing/processor.go:147-158 | Words joined by single spaces split back into the same words. |
| Text.LexLessTotal | backend/internal/processing/processor.go:103 | Go's string order ranks any two distinct strings one way or the other. |
| Text.LexLessTransitive | backend/internal/processing/processor.go:103 | Go's string order is transitive. |
| Text.AtoiDecimalString | backend/internal/config/config.go:146 | strconv.Atoi reads back every int64 written in decimal. |

## Left out

- **I/O and foreign services.** Not modelled:
  - the HTTP server, router and JSON encoding;
  - Kafka reading and writing, and the signal context;
  - Elasticsearch round-trips (`Ping`, `IndexNews`, `Health`, the search call and the
    response decoding);
  - the Telethon client.

  The indexer, the dead-letter writer, `get_entity`, `get_chat` and the client's start and
  run outcomes are parameters. Of the scraper's Kafka producer only the outcome
  of its construction is modelled: it either succeeds or raises out of main. Its sending
  is not modelled; the parser records what it hands the producer.
- **Clock and randomness.** `time.Now()` and UUID generation are parameters: `now` and
  `freshId`.
- **Library functions.** These are fields of `Platform.Host` and are left uninterpreted:
  - Unicode letter, number and case classes beyond ASCII;
  - `html.UnescapeString`;
  - SHA-1 with hex encoding;
  - RFC 3339 formatting and parsing (section 5.6 of RFC 3339), and the "2006-01-02
    15:04:05" layout.

  `time.ParseDuration` is spelled out for the `<digits><unit>` form only. Other forms
  (signs, fractions, several components, "0") are left to the host function. Python's
  `int()` on the API id is a parameter of `ScraperMain.StartParser`.
- **Retention job.** backend/retention/main.go (the ticker, start-up pings and back-off
  schedule) is not part of this model. Only the `DeleteOlderThan` loop it calls is
  modelled.
- Elasticsearch.DeleteOlderThan: the source loops for as long as the server keeps
  returning full batches. The model runs over a given finite sequence of responses and
  reports `Unfinished` when that sequence ends with every batch full.
- Worker.ConsumeOne: models one turn of the endless consume loop, not the loop itself. The
  `kafka.Message` headers of the dead-letter message are not modelled.
- **Go's nil versus empty slices.** `ExtractURLs`, `ExtractKeywords` and `parseCSV` return
  nil in some cases and empty slices in others. Both are `[]` here.
- Processing.SortByRank: the order in which Go iterates a map is random. The method takes
  the table's words in an order it chooses. `Processing.RankedUnique` shows the result
  does not depend on that order.
- Processing.Tally: the two `continue` branches (too short, stop-word) are merged into one
  test, `Qualifies`.
- ApiServer.HandleSearchParams: the query string is a record holding the first value of
  each parameter the handler reads, not `url.Values`.
- Dedupe.Cache.IsSeen: `now.Sub(ts)` saturates at the limits of `time.Duration`. With
  unbounded integers there is nothing to saturate. The `sync.Mutex` is not modelled
  because the cache is used sequentially here.
- Telegram.Parser.constructor: takes only the channel list. The `int(api_id)` conversion
  that can raise in the constructor is modelled in `ScraperMain.StartParser`. The api hash
  and the producer are not stored.
- Dedupe.Cache: the cache and every lemma about it give each mark a generation number and
  delete a key only when the popped entry carries its current stamp. The source compares
  timestamps only, so when two marks share a clock reading a stale queue entry deletes the
  later mark (see "## Findings"). `Dedupe.GoCompacted` and `Dedupe.TieLosesMark` model the
  code as written; `Worker.ProcessMessage` uses the corrected cache.
- Worker.ProcessMessage: one `now` stands for three separate `time.Now()` reads: the
  timestamp fallback (backend/worker/main.go:177), the one inside `IsSeen` and the one
  inside `MarkSeen`, which the indexer call separates in time.
- Logging everywhere, including the text of log lines and the `[:10]` preview in the
  message handler.

## Findings

| source | as written | input that shows it | evidently intended | confidence | as-written member | corrected member |
|---|---|---|---|---|---|---|
| backend/internal/dedupe/cache.go:61-77 | compaction deletes a key when the popped queue entry's timestamp equals the stored one, so a stale entry deletes a key re-marked at the same clock reading | capacity 1, every mark at the same instant 5: MarkSeen(b), MarkSeen(b), MarkSeen(c), MarkSeen(b), then IsSeen(b) is false | a stale entry never deletes a later mark, so IsSeen(k) is true right after MarkSeen(k) | not executed; needs two marks within one clock tick | Dedupe.TieLosesMark | Dedupe.MarkThenSeen |
| backend/worker/main.go:26-31 | rawNews reads the time from the JSON key "timestamp" and no title key matches, but the scraper's record carries its time under "date" (scraper/src/parsers/telegram_parser.py:88). The timestamp is then "", the worker stamps the document with the clock (main.go:175-178), and the ID hashes that second (main.go:189) | one scraper record delivered, then redelivered by Kafka in a later clock second: the two deliveries get different IDs, so the cache does not catch the redelivery and the message is indexed twice | a redelivered message keeps its ID, so the cache reports it as a duplicate | not executed; a claim across two components, assuming they are deployed together as written | Pipeline.ScrapedRedeliveryIsNew | Pipeline.ScrapedRedeliveryIsDuplicate |

The corrected cache gives each mark a generation number besides its timestamp. Compaction
deletes a key only when the popped entry carries the key's current stamp.
`Dedupe.CompactedFrame` and `Dedupe.CompactKeepsLast` prove that stale entries delete
nothing.

The corrected decoding, `Pipeline.Decode`, reads the record's "date" as the timestamp.
`Pipeline.ScrapedRedeliveryIsDuplicate` proves that a record whose date parses then keeps
its ID on every delivery. `Worker.ClockInIdWhenUnparsed` states the general case: any
payload whose timestamp does not parse gets an ID that changes with the clock second.
