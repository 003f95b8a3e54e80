# Hawk radar lead monitor, modelled in Dafny

The program scans Threads posts through a web search for people asking about beauty services in three towns. It builds one query for every location and service pair, plus three colloquial queries. It runs the queries one after another. Within a run it skips any link it has already seen. It drops any result whose title or body contains a block word (advertising, courses, recruiting). For every remaining result it sends a Telegram message: the keyword, the first 100 characters of the body, and a link to the post.

The model treats the search backend as input. A run receives one `SearchOutcome` per query, either `Failed` (the search raised) or `Ok(results)`. A missing result field reads as `""`. The Telegram API becomes an outbox of the `sendMessage` requests that would be posted. The run is then a pure fold over the queries, carrying the seen links, the count, the composed messages, the outbox and the number of missing-credential reports.

Modules:

- `Text` (text.dfy): Python's string operations with their semantics. These are substring membership, `any`, `s[:n]` and `s.replace(p, "")`. Substring membership and `any` are each proved equal to a declarative definition. `s[:n]` is pinned by its contract. For `s.replace(p, "")` only the cases the program uses are proved: a string without the pattern, and a pattern appended at the end.
- `Keywords` (keywords.dfy): the query list. It is built both as a function and as the program's nested loops.
- `Radar` (radar.dfy): the data model, message composition, the credential guard and the per-result, per-query and per-run fold.
- `RadarFacts` (radar_facts.dfy): an independent description of the run's output, with the run proved equal to it. The run is flattened into the sequence of results it examines, called hits. A hit is notified exactly when it is the first hit with its link and no block word occurs in it. The properties of the run's messages, count, seen links and requests follow from that equality. The lemmas on query order, failed queries, keyword labels and message text are proved directly.
- `RadarLoop` (radar_loop.dfy): `run_hawk_radar` as two loops with a local seen set. Its invariants tie it to the fold.

Notes on the program's behaviour:

- There is no persistent cross-run ledger. Deduplication uses only the `seen_links` set of one run, with exact string equality and no link canonicalisation.
- The duplicate check comes before the block-word check. A blocked result therefore still marks its link as seen.
- Notification credentials are checked at every send, not at startup. A run without credentials still scans everything, counts every lead and reports one error per lead.

## Model

| member | source | states |
|---|---|---|
| `Text.ContainsIffOccurs` | hawk_monitor.py:81 | The executable substring scan used for `bad in full_text` is true exactly when some position of the text holds the word. |
| `Text.AnyContainedIffSomeOccurs` | hawk_monitor.py:81 | `any(bad in full_text for bad in BLOCK_WORDS)` is true exactly when some listed word occurs in the text. |
| `Text.Truncate` | hawk_monitor.py:92 | `body[:100]` is a prefix of the body, of length 100 or the body's length when shorter. |
| `Text.RemoveAll` | hawk_monitor.py:86 | `query.replace(" site:threads.net", "")` never lengthens the string. |
| `Text.RemoveAbsentIsIdentity` | hawk_monitor.py:86 | A query in which the site restriction does not occur keeps its text unchanged as its keyword. |
| `Text.RemoveTrailing` | hawk_monitor.py:86 | If the pattern's first character is absent from `x`, deleting the pattern from `x + pat` gives back `x`. |
| `Keywords.GenerateLayout` | hawk_monitor.py:12-24 | For L locations and S services, the list has L * S generated queries and then the extras, in order. Entry `RowStart(i, S) + j`, which equals `i * S + j` by `RowStartIsProduct`, is `locs[i] + servs[j] + " site:threads.net"`. |
| `Keywords.RowStartIsProduct` | hawk_monitor.py:13-17 | The position at which location `i`'s queries start, with `n` services per location, is `i * n`. |
| `Keywords.KeywordsShape` | hawk_monitor.py:8-24 | The program scans 18 queries. Location `i` with service `j` is at position `5 * i + j`, and the three high-intent queries are last, in their written order. |
| `Keywords.BuildKeywords` | hawk_monitor.py:12-24 | The nested loops (locations outer, services inner, extras appended) build exactly the generated list, so the layout above holds, with the extras after the generated queries. |
| `Keywords.HighIntentAreSiteQueries` | hawk_monitor.py:20-24 | Each high-intent query is a phrase followed by the Threads site restriction. |
| `Keywords.PhrasesHaveNoSpace` | hawk_monitor.py:8-24 | No location, service or high-intent phrase contains a space. This is what makes stripping the site restriction exact. |
| `Radar.Compose` | hawk_monitor.py:86-95 | A message's keyword is the query with the site restriction removed. Its link is the result's `href` (or `""`), and its summary is the first `min(100, len(body))` characters of the body. |
| `Radar.RenderCarriesLink` | hawk_monitor.py:88-95 | The message text contains the link as the anchor target, right after the fixed text before it. It ends with the anchor's closing text. |
| `Radar.RenderCarriesKeyword` | hawk_monitor.py:88-90 | The message text starts with the fixed header and shows the keyword right after it. |
| `Radar.RenderCarriesSummary` | hawk_monitor.py:91-92 | The message text shows the summary right after the first separator line. |
| `Radar.PostFor` | hawk_monitor.py:41-47 | A request goes to the bot API URL with the token followed by `/sendMessage`. It is addressed to the configured chat id, carries the message text, uses parse mode HTML and disables the link preview. |
| `Radar.SendTelegram` | hawk_monitor.py:36-51 | Without a non-empty token and chat id, nothing is posted and one error is reported. Otherwise exactly one request is appended. Seen links, count and messages never change. |
| `Radar.Visit` | hawk_monitor.py:69-96 | After a result, its link is seen. When the link was unseen and no block word matched, the message composed for the result is appended. With credentials its request is appended to the outbox; without them one error is counted. Otherwise messages, outbox and errors are unchanged. The count rises with the messages. |
| `Radar.ScanResults` | hawk_monitor.py:68-97 | Scanning a query's results only adds to the seen links, messages and outbox. The count rises by the number of new messages, at most one per result and at most one per new link. |
| `Radar.ScanQuery` | hawk_monitor.py:62-103 | A failed search leaves the whole state unchanged. Otherwise the results are scanned, with the same growth bounds. |
| `Radar.ScanAll` | hawk_monitor.py:61-103 | Scanning the queries in order only adds to seen links, messages and outbox. The count rises with the messages, by no more than the new links. |
| `Radar.RunRadar` | hawk_monitor.py:53-105 | The final count equals the number of notifications and is at most the number of distinct links seen. |
| `RadarFacts.RunMatchesReference` | hawk_monitor.py:57-96 | The run's seen links are exactly the links of all results returned. Its messages are those of the first sightings free of block words, in order. Its count is their number, and delivery matches the credentials. |
| `RadarFacts.NoLinkNotifiedTwice` | hawk_monitor.py:58-77 | No two notifications of a run share a link, whichever queries return it and however often. |
| `RadarFacts.BlockedIffNotClean` | hawk_monitor.py:80-82 | A result is dropped exactly when some block word is a case-sensitive substring of title, a space and body. |
| `RadarFacts.NotifiedOnlyIfClean` | hawk_monitor.py:74-96 | Every notification is the message for a first sighting of its link in which no block word occurs. |
| `RadarFacts.CleanFirstSightingNotified` | hawk_monitor.py:74-96 | Every first sighting of a link in which no block word occurs is notified. |
| `RadarFacts.BlockedFirstSightingSilencesLink` | hawk_monitor.py:74-82 | If a link's first sighting is blocked, the link is still marked seen and no notification in the run carries it, even if a later result with that link is clean. |
| `RadarFacts.CountBounds` | hawk_monitor.py:57-105 | The final count equals the number of notifications. It is at most the number of results returned and at most the number of distinct links seen. |
| `RadarFacts.MissingLinkNotifiedAtMostOnce` | hawk_monitor.py:70-77 | Results without an `href` share the link `""`, so at most one of them is notified in a run. |
| `RadarFacts.CredentialGuard` | hawk_monitor.py:36-51 | Without credentials nothing is posted and every notification becomes an error report. With them, every notification is posted once, in order, with its rendered text and the configured chat id. |
| `RadarFacts.FailedQuerySkipped` | hawk_monitor.py:62-103 | A failed search on query `k` acts as if query `k` were absent. The run scans the queries before `k`, then the queries after it from that same state, so nothing seen or counted earlier is lost. |
| `RadarFacts.CleanGeneratedKeyword` | hawk_monitor.py:86 | A generated query whose location and service contain no space is shown as location followed by service. |
| `RadarFacts.GeneratedKeywordLabels` | hawk_monitor.py:86 | Each of the 15 location/service queries is shown as its location and service joined. |
| `RadarFacts.HighIntentLabels` | hawk_monitor.py:86 | The three high-intent queries are shown as their phrases without the site restriction. |
| `RadarFacts.BlockedPostScenario` | hawk_monitor.py:74-82 | A post whose body contains the block word is not counted or sent, but its link is marked seen. |
| `RadarFacts.RepeatedPostScenario` | hawk_monitor.py:58-96 | A clean post returned under two queries is counted and sent once, with its link as the anchor target. |
| `RadarFacts.NotesTaggedByQueries` | hawk_monitor.py:62-86 | Every message of a run is tagged with one of the run's queries, with the site restriction removed. |
| `RadarFacts.ProgramQueryLabelled` | hawk_monitor.py:8-24 | The tag shown for any of the program's 18 queries is a location joined with a service, or a high-intent phrase. |
| `RadarFacts.ProgramRun` | hawk_monitor.py:26-105 | With the program's own block list and its 18 queries, no link is notified twice, and every message is tagged with one of the program's labels. |
| `RadarLoop.ScanResultsLoop` | hawk_monitor.py:68-97 | The inner loop over one query's results ends in the state the fold gives. |
| `RadarLoop.HawkRadar` | hawk_monitor.py:53-105 | The two-loop run returns the fold's count, messages, requests and error reports. Its count equals the number of messages, and no two messages share a link. |

## Left out

- The web search call (`DDGS().text` with region `tw-tzh`, time limit one day, at most 5 results) is foreign library code and network I/O. Its outcome is an input, one per query. Nothing assumes the provider honours the 5-result hint. A `None` or empty result list is `Ok([])`. An exception raised while a result list is being iterated, after some results were handled, is caught by the same `try`. It shows up as `Ok` of the results handled before it, not as `Failed`.
- A failure to construct the search client (`with DDGS()`) aborts the program outside the query loop, and is not modelled.
- The HTTP POST to Telegram and the swallowing of its exceptions are network I/O. The model records the request in an outbox. Whether the request is delivered has no effect on the run and is not modelled.
- `time.sleep` pacing and backoff have no effect on any output.
- `datetime.now()` and the `print` logging are I/O only. The one log line that matters is the missing-credentials error, which is counted as `configErrors`.
- Environment variables become the `token` and `chatId` fields of `Config` (`None` when unset).
- HTML rendering is left out. Title and body are not escaped by the program, and the model makes no claim about rendered output.
- A result whose field is present but not a string (for example `None`) is not modelled. In the program, a `None` body makes `body[:100]` raise after `found_count` was incremented, and the rest of that query's results are skipped.
- There is no persistent ledger and no link canonicalisation, because the program has neither.
- Radar.RunRadar: its own contract states only the count bounds. The complete description of its result is `RadarFacts.RunMatchesReference`.
- Radar.ScanResults: its own contract states only growth and count bounds. What it adds is stated by `RadarFacts.ScanResultsIsAbsorb` and `RadarFacts.VisitAgrees`, and for a whole run by `RadarFacts.RunMatchesReference`.
- Radar.ScanQuery: its own contract states only that a failed search changes nothing, plus the growth bounds. The `Ok` case is described through `RadarFacts.RunMatchesReference`.
- Radar.ScanAll: its own contract states only growth and count bounds. What it adds is described through `RadarFacts.RunMatchesReference` and `RadarFacts.FailedQuerySkipped`.
- Text.RemoveAll: its own contract states only that the string does not grow. The cases the program relies on are pinned by `Text.RemoveAbsentIsIdentity` and `Text.RemoveTrailing`.
