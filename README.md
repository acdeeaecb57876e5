# Social statistics dashboard — a verified model of its fetch core

The dashboard collects the posts of one account on two networks and shows
totals for them.

- **Mastodon.** It resolves the account `pogscience.bsky.social@bsky.brid.gy`
  through the public resolver `mastodon.social`. Every request goes through
  one of three CORS proxies, tried in a shuffled order. It then pages
  backwards through the account's statuses with `max_id`, keeping those
  inside the chosen date window.
- **X.** It tries 42 Nitter and LibreTwitter mirrors in a shuffled order.
  Each mirror is asked for the `PogScience` timeline, paging with the
  `min_position` cursor. The first mirror that ends with the account known
  wins.
- **The page.** It checks the configured handle, computes the summary
  cards, decides when the "search" and "export" buttons are enabled, and
  builds the spreadsheet rows and the file name of the export.

The project has one module per concern:

| module | file | what |
|---|---|---|
| `Wrappers` | `wrappers.dfy` | `Option`, `Result` |
| `Strings` | `strings.dfy` | ASCII lowercasing, search, `replace` of the first occurrence, `join`, decimal rendering |
| `Shuffle` | `shuffle.dfy` | the in-place Fisher–Yates shuffle over an `array`, and its specification on sequences |
| `DateWindow` | `window.dfy` | the date window, the scan of one page with its early stop, the statuses kept over several pages |
| `Http` | `http.dfy` | responses, the `fetch` oracle, the host name of an `https://` URL |
| `Types` | `types.dfy` | the records exchanged with the page: accounts, statuses, tweets |
| `MastodonService` | `mastodon.dfy` | the proxy fallback, the lookup and identity check, the pagination, the error rewrite |
| `XService` | `x_service.dfy` | the mirror requests, the avatar rewrite, the tweet mapping, the two nested loops |
| `Dashboard` | `app.dfy` | the handle check, the summary cards, the button flags, the export |

Each loop of the source is a `method` with a `while` loop. Each such method
is proved equal to a recursive function that describes the whole loop:

- `ShuffleInPlace` is proved against `Shuffled`;
- `FetchWithProxyFallbacks` against `FallbackOf`;
- `PaginateStatuses` against `PagesFrom`;
- `PaginateInstance` against `PaginateFrom`;
- `FetchXAccountAndTweets` against `SearchXOf`.

The properties are lemmas about those functions. The lemmas about the loops
are stated for any oracle: the pages a resolver or mirror serves
(`Pager`, `Loader`) and the run of one mirror (`Runner`).

Several things become parameters of the model:

- The network (`fetch`) and `Math.random` are parameters. The random draws
  are the swap indices `0 <= j <= i` of each shuffle.
- The JSON decoders, `encodeURIComponent` and the form encoding of
  `URLSearchParams` are parameters too.
- Timestamps are integer milliseconds. The window bounds come from a
  `dayStart` oracle that maps a `YYYY-MM-DD` date to its first millisecond
  (UTC). The end bound is the last millisecond of its day.

## Model

| member | source | states |
|---|---|---|
| `Shuffle.ShuffleInPlace` | services/mastodonService.ts:20-26 | The countdown loop swaps cell `i` with the drawn `j <= i`. The array ends as `Shuffled` of its old contents. |
| `Shuffle.ShuffleFromPermutes` | services/mastodonService.ts:21-24 | Every remaining part of the countdown keeps the length and the multiset of the list. |
| `Shuffle.ShuffledIsPermutation` | services/xService.ts:38-44 | The shuffle returns a permutation of its input: same length, same multiset. |
| `Shuffle.ShuffledSameElements` | services/mastodonService.ts:29 | An element is in the shuffled copy exactly when it is in the original list. |
| `Shuffle.ShuffledLength` | services/xService.ts:104 | The shuffled copy of the mirror list has its length. |
| `Shuffle.ShuffledCopy` | services/xService.ts:104 | `shuffleArray([...list])` copies the list into a fresh array and shuffles it there. The result is `Shuffled(list, picks)`, and the list itself is a value that stays as it was. |
| `Http.HostnameOf` | services/mastodonService.ts:34 | `new URL(u).hostname` of `https://<host><delimiter>...` is `host` when the host holds no delimiter. |
| `Http.PrefixKeepsHost` | services/xService.ts:47-48 | A URL `https://<host>/<path>...` has host name `host`. |
| `DateWindow.WindowOf` | services/mastodonService.ts:99-100 | A start bound exists iff `startDate` is non-empty, and it is the first millisecond of that day. An end bound exists iff `endDate` is non-empty, and it is the last millisecond of that day. |
| `DateWindow.ScanKeepsFilteredPrefix` | services/mastodonService.ts:115-132 | The scan of a page keeps, in order, the in-window items before the first item older than the start. It reports a stop iff such an item exists. |
| `DateWindow.ScanStopsIffTooOld` | services/mastodonService.ts:120-123 | The scan stops iff some item of the page is older than the start. |
| `DateWindow.ScanIgnoresAfterTooOld` | services/xService.ts:139-148 | Nothing after the first item older than the start changes the scan: it is never examined. |
| `DateWindow.ScanKeptInWindow` | services/mastodonService.ts:125-131 | Every item kept satisfies `start <= t <= end`, a missing bound imposing nothing. The kept items are a subsequence of the page. |
| `DateWindow.KeptAllInWindow` | services/xService.ts:145-147 | The items kept over several pages are all in the window, and they are a subsequence of the pages concatenated. |
| `DateWindow.ScanPage` | services/mastodonService.ts:116-132 | The inner `for` loop with its `break` computes the kept items and the stop flag of `Scan`. |
| `MastodonService.ProxyHosts` | services/mastodonService.ts:10-14 | The three proxied URLs have host names `corsproxy.io`, `api.allorigins.win` and `thingproxy.freeboard.io`. |
| `MastodonService.ProxiesHaveHosts` | services/mastodonService.ts:33-34 | Every configured proxy yields a URL with a host name, so `new URL(...)` never throws. |
| `MastodonService.Diagnostics` | services/mastodonService.ts:44-46 | There is one `host: message` entry per proxy tried, in the order tried. |
| `MastodonService.FetchWithProxyFallbacks` | services/mastodonService.ts:28-51 | The loop over the shuffled proxies returns what `FallbackOf` describes: the result and the URLs requested. |
| `MastodonService.FallbackFromOutcome` | services/mastodonService.ts:32-50 | From any point of the loop, each proxy is tried at most once, in order. Only the last one tried may succeed. A success returns that proxy's `ok` response. A failure means all proxies were tried and failed, and the message lists their diagnostics. |
| `MastodonService.ShuffledProxiesAreProxies` | services/mastodonService.ts:29 | The shuffled copy holds three proxies, each one of the configured ones. |
| `MastodonService.FallbackFirstSuccess` | services/mastodonService.ts:32-42 | A returned response comes from the first proxy, in shuffled order, whose response is `ok`. No later proxy is tried, and the response is always `ok`. |
| `MastodonService.FallbackAllFailed` | services/mastodonService.ts:43-50 | When every proxy fails, each was tried exactly once, in shuffled order. The message lists one `host: message` entry per proxy in that order, joined by `'; '`. |
| `MastodonService.AllProxiesFailureRewritten` | services/mastodonService.ts:150-158 | The all-proxies failure message is always replaced by the fixed connection-failure message. |
| `MastodonService.CheckIdentity` | services/mastodonService.ts:79-81 | The account is accepted iff lowercase `acct` equals lowercase `username@instance` or lowercase `username`. A rejection names both the expected and the received handle. |
| `MastodonService.IdentityIgnoresCase` | services/mastodonService.ts:79 | Changing the case of `acct` does not change the outcome of the check. |
| `MastodonService.OtherAccountRejected` | services/mastodonService.ts:79-80 | A lookup answering with another user's account is rejected, whatever the case. The other account may be local (`other`) or at any instance (`other@host`), provided neither username holds `@` and they differ ignoring case. |
| `MastodonService.RemoveParam` | services/mastodonService.ts:141 | Removing a key leaves that key absent and every other key's value unchanged. |
| `MastodonService.SetParamGet` | services/mastodonService.ts:141 | After `set(key, v)`, `get(key)` is `v`, and every other key reads as before. |
| `MastodonService.RemoveParamTwice` | services/mastodonService.ts:141 | Removing a key twice is removing it once. |
| `MastodonService.SetParamTwice` | services/mastodonService.ts:141 | A second `set` of `max_id` overrides the first, so the query never grows beyond one `max_id`. |
| `MastodonService.SetMaxIdOnBase` | services/mastodonService.ts:90-96 | A page query is `limit=40`, `exclude_replies=true` and `exclude_reblogs=true`, in that order, followed by `max_id`. |
| `MastodonService.PagesFromTrace` | services/mastodonService.ts:102-146 | There are at most 50 requests. The first request carries the base query. Each later request carries `max_id` set to the id of the last status of the page before it, whether or not that status was kept. Every page but the last let the loop go on. |
| `MastodonService.PagesFromResult` | services/mastodonService.ts:116-132 | A successful pagination returns the statuses kept from its pages, page by page. |
| `MastodonService.PagesFromCounts` | services/mastodonService.ts:102-110 | A failed pagination made one request more than the pages it received. A successful one received a page for every request. |
| `MastodonService.PagesFromEnd` | services/mastodonService.ts:111-113 | Before 50 requests, a successful pagination ends only on an empty page or on a page holding a status older than the start. No page is requested after it. |
| `MastodonService.PaginationInWindow` | services/mastodonService.ts:125-131 | Every status returned lies in the window. The result is a subsequence of the pages in upstream order. |
| `MastodonService.PageStatusCheckRedundant` | services/mastodonService.ts:104-110 | The status check after a page request never fires. A page is the decoded `ok` response or the proxies' error. |
| `MastodonService.LookupStatusCheckRedundant` | services/mastodonService.ts:66-77 | The lookup's status check never fires. A lookup fails only with the proxies' error, a decoding error or the identity check's message. |
| `MastodonService.LookupSucceeded` | services/mastodonService.ts:61-81 | A successful lookup returns an account decoded from an `ok` response, and that account passes the identity check. |
| `MastodonService.LookupAccount` | services/mastodonService.ts:61-81 | The lookup code returns `LookupOf`: the proxied request, the status check, the decoding and the identity check. |
| `MastodonService.FetchPage` | services/mastodonService.ts:103-110 | One page request returns `PageOf`: the proxied fetch, the status check and the decoding. |
| `MastodonService.NextPage` | services/mastodonService.ts:103-145 | One iteration either ends the loop with the result of `PagesFrom` or leaves a state from which `PagesFrom` gives the same result. |
| `MastodonService.PaginateStatuses` | services/mastodonService.ts:84-146 | The pagination loop returns exactly what `PagesFrom` describes from the base query: the statuses, the requests and the pages. |
| `MastodonService.FetchAccountAndStatuses` | services/mastodonService.ts:54-160 | The whole operation returns `SearchOf`: the lookup, then the pagination, with every error rewritten. |
| `MastodonService.SearchSucceeded` | services/mastodonService.ts:148 | A success returns the account of a successful lookup and the statuses of a successful pagination for that account's id. |
| `MastodonService.SearchLookupExhausted` | services/mastodonService.ts:150-154 | A lookup for which every proxy failed ends the search with the fixed connection-failure message. No page is requested. |
| `MastodonService.SearchRejectsOtherAccount` | services/mastodonService.ts:79-81 | An account that does not match is never returned. The search fails before any page request, with a message naming both handles. |
| `XService.ProxifyShape` | services/xService.ts:33-36 | A proxied URL is `https://corsproxy.io/?` followed by the encoded target. Its host is the proxy. |
| `XService.InstanceUrlShape` | services/xService.ts:46-51 | The request URL starts with `https://<host>/<path>`. `?cursor=<encoded cursor>` is appended iff the cursor is non-empty. The URL's host is the mirror. |
| `XService.AvatarAbsolutised` | services/xService.ts:64-67 | Only a non-empty avatar is rewritten, and it becomes `https://<host>` followed by the path. Nothing else of the page changes. |
| `XService.FetchFromInstanceOutcome` | services/xService.ts:46-73 | The answer is a page iff the response is `ok` and the body parses; that page has its avatar made absolute. A network error passes through. A bad status yields a message naming the host and the status. A non-JSON body yields a message naming the host. |
| `XService.MappedTweet` | services/xService.ts:76-92 | The mapping copies `id`, the instant, `text` and the three counters, sets `view_count` to 0 and builds `user` from the author. The URL is `https://x.com/<username>/status/<id>`. |
| `XService.TweetsOf` | services/xService.ts:139-140 | A page of raw tweets maps item by item, in order. |
| `XService.AccountOfProfile` | services/xService.ts:122-129 | The account copies the profile. The picture is the avatar with its first `_normal` replaced by `_400x400`, and an avatar without `_normal` stays as it is. |
| `XService.AdoptSettled` | services/xService.ts:122 | Once the account is set, later pages never assign it again. |
| `XService.Follow` | services/xService.ts:159 | The next page replaces only `timeline` and `min_position`. The first page's `profile` is kept. |
| `XService.PaginateCounts` | services/xService.ts:108-160 | At most 50 pages are processed within one mirror. There is at most one request more than the pages processed. A page with a tweet older than the start is the last one, and no request follows it. |
| `XService.PaginateRequests` | services/xService.ts:152-158 | Over the whole loop, request `j` is the mirror's base URL with the cursor of page `j - 1`. Every request after the first has a non-empty cursor. A page without a cursor is the last one processed, and no request follows it. Earlier requests and cursors are kept. |
| `XService.PaginatePages` | services/xService.ts:132-159 | Every processed page is the timeline the mirror answered for its request. Its logged cursor is that answer's `min_position`. |
| `XService.PaginateResult` | services/xService.ts:139-148 | A successful run returns the tweets kept from its pages, page by page. |
| `XService.PaginateKeepsAccount` | services/xService.ts:122-130 | The account after the loop is the one the first iteration left. |
| `XService.RunInstanceTrace` | services/xService.ts:115-160 | A mirror's first request is the base URL without a cursor. Each later request carries the non-empty `min_position` of the page before it, and each page is the answer to its request. The loop stops at a page without a cursor, at a page older than the start, or after 50 pages, with no request after the last page. |
| `XService.RunInstanceTweets` | services/xService.ts:135-150 | The tweets of a successful run lie in the window and are a subsequence of its pages, in order. |
| `XService.RunInstanceAccount` | services/xService.ts:101-130 | The account after a mirror is the one before, set from the first page's profile if it was unset. A known account is kept. |
| `XService.RunnerKeepsAccounts` | services/xService.ts:122 | No mirror run replaces a known account. |
| `XService.TryInstancesChained` | services/xService.ts:107-108 | Each run is on the next mirror of the order and starts from the account the run before left. |
| `XService.TryInstancesErrors` | services/xService.ts:168-170 | The errors recorded are the messages of the failed runs, in order. |
| `XService.TryInstancesOutcome` | services/xService.ts:161-178 | The loop returns at the first mirror that finished without error with an account known. Otherwise every mirror is tried and the fixed message is thrown. |
| `XService.ChainedKeepsAccount` | services/xService.ts:101 | Once a run leaves an account set, every later run keeps it. |
| `XService.InstanceLoopOutcome` | services/xService.ts:107-178 | For any mirror behaviour, the runs are chained and the errors are recorded in order. No run before the last finished. A success returns the last run's account and tweets. A failure tried all mirrors, and its fixed message does not carry the recorded errors. |
| `XService.SearchXOutcome` | services/xService.ts:95-179 | The same holds for the real mirrors in the shuffled order. A failed search tried all 42 of them. |
| `XService.SearchXTweetsInWindow` | services/xService.ts:145-147 | The tweets returned lie in the window, in the order of their mirror's pages. |
| `XService.SearchXAccountIsFirstSet` | services/xService.ts:101-166 | The account returned is the one the first run that set it left, even if that run's mirror later failed. |
| `XService.NextInstancePage` | services/xService.ts:121-159 | One iteration of the inner loop either ends with the result of `PaginateFrom` or leaves a state from which `PaginateFrom` gives the same result. |
| `XService.PaginateInstance` | services/xService.ts:118-161 | From any iteration, the inner `while` loop returns what `PaginateFrom` describes for that state. |
| `XService.TryInstance` | services/xService.ts:113-161 | The body of the `try` for one mirror returns its run: `RunInstance` with that mirror's `fetchFromInstance` as loader. |
| `XService.TryAllInstances` | services/xService.ts:107-178 | The outer loop over the mirrors, in a given order, returns what `TryInstances` describes: the result, the errors array and the runs. |
| `XService.FetchXAccountAndTweets` | services/xService.ts:95-179 | The operation returns `SearchXOf`: the mirrors shuffled with the given draws, then tried in that order. |
| `Dashboard.FirstIndexOf` | App.tsx:41 | The first `@` of the handle, or none. |
| `Dashboard.LastIndexOf` | App.tsx:41 | The last `.` of the instance part, or none. |
| `Dashboard.MatchHandleSound` | App.tsx:41-49 | A match gives two groups with `user + "@" + instance == handle`, each group of the regex's characters. |
| `Dashboard.MatchHandleComplete` | App.tsx:41-49 | Every handle of the regex's shape matches, with its two groups. |
| `Dashboard.MatchHandleIff` | App.tsx:40-49 | The handle matches with groups `(user, inst)` iff `handle == user + "@" + inst`, `user` is a non-empty string of `[A-Za-z0-9_.]`, and `inst` is `[A-Za-z0-9.-]+` followed by `.` and two or more letters. |
| `Dashboard.ConfiguredHandleSplits` | App.tsx:40-49 | The configured handle is valid and splits into `pogscience.bsky.social` and `bsky.brid.gy`. |
| `Dashboard.ReduceIsSum` | App.tsx:132-134 | `reduce` with `sum + counter` from an accumulator is that accumulator plus the sum of the counter. |
| `Dashboard.FilterBounded` | App.tsx:135-136 | The filter keeps exactly the elements that pass the test, and never more than the list holds. |
| `Dashboard.SummaryNullIffEmpty` | App.tsx:127-147 | The summary is null iff the active tab's list is empty. A summary shown belongs to the active tab. |
| `Dashboard.MastodonSummaryTotals` | App.tsx:130-137 | `totalPosts` is the number of statuses, and each total is the sum of its counter. `postsWithMedia` and `postsWithLinks` are at most `totalPosts`. |
| `Dashboard.XSummaryTotals` | App.tsx:140-145 | `totalPosts` is the number of tweets, and each total is the sum of its counter. |
| `Dashboard.SearchEnabledIffBounded` | App.tsx:149 | Search is enabled iff nothing is loading and both dates are filled in, that is iff the window is bounded on both sides. |
| `Dashboard.ExportEnabledIffSummary` | App.tsx:150 | Export is enabled iff nothing is loading and the summary is shown. |
| `Dashboard.MastodonRowsFaithful` | App.tsx:95-105 | There is one row per status, in list order, and row `i` is built from status `i`. The date is formatted, the content is stripped of markup, and the links and hashtags are counted. The three counters and the link are copied unchanged, and the media column is `Oui` iff the status has attachments. |
| `Dashboard.XRowsFaithful` | App.tsx:109-116 | There is one row per tweet, in list order, and row `i` is built from tweet `i`. The date is formatted, and the text, the counters and the link are copied unchanged. |
| `Dashboard.MastodonRowsTotals` | App.tsx:98-100 | The counter columns of the Mastodon sheet add up to the summary totals. |
| `Dashboard.XRowsTotals` | App.tsx:112-114 | The counter columns of the X sheet add up to the summary totals. |
| `Dashboard.MastodonFilenameOf` | App.tsx:106 | The file name is `acct` with its first `@` replaced by `_`, followed by `_mastodon_stats.xlsx`. A handle without `@` is kept whole. |
| `Dashboard.ExportOutcome` | App.tsx:84-119 | Without the library, the export fails with its message. On the active tab with an account, the sheet is that tab's rows, one per item in order, and the file is named after the account. Otherwise the sheet is empty and the file is `stats.xlsx`. |

## Left out

- The network, `async`/`await` and the `setTimeout` delays between requests are not modelled. Requests are sequential calls of a `fetch` oracle.
- `console.*` logging is not modelled.
- `Math.random` is not modelled. Each shuffle takes its swap indices as a parameter, or from an `Rng` oracle indexed by the shuffle's number.
- Date parsing and formatting are not modelled: `new Date`, `toISOString`, `toLocaleString('fr-FR')`. Instants are integers. The day boundaries and the spreadsheet's date text are oracles.
- `JSON.parse`, `response.json()`, `encodeURIComponent` and the form encoding of `URLSearchParams.toString()` are oracles. Any JSON body that is not an object of the expected shape counts as a decoding error. So do `null` and a missing `profile.stats`.
- A failure of `response.text()` itself is not modelled.
- Throws of values that are not `Error` are not modelled: the alternative messages at services/mastodonService.ts:158 and App.tsx:57 and 68 are unreachable in the model.
- `toLowerCase` is modelled as ASCII lowercasing only. Unicode case mapping is not modelled.
- `new URL(...).hostname` is modelled for `https://` URLs only. Its result is the text up to the first `/`, `?` or `#`. A port or userinfo is not split off, and there is no normalisation and no IDNA. The hosts the core builds URLs from have neither.
- `stripHtml` (a `DOMParser`), the link and hashtag regex counts, the XLSX library, React state, rendering and `components/` are not modelled. The first three enter as oracles of a `Browser` record. The export's result is the sheet, file name and sheet name handed to the library.
- `Types`: the `account` field of a status is not modelled, because nothing in the core reads it. The X account and tweet records are shaped after their use in services/xService.ts, because their interfaces in types.ts are not part of this model.
- Link-header continuation, a separate rate-limit (HTTP 429) error and a final re-filter after the loops are not in the code and are not modelled.
- `XService.PaginateCounts`: within one mirror, a 51st request is issued when the 50th page still carries a cursor. The loop then ends without processing that answer, although an error from it still fails the mirror. The model keeps this behaviour. So the bound is "at most 50 pages processed, at most 51 requests", not 50 requests.
- `XService.SearchXAccountIsFirstSet`: the account lives outside the mirror loop. A mirror that set it and then failed leaves it set, so a later mirror can return it with its own tweets. The model keeps this behaviour.
- `Shuffle.ShuffledCopy` states only that its result equals `Shuffled(list, picks)`. The permutation property is `Shuffle.ShuffledIsPermutation`.
