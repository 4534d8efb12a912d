# CourtListenerHelper retrieval pipeline, modelled in Dafny

CourtListenerHelper downloads court cases by keyword from the CourtListener
REST API (v4). This project models its retrieval pipeline. That pipeline has
four parts:

- **`ApiClient`** (module `Transport`). It joins a path to the base URL (with
  trailing slashes stripped) and sends a GET with the `Authorization: Token …`
  header. When the server answers HTTP 429, it sleeps for the response's
  `Retry-After` value (60 seconds if absent) and sends the request again, at
  most `max_retries` (3) times. It then raises on a 4xx/5xx status.
- **`CaseSearcher.search`** (module `Search`). It requests `/search/` with
  `q`, `type=o` and `page_size`. After that it follows each page's `next`
  link with empty parameters, stops at the first page without a `next`, and
  yields every page's `results` in order.
- **`sanitize_filename`** (module `Sanitize`). It keeps letters, digits,
  space, `_` and `-`, and replaces every other character by `_`.
- **The loop of `main`** (module `Persist`). It gives each search record the
  file `{out_dir}/{sanitized name}_{id}.json`, with the name defaulting to
  `case_{id}`. If that file exists, the record is skipped. Otherwise the
  record's `url` is downloaded once and the file is written.

How the outside world is represented:

- **Network.** The network is a script: the sequence of responses the server
  will give, one per request sent. This is how the repository's tests drive
  the client. A request sent after the script has run out gets no reply: it
  stands for `requests.get` raising (`NoResponse`), and it is logged like
  every other request sent.
- **Client state.** `ApiClient` records every request sent, every `get`
  invocation and every sleep. The loop of `get` collects its waits in a local
  list, and the logs are updated when `get` returns. No other code runs in
  between, so the final state is the same.
- **Files.** The output directory is a `Disk` object. Its `files` map sends
  each path to the JSON document written there.
- **`str.isalnum`.** It is a parameter `isAlnum: char -> bool`.
  `AsciiExact(isAlnum)` states what is known of it: on ASCII it accepts
  exactly the letters and digits.
- **JSON bodies.** A body is reduced to `results`, `next` and an opaque rest.

The search generator is lazy. A page's records are handled before the next
page is requested, and downloads share the client's script with the search.
So `main` is modelled page by page:

- `CaseSearcher.FetchPage` models one turn of the generator's loop.
- `Persist.SavePage` handles that page's records, one `Persist.SaveCase` each.
- `Persist.SaveKeyword` alternates the two for one keyword, and
  `Persist.DownloadCases` runs the keywords in turn.
- `CaseSearcher.Search` models `list(search(keyword))` on its own.

Each of these methods is proved equal to a function of the server's replies
and the files present at the start. `ServedPages` is that function for
`Search`. `SaveStep`, `SaveRecords`, `SearchFrom` and `MainRun` are those
functions for the loop of `main`. The properties of the loop (which files are
written, what is downloaded, which records are handled, which calls are made)
are lemmas about these functions.

The code at `CourtListenerHelper.py` retries only HTTP 429. It does not retry
5xx responses, keeps no request metrics, sets no request timeout and takes no
search filters (courts, dates). It joins every path to the base URL, absolute
`next` links included; that is the finding under "## Findings".

## Model

| member | source | states |
|---|---|---|
| `Sanitize.SanitizeFilename` | CourtListenerHelper.py:91-93 | the result has the input's length; character i is the input's character i when that is alphanumeric, space, `_` or `-`, and `_` otherwise |
| `Sanitize.OnlySafeChars` | CourtListenerHelper.py:93 | every character of a sanitized name is alphanumeric, space, `_` or `-` |
| `Sanitize.Idempotent` | CourtListenerHelper.py:93 | sanitizing twice gives the same name as sanitizing once |
| `Sanitize.UnchangedIffSafe` | CourtListenerHelper.py:93 | a name is returned unchanged exactly when every character is alphanumeric, space, `_` or `-` |
| `Sanitize.PunctuationReplaced` | tests/test_utils.py:20-22 | `Hello:Case/Name?` becomes `Hello_Case_Name_` under any `isalnum` that is exact on ASCII |
| `Sanitize.SafeNamesUnchanged` | tests/test_utils.py:16-27 | `A Case Name` and `simple-name` are returned unchanged |
| `Transport.TrimTrailingSlashes` | CourtListenerHelper.py:24 | `rstrip("/")`: the result is a prefix of the input that does not end in `/`, and everything cut off is `/` |
| `Transport.JoinedUrlShape` | CourtListenerHelper.py:23-37 | the request URL as written is the slash-stripped base followed by the path verbatim, and the base part never ends in `/` |
| `Transport.AbsoluteLinkMangled` | CourtListenerHelper.py:37 | as written, joining an absolute link to a non-empty base never gives the link back |
| `Transport.NextLinkMangledExample` | CourtListenerHelper.py:67-72 | as written, the API's absolute second-page link is requested as the base URL with the whole link glued on |
| `Transport.ResolveUrlCorrect` | CourtListenerHelper.py:37 | corrected: an absolute link is requested verbatim, every other path exactly as written; for a non-empty base the URL equals the path only for absolute links |
| `Transport.RaiseForStatus` | CourtListenerHelper.py:50 | `raise_for_status` fails exactly for a status of 400 or more |
| `Transport.Transact` | CourtListenerHelper.py:38-49 | the retry loop never consumes more replies than the server has, and a status-bearing result consumes at least one |
| `Transport.TransactShape` | CourtListenerHelper.py:38-50 | only 429 replies are retried, each after its Retry-After or 60 seconds, at most `max_retries` times; the loop stops at the first non-429 reply or when the budget is spent, and that last reply decides the result through `raise_for_status` |
| `Transport.AttemptsBounded` | CourtListenerHelper.py:33-41 | one `get` sends at most `max_retries + 1` requests, counting the one that got no reply |
| `Transport.FirstOtherReplyDecides` | CourtListenerHelper.py:39-51 | `get` returns the first non-429 reply within the budget through `raise_for_status`, after exactly that many requests and the waits of the 429s before it |
| `Transport.RateLimitSurfaces` | CourtListenerHelper.py:41-50 | when every reply within the budget is a 429, `get` stops after `max_retries + 1` requests and raises the last 429 |
| `Transport.OtherStatusNotRetried` | CourtListenerHelper.py:41-50 | a first reply that is not a 429 (a 5xx or another 4xx included) is never retried |
| `Transport.RetryThenSuccess` | CourtListenerHelper.py:39-51 | a 429 with `Retry-After: 0` followed by a 200 gives the 200 after two requests and one zero-second wait |
| `Transport.ApiClient.constructor` | CourtListenerHelper.py:23-27 | the base URL is stored without trailing slashes and the header is `Token ` plus the token |
| `Transport.ApiClient.Get` | CourtListenerHelper.py:29-51 | the result, the replies consumed, the sleeps taken and the logged call are exactly those of the retry loop; every request sent, including one that got no reply, goes to the base URL followed by the path as given, with the call's parameters and the token header |
| `Search.ResultsKeepEveryRecord` | CourtListenerHelper.py:74-75 | every record of every page is yielded, at its position behind the records of the earlier pages; nothing is filtered by keyword |
| `Search.TrailShape` | CourtListenerHelper.py:60-72 | a search makes one call per page: the first to `/search/` with `q`, `type=o` and `page_size`, each later one to the previous page's `next` with empty parameters |
| `Search.FirstStopEnds` | CourtListenerHelper.py:76-78 | of the pages a server serves, a finished search has read exactly the run up to the first page without a `next` |
| `Search.TwoPageExample` | tests/test_utils.py:30-51 | two successful replies, the first page linking to the second, are read as exactly those two pages with no reply left; they yield both records in order after exactly two calls |
| `Search.CaseSearcher.constructor` | CourtListenerHelper.py:56-58 | the searcher keeps its client and page size |
| `Search.ServedPages` | CourtListenerHelper.py:67-78 | the pages a search reads from the server's replies, one `get` each, until a page without a `next` or a failed `get`; it never consumes more replies than there are |
| `Search.ServedPagesShape` | CourtListenerHelper.py:76-78 | a search the server lets finish reads a complete run of pages (every page but the last has a `next`, the last has none); one that fails has only read pages with a `next` |
| `Search.PageRead` | CourtListenerHelper.py:69-78 | one more page adds one call behind the earlier calls and its records behind the earlier records, and either lets the loop go on or completes the run |
| `Search.CaseSearcher.FetchPage` | CourtListenerHelper.py:69-73 | one `get` to `/search/` with the query when there is no cursor, to the cursor with empty parameters otherwise; the page is that response's body, and it is the first page `ServedPages` reads from the replies |
| `Search.CaseSearcher.Search` | CourtListenerHelper.py:60-78 | the pages read, the replies left and the failure are exactly those of `ServedPages` on the replies at the start; on success the pages end at the first page without a `next` and the result is all their records in order; the calls made are one per page as `TrailShape` describes; a failed request ends the search with its failure |
| `Persist.Disk.Exists` | CourtListenerHelper.py:112 | a file exists exactly when its path is on the disk |
| `Persist.Disk.Write` | CourtListenerHelper.py:117-119 | writing sets that one path's content and leaves every other file as it was |
| `Persist.CaseDownloader.constructor` | CourtListenerHelper.py:83-84 | the downloader keeps its client |
| `Persist.CaseDownloader.Download` | CourtListenerHelper.py:86-88 | one `get` of the case URL with empty parameters; the result is that response's body |
| `Persist.TargetOf` | CourtListenerHelper.py:107-111 | a record without `id` fails on `id`, one with `id` but without `url` fails on `url`, any other gives a target with the record's URL |
| `Persist.TargetInsideOutDir` | CourtListenerHelper.py:110-111 | with `isalnum` exact on ASCII and an id without `/`, the case file lies directly inside `out_dir` and ends in `.json` |
| `Persist.FetchedExactlyNew` | CourtListenerHelper.py:112-119 | a run downloads a path exactly when some record needs it and it did not exist before, and it downloads each such path once |
| `Persist.NothingNewNothingFetched` | CourtListenerHelper.py:112-114 | when every needed file already exists, nothing is downloaded |
| `Persist.RerunFetchesNothing` | CourtListenerHelper.py:112-114 | re-running over the same records after a complete run downloads nothing |
| `Persist.ResumeFetchesRest` | CourtListenerHelper.py:106-119 | a run interrupted after some records and restarted from the beginning downloads exactly what the uninterrupted run still had to |
| `Persist.FetchedSkipsKnown` | CourtListenerHelper.py:112-114 | records whose files all exist in front of others change nothing about what the others download |
| `Persist.SaveStep` | CourtListenerHelper.py:107-119 | one record as a function of the replies and the files: a missing key aborts with no request, an existing file is skipped with no request, otherwise one `get` of the record's URL, and on success the file holds the reply's body; it never consumes more replies than there are |
| `Persist.SaveRecords` | CourtListenerHelper.py:106-119 | the records of one page in order, until one aborts the run; it never consumes more replies than there are |
| `Persist.SearchFrom` | CourtListenerHelper.py:68-78 | one keyword: a page is requested, its records saved, then the next page requested, until a page has no `next` or something aborts; it reads one list of pages and never consumes more replies than there are |
| `Persist.MainRun` | CourtListenerHelper.py:104-120 | every keyword's search in turn on one client, until something aborts the run; it never consumes more replies than there are |
| `Persist.SaveStepProgress` | CourtListenerHelper.py:112-119 | one record adds its own file, keeps every other file, and downloads exactly when its file is new |
| `Persist.SaveRecordsProgress` | CourtListenerHelper.py:106-119 | the records of a page add the files of the records handled, keep every file that was there, and download exactly `Fetched` of their paths |
| `Persist.SaveStepTargets` | CourtListenerHelper.py:107-119 | a record that goes through is handled under its own target and its only call is its download, if any; one that aborts leaves the disk as it was, and its one call is the failing download unless a key was missing |
| `Persist.SaveRecordsTargets` | CourtListenerHelper.py:106-119 | the records handled are a prefix of the page, each under its own target; the page completes exactly when all its records were handled |
| `Persist.SaveRecordsCalls` | CourtListenerHelper.py:107-116 | the calls of a page are one `get` of each downloaded record's URL with empty parameters, in order; on an abort the failing record is the first unhandled one, with its missing key or its failing download as the last call |
| `Persist.SavedPage` | CourtListenerHelper.py:106-119 | the page's files, targets and calls at once, as the three lemmas above state them |
| `Persist.SearchFromPages` | CourtListenerHelper.py:68-78 | a keyword's search extends the pages read before, and if nothing aborts it they form a complete run |
| `Persist.SearchFromTargets` | CourtListenerHelper.py:74-116 | a keyword's search handles its pages' records in order, each under its own target, from the first record after the pages read before; if nothing aborts, all of them |
| `Persist.SearchFromProgress` | CourtListenerHelper.py:106-119 | a keyword's search adds the files of the records it handled, keeps every file that was there, and downloads exactly `Fetched` of their paths |
| `Persist.MainRunProgress` | CourtListenerHelper.py:104-119 | a whole run adds the files of the records it handled, keeps every file that was there, and downloads exactly `Fetched` of their paths |
| `Persist.MainRunSearched` | CourtListenerHelper.py:104-106 | a whole run reads one list of pages per keyword, in order, at most one per keyword; a run that completes read a complete run of pages for every keyword |
| `Persist.MainRunTargets` | CourtListenerHelper.py:104-116 | a whole run handles the records the searches yield, keyword after keyword, each under its own target; a run that completes handles every one |
| `Persist.RanAll` | CourtListenerHelper.py:104-119 | a whole run's files, targets and pages at once, as the three lemmas above state them |
| `Persist.SaveCase` | CourtListenerHelper.py:107-119 | the outcome, the files, the replies left and the calls are exactly those of `SaveStep`; the download, when there is one, is a `get` of the record's URL as `Get` states it, and a record with a missing key or an existing file leaves the client untouched |
| `Persist.SavePage` | CourtListenerHelper.py:106-119 | the outcome, the files, the replies left and the calls are exactly those of `SaveRecords` on the replies and files at the start |
| `Persist.SaveKeyword` | CourtListenerHelper.py:104-120 | one keyword, with each page's records saved before the next page is requested: the outcome, the files, the replies left and the calls are exactly those of `SearchFrom` |
| `Persist.DownloadCases` | CourtListenerHelper.py:98-120 | the outcome, the files and the calls are exactly those of `MainRun` on the given replies; the disk keeps every old file and adds the files of the records handled, the downloads are `Fetched` of those, the records handled are those the searches yielded, in order, and a completed run read a complete run of pages for every keyword |

## Left out

- `gui.py`: widgets, dialogs, the worker thread and its log and progress callbacks. Its `download_cases` repeats `main`'s loop around user-interface effects.
- Names the tests import that this revision does not define (`get_case_id`, `get_case_url`, `RecapDownloader`, `download_opinions`, `CommandLineInterface`, `download_from_metadata`, metrics, the `courts` filter): no code at this revision to model.
- Real HTTP, real sleeping, logging and `json.dump` formatting. The network is a script of replies, sleeps are recorded, and a document is an opaque value.
- Parsing `Retry-After` with `int()`: the header is a number of seconds already. A non-numeric or negative value, which raises `ValueError` in the source, is not modelled.
- `resp.json()` failing on a body that is not JSON is not modelled; every body decodes.
- A transport error at any request is represented by the script running out. Every exception ends the run, so nothing after it is observable.
- Status codes are 100 to 599. `raise_for_status` raises only for 400 to 599, so "400 or more" is the same condition.
- `str.isalnum` on non-ASCII characters: only its ASCII behaviour is pinned down, through `AsciiExact`.
- A record whose `name` is present but null (`sanitize_filename(None)` raises) is not modelled; a name is either a string or absent. Ids are the text they format to.
- The module bootstrapping: reading `COURTLISTENER_TOKEN`, the `__main__` argument handling, `os.makedirs`, and the fixed 0.1-second pause between downloads.
- Inside one page the generator yields records one at a time. The model hands over a page's records together, because requests happen only at page boundaries.
- Search.CaseSearcher.Search, Persist.SavePage, Persist.SaveKeyword and Persist.DownloadCases state the calls and the replies consumed, not the requests sent or the sleeps taken; those are stated per call by `ApiClient.Get`, `CaseSearcher.FetchPage` and `Persist.SaveCase`.

## Findings

| source | as written | input that shows it | evidently intended | confidence | as-written member | corrected member |
|---|---|---|---|---|---|---|
| CourtListenerHelper.py:37 | `get` builds the URL as `base_url + path` for every argument, including the `next` links the search follows at line 70 | a search page whose `next` is `https://www.courtlistener.com/api/rest/v4/search/?page=2`: the second request goes to `https://www.courtlistener.com/api/rest/v4https://www.courtlistener.com/api/rest/v4/search/?page=2` | a link that carries its own scheme is requested as given, and only paths are joined to the base | medium, not executed | `Transport.NextLinkMangledExample` | `Transport.ResolveUrlCorrect` |

`ApiClient.Get` models the code as written: it requests `JoinUrl`, the base
followed by the path. `Transport.AbsoluteLinkMangled` shows that this fails
for every absolute link. `ResolveUrl` is the corrected resolution, and
`Transport.ResolveUrlCorrect` proves that it requests an absolute link
verbatim and every other path exactly as the code does.
