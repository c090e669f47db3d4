# jp-diet-search in Dafny

This project is a Dafny model of the core of `jp_diet_search`, a Python client for the
Japanese National Diet Library's minutes search API (`https://kokkai.ndl.go.jp/api`).
It covers:

- the pagination core `_DietCore`: `search_records`, `_request_json`, the on-disk cache,
  `_cache_key`, `check_required_any_condition` and `sanitize_limit`;
- the strict pydantic query classes: their fields, their validation, the page-size
  ceilings of the three subclasses, and `to_params`;
- the three endpoint classes: `search`, `search_any` and `search_by_speaker`;
- the exception hierarchy and how its messages are formatted;
- from the command-line tool, `_collect_params` and the CSV header of `_print_output`.

Modules, in dependency order:

| file | module | models |
|---|---|---|
| `wrappers.dfy` | `Wrappers` | `Option`, `Result`, and `Outcome` (return `None` or raise) |
| `text.dfy` | `Text` | `str.strip`, slicing, `join`, `str(int)`, `int(str)`, `f"{n:04d}"`, string `<` |
| `json.dfy` | `Json` | decoded JSON values; dicts as ordered association lists; truthiness; `repr` |
| `sorting.dfy` | `Sorting` | `sorted(d.items(), key=...)` and `sorted(set(...))` |
| `exceptions.dfy` | `Exceptions` | the `DietSearchError` hierarchy, `details or []`, `__str__` |
| `core.dfy` | `Core` | the cache, request classification, the input checks, the paging loop; class `DietCore` |
| `queries.dfy` | `Queries` | `BaseQuery` fields, validation (`extra="forbid"`, `ge=1`, ceilings, `require_some_condition`), `to_params` |
| `endpoints.dfy` | `Endpoints` | URL and record key of each endpoint, query building; class `Endpoint` |
| `cli.dfy` | `Cli` | `_collect_params`, the `limit_total=1` of a dry run, the CSV header |

Several things the source does are modelled as inputs or oracles:

- The network is a function `Network = (nat, Request) -> HttpOutcome`. It gives the
  answer to the n-th request sent: a transport failure, or a status code, the response
  text and the decoded body (or the reason it does not decode).
- The cache directory is a field `cache: map<CacheKey, CacheEntry>` of class
  `Core.DietCore`. How each write ends comes from an oracle `Disk = nat -> WriteOutcome`:
  written, not opened, or broken off after the file was emptied.
- The class keeps a log `sent` of the requests it has sent. This log lets the contracts
  state how many network calls were made.

A Python dict keeps insertion order, so a dict is a sequence of key/value pairs
(`Json.Pairs`). `Lookup` is `d.get(k)` and `Store` is `d[k] = v`.

The `while True` loop of `search_records` is a method loop (`Core.DietCore.FetchPages`).
It is proved against a function over loop states (`Core.Pages`). The properties of the
search are proved about that function: how it ends (`Core.SearchOutcome`), which
requests it sends and which page answers each (`Core.SearchAsks`), and what it returns
(`Core.SearchResultFacts`).

Notes on the code:

- `totalRecords` is the first value that is not null over all pages, because
  `core.py:193-194` reads it again on every page while it is still `None`.
- A decoded JSON `null` in the cache counts as a miss, because `_request_json`
  tests `cached is not None` (`core.py:86-88`).

## Model

| member | source | states |
|---|---|---|
| `Core.RStripSlash` | src/jp_diet_search/core.py:38 | the result is a prefix of the input; it does not end in `/`; everything cut off is `/` |
| `Core.DietCore.constructor` | src/jp_diet_search/core.py:28-50 | the base URL is stored with trailing slashes removed; the cache is on exactly when a directory is given, holds the files already there, and no request has been sent |
| `Core.CacheKeyOf` | src/jp_diet_search/core.py:54-58 | the key keeps the endpoint and holds exactly the params' items (as a multiset) |
| `Core.CacheKeyIgnoresOrder` | src/jp_diet_search/core.py:54-58 | two dicts of params get the same cache key if and only if they hold the same items, whatever their insertion order |
| `Core.CachedValue` | src/jp_diet_search/core.py:60-70 | definition; properties in `DietCore.LoadFromCache`, `SaveThenLoad` and `SaveKeepsOtherFiles` |
| `Core.CacheAfterSave` | src/jp_diet_search/core.py:72-81 | definition; properties in `DietCore.SaveToCache`, `SaveThenLoad` and `SaveKeepsOtherFiles` |
| `Core.DietCore.LoadFromCache` | src/jp_diet_search/core.py:60-70 | returns the stored value; returns nothing when there is no cache, no file, or a file that does not load |
| `Core.DietCore.SaveToCache` | src/jp_diet_search/core.py:72-81 | the new cache: the file written, left alone when it cannot be opened, unreadable when the write broke off; unchanged without a cache directory |
| `Core.SaveThenLoad` | src/jp_diet_search/core.py:60-81 | after a successful save the same request loads the saved data; after a broken-off write it loads nothing; without a cache nothing changes |
| `Core.SaveKeepsOtherFiles` | src/jp_diet_search/core.py:72-81 | a save changes what no other cache key loads |
| `Core.BodyDetails` | src/jp_diet_search/core.py:97-100 | definition; properties in `BodyDetailsShape` |
| `Core.Classify` | src/jp_diet_search/core.py:90-120 | definition; properties in `ClassifySuccess`, `ClassifyFailureClasses` and `ClassifyMessages` |
| `Core.Fetched` | src/jp_diet_search/core.py:85-120 | definition; properties in `FetchedRequests`, `FetchedWithoutCache`, `FetchedFailureKeepsCache` and `FetchedThenCached` |
| `Core.BodyDetailsShape` | src/jp_diet_search/core.py:97-108 | the details hold at most one entry; they are empty exactly when the response text is all whitespace; an entry is non-empty, at most 500 characters, and a prefix of the stripped text |
| `Core.ClassifySuccess` | src/jp_diet_search/core.py:104-120 | a request succeeds if and only if the status is exactly 200 and the body decodes, and it then returns the decoded data |
| `Core.ClassifyFailureClasses` | src/jp_diet_search/core.py:90-117 | the fixed order of classification, both ways: transport failure gives a request error that is not a parse error; 429 gives a rate-limit error; other non-200 statuses give an API error that is not a rate-limit error; 200 with an undecodable body gives a parse error |
| `Core.ClassifyMessages` | src/jp_diet_search/core.py:96-109 | the 429 and non-200 messages name the status and the endpoint, and the details come from the response text |
| `Core.FetchedRequests` | src/jp_diet_search/core.py:85-120 | a cache hit returns the cached value, sends nothing and changes nothing; a miss sends exactly this request and returns its answer's classification |
| `Core.FetchedWithoutCache` | src/jp_diet_search/core.py:85-91 | without a cache directory, every call sends its request and the cache stays as it was |
| `Core.FetchedFailureKeepsCache` | src/jp_diet_search/core.py:90-119 | a call that raises leaves the cache as it was (only success saves) |
| `Core.FetchedThenCached` | src/jp_diet_search/core.py:85-120 | once non-null data has been fetched and written, the same call is answered from the cache, whatever the network and disk do next |
| `Core.DietCore.RequestJson` | src/jp_diet_search/core.py:85-120 | the method's result, cache and request log are those of `Fetched` |
| `Core.AnyGiven` | src/jp_diet_search/core.py:144 | true if and only if some listed key is present with a value other than `""` and `None` |
| `Core.CheckRequiredAnyCondition` | src/jp_diet_search/core.py:124-146 | passes if and only if one of the sixteen condition keys holds a value other than `""` and `None`; otherwise raises the API error "検索条件を指定してください。" with no details |
| `Core.CheckRequiredLooksAtConditionKeys` | src/jp_diet_search/core.py:126-144 | two dicts that agree on the sixteen keys get the same answer |
| `Core.CheckRequiredOnOneKey` | src/jp_diet_search/core.py:144-146 | a one-entry dict passes if and only if its key is a condition key and its value counts as set, so `0` and `False` count |
| `Core.IntOf` | src/jp_diet_search/core.py:153 | definition; properties in `SanitizeLimitByNumber`, `SanitizeLimitResult` and `Text.ParseIntOfDecimal` |
| `Core.SanitizeLimit` | src/jp_diet_search/core.py:148-158 | definition; properties in `SanitizeLimitResult`, `SanitizeLimitOfInt`, `SanitizeLimitByNumber` and `SanitizeLimitIdempotent` |
| `Core.SanitizeLimitResult` | src/jp_diet_search/core.py:148-158 | `None` gives no limit and every other accepted value is at least 1; a value `int()` refuses fails with `limit_total must be an int: ` and its repr, a number below 1 fails with `limit_total must be positive: ` and the number, and a positive number is returned; every failure is a request error and not a parse error |
| `Core.SanitizeLimitOfInt` | src/jp_diet_search/core.py:152-158 | an int is accepted if and only if it is positive, and is then returned unchanged |
| `Core.SanitizeLimitByNumber` | src/jp_diet_search/core.py:153 | two limits that `int()` reads as the same number are sanitized alike |
| `Core.SanitizeLimitIdempotent` | src/jp_diet_search/core.py:148-158 | sanitizing an accepted limit again gives the same result |
| `Core.RawRecords` | src/jp_diet_search/core.py:196 | definition; properties in `PageStepRecordShape` |
| `Core.WrapRecord` | src/jp_diet_search/core.py:201-205 | definition; properties in `Wrapped` |
| `Core.Absorb` | src/jp_diet_search/core.py:200-208 | definition; properties in `AbsorbContents` and `AppendRecords` |
| `Core.PageStep` | src/jp_diet_search/core.py:193-223 | definition; properties in `PageStepOutcome`, `PageStepRecords`, `PageStepReport`, `PageStepRecordShape` and `PageStepCursor` |
| `Core.Wrapped` | src/jp_diet_search/core.py:200-205 | one record per raw record, in order; a dict is kept as is and anything else becomes `{"value": rec}`; properties in `WrappedConcat` |
| `Core.AbsorbContents` | src/jp_diet_search/core.py:200-208 | the loop stops at the limit if and only if the records so far plus this page's wrapped records reach it; it then keeps exactly the first `limit`; otherwise it keeps all, in page order |
| `Core.PageStepRecords` | src/jp_diet_search/core.py:196-221 | a page that finishes the search returns the earlier records followed by this page's wrapped records, cut at the limit, truncated exactly when the limit was met; a page that goes on carries all of them and stays below the limit |
| `Core.PageStepReport` | src/jp_diet_search/core.py:193-236 | a finished page reports the job's endpoint and original params, the page count and the record count; its total, and the total a page that goes on carries, is the one earlier pages found, or this page's `totalRecords` when none was |
| `Core.PageStepRecordShape` | src/jp_diet_search/core.py:196-198 | a missing or falsy record value gives no records; a value that is not a list raises a request error |
| `Core.PageStepCursor` | src/jp_diet_search/core.py:219-223 | the loop goes on exactly when the page is a dict with a list of records, the limit was not reached and `nextRecordPosition` is truthy; the next params differ from the current ones only in `startRecord`, which is the cursor |
| `Core.TurnOnKeepsRecords` | src/jp_diet_search/core.py:189-223 | a pass adds the fetched page's wrapped records to the earlier ones, cut at the limit when it stops; a failed fetch returns nothing, whatever the fetch returned the limit holds |
| `Core.TurnOnReports` | src/jp_diet_search/core.py:189-217 | a pass counts its page, names the job, sees at most the one page it fetched, and carries the total already found or else the fetched page's `totalRecords` |
| `Core.TurnOfKeepsRecords` | src/jp_diet_search/core.py:189-223 | every pass of the search loop keeps the records so far equal to the wrapped records of the pages seen, and respects the limit |
| `Core.TurnOfReports` | src/jp_diet_search/core.py:189-217 | every pass of the search loop counts pages, names the job, and keeps the total equal to the first non-null `totalRecords` of the pages seen |
| `Core.TurnOfLogs` | src/jp_diet_search/core.py:189-191 | each pass sends at most one request; without a cache, exactly one, and the cache is unchanged |
| `Core.Pages` | src/jp_diet_search/core.py:189-236 | definition; properties in `PagesOutcome`, `PagesAsks`, `PagesRecords`, `PagesReport`, `PagesRequests` and `PagesOneRequestEach` |
| `Core.Search` | src/jp_diet_search/core.py:162-236 | definition; properties in `SearchChecksFirst`, `SearchOutcome`, `SearchAsks`, `SearchResultFacts`, `SearchResultReport`, `SearchResultLimit` and `SearchRequests` |
| `Core.PageRecords` | src/jp_diet_search/core.py:196-205 | definition; properties in `PageStepRecords` and `AllRecordsConcat` |
| `Core.AllRecords` | src/jp_diet_search/core.py:189-205 | definition; properties in `AllRecordsConcat`, `PagesRecords` and `SearchResultLimit` |
| `Core.PageTotal` | src/jp_diet_search/core.py:194 | definition; properties in `PageStepReport` |
| `Core.FirstTotal` | src/jp_diet_search/core.py:193-194 | definition; properties in `FirstTotalIsFirst`, `PagesReport` and `SearchResultReport` |
| `Core.PagesRecords` | src/jp_diet_search/core.py:189-236 | over all passes, a successful result extends the records so far; from records that are those of the pages seen, it holds the wrapped records of all pages fetched, in order, cut at the limit; it is truncated exactly when it holds `limit` records, and never holds more; when the run succeeds is stated by `PagesOutcome` |
| `Core.PagesReport` | src/jp_diet_search/core.py:189-236 | over all passes, the result names the job, counts one page per page fetched, and reports the first non-null `totalRecords` of those pages (null when none has one) |
| `Core.PagesRequests` | src/jp_diet_search/core.py:189-191 | the request log only grows, by at most one request per page; which requests are sent is stated by `PagesAsks` |
| `Core.PagesOneRequestEach` | src/jp_diet_search/core.py:189-191 | when every pass sends one request and keeps the cache, there is exactly one request per page and the cache is unchanged |
| `Core.SearchChecksFirst` | src/jp_diet_search/core.py:179-180 | with no condition or a bad limit, the search raises that error (the condition check comes first) before any request and changes nothing |
| `Core.SearchResultFacts` | src/jp_diet_search/core.py:162-236 | a returned search had passed both checks; it reports the caller's endpoint and unmodified params, one page per page fetched, the first non-null `totalRecords` of those pages, their wrapped records cut at the limit, as many records as it counts, and is truncated exactly when a limit was met, never without a limit; when a search returns is stated by `SearchOutcome` |
| `Core.SearchResultReport` | src/jp_diet_search/core.py:193-236 | a returned search reports the caller's endpoint and params, one page per page fetched (between 1 and `fuel`), the first non-null `totalRecords` of those pages, and its record count |
| `Core.SearchResultLimit` | src/jp_diet_search/core.py:196-217 | a returned search holds the wrapped records of the pages fetched cut at `limit`, at most `limit` of them, and is truncated exactly when it holds `limit`, never without a limit; that reaching the limit returns rather than fails is stated by `SearchOutcome` |
| `Core.SearchRequests` | src/jp_diet_search/core.py:186-226 | a search only adds requests, at most one per page; without a cache, exactly one per page, and the cache is unchanged; which requests they are is stated by `SearchAsks` |
| `Core.DietCore.SearchRecords` | src/jp_diet_search/core.py:162-236 | the method's result, cache and request log are those of the search function: it returns or fails as `SearchOutcome` says, with the result `SearchResultFacts` describes, and without a cache sends the requests `SearchAsks` gives |
| `Core.DietCore.FetchPages` | src/jp_diet_search/core.py:182-236 | the `while True` loop, pass by pass, computes what the loop function computes from the empty start state |
| `Core.HandlePage` | src/jp_diet_search/core.py:193-223 | the loop body after a fetch computes the page step, which ends or goes on as `PageStepOutcome` says, with the records, total and cursor of `PageStepRecords`, `PageStepReport` and `PageStepCursor` |
| `Core.AppendRecords` | src/jp_diet_search/core.py:200-208 | the `for rec in raw_records` loop computes what `Absorb` does |
| `Core.WrappedConcat` | src/jp_diet_search/core.py:200-205 | wrapping two lists of raw records one after the other is wrapping each |
| `Core.AllRecordsConcat` | src/jp_diet_search/core.py:189-205 | the records of two runs of pages are the records of the first followed by those of the second |
| `Core.FirstTotalIsFirst` | src/jp_diet_search/core.py:193-194 | the reported total is null exactly when no page has a `totalRecords`, and otherwise it is the value of the first page that has one |
| `Core.UpTo` | src/jp_diet_search/core.py:207-208 | `records[:limit]`: a prefix of the records, of length `limit` or all of them when there are fewer |
| `Core.HasRecordList` | src/jp_diet_search/core.py:196-198 | definition; properties in `PageStepOutcome`, `PageStepRecordShape` and `SearchOutcome` |
| `Core.PageError` | src/jp_diet_search/core.py:193-198 | definition: a page that is not a dict fails at `data.get`, one whose record value is not a list raises the shape error; properties in `PageStepOutcome` and `SearchOutcome` |
| `Core.PageCount` | src/jp_diet_search/core.py:196-205 | definition; properties in `RecordCountIsLength` and `PageStepOutcome` |
| `Core.RecordCount` | src/jp_diet_search/core.py:196-208 | definition; properties in `RecordCountIsLength`, `RecordCountAppend` and `SearchOutcome` |
| `Core.RecordCountIsLength` | src/jp_diet_search/core.py:196-208 | the count of records of some pages is the number of wrapped records they give |
| `Core.RecordCountAppend` | src/jp_diet_search/core.py:196-208 | one more page adds its own count of records |
| `Core.Reaches` | src/jp_diet_search/core.py:207-208 | definition: a limit is set and the records reach it |
| `Core.NextPosition` | src/jp_diet_search/core.py:219 | definition: the `nextRecordPosition` of a page; properties in `PageStepOutcome`, `CursorAppend` and `SearchOutcome` |
| `Core.Continues` | src/jp_diet_search/core.py:207-223 | definition: a page with a list of records, that leaves the records below the limit and has a truthy cursor; properties in `PageStepOutcome` and `SearchOutcome` |
| `Core.AllContinue` | src/jp_diet_search/core.py:189-223 | definition; properties in `ContinueAppend`, `AllContinueAt` and `SearchOutcome` |
| `Core.ContinueAppend` | src/jp_diet_search/core.py:189-223 | the loop went on after every page of a longer run exactly when it went on after those before and after the new one |
| `Core.AllContinueAt` | src/jp_diet_search/core.py:207-223 | after each page but the last one, the records were below the limit and the cursor was truthy |
| `Core.ContinuedBelowLimit` | src/jp_diet_search/core.py:207-208 | after pages that all went on, the records are below the limit |
| `Core.PageStepOutcome` | src/jp_diet_search/core.py:196-223 | a page goes on exactly when it has a list of records, the limit is not reached and its cursor is truthy; it returns a result exactly when it has a list of records and does not go on, truncated exactly when the records reach the limit; any other page fails with its page error; going on sets `startRecord` to the cursor and adds the page's records |
| `Core.TurnOnOutcome` | src/jp_diet_search/core.py:189-223 | a pass that sees no page stops on the error its fetch raised; one that sees a page goes on exactly when that page goes on, moving the cursor, and otherwise returns exactly when the page has a list of records, truncated exactly when the limit is reached, or fails with the page's error |
| `Core.TurnOfOutcomes` | src/jp_diet_search/core.py:189-223 | every pass of the search loop ends or goes on as `TurnOnOutcome` says |
| `Core.PagesOutcome` | src/jp_diet_search/core.py:189-236 | over all passes from a state that follows its pages, the run runs out of fuel only after as many pages as it could see, all of which went on; fails on a fetch error only before that; fails on a page without a list of records with that page's error; and returns exactly when its last page has a list of records and does not go on, truncated exactly when all records reach the limit |
| `Core.SearchOutcome` | src/jp_diet_search/core.py:162-236 | with both checks passed: every page but the last went on with records below the limit; the search returns exactly when the last page has a list of records and does not go on; it is truncated exactly when all records reach the limit, and otherwise the last cursor is falsy; it runs out of fuel exactly after `fuel` pages that all went on; any other failure is a fetch error or the last page's own error |
| `Core.Cursor` | src/jp_diet_search/core.py:186-223 | definition: the caller's params, with `startRecord` set to the cursor of the last page seen; properties in `CursorLookup` and `CursorAppend` |
| `Core.CursorLookup` | src/jp_diet_search/core.py:186-223 | the first request carries the caller's params unchanged (no `startRecord` is seeded); every later one differs from them only in `startRecord`, which is the cursor of the page before it |
| `Core.CursorAppend` | src/jp_diet_search/core.py:219-223 | after one more page, the params are the previous ones with `startRecord` overwritten by that page's cursor |
| `Core.Asked` | src/jp_diet_search/core.py:189-191 | definition: one request per page, with the params of the pages before it; properties in `AskedAt`, `AskedLength` and `AskedAppend` |
| `Core.AskedLength` | src/jp_diet_search/core.py:189-191 | one request per page |
| `Core.AskedAt` | src/jp_diet_search/core.py:186-223 | the `i`-th request is for the endpoint with the params the first `i` pages give |
| `Core.AskedAppend` | src/jp_diet_search/core.py:189-191 | one more page adds one request, for the params of the pages before it |
| `Core.Gives` | src/jp_diet_search/core.py:90-120 | definition: the network answered 200 with a body that decodes to the data; properties in `ClassifySuccess` |
| `Core.Answered` | src/jp_diet_search/core.py:189-191 | definition; properties in `AnsweredAt` |
| `Core.AnsweredAt` | src/jp_diet_search/core.py:189-191 | the `i`-th page seen is the network's answer to the `i`-th request, sent with the params the pages before it give |
| `Core.TurnOfAsks` | src/jp_diet_search/core.py:189-191 | without a cache, each pass sends the request for its params and keeps the cache; the page it sees, or the error it stops on, is the network's answer to that request |
| `Core.PagesAsks` | src/jp_diet_search/core.py:186-236 | without a cache, over all passes whose params follow the pages seen: the cache stays; each page seen answers its request; the requests sent are those for the pages seen, one more when a fetch raised, and the answer to that one is the error |
| `Core.SearchAsks` | src/jp_diet_search/core.py:186-236 | without a cache, once both checks pass: the first request carries the caller's params, each later one sets `startRecord` to the cursor of the page before, each page seen is the network's answer to its request, and a search ended by a fetch error sent exactly one more request, whose answer is that error; the cache is unchanged |
| `Core.RunKeepsRecords` | src/jp_diet_search/core.py:200-217 | definition; stated by `PagesRecords` |
| `Queries.AllFieldsComplete` | src/jp_diet_search/queries.py:19-47 | every field of `BaseQuery` is listed, at its declaration position |
| `Queries.AllFieldsDistinct` | src/jp_diet_search/queries.py:19-47 | no field is listed twice |
| `Queries.UsedKey` | src/jp_diet_search/queries.py:16-29 | definition; properties in `UsedKeyShape` and `UnknownKeyRejected` |
| `Queries.Resolved` | src/jp_diet_search/queries.py:16-29 | definition; properties in `ResolvedAliased`, `FromDateByAliasOrName` and `UntilDateByAliasOrName` |
| `Queries.FieldIssue` | src/jp_diet_search/queries.py:19-47 | definition; properties in `FieldIssueRejects` and `AcceptedPaging` |
| `Queries.Validate` | src/jp_diet_search/queries.py:16-132 | definition; properties in `ValidateFields`, `UnknownKeyRejected`, `AcceptedKeysAreFields`, `AcceptedQueryWellFormed`, `AcceptedPaging`, `ConditionRequiredToBuild` and `ConditionSufficesToBuild` |
| `Queries.HasCondition` | src/jp_diet_search/queries.py:83-105 | definition; properties in `ConditionRequiredToBuild`, `ConditionSufficesToBuild` and `Endpoints.ConditionChecksAgree` |
| `Queries.Fill` | src/jp_diet_search/queries.py:18-47 | every field gets the value read from the dict, or its default |
| `Queries.ValidateFields` | src/jp_diet_search/queries.py:16-47 | a built query holds, for every field, what the dict gave under its alias or name, or the default, and its class is the one asked for |
| `Queries.FieldIssueRejects` | src/jp_diet_search/queries.py:19-47 | one field with the wrong type, a value below 1, or a value over the ceiling is enough to reject, and its issue is reported |
| `Queries.UsedKeyShape` | src/jp_diet_search/queries.py:16-29 | a field is read from its alias or from its own name, or not at all |
| `Queries.UnknownKeyRejected` | src/jp_diet_search/queries.py:16 | a key that is neither a field name nor an alias rejects the dict, and is reported as forbidden |
| `Queries.AcceptedKeysAreFields` | src/jp_diet_search/queries.py:16 | every key of an accepted dict is a field name or an alias |
| `Queries.AcceptedQueryWellFormed` | src/jp_diet_search/queries.py:83-105 | an accepted query sets a search condition, and every field has its declared type |
| `Queries.AcceptedPaging` | src/jp_diet_search/queries.py:108-132 | an accepted query's `start_record` and `maximum_records` are at least 1 when set, and `maximum_records` is at most 100, 100 or 10 for the three subclasses |
| `Queries.ConditionRequiredToBuild` | src/jp_diet_search/queries.py:83-105 | without a condition field set to something other than `None` and `""`, no dict is accepted; paging, format and flag fields do not help |
| `Queries.ConditionSufficesToBuild` | src/jp_diet_search/queries.py:83-105 | a dict with no extra keys, whose fields all check out and that sets one condition field, is accepted |
| `Queries.Mapping` | src/jp_diet_search/queries.py:55-76 | definition; properties in `WireNameRoundTrip`, `WireNameInjective` and `WireNamesInjective` |
| `Queries.Dump` | src/jp_diet_search/queries.py:53 | definition; properties in `EntriesMembers`, `EntriesDistinct` and `EntriesLookup` |
| `Queries.WireParams` | src/jp_diet_search/queries.py:49-81 | definition; properties in `WireParamsDistinct`, `WireParamsLookup`, `WireParamsKeys` and `ToParams` |
| `Queries.WireNameRoundTrip` | src/jp_diet_search/queries.py:55-76 | every field's wire key reads back as that field |
| `Queries.WireNameInjective` | src/jp_diet_search/queries.py:55-80 | two fields with the same wire key are the same field |
| `Queries.WireNamesInjective` | src/jp_diet_search/queries.py:55-80 | the rename table never sends two fields under one key |
| `Queries.EntriesMembers` | src/jp_diet_search/queries.py:53 | the dumped pairs are exactly the fields that are not `None`, each under its name, with its value |
| `Queries.EntriesDistinct` | src/jp_diet_search/queries.py:53 | distinct fields under an injective naming give distinct keys |
| `Queries.EntriesLookup` | src/jp_diet_search/queries.py:53 | looking up a field's name in the dump finds its value, or nothing when it is `None` |
| `Queries.WireParamsDistinct` | src/jp_diet_search/queries.py:78-81 | `to_params` never produces two entries with the same key |
| `Queries.WireParamsLookup` | src/jp_diet_search/queries.py:49-81 | a field's wire key maps to its value unchanged, or is absent when the field is `None` |
| `Queries.WireParamsKeys` | src/jp_diet_search/queries.py:49-81 | the keys of `to_params()` are exactly the wire keys of the fields that are not `None` |
| `Queries.RenameEach` | src/jp_diet_search/queries.py:79-80 | definition; properties in `RenameConcat` and `RenameEntries` |
| `Queries.RenameConcat` | src/jp_diet_search/queries.py:79-80 | renaming two runs of pairs one after the other is renaming each |
| `Queries.RenameEntries` | src/jp_diet_search/queries.py:53-80 | renaming the dump by alias gives the fields under their wire keys |
| `Queries.ToParams` | src/jp_diet_search/queries.py:49-81 | the `for` loop over the dump builds exactly the wire params, whose keys, values and uniqueness are given by the lemmas above |
| `Queries.ResolvedAliased` | src/jp_diet_search/queries.py:28-29 | an aliased field takes the alias's value first, then the field name's value, then its default |
| `Queries.WireNameOfDate` | src/jp_diet_search/queries.py:74-75 | `from_date` and `until_date` are sent as `from` and `until` |
| `Queries.FromDateByAliasOrName` | src/jp_diet_search/queries.py:28 | `from_date` is read from `from`, else from `from_date`, and is sent under `from` |
| `Queries.UntilDateByAliasOrName` | src/jp_diet_search/queries.py:29 | `until_date` is read from `until`, else from `until_date`, and is sent under `until` |
| `Queries.RecordPackingDefault` | src/jp_diet_search/queries.py:21 | without `record_packing` the params carry `recordPacking: "json"`; an explicit `None` drops it |
| `Endpoints.Suffix` | src/jp_diet_search/endpoints.py:14 | definition; properties in `EndpointBindings` |
| `Endpoints.RecordKey` | src/jp_diet_search/endpoints.py:15 | definition; properties in `EndpointBindings` |
| `Endpoints.Url` | src/jp_diet_search/endpoints.py:14 | definition; properties in `EndpointBindings` |
| `Endpoints.EndpointSearch` | src/jp_diet_search/endpoints.py:13-15 | definition; properties in `EndpointSearchPropagates` and `EndpointSearchReports` |
| `Endpoints.AnyInput` | src/jp_diet_search/endpoints.py:18 | definition; properties in `AnyInputResolved`, `AnyInputClean`, `AnyQueryBuilds` and `AnyQueryParams` |
| `Endpoints.SpeakerInput` | src/jp_diet_search/endpoints.py:56 | definition; properties in `SpeakerInputResolved`, `SpeakerInputClean`, `SpeakerInputUnset` and `SpeakerQueryBuilds` |
| `Endpoints.EndpointBindings` | src/jp_diet_search/endpoints.py:13-41 | the URL is the base followed by `/meeting_list`, `/meeting` or `/speech`; the record key is `speechRecord` for speech and `meetingRecord` otherwise |
| `Endpoints.DefaultMaximumIsCeiling` | src/jp_diet_search/endpoints.py:17-45 | the default `maximum_records` of `search_any` (100, 10, 100) is the ceiling of the query class it builds |
| `Endpoints.ConditionWireNames` | src/jp_diet_search/core.py:126-143 | the core's sixteen keys are, one for one, the wire keys of the query's sixteen condition fields |
| `Endpoints.ConditionFieldListed` | src/jp_diet_search/queries.py:85-102 | every condition field of the query is among the sixteen |
| `Endpoints.CoreConditionFromQuery` | src/jp_diet_search/core.py:144 | a condition key set in the params comes from a condition field set in the query |
| `Endpoints.QueryConditionToCore` | src/jp_diet_search/queries.py:103 | a condition field set in the query makes the core's check pass |
| `Endpoints.ConditionChecksAgree` | src/jp_diet_search/core.py:124-146 | the core's check passes on `to_params()` if and only if the query's own condition check holds |
| `Endpoints.BuiltQueryPassesCheck` | src/jp_diet_search/queries.py:83-105 | every query that validated passes the core's condition check |
| `Endpoints.EndpointSearchPropagates` | tests/test_errors_propagate.py:41-59 | an endpoint search is the core search on the endpoint's URL and key with `to_params()` and the limit unchanged; a bad limit or a missing condition comes through as the core raises it |
| `Endpoints.EndpointSearchReports` | src/jp_diet_search/endpoints.py:13-41 | a successful endpoint search reports the endpoint's URL and the query's params |
| `Endpoints.AnyInputResolved` | src/jp_diet_search/endpoints.py:18 | the `search_any` query has the text as `any`, `n` as `maximum_records`, and defaults elsewhere |
| `Endpoints.SpeakerInputResolved` | src/jp_diet_search/endpoints.py:56 | the `search_by_speaker` query has the speaker, the two dates and `n` as given, and defaults elsewhere |
| `Endpoints.AnyInputClean` | src/jp_diet_search/endpoints.py:18 | the `search_any` dict has no extra key, and every field except `maximum_records` checks out |
| `Endpoints.AnyQueryBuilds` | src/jp_diet_search/endpoints.py:17-19 | `search_any` builds its query if and only if the text is non-empty and `1 <= n <=` the class's ceiling |
| `Endpoints.SpeakerInputClean` | src/jp_diet_search/endpoints.py:56 | the `search_by_speaker` dict has no extra key, and every field except `maximum_records` checks out |
| `Endpoints.SpeakerInputUnset` | src/jp_diet_search/endpoints.py:56 | with an empty speaker and no non-empty date, the dict sets no condition field |
| `Endpoints.SpeakerQueryBuilds` | src/jp_diet_search/endpoints.py:47-57 | `search_by_speaker` builds its query if and only if the speaker or one of the dates is non-empty and `1 <= n <= 100` |
| `Endpoints.AnyQueryField` | src/jp_diet_search/endpoints.py:18 | every field of the built `search_any` query is the text, `n`, or its default |
| `Endpoints.AnyQueryWireNames` | src/jp_diet_search/queries.py:55-58 | `any`, `maximum_records` and `record_packing` are sent as `any`, `maximumRecords` and `recordPacking` |
| `Endpoints.AnyQueryParams` | src/jp_diet_search/endpoints.py:17-19 | `search_any` sends exactly `any`, `maximumRecords` and `recordPacking: "json"` |
| `Endpoints.Endpoint.constructor` | src/jp_diet_search/endpoints.py:10-11 | the endpoint keeps the core it was given |
| `Endpoints.Endpoint.Search` | src/jp_diet_search/endpoints.py:13-15 | `search` returns what the core search returns on the endpoint's URL and key, and leaves the core's state as that search does |
| `Endpoints.Endpoint.SearchAny` | src/jp_diet_search/endpoints.py:17-19 | a query that fails to build is reported and nothing is sent; otherwise the result and state are those of `search` on the built query |
| `Endpoints.Endpoint.SearchBySpeaker` | src/jp_diet_search/endpoints.py:47-57 | the same for the speech query of the speaker and the dates |
| `Exceptions.IsSubclass` | src/jp_diet_search/exceptions.py:5-36 | definition; properties in `IsSubclassTransitive`, `IsSubclassAntisymmetric`, `RequestErrorFamily` and `APIErrorFamily` |
| `Exceptions.IsSubclassTransitive` | src/jp_diet_search/exceptions.py:5-36 | `issubclass` over the hierarchy is transitive |
| `Exceptions.IsSubclassAntisymmetric` | src/jp_diet_search/exceptions.py:5-36 | no two distinct classes are subclasses of each other |
| `Exceptions.RequestErrorFamily` | src/jp_diet_search/exceptions.py:10-17 | `except DietSearchRequestError` catches exactly request and parse errors; `except DietSearchParseError` catches only parse errors |
| `Exceptions.APIErrorFamily` | src/jp_diet_search/exceptions.py:20-36 | `except DietSearchAPIError` catches exactly API and rate-limit errors; `except DietSearchRateLimitError` catches only rate-limit errors |
| `Exceptions.ErrorFamiliesDisjoint` | src/jp_diet_search/exceptions.py:5-36 | every error is a `DietSearchError`, and none is both a request and an API error |
| `Exceptions.NormalizeDetails` | src/jp_diet_search/exceptions.py:25 | `details or []`: the result is empty exactly when the details are missing or empty; given details are kept |
| `Exceptions.NewAPIError` | src/jp_diet_search/exceptions.py:20-31 | the error is an API error and not a rate-limit or request error, keeps its message and its normalized details, and its `str` is the bare message exactly when the details are missing or empty |
| `Exceptions.NewRateLimitError` | src/jp_diet_search/exceptions.py:34-36 | the inherited constructor: the error is a rate-limit error and so an API error, not a request error, with the same message, details and `str` rule |
| `Exceptions.Str` | src/jp_diet_search/exceptions.py:28-31 | definition; properties in `StrShowsMessage`, `StrWithDetails` and `NoneAndEmptyDetailsAgree` |
| `Exceptions.StrShowsMessage` | src/jp_diet_search/exceptions.py:28-31 | `str(e)` begins with the message, and is only the message exactly when there are no details |
| `Exceptions.StrWithDetails` | src/jp_diet_search/exceptions.py:29-30 | with details, `str(e)` is the message, then ` (details: `, then the details joined by `; `, then `)` |
| `Exceptions.NoneAndEmptyDetailsAgree` | src/jp_diet_search/exceptions.py:23-31 | `None` and `[]` as details build the same error, whose text is the bare message |
| `Cli.Given` | src/jp_diet_search/cli.py:109 | definition; properties in `CopyAttrs` and `CollectParams` |
| `Cli.FromValue` | src/jp_diet_search/cli.py:116-119 | definition; properties in `SetFrom`, `SinceDate`, `SinceFive` and `FromPrecedence` |
| `Cli.UntilValue` | src/jp_diet_search/cli.py:122-123 | definition; properties in `SetUntil` |
| `Cli.AttrIndex` | src/jp_diet_search/cli.py:101-108 | each copied attribute is at its own position in the loop's list |
| `Cli.DestInjective` | src/jp_diet_search/cli.py:101-123 | the six copied keys are distinct and are neither `from` nor `until` |
| `Cli.CopyStep` | src/jp_diet_search/cli.py:109-111 | one turn of the loop keeps the loop invariant: the attributes so far are stored when they are not `None`, and later ones are not yet present |
| `Cli.CopyAttrs` | src/jp_diet_search/cli.py:101-111 | the loop stores each copied attribute under its own name exactly when it is not `None`, with distinct keys and no other key |
| `Cli.CollectParams` | src/jp_diet_search/cli.py:97-125 | `_collect_params`: the copied attributes, `from` and `until` as the date rules give them, distinct keys, and no other key (so `limit_total` and the output options never appear) |
| `Cli.SetFrom` | src/jp_diet_search/cli.py:116-119 | `from` is set to the start date when there is one and left as it was otherwise; every other key is unchanged |
| `Cli.SetUntil` | src/jp_diet_search/cli.py:122-123 | `until` is set to a non-empty `--until` and left as it was otherwise; every other key is unchanged |
| `Cli.SinceDate` | src/jp_diet_search/cli.py:118-119 | without `--from`, a non-zero `--since y` gives a date that ends in `-01-01` and whose year reads back as `y` |
| `Cli.SinceFive` | src/jp_diet_search/cli.py:119 | `--since 5` gives `0005-01-01` |
| `Cli.FromPrecedence` | src/jp_diet_search/cli.py:116-119 | a non-empty `--from` always wins; there is no start date exactly when `--from` is missing or empty and `--since` is missing or 0 |
| `Cli.DestUnknownToQuery` | src/jp_diet_search/cli.py:101-108 | of the copied keys, all but `any` and `speaker` are neither a field name nor an alias of the query |
| `Cli.CollectedParamsRejected` | src/jp_diet_search/cli.py:101-111 | as written, a dict holding `nameOfMeeting`, `maximumRecords`, `sessionFrom` or `sessionTo` is rejected by the client, with that key reported as forbidden |
| `Cli.MaximumRecordsOptionRejected` | src/jp_diet_search/cli.py:38-43 | the command line `--any 予算 --maximum-records 10` is rejected for the key `maximumRecords` |
| `Cli.InputKeysOwnField` | src/jp_diet_search/queries.py:24-45 | no field's name or alias is the key of a different field the command line sets |
| `Cli.QueryInputKey` | src/jp_diet_search/cli.py:97-125 | every key of the corrected dict belongs to one field the command line sets, whose argument is given |
| `Cli.QueryInputAt` | src/jp_diet_search/cli.py:97-125 | each settable field is in the corrected dict exactly when its argument is given, with that argument |
| `Cli.QueryInputResolved` | src/jp_diet_search/cli.py:97-125 | each field of the corrected query is its command-line argument, or its default for fields the command line cannot set |
| `Cli.CopiedAttrWireNames` | src/jp_diet_search/queries.py:55-76 | each copied attribute stands for a query field whose wire key is the attribute's own name |
| `Cli.QueryInputKeysRead` | src/jp_diet_search/queries.py:16 | the corrected dict has no key the query does not read |
| `Cli.CorrectedFieldSent` | src/jp_diet_search/cli.py:97-125 | each settable field of the corrected query is sent under its wire key exactly when it was given |
| `Cli.CorrectedParamsSent` | src/jp_diet_search/cli.py:97-125 | the corrected query sends each copied attribute under its own name, and the start and end dates as `from` and `until`, as `_collect_params` meant to |
| `Cli.QueryInputFieldsCheck` | src/jp_diet_search/queries.py:19-47 | with `--maximum-records` absent or within the ceiling, every field of the corrected query checks out |
| `Cli.ArgumentChecks` | src/jp_diet_search/queries.py:19-47 | the same, stated on the arguments themselves |
| `Cli.CorrectedInputAccepted` | src/jp_diet_search/client.py:42-52 | with a condition given and `--maximum-records` within the ceiling, the client accepts the corrected dict |
| `Cli.CommandLimit` | src/jp_diet_search/cli.py:178 | definition; properties in `DryRunOneRecord` |
| `Cli.ClientQuery` | src/jp_diet_search/client.py:42-52 | definition; properties in `CollectedParamsRejected` and `MaximumRecordsOptionRejected` |
| `Cli.DryRunOneRecord` | src/jp_diet_search/cli.py:178 | a dry run limits the search to 1, so a returned search holds at most one record, and is truncated exactly when it holds one |
| `Cli.AllKeys` | src/jp_diet_search/cli.py:160 | the union holds exactly the keys that occur in some row |
| `Cli.CsvHeader` | src/jp_diet_search/cli.py:156-161 | no header for no rows; otherwise a strictly ascending list of exactly the keys that occur in some row |
| `Cli.CsvHeaderUnique` | src/jp_diet_search/cli.py:159-161 | the header is the only ascending list without repeats of the row keys |
| `Cli.CsvHeaderOfOneDict` | src/jp_diet_search/cli.py:150-161 | a single dict is printed with a header of exactly its own keys |
| `Text.Strip` | src/jp_diet_search/core.py:97 | definition; properties in `StripIsInfix`, `StripCutsSpace`, `StripEnds` and `StripEmpty` |
| `Text.Join` | src/jp_diet_search/exceptions.py:30 | definition; properties in `JoinAppend` |
| `Text.JoinAppend` | src/jp_diet_search/exceptions.py:30 | a single part is joined as itself, and one more part adds the separator and that part at the end |
| `Text.IntToDecimal` | src/jp_diet_search/core.py:157 | definition; properties in `NatToDecimal`, `DigitsValueOfDecimal` and `ParseIntOfDecimal` |
| `Text.ParseInt` | src/jp_diet_search/core.py:153 | definition; properties in `ParseDigitString`, `ParseNegativeDigitString`, `SignedMinus` and `ParseIntOfDecimal` |
| `Text.Format04d` | src/jp_diet_search/cli.py:119 | definition; properties in `Format04dValue` |
| `Text.StrLt` | src/jp_diet_search/cli.py:159-161 | definition; properties in `StrLtIrreflexive`, `StrLtTransitive`, `StrLtTotal` and `StrLtAsymmetric` |
| `Text.SkipSpace` | src/jp_diet_search/core.py:97 | the first position from `i` that does not hold whitespace, with only whitespace before it |
| `Text.SkipSpaceBack` | src/jp_diet_search/core.py:97 | the last position up to `j` that does not follow whitespace |
| `Text.TrimStart` | src/jp_diet_search/core.py:97 | `lstrip`: a suffix of the input; everything cut off is whitespace; the result does not start with whitespace |
| `Text.TrimEnd` | src/jp_diet_search/core.py:97 | `rstrip`: a prefix of the input; everything cut off is whitespace; the result does not end with whitespace |
| `Text.StripIsInfix` | src/jp_diet_search/core.py:97 | `strip()` is a slice of the input that starts where `lstrip()` starts |
| `Text.StripCutsSpace` | src/jp_diet_search/core.py:97 | what `strip()` cuts off on either side is whitespace |
| `Text.StripEnds` | src/jp_diet_search/core.py:97 | what `strip()` keeps neither starts nor ends with whitespace |
| `Text.StripEmpty` | src/jp_diet_search/core.py:105 | `strip()` is empty exactly when the text is all whitespace |
| `Text.Take` | src/jp_diet_search/core.py:100 | `s[:n]`: a prefix of length `n`, or the whole string when it is shorter |
| `Text.NatToDecimal` | src/jp_diet_search/core.py:157 | `str(n)` is a non-empty string of digits |
| `Text.DigitsValueOfDecimal` | src/jp_diet_search/core.py:157 | the digits of `str(n)` have the value `n` |
| `Text.RemoveUnderscores` | src/jp_diet_search/core.py:153 | dropping the underscores that `int()` allows leaves digits, and changes nothing in a plain digit string |
| `Text.ParseDigitString` | src/jp_diet_search/core.py:153 | `int(p)` of a digit string is its value |
| `Text.ParseNegativeDigitString` | src/jp_diet_search/core.py:153 | `int("-" + p)` is minus its value |
| `Text.SignedMinus` | src/jp_diet_search/core.py:153 | a leading `-` negates whatever the rest reads as |
| `Text.ParseIntOfDecimal` | src/jp_diet_search/core.py:153-157 | `int(str(n)) == n` for every integer |
| `Text.ZeroPad` | src/jp_diet_search/cli.py:119 | zero padding gives a string of the requested width, or of the input's own length when that is longer |
| `Text.Format04dValue` | src/jp_diet_search/cli.py:119 | `f"{n:04d}"` is at least four characters and reads back as `n` |
| `Text.PaddedValue` | src/jp_diet_search/cli.py:119 | zero-padded digits of `str(m)` still read as `m` |
| `Text.StrLtIrreflexive` | src/jp_diet_search/cli.py:159-161 | Python's string `<` is irreflexive |
| `Text.StrLtTransitive` | src/jp_diet_search/cli.py:159-161 | string `<` is transitive |
| `Text.StrLtTotal` | src/jp_diet_search/cli.py:159-161 | of two distinct strings one is below the other |
| `Text.StrLtAsymmetric` | src/jp_diet_search/cli.py:159-161 | string `<` is asymmetric |
| `Json.Get` | src/jp_diet_search/core.py:194 | definition: `d.get(k)`, null for a missing key; used by `PageStepReport` and `AnyGiven` |
| `Json.Truthy` | src/jp_diet_search/core.py:196-220 | definition: Python truthiness of a JSON value; used by `PageStepRecordShape`, `PageStepCursor` and `FromPrecedence` |
| `Json.IsSet` | src/jp_diet_search/core.py:144 | definition: a value other than `""` and `None`; used by `CheckRequiredAnyCondition` and `Queries.HasCondition` |
| `Json.TypeName` | src/jp_diet_search/core.py:198 | definition: the name `type()` shows in the shape error of `PageStepRecordShape` |
| `Json.Repr` | src/jp_diet_search/core.py:155 | definition: `repr()` in the message of `SanitizeLimitResult` |
| `Json.Keys` | src/jp_diet_search/core.py:55 | the keys of a dict, in order, one per entry |
| `Json.Lookup` | src/jp_diet_search/core.py:194 | `d.get(k)` finds nothing exactly when `k` is not a key, and otherwise finds a pair of the dict |
| `Json.Store` | src/jp_diet_search/core.py:223 | `d[k] = v` on a new key appends the pair |
| `Json.StoreLookup` | src/jp_diet_search/core.py:223 | after `d[k] = v`, `k` maps to `v` and every other key is unchanged |
| `Json.StoreKeys` | src/jp_diet_search/core.py:223 | overwriting an existing key keeps the key order; a new key goes to the end |
| `Json.StoreStore` | src/jp_diet_search/core.py:223 | a second `d[k] = w` undoes the first `d[k] = v`: each cursor overwrites the one before |
| `Json.StoreDistinct` | src/jp_diet_search/cli.py:111 | `d[k] = v` keeps the keys distinct |
| `Json.PairInDict` | src/jp_diet_search/core.py:55 | in a dict, a pair occurs exactly when looking up its key finds its value |
| `Sorting.InsertByKey` | src/jp_diet_search/core.py:55 | insertion keeps every pair and adds the new one |
| `Sorting.InsertByKeySorted` | src/jp_diet_search/core.py:55 | inserting a new key into a key-sorted list keeps it sorted |
| `Sorting.SortByKey` | src/jp_diet_search/core.py:55 | sorting is a permutation of the items |
| `Sorting.SortByKeySorted` | src/jp_diet_search/core.py:55 | a dict's items come out strictly ascending by key |
| `Sorting.SortedByKeyUnique` | src/jp_diet_search/core.py:55 | two key-sorted lists with the same pairs are equal |
| `Sorting.SortByKeyDeterminedByItems` | src/jp_diet_search/core.py:55 | two dicts sort to the same list if and only if they hold the same items |
| `Sorting.InsertString` | src/jp_diet_search/cli.py:159-161 | adding a string keeps the list sorted without repeats and adds exactly that string |
| `Sorting.SortedDistinct` | src/jp_diet_search/cli.py:159-161 | `sorted(set(ks))`: strictly ascending, holding exactly the strings of `ks` |
| `Sorting.StrictlySortedUnique` | src/jp_diet_search/cli.py:159-161 | a strictly sorted list is determined by the strings it holds |

## Left out

- HTTP transport: `requests.Session`, the `User-Agent` header and the timeout are not modelled. The network is an oracle of answers, and a transport failure carries its reason as text.
- `r.text` is always a string. The `or ""` fallback for a missing text is not modelled.
- Filesystem and serialisation: creating the cache directory, opening, reading and writing files, and `json.dump`/`json.load` are not modelled. A cache file is a map entry: stored data, or a file that does not load. A write either succeeds, does not open, or breaks off after emptying the file.
- Core.CacheKeyIgnoresOrder: `sort_keys=True` also re-sorts dicts nested inside param values; the model sorts only the top-level params, so two params whose nested dicts differ only in key order get different keys here. The endpoints never send a dict as a param value.
- Core.CacheKeyOf: the SHA-256 digest of `_cache_key` is taken to be injective. The key is the endpoint with the params sorted by key, and hash collisions are not modelled.
- `time.sleep` and the float `sleep_seconds` and `timeout` are timing, not logic.
- Core.SearchRequests: with the cache on, only the count is stated: at most one request per page, none for a cache hit. The exact request sequence (`Core.SearchAsks`) is stated without a cache, where every pass sends one.
- Core.DietCore.SearchRecords: the unbounded `while True` loop takes a `fuel` bound on the number of pages. Running out of fuel is a separate `OutOfFuel` failure that the Python code does not have.
- A page that decodes to something other than a JSON object makes Python raise `AttributeError` at `data.get`. The model reports it as a `NotADict` failure outside the `DietSearchError` hierarchy.
- JSON floats are not modelled. Values are null, booleans, integers, strings, lists and objects, so `int()` of a float limit is not modelled either.
- `int()` of a string accepts ASCII digits only. Unicode digits of other scripts are not modelled.
- `repr()` of a string escapes only quotes, backslashes, `\n`, `\r` and `\t`. Other unprintable characters are not modelled. This only affects the text of the "limit_total must be an int" message.
- Pydantic's lax coercion (for example `"5"` for an int field, or `1` for a bool) is not modelled. A field accepts only values of its declared type. Validation errors are datatype values, not pydantic's message texts.
- When a dict gives both the alias and the name of a date field (`from` and `from_date`), the model reads the alias and reports the name key as extra.
- Cli.CollectParams: the contract states the dict's keys and values but not their insertion order. The client rebuilds a query from the dict, and the query does not depend on the order.
- `cli.py` plumbing is not modelled: argparse, the `cmd_*` functions, writing JSON, JSONL and CSV rows to stdout, the dry-run payload, `main` and its exit codes.
- `src/jp_diet_search/models.py` (record shapes without behaviour) and `__init__.py` (re-exports) are not part of this model.
- `src/jp_diet_search/client.py` is modelled only as `model_validate` of the passed params (`Cli.ClientQuery`), followed by the endpoint search.

## Findings

| source | as written | input that shows it | evidently intended | confidence | as-written member | corrected member |
|---|---|---|---|---|---|---|
| src/jp_diet_search/cli.py:101-111 | `_collect_params` stores `--name-of-meeting`, `--maximum-records`, `--session-from` and `--session-to` under the API's camelCase keys (`nameOfMeeting`, `maximumRecords`, `sessionFrom`, `sessionTo`). The client passes the dict to `model_validate` of a query class declared with `extra="forbid"` (queries.py:16, client.py:42-52). That class knows only the snake_case field names and the aliases `from`/`until`, so every such command line is rejected. | `--any 予算 --maximum-records 10` | the snake_case field names (`name_of_meeting`, `maximum_records`, `session_from`, `session_to`), so that the query accepts the dict and `to_params` sends the camelCase keys | not executed | `Cli.CollectedParamsRejected` | `Cli.CorrectedInputAccepted` |
