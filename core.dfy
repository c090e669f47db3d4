/**
  The HTTP, cache and pagination core of the client (`_DietCore`).

  The network and the cache directory are outside the model: a `Network`
  answers the n-th request sent, a `Disk` says how the n-th request's cache
  write ends, and the cache directory's files are a map from cache keys to
  entries. The client object keeps the cache and the list of requests it
  has sent; `Fetched`, `Pages` and `Search` are the specification its
  methods are proved against.
 */
module Core {
  import opened Wrappers
  import opened Json
  import opened Text
  import opened Sorting
  import opened Exceptions

  /** The API root used when none is given. */
  const DefaultBaseUrl := "https://kokkai.ndl.go.jp/api"

  /** `s.rstrip("/")`. */
  function RStripSlash(s: string): (r: string)
    ensures r <= s
    ensures r == [] || r[|r| - 1] != '/'
    ensures forall i :: |r| <= i < |s| ==> s[i] == '/'
  {
    if |s| > 0 && s[|s| - 1] == '/' then
      var t := RStripSlash(s[..|s| - 1]);
      assert t <= s[..|s| - 1] <= s;
      t
    else s
  }

  // ---------------- the outside world ----------------

  /** A GET request: the endpoint URL and its query parameters. */
  datatype Request = Request(endpoint: string, params: Pairs)

  /** What `r.json()` makes of a response body. */
  datatype Body = Decoded(data: Value) | Undecodable(reason: string)

  /** What `session.get` does: raise a `RequestException`, or answer. */
  datatype HttpOutcome =
    | TransportFailure(reason: string)
    | Response(status: int, text: string, body: Body)

  /** The server: its answer to the n-th request the client sends. */
  type Network = (nat, Request) -> HttpOutcome

  /** How writing a cache file ends: written, not opened, or broken off after the file was emptied. */
  datatype WriteOutcome = Written | NotOpened | BrokenOff

  /** The cache directory: how the write after the n-th request ends. */
  type Disk = nat -> WriteOutcome

  // ---------------- cache ----------------

  /**
    What `_cache_key` digests: the endpoint and the params sorted by key.
    The SHA-256 digest of its JSON text is taken to be injective.
   */
  datatype CacheKey = CacheKey(endpoint: string, params: Pairs)

  function CacheKeyOf(endpoint: string, params: Pairs): (k: CacheKey)
    ensures k.endpoint == endpoint
    ensures multiset(k.params) == multiset(params)
  {
    CacheKey(endpoint, SortByKey(params))
  }

  /** Two dicts of params share a cache file exactly when they hold the same items, in any order. */
  lemma CacheKeyIgnoresOrder(endpoint: string, p: Pairs, q: Pairs)
    requires DistinctKeys(p) && DistinctKeys(q)
    ensures CacheKeyOf(endpoint, p) == CacheKeyOf(endpoint, q) <==> multiset(p) == multiset(q)
  {
    SortByKeyDeterminedByItems(p, q);
  }

  /** A cache file holds JSON that loads, or something that does not. */
  datatype CacheEntry = Stored(data: Value) | Unreadable

  /** `_load_from_cache`, with Null for None: no cache, no file, or a file that does not load. */
  function CachedValue(enabled: bool, cache: map<CacheKey, CacheEntry>, endpoint: string, params: Pairs): Value
  {
    var k := CacheKeyOf(endpoint, params);
    if !enabled || k !in cache then Null
    else match cache[k]
      case Stored(v) => v
      case Unreadable => Null
  }

  /** `_save_to_cache`: a failed write is swallowed, but a broken-off write leaves a file that does not load. */
  function CacheAfterSave(enabled: bool, cache: map<CacheKey, CacheEntry>, endpoint: string, params: Pairs,
                          data: Value, w: WriteOutcome): map<CacheKey, CacheEntry>
  {
    var k := CacheKeyOf(endpoint, params);
    if !enabled then cache
    else match w
      case Written => cache[k := Stored(data)]
      case NotOpened => cache
      case BrokenOff => cache[k := Unreadable]
  }

  /** A saved value loads back, a broken-off write loads as nothing, and without a cache nothing changes. */
  lemma SaveThenLoad(enabled: bool, cache: map<CacheKey, CacheEntry>, endpoint: string, params: Pairs,
                     data: Value, w: WriteOutcome)
    ensures enabled && w.Written? ==>
      CachedValue(enabled, CacheAfterSave(enabled, cache, endpoint, params, data, w), endpoint, params) == data
    ensures w.BrokenOff? ==>
      CachedValue(enabled, CacheAfterSave(enabled, cache, endpoint, params, data, w), endpoint, params) == Null
    ensures !enabled ==> CacheAfterSave(enabled, cache, endpoint, params, data, w) == cache
  {
  }

  /** Saving touches no other cache file. */
  lemma SaveKeepsOtherFiles(enabled: bool, cache: map<CacheKey, CacheEntry>, endpoint: string, params: Pairs,
                            data: Value, w: WriteOutcome, endpoint': string, params': Pairs)
    requires CacheKeyOf(endpoint', params') != CacheKeyOf(endpoint, params)
    ensures CachedValue(enabled, CacheAfterSave(enabled, cache, endpoint, params, data, w), endpoint', params')
      == CachedValue(enabled, cache, endpoint', params')
  {
  }

  // ---------------- request ----------------

  /** `[body[:500]] if body else None`, where `body` is the stripped response text. */
  function BodyDetails(text: string): Option<seq<string>>
  {
    var body := Strip(text);
    if body != "" then Some([Take(body, 500)]) else None
  }

  /** The details hold at most one non-empty piece of the stripped text, of at most 500 characters. */
  lemma BodyDetailsShape(text: string)
    ensures var d := NormalizeDetails(BodyDetails(text));
      && |d| <= 1
      && (d == [] <==> AllSpace(text))
      && (forall x :: x in d ==> 0 < |x| <= 500 && x <= Strip(text))
  {
    StripEmpty(text);
  }

  /** What `_request_json` makes of the answer to a request it sent. */
  function Classify(endpoint: string, outcome: HttpOutcome): Result<Value, DietSearchError>
  {
    match outcome
    case TransportFailure(reason) => Failure(RequestError("Request failed: " + reason))
    case Response(status, text, body) =>
      if status == 429 then
        Failure(NewRateLimitError("HTTP 429 (rate limit exceeded) for " + endpoint, BodyDetails(text)))
      else if status != 200 then
        Failure(NewAPIError("HTTP " + IntToDecimal(status) + " for " + endpoint, BodyDetails(text)))
      else match body
        case Undecodable(reason) => Failure(ParseError("Failed to parse JSON response: " + reason))
        case Decoded(data) => Success(data)
  }

  /** The network answered 200 with a body that decodes to `data`. */
  predicate Gives(outcome: HttpOutcome, data: Value)
  {
    outcome.Response? && outcome.status == 200 && outcome.body == Decoded(data)
  }

  /** Only a 200 answer whose body decodes gives data, and then that data. */
  lemma ClassifySuccess(endpoint: string, outcome: HttpOutcome)
    ensures Classify(endpoint, outcome).Success? <==>
      outcome.Response? && outcome.status == 200 && outcome.body.Decoded?
    ensures Classify(endpoint, outcome).Success? ==> Classify(endpoint, outcome).value == outcome.body.data
  {
  }

  /** Each kind of failure is raised as its own exception class. */
  lemma ClassifyFailureClasses(endpoint: string, outcome: HttpOutcome)
    requires Classify(endpoint, outcome).Failure?
    ensures var e := Classify(endpoint, outcome).error;
      && (outcome.TransportFailure? <==> IsInstance(e, RequestClass) && !IsInstance(e, ParseClass))
      && (outcome.Response? && outcome.status == 429 <==> IsInstance(e, RateLimitClass))
      && (outcome.Response? && outcome.status != 429 && outcome.status != 200 <==>
            IsInstance(e, APIClass) && !IsInstance(e, RateLimitClass))
      && (outcome.Response? && outcome.status == 200 <==> IsInstance(e, ParseClass))
  {
    RequestErrorFamily(Classify(endpoint, outcome).error);
    APIErrorFamily(Classify(endpoint, outcome).error);
  }

  /** The messages name the endpoint and the status, and carry the response text as details. */
  lemma ClassifyMessages(endpoint: string, outcome: HttpOutcome)
    requires outcome.Response? && outcome.status != 200
    ensures var e := Classify(endpoint, outcome).error;
      && e.details == NormalizeDetails(BodyDetails(outcome.text))
      && e.message == (if outcome.status == 429 then "HTTP 429 (rate limit exceeded) for " + endpoint
                       else "HTTP " + IntToDecimal(outcome.status) + " for " + endpoint)
  {
  }

  /** The result of `_request_json` and what it leaves behind. */
  datatype Fetch = Fetch(result: Result<Value, DietSearchError>, cache: map<CacheKey, CacheEntry>, sent: seq<Request>)

  /**
    `_request_json`: a loaded cache file other than null answers without a
    request; otherwise the request is sent, and data that comes back is saved.
   */
  function Fetched(enabled: bool, cache: map<CacheKey, CacheEntry>, sent: seq<Request>, net: Network, disk: Disk,
                   endpoint: string, params: Pairs): Fetch
  {
    var cached := CachedValue(enabled, cache, endpoint, params);
    if cached != Null then Fetch(Success(cached), cache, sent)
    else
      var req := Request(endpoint, params);
      match Classify(endpoint, net(|sent|, req))
      case Failure(e) => Fetch(Failure(e), cache, sent + [req])
      case Success(data) =>
        Fetch(Success(data), CacheAfterSave(enabled, cache, endpoint, params, data, disk(|sent|)), sent + [req])
  }

  /** A cache hit sends nothing and changes nothing; a miss sends exactly this request. */
  lemma FetchedRequests(enabled: bool, cache: map<CacheKey, CacheEntry>, sent: seq<Request>, net: Network, disk: Disk,
                        endpoint: string, params: Pairs)
    ensures var f := Fetched(enabled, cache, sent, net, disk, endpoint, params);
      && (CachedValue(enabled, cache, endpoint, params) != Null ==>
            f.sent == sent && f.cache == cache && f.result == Success(CachedValue(enabled, cache, endpoint, params)))
      && (CachedValue(enabled, cache, endpoint, params) == Null ==>
            f.sent == sent + [Request(endpoint, params)] &&
            f.result == Classify(endpoint, net(|sent|, Request(endpoint, params))))
  {
  }

  /** Without a cache directory every call sends its request and the cache stays as it is. */
  lemma FetchedWithoutCache(cache: map<CacheKey, CacheEntry>, sent: seq<Request>, net: Network, disk: Disk,
                            endpoint: string, params: Pairs)
    ensures var f := Fetched(false, cache, sent, net, disk, endpoint, params);
      && f.sent == sent + [Request(endpoint, params)]
      && f.cache == cache
  {
  }

  /** A failed request leaves the cache as it was. */
  lemma FetchedFailureKeepsCache(enabled: bool, cache: map<CacheKey, CacheEntry>, sent: seq<Request>, net: Network,
                                 disk: Disk, endpoint: string, params: Pairs)
    requires Fetched(enabled, cache, sent, net, disk, endpoint, params).result.Failure?
    ensures Fetched(enabled, cache, sent, net, disk, endpoint, params).cache == cache
  {
  }

  /**
    Once data other than null has been fetched and written to the cache, the
    same request is answered from the cache, whatever the network does.
   */
  lemma FetchedThenCached(cache: map<CacheKey, CacheEntry>, sent: seq<Request>, net: Network, disk: Disk,
                          endpoint: string, params: Pairs, net': Network, disk': Disk)
    requires var f := Fetched(true, cache, sent, net, disk, endpoint, params);
      f.result.Success? && f.result.value != Null && f.sent != sent && disk(|sent|) == Written
    ensures var f := Fetched(true, cache, sent, net, disk, endpoint, params);
      Fetched(true, f.cache, f.sent, net', disk', endpoint, params) == f
  {
    var f := Fetched(true, cache, sent, net, disk, endpoint, params);
    SaveThenLoad(true, cache, endpoint, params, f.result.value, Written);
  }

  // ---------------- validation helpers ----------------

  /** The params keys of which `check_required_any_condition` wants one. */
  const ConditionKeys: seq<string> :=
    ["nameOfHouse", "nameOfMeeting", "any", "speaker", "from", "until", "speechNumber", "speakerPosition",
     "speakerGroup", "speakerRole", "speechID", "issueID", "sessionFrom", "sessionTo", "issueFrom", "issueTo"]

  /** Some key of `keys` is in `params` with a value other than "" and None. */
  function AnyGiven(params: Pairs, keys: seq<string>): (b: bool)
    ensures b <==> exists i :: 0 <= i < |keys| && IsSet(Get(params, keys[i]))
  {
    if keys == [] then false
    else
      assert forall i :: 1 <= i < |keys| ==> keys[i] == keys[1..][i - 1];
      IsSet(Get(params, keys[0])) || AnyGiven(params, keys[1..])
  }

  const NoConditionMessage := "検索条件を指定してください。"

  /** `check_required_any_condition`. */
  function CheckRequiredAnyCondition(params: Pairs): (r: Outcome<DietSearchError>)
    ensures r.Pass? <==> exists i :: 0 <= i < |ConditionKeys| && IsSet(Get(params, ConditionKeys[i]))
    ensures r.Fail? ==> r.error == APIError(NoConditionMessage, [])
  {
    if AnyGiven(params, ConditionKeys) then Pass else Fail(NewAPIError(NoConditionMessage, Some([])))
  }

  /** The check looks only at the condition keys: dicts that agree on them get the same answer. */
  lemma CheckRequiredLooksAtConditionKeys(p: Pairs, q: Pairs)
    requires forall k :: k in ConditionKeys ==> Get(p, k) == Get(q, k)
    ensures CheckRequiredAnyCondition(p) == CheckRequiredAnyCondition(q)
  {
    forall i | 0 <= i < |ConditionKeys| ensures Get(p, ConditionKeys[i]) == Get(q, ConditionKeys[i]) {
      assert ConditionKeys[i] in ConditionKeys;
    }
  }

  /**
    A dict with one key passes exactly when the key is a condition key and
    its value is neither "" nor None: 0, False and empty lists count as given.
   */
  lemma CheckRequiredOnOneKey(k: string, v: Value)
    ensures CheckRequiredAnyCondition([(k, v)]).Pass? <==> k in ConditionKeys && IsSet(v)
  {
    var p := [(k, v)];
    assert Keys(p) == [k];
    if k in ConditionKeys {
      var i :| 0 <= i < |ConditionKeys| && ConditionKeys[i] == k;
      assert Get(p, ConditionKeys[i]) == v;
    }
    forall i | 0 <= i < |ConditionKeys| && ConditionKeys[i] != k ensures Get(p, ConditionKeys[i]) == Null {
    }
  }

  /** `int(v)`: booleans are 0 and 1, text is parsed, other objects raise. */
  function IntOf(v: Value): Option<int>
  {
    match v
    case Int(i) => Some(i)
    case Bool(b) => Some(if b then 1 else 0)
    case Str(s) => ParseInt(s)
    case _ => None
  }

  /** `sanitize_limit`: None stays None, anything else must convert to a positive int. */
  function SanitizeLimit(limitTotal: Value): Result<Option<nat>, DietSearchError>
  {
    if limitTotal == Null then Success(None)
    else match IntOf(limitTotal)
      case None => Failure(RequestError(NotAnIntMessage(limitTotal)))
      case Some(value) =>
        if value <= 0 then Failure(RequestError(NotPositiveMessage(value)))
        else Success(Some(value))
  }

  /** The message of a limit `int()` refuses. */
  function NotAnIntMessage(limitTotal: Value): string
  {
    "limit_total must be an int: " + Repr(limitTotal)
  }

  /** The message of a limit below one. */
  function NotPositiveMessage(value: int): string
  {
    "limit_total must be positive: " + IntToDecimal(value)
  }

  /**
    A limit comes out positive, only None means no limit, and every failure
    is a request error: a value `int()` refuses fails with its repr, and a
    number below one fails with that number.
   */
  lemma SanitizeLimitResult(limitTotal: Value)
    ensures SanitizeLimit(limitTotal).Success? ==>
      (SanitizeLimit(limitTotal).value.None? <==> limitTotal == Null) &&
      (SanitizeLimit(limitTotal).value.Some? ==> SanitizeLimit(limitTotal).value.value >= 1)
    ensures SanitizeLimit(limitTotal).Failure? ==>
      IsInstance(SanitizeLimit(limitTotal).error, RequestClass) &&
      !IsInstance(SanitizeLimit(limitTotal).error, ParseClass)
    ensures limitTotal != Null && IntOf(limitTotal).None? ==>
      SanitizeLimit(limitTotal) == Failure(RequestError(NotAnIntMessage(limitTotal)))
    ensures limitTotal != Null && IntOf(limitTotal).Some? && IntOf(limitTotal).value <= 0 ==>
      SanitizeLimit(limitTotal) == Failure(RequestError(NotPositiveMessage(IntOf(limitTotal).value)))
    ensures limitTotal != Null && IntOf(limitTotal).Some? && IntOf(limitTotal).value > 0 ==>
      SanitizeLimit(limitTotal) == Success(Some(IntOf(limitTotal).value))
  {
  }

  /** An int is accepted exactly when positive. */
  lemma SanitizeLimitOfInt(n: int)
    ensures SanitizeLimit(Int(n)).Success? <==> n > 0
    ensures n > 0 ==> SanitizeLimit(Int(n)) == Success(Some(n))
  {
  }

  /** Two limits that `int()` reads as the same number are sanitized alike: `True`, 1 and " 1 " are one limit. */
  lemma SanitizeLimitByNumber(v: Value, w: Value)
    requires v != Null && w != Null && IntOf(v).Some? && IntOf(v) == IntOf(w)
    ensures SanitizeLimit(v) == SanitizeLimit(w)
  {
  }

  /** Sanitizing a sanitized limit again changes nothing. */
  lemma SanitizeLimitIdempotent(limitTotal: Value)
    requires SanitizeLimit(limitTotal).Success? && SanitizeLimit(limitTotal).value.Some?
    ensures SanitizeLimit(Int(SanitizeLimit(limitTotal).value.value)) == SanitizeLimit(limitTotal)
  {
  }

  // ---------------- pagination search ----------------

  /** The dict `search_records` returns. */
  datatype SearchResult = SearchResult(
    endpoint: string,
    params: Pairs,
    totalRecords: Value,
    retrievedRecords: nat,
    pages: nat,
    records: seq<Pairs>,
    truncated: bool)

  /**
    How a search ends without a result: one of the client's exceptions, an
    `AttributeError` when the JSON is not an object, or the model's bound on
    the number of pages.
   */
  datatype SearchFailure = Raised(error: DietSearchError) | NotADict(data: Value) | OutOfFuel

  /** What `search_records` was asked for, with the limit already sanitized. */
  datatype Job = Job(endpoint: string, recordKey: string, params: Pairs, limit: Option<nat>)

  function Finished(job: Job, total: Value, pages: nat, records: seq<Pairs>, truncated: bool): SearchResult
  {
    SearchResult(job.endpoint, job.params, total, |records|, pages, records, truncated)
  }

  /** `data.get(record_key, []) or []`. */
  function RawRecords(data: Pairs, recordKey: string): Value
  {
    match Lookup(data, recordKey)
    case None => Array([])
    case Some(v) => if Truthy(v) then v else Array([])
  }

  /** A record as it is kept: a dict as is, anything else as `{"value": rec}`. */
  function WrapRecord(rec: Value): Pairs
  {
    if rec.Object? then rec.members else [("value", rec)]
  }

  /** Every record of a page, wrapped. */
  function Wrapped(raw: seq<Value>): (r: seq<Pairs>)
    ensures |r| == |raw|
    ensures forall i :: 0 <= i < |raw| ==> r[i] == WrapRecord(raw[i])
  {
    seq(|raw|, i requires 0 <= i < |raw| => WrapRecord(raw[i]))
  }

  /** The records so far after one page, and whether the limit was reached on it. */
  datatype Absorbed = Absorbed(records: seq<Pairs>, hit: bool)

  /** The loop over a page's records, which stops as soon as the limit is reached. */
  function Absorb(acc: seq<Pairs>, raw: seq<Value>, limit: Option<nat>): Absorbed
    decreases |raw|
  {
    if raw == [] then Absorbed(acc, false)
    else
      var acc' := acc + [WrapRecord(raw[0])];
      if limit.Some? && |acc'| >= limit.value then Absorbed(acc'[..limit.value], true)
      else Absorb(acc', raw[1..], limit)
  }

  /**
    A page adds its wrapped records in order; the limit is reached exactly
    when they would make up at least `limit` records, and then exactly
    `limit` records are kept.
   */
  lemma {:induction false} AbsorbContents(acc: seq<Pairs>, raw: seq<Value>, limit: Option<nat>)
    requires limit.Some? ==> |acc| < limit.value
    ensures var a, all := Absorb(acc, raw, limit), acc + Wrapped(raw);
      && (a.hit <==> limit.Some? && |all| >= limit.value)
      && (a.hit ==> a.records == all[..limit.value])
      && (!a.hit ==> a.records == all)
    decreases |raw|
  {
    if raw != [] {
      var acc' := acc + [WrapRecord(raw[0])];
      assert acc + Wrapped(raw) == acc' + Wrapped(raw[1..]);
      if !(limit.Some? && |acc'| >= limit.value) {
        AbsorbContents(acc', raw[1..], limit);
      } else {
        assert acc' == (acc + Wrapped(raw))[..|acc'|];
      }
    }
  }

  /** A page the loop takes records from: a dict whose record value is falsy or a list. */
  predicate HasRecordList(job: Job, page: Value)
  {
    page.Object? && RawRecords(page.members, job.recordKey).Array?
  }

  /**
    What any other page raises: one that is not a dict fails at `data.get`,
    one whose record value is not a list raises the shape error.
   */
  function PageError(job: Job, page: Value): SearchFailure
  {
    if !page.Object? then NotADict(page)
    else Raised(RequestError("Unexpected '" + job.recordKey + "' shape: " + TypeName(RawRecords(page.members, job.recordKey))))
  }

  /** What one page leads to: the end of the search, or the next page's request. */
  datatype Step = Finish(result: Result<SearchResult, SearchFailure>) | Next(cur: Pairs, acc: seq<Pairs>, total: Value)

  /** The body of the `while True` loop after the page's data has been fetched. */
  function PageStep(job: Job, data: Value, cur: Pairs, acc: seq<Pairs>, pages: nat, total: Value): Step
  {
    if !HasRecordList(job, data) then Finish(Failure(PageError(job, data)))
    else
      var d := data.members;
      var total' := if total == Null then Get(d, "totalRecords") else total;
      var a := Absorb(acc, RawRecords(d, job.recordKey).items, job.limit);
        if a.hit then Finish(Success(Finished(job, total', pages, a.records, true)))
        else
          var next := Get(d, "nextRecordPosition");
          if !Truthy(next) then Finish(Success(Finished(job, total', pages, a.records, false)))
          else Next(Store(cur, "startRecord", next), a.records, total')
  }

  /**
    The result of a search and what it leaves behind: the cache, the request
    log, and the data of every page fetched, in order.
   */
  datatype Run = Run(result: Result<SearchResult, SearchFailure>, cache: map<CacheKey, CacheEntry>, sent: seq<Request>,
                     seen: seq<Value>)

  /**
    The state at the top of the `while True` loop: cache, request log, next
    params, records, pages, total, and the data of the pages fetched so far.
   */
  datatype Loop = Loop(cache: map<CacheKey, CacheEntry>, sent: seq<Request>, cur: Pairs, acc: seq<Pairs>,
                       pages: nat, total: Value, seen: seq<Value>)

  /** What one pass of the loop leads to: the end of the search, or the state for the next pass. */
  datatype Turn = Stop(run: Run) | Go(next: Loop)

  /** One pass of the `while True` loop: count the page, fetch it and handle it. */
  function PageTurn(enabled: bool, net: Network, disk: Disk, job: Job, st: Loop): Turn
  {
    TurnOn(Fetched(enabled, st.cache, st.sent, net, disk, job.endpoint, st.cur), job, st)
  }

  /** The rest of a pass once the page has been fetched. */
  function TurnOn(f: Fetch, job: Job, st: Loop): Turn
  {
    match f.result
    case Failure(e) => Stop(Run(Failure(Raised(e)), f.cache, f.sent, st.seen))
    case Success(data) =>
      match PageStep(job, data, st.cur, st.acc, st.pages + 1, st.total)
      case Finish(r) => Stop(Run(r, f.cache, f.sent, st.seen + [data]))
      case Next(cur', acc', total') => Go(Loop(f.cache, f.sent, cur', acc', st.pages + 1, total', st.seen + [data]))
  }

  /**
    The `while True` loop from a state, one `turn` per pass; `fuel` bounds
    the number of passes still allowed.
   */
  function Pages(fuel: nat, turn: Loop -> Turn, st: Loop): Run
    decreases fuel
  {
    if fuel == 0 then Run(Failure(OutOfFuel), st.cache, st.sent, st.seen)
    else match turn(st)
      case Stop(run) => run
      case Go(next) => Pages(fuel - 1, turn, next)
  }

  /** The state before the first pass: the caller's params, no records, no pages, no total. */
  function Start(cache: map<CacheKey, CacheEntry>, sent: seq<Request>, params: Pairs): Loop
  {
    Loop(cache, sent, params, [], 0, Null, [])
  }

  /** The loop of `search_records` for a job. */
  function TurnOf(enabled: bool, net: Network, disk: Disk, job: Job): Loop -> Turn
  {
    (st: Loop) => PageTurn(enabled, net, disk, job, st)
  }

  /** `search_records`: the checks come first, then the pages from the caller's params. */
  function Search(enabled: bool, cache: map<CacheKey, CacheEntry>, sent: seq<Request>, net: Network, disk: Disk,
                  endpoint: string, recordKey: string, params: Pairs, limitTotal: Value, fuel: nat): Run
  {
    match CheckRequiredAnyCondition(params)
    case Fail(e) => Run(Failure(Raised(e)), cache, sent, [])
    case Pass =>
      match SanitizeLimit(limitTotal)
      case Failure(e) => Run(Failure(Raised(e)), cache, sent, [])
      case Success(limit) =>
        Pages(fuel, TurnOf(enabled, net, disk, Job(endpoint, recordKey, params, limit)), Start(cache, sent, params))
  }

  // ---------------- what the fetched pages hold ----------------

  /** Wrapping the records of two lists one after the other is wrapping each. */
  lemma WrappedConcat(a: seq<Value>, b: seq<Value>)
    ensures Wrapped(a + b) == Wrapped(a) + Wrapped(b)
  {
    assert forall i :: 0 <= i < |a + b| ==> Wrapped(a + b)[i] == (Wrapped(a) + Wrapped(b))[i] by {
      forall i | 0 <= i < |a + b| ensures Wrapped(a + b)[i] == (Wrapped(a) + Wrapped(b))[i] {
        if i < |a| {
          assert (a + b)[i] == a[i];
        } else {
          assert (a + b)[i] == b[i - |a|];
        }
      }
    }
  }

  /** The records one page brings: its wrapped records, when it is a dict with a list of them. */
  function PageRecords(recordKey: string, page: Value): seq<Pairs>
  {
    if page.Object? && RawRecords(page.members, recordKey).Array? then Wrapped(RawRecords(page.members, recordKey).items)
    else []
  }

  /** How many records a page holds: as many as its list of records has, none without one. */
  function PageCount(recordKey: string, page: Value): nat
  {
    if page.Object? && RawRecords(page.members, recordKey).Array? then |RawRecords(page.members, recordKey).items| else 0
  }

  /** How many records a sequence of pages holds. */
  function RecordCount(recordKey: string, pages: seq<Value>): nat
  {
    if pages == [] then 0
    else RecordCount(recordKey, pages[..|pages| - 1]) + PageCount(recordKey, pages[|pages| - 1])
  }

  /** The count of records is the number of records the pages give. */
  lemma {:induction false} RecordCountIsLength(recordKey: string, pages: seq<Value>)
    ensures RecordCount(recordKey, pages) == |AllRecords(recordKey, pages)|
    decreases |pages|
  {
    if pages != [] {
      RecordCountIsLength(recordKey, pages[..|pages| - 1]);
    }
  }

  /** One more page adds its own count. */
  lemma RecordCountAppend(recordKey: string, pages: seq<Value>, page: Value)
    ensures RecordCount(recordKey, pages + [page]) == RecordCount(recordKey, pages) + PageCount(recordKey, page)
  {
    assert (pages + [page])[..|pages|] == pages;
  }

  /** The records of a sequence of pages, page after page. */
  function AllRecords(recordKey: string, pages: seq<Value>): seq<Pairs>
  {
    if pages == [] then []
    else AllRecords(recordKey, pages[..|pages| - 1]) + PageRecords(recordKey, pages[|pages| - 1])
  }

  /** One more page adds its own records at the end. */
  lemma AllRecordsAppend(recordKey: string, pages: seq<Value>, page: Value)
    ensures AllRecords(recordKey, pages + [page]) == AllRecords(recordKey, pages) + PageRecords(recordKey, page)
  {
    assert (pages + [page])[..|pages|] == pages;
  }

  /** The records of two runs of pages are the records of the first followed by those of the second. */
  lemma {:induction false} AllRecordsConcat(recordKey: string, a: seq<Value>, b: seq<Value>)
    ensures AllRecords(recordKey, a + b) == AllRecords(recordKey, a) + AllRecords(recordKey, b)
    decreases |b|
  {
    if b == [] {
      assert a + b == a;
    } else {
      var init, last := b[..|b| - 1], b[|b| - 1];
      var p := PageRecords(recordKey, last);
      AllRecordsConcat(recordKey, a, init);
      assert (a + b)[..|a + b| - 1] == a + init;
      assert (a + b)[|a + b| - 1] == last;
      assert AllRecords(recordKey, a + b) == AllRecords(recordKey, a + init) + p;
      AppendAssoc(AllRecords(recordKey, a), AllRecords(recordKey, init), p);
    }
  }

  /** Concatenation is associative. */
  lemma AppendAssoc<T>(x: seq<T>, y: seq<T>, z: seq<T>)
    ensures (x + y) + z == x + (y + z)
  {
  }

  /** A page's `totalRecords`, null when it is not a dict or has none. */
  function PageTotal(page: Value): Value
  {
    if page.Object? then Get(page.members, "totalRecords") else Null
  }

  /** The total a run of pages reports: the one already found, else the last page's. */
  function FirstTotal(pages: seq<Value>): Value
  {
    if pages == [] then Null
    else
      var t := FirstTotal(pages[..|pages| - 1]);
      if t != Null then t else PageTotal(pages[|pages| - 1])
  }

  /** One more page changes the total only when none was found yet. */
  lemma FirstTotalAppend(pages: seq<Value>, page: Value)
    ensures FirstTotal(pages + [page]) == if FirstTotal(pages) != Null then FirstTotal(pages) else PageTotal(page)
  {
    assert (pages + [page])[..|pages|] == pages;
  }

  /**
    The total is null exactly when no page has one, and otherwise it is the
    `totalRecords` of the first page that has one.
   */
  lemma {:induction false} FirstTotalIsFirst(pages: seq<Value>)
    ensures FirstTotal(pages) == Null <==> forall i :: 0 <= i < |pages| ==> PageTotal(pages[i]) == Null
    ensures FirstTotal(pages) != Null ==>
      exists i :: 0 <= i < |pages| && PageTotal(pages[i]) == FirstTotal(pages) &&
        forall j :: 0 <= j < i ==> PageTotal(pages[j]) == Null
    decreases |pages|
  {
    if pages != [] {
      var init := pages[..|pages| - 1];
      FirstTotalIsFirst(init);
      assert forall i :: 0 <= i < |init| ==> init[i] == pages[i];
      if FirstTotal(init) != Null {
        var i :| 0 <= i < |init| && PageTotal(init[i]) == FirstTotal(init) &&
          forall j :: 0 <= j < i ==> PageTotal(init[j]) == Null;
        assert PageTotal(pages[i]) == FirstTotal(pages);
      } else {
        assert forall j :: 0 <= j < |init| ==> PageTotal(pages[j]) == Null;
        if PageTotal(pages[|pages| - 1]) != Null {
          assert PageTotal(pages[|pages| - 1]) == FirstTotal(pages);
        }
      }
    }
  }

  /** The first `limit` records, or all of them when there are no more than that. */
  function UpTo(records: seq<Pairs>, limit: Option<nat>): (r: seq<Pairs>)
    ensures r <= records
    ensures |r| == if limit.Some? && limit.value < |records| then limit.value else |records|
  {
    if limit.Some? && limit.value < |records| then records[..limit.value] else records
  }

  /** The records of a loop state are those of the pages it has seen. */
  predicate RecordsOfSeen(job: Job, st: Loop)
  {
    st.acc == AllRecords(job.recordKey, st.seen)
  }

  /** The total and page count of a loop state are those of the pages it has seen. */
  predicate TotalOfSeen(st: Loop)
  {
    st.total == FirstTotal(st.seen) && st.pages == |st.seen|
  }

  // ---------------- properties of the search ----------------

  /**
    A page that finishes the search returns the records so far followed by
    this page's wrapped records, cut at the limit; a page that goes on keeps
    them all, below the limit.
   */
  lemma PageStepRecords(job: Job, data: Value, cur: Pairs, acc: seq<Pairs>, pages: nat, total: Value)
    requires job.limit.Some? ==> |acc| < job.limit.value
    ensures var s, all := PageStep(job, data, cur, acc, pages, total), acc + PageRecords(job.recordKey, data);
      && (s.Finish? && s.result.Success? ==>
            var r := s.result.value;
            && acc <= r.records
            && r.records == UpTo(all, job.limit)
            && (r.truncated <==> job.limit.Some? && |r.records| == job.limit.value)
            && (job.limit.Some? ==> |r.records| <= job.limit.value))
      && (s.Next? ==> s.acc == all && (job.limit.Some? ==> |s.acc| < job.limit.value))
  {
    if data.Object? {
      var raw := RawRecords(data.members, job.recordKey);
      if raw.Array? {
        AbsorbContents(acc, raw.items, job.limit);
      }
    }
  }

  /**
    A finished page reports the job and the pages fetched; the total is the
    one already found, or this page's `totalRecords` when none was.
   */
  lemma PageStepReport(job: Job, data: Value, cur: Pairs, acc: seq<Pairs>, pages: nat, total: Value)
    ensures var s, total' := PageStep(job, data, cur, acc, pages, total), if total == Null then PageTotal(data) else total;
      && (s.Finish? && s.result.Success? ==>
            var r := s.result.value;
            && r.endpoint == job.endpoint && r.params == job.params
            && r.pages == pages && r.retrievedRecords == |r.records|
            && r.totalRecords == total')
      && (s.Next? ==> s.total == total')
  {
  }

  /**
    A page without the record key, or with a falsy value under it, has no
    records; a value there that is not a list raises a request error.
   */
  lemma PageStepRecordShape(job: Job, data: Value, cur: Pairs, acc: seq<Pairs>, pages: nat, total: Value)
    requires data.Object?
    ensures var v, raw := Lookup(data.members, job.recordKey), RawRecords(data.members, job.recordKey);
      && (v.None? || !Truthy(v.value) ==> raw == Array([]))
      && (v.Some? && Truthy(v.value) ==> raw == v.value)
    ensures var s := PageStep(job, data, cur, acc, pages, total);
      !RawRecords(data.members, job.recordKey).Array? ==>
        && s.Finish? && s.result.Failure? && s.result.error.Raised?
        && IsInstance(s.result.error.error, RequestClass) && !IsInstance(s.result.error.error, ParseClass)
  {
  }

  /**
    The loop goes on exactly when the page is a dict with a list of records
    that did not reach the limit and a truthy `nextRecordPosition`; the next
    request then differs from this one only in `startRecord`, which is that
    cursor.
   */
  lemma PageStepCursor(job: Job, data: Value, cur: Pairs, acc: seq<Pairs>, pages: nat, total: Value)
    ensures var s := PageStep(job, data, cur, acc, pages, total);
      s.Next? <==>
        && data.Object?
        && RawRecords(data.members, job.recordKey).Array?
        && !Absorb(acc, RawRecords(data.members, job.recordKey).items, job.limit).hit
        && Truthy(Get(data.members, "nextRecordPosition"))
    ensures var s := PageStep(job, data, cur, acc, pages, total);
      s.Next? ==>
        && Lookup(s.cur, "startRecord") == Some(Get(data.members, "nextRecordPosition"))
        && forall k :: k != "startRecord" ==> Lookup(s.cur, k) == Lookup(cur, k)
  {
    var s := PageStep(job, data, cur, acc, pages, total);
    if s.Next? {
      var next := Get(data.members, "nextRecordPosition");
      assert s.cur == Store(cur, "startRecord", next);
      StoreLookup(cur, "startRecord", next, "startRecord");
      forall k | k != "startRecord" ensures Lookup(s.cur, k) == Lookup(cur, k) {
        StoreLookup(cur, "startRecord", next, k);
      }
    }
  }

  /**
    A pass keeps the records so far in front and a result within the limit;
    from a state whose records are those of its pages, the records after the
    pass are those of its pages too, cut at the limit when it stops.
   */
  ghost predicate TurnKeepsRecords(t: Turn, st: Loop, job: Job)
  {
    && (t.Stop? ==> RunKeepsRecords(job, st, t.run))
    && (t.Go? ==>
          && st.acc <= t.next.acc && (job.limit.Some? ==> |t.next.acc| < job.limit.value)
          && (RecordsOfSeen(job, st) ==> RecordsOfSeen(job, t.next)))
  }

  ghost predicate KeepsRecords(turn: Loop -> Turn, job: Job)
  {
    forall st: Loop :: (job.limit.Some? ==> |st.acc| < job.limit.value) ==> TurnKeepsRecords(turn(st), st, job)
  }

  /**
    A pass sees at most one more page, counts it, names the job and keeps a
    total that was not null; from a state whose total and count are those of
    its pages, they stay so.
   */
  ghost predicate TurnReports(t: Turn, st: Loop, job: Job)
  {
    && st.seen <= SeenAfter(t) && |SeenAfter(t)| <= |st.seen| + 1
    && (t.Stop? && t.run.result.Success? ==>
          var r := t.run.result.value;
          && r.endpoint == job.endpoint && r.params == job.params
          && r.pages == st.pages + 1 && r.retrievedRecords == |r.records|
          && (st.total != Null ==> r.totalRecords == st.total)
          && (TotalOfSeen(st) ==> r.totalRecords == FirstTotal(t.run.seen) && r.pages == |t.run.seen|))
    && (t.Go? ==>
          && t.next.pages == st.pages + 1 && (st.total != Null ==> t.next.total == st.total)
          && (TotalOfSeen(st) ==> TotalOfSeen(t.next)))
  }

  ghost predicate Reports(turn: Loop -> Turn, job: Job)
  {
    forall st: Loop :: TurnReports(turn(st), st, job)
  }

  /** The request log after a pass. */
  function SentAfter(t: Turn): seq<Request>
  {
    if t.Stop? then t.run.sent else t.next.sent
  }

  /** The pages seen after a pass. */
  function SeenAfter(t: Turn): seq<Value>
  {
    if t.Stop? then t.run.seen else t.next.seen
  }

  /** The cache after a pass. */
  function CacheAfter(t: Turn): map<CacheKey, CacheEntry>
  {
    if t.Stop? then t.run.cache else t.next.cache
  }

  /** Each pass extends the request log by at most one request. */
  ghost predicate LogsAtMostOne(turn: Loop -> Turn)
  {
    forall st: Loop :: st.sent <= SentAfter(turn(st)) && |SentAfter(turn(st))| <= |st.sent| + 1
  }

  /** Each pass sends one request and leaves the cache alone. */
  ghost predicate LogsEach(turn: Loop -> Turn)
  {
    forall st: Loop :: |SentAfter(turn(st))| == |st.sent| + 1 && CacheAfter(turn(st)) == st.cache
  }

  /**
    A pass adds the fetched page's records to those so far, cut at the limit
    when it stops, whatever the fetch gave.
   */
  lemma TurnOnKeepsRecords(f: Fetch, job: Job, st: Loop)
    requires job.limit.Some? ==> |st.acc| < job.limit.value
    ensures TurnKeepsRecords(TurnOn(f, job, st), st, job)
    ensures f.result.Success? ==>
      var t, added := TurnOn(f, job, st), st.acc + PageRecords(job.recordKey, f.result.value);
      && (t.Go? ==> t.next.acc == added)
      && (t.Stop? && t.run.result.Success? ==> t.run.result.value.records == UpTo(added, job.limit))
  {
    if f.result.Success? {
      var data := f.result.value;
      var step := PageStep(job, data, st.cur, st.acc, st.pages + 1, st.total);
      TurnOnStep(f, job, st, data, st.pages + 1, step);
      PageStepRecords(job, data, st.cur, st.acc, st.pages + 1, st.total);
      AllRecordsAppend(job.recordKey, st.seen, data);
    }
  }

  /**
    A pass counts its page and names the job; the total is the one already
    found, or the fetched page's `totalRecords` when none was.
   */
  lemma TurnOnReports(f: Fetch, job: Job, st: Loop)
    ensures TurnReports(TurnOn(f, job, st), st, job)
    ensures f.result.Success? ==>
      var t, total' := TurnOn(f, job, st), if st.total == Null then PageTotal(f.result.value) else st.total;
      && (t.Go? ==> t.next.total == total')
      && (t.Stop? && t.run.result.Success? ==> t.run.result.value.totalRecords == total')
  {
    if f.result.Success? {
      var data := f.result.value;
      var step := PageStep(job, data, st.cur, st.acc, st.pages + 1, st.total);
      TurnOnStep(f, job, st, data, st.pages + 1, step);
      PageStepReport(job, data, st.cur, st.acc, st.pages + 1, st.total);
      FirstTotalAppend(st.seen, data);
    }
  }

  /** After a pass the cache and the log are those the fetch left, and the page it fetched is seen. */
  lemma TurnOnState(f: Fetch, job: Job, st: Loop)
    ensures SentAfter(TurnOn(f, job, st)) == f.sent && CacheAfter(TurnOn(f, job, st)) == f.cache
    ensures SeenAfter(TurnOn(f, job, st)) == if f.result.Success? then st.seen + [f.result.value] else st.seen
  {
  }

  /**
    Proof-split helper of `DietCore.FetchPages`: a pass of `search_records`
    is `TurnOn` of the fetch that `_request_json` made.
   */
  lemma PageTurnAfterFetch(enabled: bool, net: Network, disk: Disk, job: Job, st: Loop, f: Fetch)
    requires f == Fetched(enabled, st.cache, st.sent, net, disk, job.endpoint, st.cur)
    ensures PageTurn(enabled, net, disk, job, st) == TurnOn(f, job, st)
  {
  }

  /**
    Proof-split helper of `DietCore.SearchRecords`: the passes of a search
    under a name of their own. A pass is known to be `PageTurn` only where
    `PageTurn` is mentioned, so the loop of `DietCore.FetchPages` sees one
    pass at a time.
   */
  lemma PassesOf(enabled: bool, cache: map<CacheKey, CacheEntry>, sent: seq<Request>, net: Network, disk: Disk,
                 endpoint: string, recordKey: string, params: Pairs, limitTotal: Value, fuel: nat, job: Job)
    returns (turn: Loop -> Turn)
    requires CheckRequiredAnyCondition(params).Pass? && SanitizeLimit(limitTotal).Success?
    requires job == Job(endpoint, recordKey, params, SanitizeLimit(limitTotal).value)
    ensures forall st: Loop {:trigger PageTurn(enabled, net, disk, job, st)} ::
      turn(st) == PageTurn(enabled, net, disk, job, st)
    ensures Pages(fuel, turn, Start(cache, sent, params))
      == Search(enabled, cache, sent, net, disk, endpoint, recordKey, params, limitTotal, fuel)
  {
    turn := TurnOf(enabled, net, disk, job);
  }

  /**
    Proof-split helper of `TurnOnOutcome`, `TurnOnReports`, `TurnOnKeepsRecords`
    and `DietCore.FetchPages`: the rest of a pass, once the page has been
    fetched and handled. The cursor it goes on with is stated by
    `PageStepCursor` and, over a whole search, by `CursorAppend` and `SearchAsks`.
   */
  lemma TurnOnStep(f: Fetch, job: Job, st: Loop, data: Value, pages: nat, step: Step)
    requires f.result == Success(data) && pages == st.pages + 1
    requires step == PageStep(job, data, st.cur, st.acc, pages, st.total)
    ensures step.Finish? ==> TurnOn(f, job, st) == Stop(Run(step.result, f.cache, f.sent, st.seen + [data]))
    ensures step.Next? ==>
      TurnOn(f, job, st) == Go(Loop(f.cache, f.sent, step.cur, step.acc, pages, step.total, st.seen + [data]))
  {
  }

  /** A pass that stops ends the loop with its run. */
  lemma PagesStop(fuel: nat, turn: Loop -> Turn, st: Loop, run: Run)
    requires fuel > 0 && turn(st) == Stop(run)
    ensures Pages(fuel, turn, st) == run
  {
  }

  /** A pass that goes on hands the rest of the loop to the next state. */
  lemma PagesGo(fuel: nat, turn: Loop -> Turn, st: Loop, next: Loop)
    requires fuel > 0 && turn(st) == Go(next)
    ensures Pages(fuel, turn, st) == Pages(fuel - 1, turn, next)
  {
  }

  /** The passes of `search_records` keep their records those of the pages seen, within the limit. */
  lemma TurnOfKeepsRecords(enabled: bool, net: Network, disk: Disk, job: Job)
    ensures KeepsRecords(TurnOf(enabled, net, disk, job), job)
  {
    forall st: Loop | job.limit.Some? ==> |st.acc| < job.limit.value
      ensures TurnKeepsRecords(PageTurn(enabled, net, disk, job, st), st, job)
    {
      TurnOnKeepsRecords(Fetched(enabled, st.cache, st.sent, net, disk, job.endpoint, st.cur), job, st);
    }
  }

  /** The passes of `search_records` count pages, name the job and keep their total that of the pages seen. */
  lemma TurnOfReports(enabled: bool, net: Network, disk: Disk, job: Job)
    ensures Reports(TurnOf(enabled, net, disk, job), job)
  {
    forall st: Loop ensures TurnReports(PageTurn(enabled, net, disk, job, st), st, job) {
      TurnOnReports(Fetched(enabled, st.cache, st.sent, net, disk, job.endpoint, st.cur), job, st);
    }
  }

  /** Each pass of `search_records` sends at most one request; without a cache exactly one, keeping the cache. */
  lemma TurnOfLogs(enabled: bool, net: Network, disk: Disk, job: Job)
    ensures LogsAtMostOne(TurnOf(enabled, net, disk, job))
    ensures !enabled ==> LogsEach(TurnOf(enabled, net, disk, job))
  {
    forall st: Loop ensures var t := PageTurn(enabled, net, disk, job, st);
      st.sent <= SentAfter(t) && |SentAfter(t)| <= |st.sent| + 1
    {
      FetchedRequests(enabled, st.cache, st.sent, net, disk, job.endpoint, st.cur);
      TurnOnState(Fetched(enabled, st.cache, st.sent, net, disk, job.endpoint, st.cur), job, st);
    }
    if !enabled {
      forall st: Loop ensures var t := PageTurn(enabled, net, disk, job, st);
        |SentAfter(t)| == |st.sent| + 1 && CacheAfter(t) == st.cache
      {
        FetchedWithoutCache(st.cache, st.sent, net, disk, job.endpoint, st.cur);
        TurnOnState(Fetched(enabled, st.cache, st.sent, net, disk, job.endpoint, st.cur), job, st);
      }
    }
  }

  /**
    A run from `st` that succeeds keeps the records of `st` in front, is
    truncated exactly when the limit was met, and returns no more than
    `limit` records; from records that are those of the pages seen, it
    returns the records of all pages seen, cut at the limit.
   */
  predicate RunKeepsRecords(job: Job, st: Loop, run: Run)
  {
    run.result.Success? ==>
      var r := run.result.value;
      && st.acc <= r.records
      && (r.truncated <==> job.limit.Some? && |r.records| == job.limit.value)
      && (job.limit.Some? ==> |r.records| <= job.limit.value)
      && (RecordsOfSeen(job, st) ==> r.records == UpTo(AllRecords(job.recordKey, run.seen), job.limit))
  }

  /** Over all passes, the run keeps its records as `RunKeepsRecords` says. */
  lemma {:induction false} PagesRecords(fuel: nat, turn: Loop -> Turn, st: Loop, job: Job)
    requires KeepsRecords(turn, job)
    requires job.limit.Some? ==> |st.acc| < job.limit.value
    ensures RunKeepsRecords(job, st, Pages(fuel, turn, st))
    decreases fuel
  {
    if fuel > 0 {
      var t := turn(st);
      assert TurnKeepsRecords(t, st, job);
      match t
      case Stop(run) => PagesStop(fuel, turn, st, run);
      case Go(next) =>
        PagesRecords(fuel - 1, turn, next, job);
        RecordsLift(job, st, next, Pages(fuel - 1, turn, next));
        PagesGo(fuel, turn, st, next);
    }
  }

  /** Proof-split helper of `PagesRecords`: what the rest of the run keeps from the next state, it keeps from this one. */
  lemma RecordsLift(job: Job, st: Loop, next: Loop, run: Run)
    requires TurnKeepsRecords(Go(next), st, job) && RunKeepsRecords(job, next, run)
    ensures RunKeepsRecords(job, st, run)
  {
    if run.result.Success? {
      PrefixTrans(st.acc, next.acc, run.result.value.records);
    }
  }

  /**
    Over all passes: the pages seen only grow; the result names the job,
    counts its pages, and keeps a total that was not null; from a total and
    count that are those of the pages seen, the result reports the first
    total of all pages seen, and one page for each.
   */
  lemma {:induction false} PagesReport(fuel: nat, turn: Loop -> Turn, st: Loop, job: Job)
    requires Reports(turn, job)
    ensures var run := Pages(fuel, turn, st);
      && st.seen <= run.seen
      && (run.result.Success? ==>
            var r := run.result.value;
            && r.endpoint == job.endpoint && r.params == job.params
            && st.pages < r.pages <= st.pages + fuel && r.retrievedRecords == |r.records|
            && (st.total != Null ==> r.totalRecords == st.total)
            && (TotalOfSeen(st) ==> r.totalRecords == FirstTotal(run.seen) && r.pages == |run.seen|))
    decreases fuel
  {
    if fuel > 0 {
      assert TurnReports(turn(st), st, job);
      if turn(st).Go? {
        var next := turn(st).next;
        PagesReport(fuel - 1, turn, next, job);
        assert st.seen <= next.seen <= Pages(fuel, turn, st).seen;
      }
    }
  }

  /** The request log only grows, by at most one request per page. */
  lemma {:induction false} PagesRequests(fuel: nat, turn: Loop -> Turn, st: Loop, job: Job)
    requires LogsAtMostOne(turn) && Reports(turn, job)
    ensures var run := Pages(fuel, turn, st);
      && st.sent <= run.sent
      && (run.result.Success? ==> |run.sent| <= |st.sent| + run.result.value.pages - st.pages)
    decreases fuel
  {
    if fuel > 0 {
      assert TurnReports(turn(st), st, job);
      assert st.sent <= SentAfter(turn(st)) && |SentAfter(turn(st))| <= |st.sent| + 1;
      if turn(st).Go? {
        PagesRequests(fuel - 1, turn, turn(st).next, job);
      }
    }
  }

  /** When every pass sends one request and keeps the cache, every page is one request and the cache stays. */
  lemma {:induction false} PagesOneRequestEach(fuel: nat, turn: Loop -> Turn, st: Loop, job: Job)
    requires LogsEach(turn) && Reports(turn, job)
    ensures var run := Pages(fuel, turn, st);
      && run.cache == st.cache
      && (run.result.Success? ==> |run.sent| == |st.sent| + run.result.value.pages - st.pages)
    decreases fuel
  {
    if fuel > 0 {
      assert TurnReports(turn(st), st, job);
      assert |SentAfter(turn(st))| == |st.sent| + 1 && CacheAfter(turn(st)) == st.cache;
      if turn(st).Go? {
        PagesOneRequestEach(fuel - 1, turn, turn(st).next, job);
      }
    }
  }

  /** A search without a condition, or with a bad limit, raises before any request and changes nothing. */
  lemma SearchChecksFirst(enabled: bool, cache: map<CacheKey, CacheEntry>, sent: seq<Request>, net: Network, disk: Disk,
                          endpoint: string, recordKey: string, params: Pairs, limitTotal: Value, fuel: nat)
    requires CheckRequiredAnyCondition(params).Fail? || SanitizeLimit(limitTotal).Failure?
    ensures var run := Search(enabled, cache, sent, net, disk, endpoint, recordKey, params, limitTotal, fuel);
      && run.sent == sent && run.cache == cache
      && run.result.Failure? && run.result.error.Raised?
      && run.result.error.error == (if CheckRequiredAnyCondition(params).Fail? then CheckRequiredAnyCondition(params).error
                                    else SanitizeLimit(limitTotal).error)
  {
  }

  /**
    A search that returns reports the caller's endpoint and params, one page
    for each page fetched, the first `totalRecords` of those pages that is
    not null, their wrapped records cut at the limit, and `truncated` exactly
    when a limit was given and met; without a limit it is never truncated.
   */
  lemma SearchResultFacts(enabled: bool, cache: map<CacheKey, CacheEntry>, sent: seq<Request>, net: Network, disk: Disk,
                          endpoint: string, recordKey: string, params: Pairs, limitTotal: Value, fuel: nat)
    requires Search(enabled, cache, sent, net, disk, endpoint, recordKey, params, limitTotal, fuel).result.Success?
    ensures var run := Search(enabled, cache, sent, net, disk, endpoint, recordKey, params, limitTotal, fuel);
      var r := run.result.value;
      && CheckRequiredAnyCondition(params).Pass? && SanitizeLimit(limitTotal).Success?
      && r.endpoint == endpoint && r.params == params
      && 1 <= r.pages <= fuel && r.retrievedRecords == |r.records|
      && r.pages == |run.seen| && r.totalRecords == FirstTotal(run.seen)
      && (var limit := SanitizeLimit(limitTotal).value;
          && r.records == UpTo(AllRecords(recordKey, run.seen), limit)
          && (r.truncated <==> limit.Some? && |r.records| == limit.value)
          && (limit.Some? ==> |r.records| <= limit.value)
          && (limitTotal == Null ==> !r.truncated))
  {
    SearchResultReport(enabled, cache, sent, net, disk, endpoint, recordKey, params, limitTotal, fuel);
    SearchResultLimit(enabled, cache, sent, net, disk, endpoint, recordKey, params, limitTotal, fuel);
  }

  lemma SearchResultReport(enabled: bool, cache: map<CacheKey, CacheEntry>, sent: seq<Request>, net: Network, disk: Disk,
                           endpoint: string, recordKey: string, params: Pairs, limitTotal: Value, fuel: nat)
    requires Search(enabled, cache, sent, net, disk, endpoint, recordKey, params, limitTotal, fuel).result.Success?
    ensures CheckRequiredAnyCondition(params).Pass? && SanitizeLimit(limitTotal).Success?
    ensures var run := Search(enabled, cache, sent, net, disk, endpoint, recordKey, params, limitTotal, fuel);
      var r := run.result.value;
      && r.endpoint == endpoint && r.params == params
      && 1 <= r.pages <= fuel && r.retrievedRecords == |r.records|
      && r.pages == |run.seen| && r.totalRecords == FirstTotal(run.seen)
  {
    var job := Job(endpoint, recordKey, params, SanitizeLimit(limitTotal).value);
    TurnOfReports(enabled, net, disk, job);
    PagesReport(fuel, TurnOf(enabled, net, disk, job), Start(cache, sent, params), job);
  }

  lemma SearchResultLimit(enabled: bool, cache: map<CacheKey, CacheEntry>, sent: seq<Request>, net: Network, disk: Disk,
                          endpoint: string, recordKey: string, params: Pairs, limitTotal: Value, fuel: nat)
    requires Search(enabled, cache, sent, net, disk, endpoint, recordKey, params, limitTotal, fuel).result.Success?
    ensures CheckRequiredAnyCondition(params).Pass? && SanitizeLimit(limitTotal).Success?
    ensures var run := Search(enabled, cache, sent, net, disk, endpoint, recordKey, params, limitTotal, fuel);
      var r, limit := run.result.value, SanitizeLimit(limitTotal).value;
      && r.records == UpTo(AllRecords(recordKey, run.seen), limit)
      && (r.truncated <==> limit.Some? && |r.records| == limit.value)
      && (limit.Some? ==> |r.records| <= limit.value)
      && (limitTotal == Null ==> !r.truncated)
  {
    var limit := SanitizeLimit(limitTotal).value;
    var job := Job(endpoint, recordKey, params, limit);
    var st := Start(cache, sent, params);
    assert Search(enabled, cache, sent, net, disk, endpoint, recordKey, params, limitTotal, fuel)
      == Pages(fuel, TurnOf(enabled, net, disk, job), st);
    SanitizeLimitResult(limitTotal);
    TurnOfKeepsRecords(enabled, net, disk, job);
    PagesRecords(fuel, TurnOf(enabled, net, disk, job), st, job);
  }

  /** A search that returns sent at most one request per page, and exactly one per page without a cache. */
  lemma SearchRequests(enabled: bool, cache: map<CacheKey, CacheEntry>, sent: seq<Request>, net: Network, disk: Disk,
                       endpoint: string, recordKey: string, params: Pairs, limitTotal: Value, fuel: nat)
    ensures var run := Search(enabled, cache, sent, net, disk, endpoint, recordKey, params, limitTotal, fuel);
      && sent <= run.sent
      && (run.result.Success? ==> |run.sent| <= |sent| + run.result.value.pages)
      && (!enabled && run.result.Success? ==> |run.sent| == |sent| + run.result.value.pages)
      && (!enabled ==> run.cache == cache)
  {
    if CheckRequiredAnyCondition(params).Pass? && SanitizeLimit(limitTotal).Success? {
      var job := Job(endpoint, recordKey, params, SanitizeLimit(limitTotal).value);
      var turn := TurnOf(enabled, net, disk, job);
      var st := Start(cache, sent, params);
      TurnOfReports(enabled, net, disk, job);
      TurnOfLogs(enabled, net, disk, job);
      PagesRequests(fuel, turn, st, job);
      if !enabled {
        PagesOneRequestEach(fuel, turn, st, job);
      }
    }
  }

  // ---------------- how a search ends and what it asks for ----------------

  /** So many records reach the limit. */
  predicate Reaches(limit: Option<nat>, count: nat)
  {
    limit.Some? && count >= limit.value
  }

  /** The cursor a page gives for the next request; null on a page that is not a dict. */
  function NextPosition(page: Value): Value
  {
    if page.Object? then Get(page.members, "nextRecordPosition") else Null
  }

  /**
    The loop goes on after a page, given how many records came before it:
    the page has a list of records, with them the records do not reach the
    limit, and its cursor is truthy.
   */
  predicate Continues(job: Job, before: nat, page: Value)
  {
    HasRecordList(job, page) && !Reaches(job.limit, before + PageCount(job.recordKey, page)) &&
    Truthy(NextPosition(page))
  }

  /** The loop went on after each of these pages. */
  predicate AllContinue(job: Job, pages: seq<Value>)
  {
    pages == [] ||
    (var init := pages[..|pages| - 1];
     AllContinue(job, init) && Continues(job, RecordCount(job.recordKey, init), pages[|pages| - 1]))
  }

  /**
    The params of the request after these pages: the caller's, with
    `startRecord` set to the cursor of the last of them, which overwrote
    the cursors before it.
   */
  function Cursor(params: Pairs, pages: seq<Value>): Pairs
  {
    if pages == [] then params
    else Store(params, "startRecord", NextPosition(pages[|pages| - 1]))
  }

  /** The requests for these pages: one per page, with the params the pages before it give. */
  function Asked(endpoint: string, params: Pairs, pages: seq<Value>): seq<Request>
  {
    if pages == [] then []
    else
      var init := pages[..|pages| - 1];
      Asked(endpoint, params, init) + [Request(endpoint, Cursor(params, init))]
  }

  /**
    The network answered the request for each of these pages with that
    page, the first of them being the request sent after `base` others.
   */
  predicate Answered(net: Network, base: nat, endpoint: string, params: Pairs, pages: seq<Value>)
  {
    pages == [] ||
    (var init := pages[..|pages| - 1];
     Answered(net, base, endpoint, params, init) &&
     Gives(net(base + |init|, Request(endpoint, Cursor(params, init))), pages[|pages| - 1]))
  }

  /** A run that ended because fetching the next page raised: every page seen went on, and it failed, not by fuel. */
  predicate EndedByFetch(job: Job, run: Run)
  {
    run.result.Failure? && run.result.error != OutOfFuel && AllContinue(job, run.seen)
  }

  /** One more page went on: all the pages did iff those before did and it does too. */
  lemma ContinueAppend(job: Job, pages: seq<Value>, page: Value)
    ensures AllContinue(job, pages + [page]) <==>
      AllContinue(job, pages) && Continues(job, RecordCount(job.recordKey, pages), page)
  {
    assert (pages + [page])[..|pages|] == pages;
  }

  /** One more page: the cursor moves to its `nextRecordPosition`. */
  lemma CursorAppend(params: Pairs, pages: seq<Value>, page: Value)
    ensures Cursor(params, pages + [page]) == Store(Cursor(params, pages), "startRecord", NextPosition(page))
  {
    if pages != [] {
      StoreStore(params, "startRecord", NextPosition(pages[|pages| - 1]), NextPosition(page));
    }
  }

  /** One more page: one more request, for the cursor of the pages before it. */
  lemma AskedAppend(endpoint: string, params: Pairs, pages: seq<Value>, page: Value)
    ensures Asked(endpoint, params, pages + [page]) == Asked(endpoint, params, pages) + [Request(endpoint, Cursor(params, pages))]
  {
    assert (pages + [page])[..|pages|] == pages;
  }

  /** Each page but the last went on: the pages before page `i` leave records below the limit and a truthy cursor. */
  lemma {:induction false} AllContinueAt(job: Job, pages: seq<Value>, i: nat)
    requires AllContinue(job, pages) && i < |pages|
    ensures Continues(job, RecordCount(job.recordKey, pages[..i]), pages[i])
    decreases |pages|
  {
    var init := pages[..|pages| - 1];
    if i < |init| {
      AllContinueAt(job, init, i);
      assert init[..i] == pages[..i];
    }
  }

  /** After pages that all went on, the records so far are below the limit. */
  lemma ContinuedBelowLimit(job: Job, pages: seq<Value>)
    requires AllContinue(job, pages) && pages != []
    ensures !Reaches(job.limit, RecordCount(job.recordKey, pages))
  {
  }

  /** One request for each page. */
  lemma {:induction false} AskedLength(endpoint: string, params: Pairs, pages: seq<Value>)
    ensures |Asked(endpoint, params, pages)| == |pages|
    decreases |pages|
  {
    if pages != [] {
      AskedLength(endpoint, params, pages[..|pages| - 1]);
    }
  }

  /** The `i`-th request is the one for page `i`, with the params the pages before it give. */
  lemma {:induction false} AskedAt(endpoint: string, params: Pairs, pages: seq<Value>)
    ensures |Asked(endpoint, params, pages)| == |pages|
    ensures forall i :: 0 <= i < |pages| ==> Asked(endpoint, params, pages)[i] == Request(endpoint, Cursor(params, pages[..i]))
    decreases |pages|
  {
    if pages != [] {
      var init := pages[..|pages| - 1];
      AskedAt(endpoint, params, init);
      forall i | 0 <= i < |init| ensures init[..i] == pages[..i] { }
    }
  }

  /** The `i`-th page is the network's answer to the `i`-th request after `base`. */
  lemma {:induction false} AnsweredAt(net: Network, base: nat, endpoint: string, params: Pairs, pages: seq<Value>, i: nat)
    requires Answered(net, base, endpoint, params, pages) && i < |pages|
    ensures Gives(net(base + i, Request(endpoint, Cursor(params, pages[..i]))), pages[i])
    decreases |pages|
  {
    var init := pages[..|pages| - 1];
    if i < |init| {
      AnsweredAt(net, base, endpoint, params, init, i);
      assert init[..i] == pages[..i];
    }
  }

  /**
    The first request carries the caller's params as they are; every later
    one differs from them only in `startRecord`, which is the cursor of the
    page before it.
   */
  lemma CursorLookup(params: Pairs, pages: seq<Value>, k: string)
    ensures pages == [] ==> Cursor(params, pages) == params
    ensures k != "startRecord" ==> Lookup(Cursor(params, pages), k) == Lookup(params, k)
    ensures pages != [] && k == "startRecord" ==> Lookup(Cursor(params, pages), k) == Some(NextPosition(pages[|pages| - 1]))
  {
    if pages != [] {
      StoreLookup(params, "startRecord", NextPosition(pages[|pages| - 1]), k);
    }
  }

  /**
    A page goes on exactly when it continues; it finishes the search with a
    result exactly when it has a list of records and does not continue,
    truncated exactly when its records reach the limit; any other page fails
    with its page error; going on sets `startRecord` to its cursor.
   */
  lemma PageStepOutcome(job: Job, data: Value, cur: Pairs, acc: seq<Pairs>, pages: nat, total: Value)
    requires job.limit.Some? ==> |acc| < job.limit.value
    ensures var s := PageStep(job, data, cur, acc, pages, total);
      && (s.Next? <==> Continues(job, |acc|, data))
      && (s.Finish? && s.result.Success? <==> HasRecordList(job, data) && !Continues(job, |acc|, data))
      && (!HasRecordList(job, data) ==> s == Finish(Failure(PageError(job, data))))
      && (s.Finish? && s.result.Success? ==>
            (s.result.value.truncated <==> Reaches(job.limit, |acc| + PageCount(job.recordKey, data))))
      && (s.Next? ==> s.cur == Store(cur, "startRecord", NextPosition(data)))
      && (s.Next? ==> |s.acc| == |acc| + PageCount(job.recordKey, data))
  {
    if HasRecordList(job, data) {
      AbsorbContents(acc, RawRecords(data.members, job.recordKey).items, job.limit);
    }
  }

  /**
    A pass that sees no page stops on the error its fetch raised; a pass
    that sees a page goes on exactly when that page continues, moving the
    cursor, and otherwise stops with a result exactly when the page has a
    list of records (truncated exactly when the limit is reached), or with
    the page's error.
   */
  ghost predicate TurnOutcome(t: Turn, st: Loop, job: Job)
  {
    && (SeenAfter(t) == st.seen ==> t.Stop? && t.run.result.Failure? && t.run.result.error.Raised?)
    && (|SeenAfter(t)| == |st.seen| + 1 ==>
          var d := SeenAfter(t)[|st.seen|];
          && (t.Go? <==> Continues(job, |st.acc|, d))
          && (t.Go? ==> t.next.cur == Store(st.cur, "startRecord", NextPosition(d)))
          && (t.Go? ==> |t.next.acc| == |st.acc| + PageCount(job.recordKey, d))
          && (t.Stop? ==> (t.run.result.Success? <==> HasRecordList(job, d)))
          && (t.Stop? && t.run.result.Failure? ==> t.run.result.error == PageError(job, d))
          && (t.Stop? && t.run.result.Success? ==>
                (t.run.result.value.truncated <==> Reaches(job.limit, |st.acc| + PageCount(job.recordKey, d)))))
  }

  ghost predicate Outcomes(turn: Loop -> Turn, job: Job)
  {
    forall st: Loop :: (job.limit.Some? ==> |st.acc| < job.limit.value) ==> TurnOutcome(turn(st), st, job)
  }

  /**
    Without a cache: a pass sends the request for its params and keeps the
    cache; the page it sees, or the error it stops on, is the network's
    answer to that request.
   */
  ghost predicate TurnAsks(t: Turn, st: Loop, job: Job, net: Network)
  {
    var req := Request(job.endpoint, st.cur);
    && SentAfter(t) == st.sent + [req]
    && CacheAfter(t) == st.cache
    && (|SeenAfter(t)| == |st.seen| + 1 ==> Gives(net(|st.sent|, req), SeenAfter(t)[|st.seen|]))
    && (SeenAfter(t) == st.seen ==>
          && t.Stop? && t.run.result.Failure? && t.run.result.error.Raised?
          && Classify(job.endpoint, net(|st.sent|, req)) == Failure(t.run.result.error.error))
  }

  ghost predicate Asks(turn: Loop -> Turn, job: Job, net: Network)
  {
    forall st: Loop :: TurnAsks(turn(st), st, job, net)
  }

  /** How a pass ends or goes on, whatever the fetch gave. */
  lemma TurnOnOutcome(f: Fetch, job: Job, st: Loop)
    requires job.limit.Some? ==> |st.acc| < job.limit.value
    ensures TurnOutcome(TurnOn(f, job, st), st, job)
  {
    if f.result.Success? {
      var data := f.result.value;
      var step := PageStep(job, data, st.cur, st.acc, st.pages + 1, st.total);
      TurnOnStep(f, job, st, data, st.pages + 1, step);
      PageStepOutcome(job, data, st.cur, st.acc, st.pages + 1, st.total);
    }
  }

  /** The passes of `search_records` end or go on as their page says. */
  lemma TurnOfOutcomes(enabled: bool, net: Network, disk: Disk, job: Job)
    ensures Outcomes(TurnOf(enabled, net, disk, job), job)
  {
    forall st: Loop | job.limit.Some? ==> |st.acc| < job.limit.value
      ensures TurnOutcome(PageTurn(enabled, net, disk, job, st), st, job)
    {
      TurnOnOutcome(Fetched(enabled, st.cache, st.sent, net, disk, job.endpoint, st.cur), job, st);
    }
  }

  /** Without a cache, each pass of `search_records` asks the network for its params. */
  lemma TurnOfAsks(net: Network, disk: Disk, job: Job)
    ensures Asks(TurnOf(false, net, disk, job), job, net)
  {
    forall st: Loop ensures TurnAsks(TurnOf(false, net, disk, job)(st), st, job, net) {
      TurnAsksAt(net, disk, job, st);
    }
  }

  /** Proof-split helper of `TurnOfAsks` and `PagesAsks`, for one state. */
  lemma TurnAsksAt(net: Network, disk: Disk, job: Job, st: Loop)
    ensures TurnAsks(TurnOf(false, net, disk, job)(st), st, job, net)
  {
    var f := Fetched(false, st.cache, st.sent, net, disk, job.endpoint, st.cur);
    FetchedRequests(false, st.cache, st.sent, net, disk, job.endpoint, st.cur);
    FetchedWithoutCache(st.cache, st.sent, net, disk, job.endpoint, st.cur);
    TurnOnState(f, job, st);
    ClassifySuccess(job.endpoint, net(|st.sent|, Request(job.endpoint, st.cur)));
  }

  /** The state of the loop follows the pages it has seen: it holds as many records as they have, below the limit, and each of them went on. */
  predicate FollowsSeen(job: Job, st: Loop)
  {
    && |st.acc| == RecordCount(job.recordKey, st.seen)
    && (job.limit.Some? ==> |st.acc| < job.limit.value)
    && AllContinue(job, st.seen)
  }

  /**
    A pass from a state that follows its pages ends or goes on as its page
    says, sees at most that page, and goes on to a state that follows its
    pages too.
   */
  ghost predicate PassFollows(t: Turn, st: Loop, job: Job)
  {
    && TurnOutcome(t, st, job)
    && st.seen <= SeenAfter(t)
    && (SeenAfter(t) == st.seen || (|SeenAfter(t)| == |st.seen| + 1 && SeenAfter(t) == st.seen + [SeenAfter(t)[|st.seen|]]))
    && (t.Go? ==> |t.next.seen| == |st.seen| + 1 && FollowsSeen(job, t.next))
  }

  /** A pass of `search_records` from a state that follows its pages follows them too. */
  lemma PassFollowsAt(enabled: bool, net: Network, disk: Disk, job: Job, st: Loop)
    requires FollowsSeen(job, st)
    ensures PassFollows(TurnOf(enabled, net, disk, job)(st), st, job)
  {
    TurnOfReports(enabled, net, disk, job);
    TurnOfOutcomes(enabled, net, disk, job);
    TurnFollows(TurnOf(enabled, net, disk, job), st, job);
  }

  /** Proof-split helper of `PassFollowsAt`: passes that report and end as their page says follow their pages. */
  lemma TurnFollows(turn: Loop -> Turn, st: Loop, job: Job)
    requires Reports(turn, job) && Outcomes(turn, job)
    requires FollowsSeen(job, st)
    ensures PassFollows(turn(st), st, job)
  {
    var t := turn(st);
    assert TurnReports(t, st, job) && TurnOutcome(t, st, job);
    if SeenAfter(t) != st.seen {
      var d := SeenAfter(t)[|st.seen|];
      OneMore(st.seen, SeenAfter(t));
      ContinueAppend(job, st.seen, d);
      RecordCountAppend(job.recordKey, st.seen, d);
    }
  }

  /** A prefix of a prefix is a prefix. */
  lemma PrefixTrans<T>(a: seq<T>, b: seq<T>, c: seq<T>)
    requires a <= b && b <= c
    ensures a <= c
  {
    assert c[..|b|][..|a|] == c[..|a|];
  }

  /** A sequence one longer than its prefix is that prefix and one more element. */
  lemma OneMore<T>(a: seq<T>, b: seq<T>)
    requires a <= b && |b| == |a| + 1
    ensures b == a + [b[|a|]]
  {
    assert b[..|a|] == a;
    assert b == b[..|a|] + [b[|a|]];
  }

  /**
    How a run that could see `bound` pages in all ended: by fuel only after
    `bound` pages that all went on; on a fetch error before that; on a page
    without a list of records, after pages that went on, with that page's
    error; or with a result exactly when its last page has a list of records
    and does not continue, truncated exactly when the records of all its
    pages reach the limit.
   */
  ghost predicate RunOutcome(job: Job, run: Run, bound: nat)
  {
    var seen := run.seen;
    && (run.result == Failure(OutOfFuel) ==> |seen| == bound && AllContinue(job, seen))
    && (EndedByFetch(job, run) ==> |seen| < bound && run.result.error.Raised?)
    && (run.result.Failure? && !AllContinue(job, seen) ==>
          && seen != []
          && AllContinue(job, seen[..|seen| - 1])
          && !HasRecordList(job, seen[|seen| - 1])
          && run.result.error == PageError(job, seen[|seen| - 1]))
    && (run.result.Success? ==>
          && seen != []
          && AllContinue(job, seen[..|seen| - 1])
          && HasRecordList(job, seen[|seen| - 1])
          && !Continues(job, RecordCount(job.recordKey, seen[..|seen| - 1]), seen[|seen| - 1])
          && (run.result.value.truncated <==> Reaches(job.limit, RecordCount(job.recordKey, seen))))
  }

  /** Proof-split helper of `PagesOutcome`: a pass that stops on its page ends the run as `RunOutcome` says. */
  lemma StopOnPage(t: Turn, st: Loop, job: Job, bound: nat, d: Value)
    requires bound > |st.seen| && t.Stop? && FollowsSeen(job, st)
    requires t.run.seen == st.seen + [d] && TurnOutcome(t, st, job)
    ensures RunOutcome(job, t.run, bound)
  {
    var seen := t.run.seen;
    assert seen[..|seen| - 1] == st.seen && seen[|seen| - 1] == d;
    ContinueAppend(job, st.seen, d);
    RecordCountAppend(job.recordKey, st.seen, d);
  }

  /** Proof-split helper of `PagesOutcome`: a pass that stops without a page ends the run on its fetch error. */
  lemma StopNoPage(t: Turn, st: Loop, job: Job, bound: nat)
    requires bound > |st.seen| && t.Stop? && FollowsSeen(job, st)
    requires t.run.seen == st.seen && TurnOutcome(t, st, job)
    ensures RunOutcome(job, t.run, bound)
  {
  }

  /** Proof-split helper of `PagesOutcome`: a run with no passes left ends by fuel. */
  lemma NoFuelOutcome(turn: Loop -> Turn, st: Loop, job: Job, bound: nat)
    requires FollowsSeen(job, st) && bound == |st.seen|
    ensures RunOutcome(job, Pages(0, turn, st), bound)
  {
  }

  /** Proof-split helper of `PagesOutcome`: a pass that goes on ends the run as the rest of the loop does. */
  lemma GoOutcome(fuel: nat, enabled: bool, net: Network, disk: Disk, job: Job, st: Loop, next: Loop, bound: nat)
    requires fuel > 0 && Pages(fuel, TurnOf(enabled, net, disk, job), st) == Pages(fuel - 1, TurnOf(enabled, net, disk, job), next)
    requires FollowsSeen(job, next) && bound == |next.seen| + (fuel - 1)
    ensures RunOutcome(job, Pages(fuel, TurnOf(enabled, net, disk, job), st), bound)
    decreases fuel, 0
  {
    PagesOutcome(fuel - 1, enabled, net, disk, job, next, bound);
  }

  /**
    Over all passes from a state that follows its pages, the run ends as
    `RunOutcome` says, `bound` being the number of pages it could see.
   */
  lemma {:induction false} PagesOutcome(fuel: nat, enabled: bool, net: Network, disk: Disk, job: Job, st: Loop, bound: nat)
    requires FollowsSeen(job, st) && bound == |st.seen| + fuel
    ensures RunOutcome(job, Pages(fuel, TurnOf(enabled, net, disk, job), st), bound)
    decreases fuel, 1
  {
    var turn := TurnOf(enabled, net, disk, job);
    if fuel > 0 {
      var t := turn(st);
      PassFollowsAt(enabled, net, disk, job, st);
      if t.Stop? {
        PagesStop(fuel, turn, st, t.run);
        if t.run.seen == st.seen {
          StopNoPage(t, st, job, bound);
        } else {
          StopOnPage(t, st, job, bound, t.run.seen[|st.seen|]);
        }
      } else {
        PagesGo(fuel, turn, st, t.next);
        GoOutcome(fuel, enabled, net, disk, job, st, t.next, bound);
      }
    } else {
      NoFuelOutcome(turn, st, job, bound);
    }
  }

  /**
    Without a cache, how a run sent its requests after `base`: each page
    seen is the network's answer to the request for it; the requests sent
    are those for the pages seen, followed by the request whose fetch raised
    when that is how the run ended.
   */
  ghost predicate RunAsks(job: Job, net: Network, base: seq<Request>, run: Run)
  {
    && Answered(net, |base|, job.endpoint, job.params, run.seen)
    && run.sent == base + Asked(job.endpoint, job.params, run.seen) +
         (if EndedByFetch(job, run) then [Request(job.endpoint, Cursor(job.params, run.seen))] else [])
    && (EndedByFetch(job, run) ==>
          && run.result.error.Raised?
          && Classify(job.endpoint, net(|run.sent| - 1, run.sent[|run.sent| - 1])) == Failure(run.result.error.error))
  }

  /** Proof-split helper of `StopAsks` and `GoAsks`: the request for one more page extends the requests and the answers. */
  lemma AskedStep(job: Job, net: Network, base: seq<Request>, st: Loop, page: Value, sent: seq<Request>)
    requires st.cur == Cursor(job.params, st.seen)
    requires st.sent == base + Asked(job.endpoint, job.params, st.seen)
    requires Answered(net, |base|, job.endpoint, job.params, st.seen)
    requires sent == st.sent + [Request(job.endpoint, st.cur)]
    requires Gives(net(|st.sent|, Request(job.endpoint, st.cur)), page)
    ensures sent == base + Asked(job.endpoint, job.params, st.seen + [page])
    ensures Answered(net, |base|, job.endpoint, job.params, st.seen + [page])
  {
    SentStep(job.endpoint, job.params, base, st.seen, page, st.sent, sent);
    AskedLength(job.endpoint, job.params, st.seen);
    AnsweredStep(net, |base|, job.endpoint, job.params, st.seen, page, |st.sent|);
  }

  /** Proof-split helper of `AskedStep`: the request for one more page extends the requests. */
  lemma SentStep(endpoint: string, params: Pairs, base: seq<Request>, pages: seq<Value>, page: Value,
                 before: seq<Request>, after: seq<Request>)
    requires before == base + Asked(endpoint, params, pages)
    requires after == before + [Request(endpoint, Cursor(params, pages))]
    ensures after == base + Asked(endpoint, params, pages + [page])
  {
    AskedAppend(endpoint, params, pages, page);
    AppendAssoc(base, Asked(endpoint, params, pages), [Request(endpoint, Cursor(params, pages))]);
  }

  /** Proof-split helper of `AskedStep`: the answer to the request for one more page extends the answers. */
  lemma AnsweredStep(net: Network, base: nat, endpoint: string, params: Pairs, pages: seq<Value>, page: Value, n: nat)
    requires Answered(net, base, endpoint, params, pages) && n == base + |pages|
    requires Gives(net(n, Request(endpoint, Cursor(params, pages))), page)
    ensures Answered(net, base, endpoint, params, pages + [page])
  {
    var all := pages + [page];
    assert all[..|all| - 1] == pages;
    assert all[|all| - 1] == page;
  }

  /** Proof-split helper of `PagesAsks`: a pass that stops ends the run as `RunAsks` says. */
  lemma StopAsks(t: Turn, st: Loop, job: Job, net: Network, base: seq<Request>)
    requires t.Stop? && FollowsSeen(job, st) && st.cur == Cursor(job.params, st.seen)
    requires PassFollows(t, st, job) && TurnAsks(t, st, job, net)
    requires st.sent == base + Asked(job.endpoint, job.params, st.seen)
    requires Answered(net, |base|, job.endpoint, job.params, st.seen)
    ensures RunAsks(job, net, base, t.run)
  {
    if t.run.seen == st.seen {
      StopNoPageAsks(t, st, job, net, base);
    } else {
      var d := t.run.seen[|st.seen|];
      assert t.run.seen == st.seen + [d];
      StopOnPageAsks(t, st, job, net, base, d);
    }
  }

  /** Proof-split helper of `StopAsks`: a pass that stops without a page ended the run on the error its request got. */
  lemma StopNoPageAsks(t: Turn, st: Loop, job: Job, net: Network, base: seq<Request>)
    requires t.Stop? && t.run.seen == st.seen && AllContinue(job, st.seen)
    requires t.run.sent == st.sent + [Request(job.endpoint, st.cur)]
    requires t.run.result.Failure? && t.run.result.error.Raised?
    requires Classify(job.endpoint, net(|st.sent|, Request(job.endpoint, st.cur))) == Failure(t.run.result.error.error)
    requires st.cur == Cursor(job.params, st.seen)
    requires st.sent == base + Asked(job.endpoint, job.params, st.seen)
    requires Answered(net, |base|, job.endpoint, job.params, st.seen)
    ensures RunAsks(job, net, base, t.run)
  {
    assert EndedByFetch(job, t.run);
  }

  /** Proof-split helper of `StopAsks`: a pass that stops on its page sent the request for it, and the run did not end on a fetch. */
  lemma StopOnPageAsks(t: Turn, st: Loop, job: Job, net: Network, base: seq<Request>, d: Value)
    requires t.Stop? && t.run.seen == st.seen + [d] && !Continues(job, RecordCount(job.recordKey, st.seen), d)
    requires t.run.sent == st.sent + [Request(job.endpoint, st.cur)]
    requires Gives(net(|st.sent|, Request(job.endpoint, st.cur)), d)
    requires st.cur == Cursor(job.params, st.seen)
    requires st.sent == base + Asked(job.endpoint, job.params, st.seen)
    requires Answered(net, |base|, job.endpoint, job.params, st.seen)
    ensures RunAsks(job, net, base, t.run)
  {
    AskedStep(job, net, base, st, d, t.run.sent);
    ContinueAppend(job, st.seen, d);
  }

  /**
    Proof-split helper of `PagesAsks`: a pass that goes on leaves the
    requests those of the pages seen, and its params the cursor of the last.
   */
  lemma GoAsks(t: Turn, st: Loop, job: Job, net: Network, base: seq<Request>)
    requires t.Go? && st.cur == Cursor(job.params, st.seen)
    requires PassFollows(t, st, job) && TurnAsks(t, st, job, net)
    requires st.sent == base + Asked(job.endpoint, job.params, st.seen)
    requires Answered(net, |base|, job.endpoint, job.params, st.seen)
    ensures t.next.cur == Cursor(job.params, t.next.seen)
    ensures t.next.sent == base + Asked(job.endpoint, job.params, t.next.seen)
    ensures Answered(net, |base|, job.endpoint, job.params, t.next.seen)
  {
    var d := t.next.seen[|st.seen|];
    assert t.next.seen == st.seen + [d];
    AskedStep(job, net, base, st, d, t.next.sent);
    CursorAppend(job.params, st.seen, d);
  }

  /** Proof-split helper of `PagesAsks`: a pass that goes on asks as the rest of the loop does. */
  lemma RestAsks(fuel: nat, net: Network, disk: Disk, job: Job, st: Loop, base: seq<Request>, next: Loop)
    requires fuel > 0 && TurnOf(false, net, disk, job)(st) == Go(next) && next.cache == st.cache
    requires FollowsSeen(job, next) && next.cur == Cursor(job.params, next.seen)
    requires next.sent == base + Asked(job.endpoint, job.params, next.seen)
    requires Answered(net, |base|, job.endpoint, job.params, next.seen)
    ensures Pages(fuel, TurnOf(false, net, disk, job), st).cache == st.cache
    ensures RunAsks(job, net, base, Pages(fuel, TurnOf(false, net, disk, job), st))
    decreases fuel, 0
  {
    PagesAsks(fuel - 1, net, disk, job, next, base);
    RestLift(fuel, TurnOf(false, net, disk, job), st, job, net, base, next);
  }

  /** Proof-split helper of `RestAsks`: how the rest of the loop asks is how the whole loop asks. */
  lemma RestLift(fuel: nat, turn: Loop -> Turn, st: Loop, job: Job, net: Network, base: seq<Request>, next: Loop)
    requires fuel > 0 && turn(st) == Go(next) && next.cache == st.cache
    requires Pages(fuel - 1, turn, next).cache == next.cache && RunAsks(job, net, base, Pages(fuel - 1, turn, next))
    ensures Pages(fuel, turn, st).cache == st.cache && RunAsks(job, net, base, Pages(fuel, turn, st))
  {
    PagesGo(fuel, turn, st, next);
  }

  /**
    Without a cache, over all passes from a state that follows its pages
    and whose params are the cursor of its last page: the cache stays, and
    the run asks as `RunAsks` says.
   */
  lemma {:induction false} PagesAsks(fuel: nat, net: Network, disk: Disk, job: Job, st: Loop, base: seq<Request>)
    requires FollowsSeen(job, st) && st.cur == Cursor(job.params, st.seen)
    requires st.sent == base + Asked(job.endpoint, job.params, st.seen)
    requires Answered(net, |base|, job.endpoint, job.params, st.seen)
    ensures Pages(fuel, TurnOf(false, net, disk, job), st).cache == st.cache
    ensures RunAsks(job, net, base, Pages(fuel, TurnOf(false, net, disk, job), st))
    decreases fuel, 1
  {
    var turn := TurnOf(false, net, disk, job);
    if fuel == 0 {
      assert !EndedByFetch(job, Pages(fuel, turn, st));
    } else {
      var t := turn(st);
      PassFollowsAt(false, net, disk, job, st);
      TurnAsksAt(net, disk, job, st);
      if t.Stop? {
        PagesStop(fuel, turn, st, t.run);
        StopAsks(t, st, job, net, base);
      } else {
        GoAsks(t, st, job, net, base);
        RestAsks(fuel, net, disk, job, st, base, t.next);
      }
    }
  }

  /**
    How `search_records` ends, once both checks pass. Every page but the
    last went on, leaving records below the limit with a truthy cursor. It
    returns exactly when its last page has a list of records and does not go
    on; the result is truncated exactly when the records of all pages reach
    the limit, and otherwise the last cursor is falsy. It runs out of fuel
    exactly after `fuel` pages that all went on. Any other failure is the
    error of a fetch after pages that all went on, or the error of a last
    page without a list of records.
   */
  lemma SearchOutcome(enabled: bool, cache: map<CacheKey, CacheEntry>, sent: seq<Request>, net: Network, disk: Disk,
                      endpoint: string, recordKey: string, params: Pairs, limitTotal: Value, fuel: nat)
    requires CheckRequiredAnyCondition(params).Pass? && SanitizeLimit(limitTotal).Success?
    ensures var run, job := Search(enabled, cache, sent, net, disk, endpoint, recordKey, params, limitTotal, fuel),
                            Job(endpoint, recordKey, params, SanitizeLimit(limitTotal).value);
      var seen := run.seen;
      && (seen != [] ==>
            AllContinue(job, seen[..|seen| - 1]) && !Reaches(job.limit, RecordCount(recordKey, seen[..|seen| - 1])))
      && (run.result.Success? <==>
            && seen != []
            && HasRecordList(job, seen[|seen| - 1])
            && !Continues(job, RecordCount(recordKey, seen[..|seen| - 1]), seen[|seen| - 1]))
      && (run.result.Success? ==>
            && (run.result.value.truncated <==> Reaches(job.limit, RecordCount(recordKey, seen)))
            && (!run.result.value.truncated ==> !Truthy(NextPosition(seen[|seen| - 1]))))
      && (run.result == Failure(OutOfFuel) <==> |seen| == fuel && AllContinue(job, seen))
      && (EndedByFetch(job, run) ==> |seen| < fuel && run.result.error.Raised?)
      && (run.result.Failure? && !AllContinue(job, seen) ==>
            seen != [] && !HasRecordList(job, seen[|seen| - 1]) && run.result.error == PageError(job, seen[|seen| - 1]))
  {
    var job := Job(endpoint, recordKey, params, SanitizeLimit(limitTotal).value);
    SearchIsPages(enabled, cache, sent, net, disk, endpoint, recordKey, params, limitTotal, fuel);
    SanitizeLimitResult(limitTotal);
    StartFollows(job, cache, sent);
    PagesOutcome(fuel, enabled, net, disk, job, Start(cache, sent, params), fuel);
    RunEnds(job, Pages(fuel, TurnOf(enabled, net, disk, job), Start(cache, sent, params)), fuel);
  }

  /** Proof-split helper of `SearchOutcome` and `SearchAsks`: once both checks pass, the search is its loop from the start. */
  lemma SearchIsPages(enabled: bool, cache: map<CacheKey, CacheEntry>, sent: seq<Request>, net: Network, disk: Disk,
                      endpoint: string, recordKey: string, params: Pairs, limitTotal: Value, fuel: nat)
    requires CheckRequiredAnyCondition(params).Pass? && SanitizeLimit(limitTotal).Success?
    ensures Search(enabled, cache, sent, net, disk, endpoint, recordKey, params, limitTotal, fuel)
      == Pages(fuel, TurnOf(enabled, net, disk, Job(endpoint, recordKey, params, SanitizeLimit(limitTotal).value)), Start(cache, sent, params))
  {
  }

  /** Proof-split helper of `SearchAsks`: a limit that passes is at least one. */
  lemma LimitPositive(limitTotal: Value)
    requires SanitizeLimit(limitTotal).Success?
    ensures SanitizeLimit(limitTotal).value.Some? ==> SanitizeLimit(limitTotal).value.value >= 1
  {
  }

  /** Proof-split helper of `SearchOutcome` and `SearchAsks`: the loop starts from a state that follows its pages. */
  lemma StartFollows(job: Job, cache: map<CacheKey, CacheEntry>, sent: seq<Request>)
    requires job.limit.Some? ==> job.limit.value >= 1
    ensures FollowsSeen(job, Start(cache, sent, job.params))
  {
  }

  /** Proof-split helper of `SearchOutcome`: what `RunOutcome` says of a run from no pages, page by page. */
  lemma RunEnds(job: Job, run: Run, fuel: nat)
    requires job.limit.Some? ==> job.limit.value >= 1
    requires RunOutcome(job, run, fuel)
    ensures var seen := run.seen;
      && (seen != [] ==>
            AllContinue(job, seen[..|seen| - 1]) && !Reaches(job.limit, RecordCount(job.recordKey, seen[..|seen| - 1])))
      && (run.result.Success? <==>
            && seen != []
            && HasRecordList(job, seen[|seen| - 1])
            && !Continues(job, RecordCount(job.recordKey, seen[..|seen| - 1]), seen[|seen| - 1]))
      && (run.result.Success? ==>
            && (run.result.value.truncated <==> Reaches(job.limit, RecordCount(job.recordKey, seen)))
            && (!run.result.value.truncated ==> !Truthy(NextPosition(seen[|seen| - 1]))))
      && (run.result == Failure(OutOfFuel) <==> |seen| == fuel && AllContinue(job, seen))
      && (EndedByFetch(job, run) ==> |seen| < fuel && run.result.error.Raised?)
      && (run.result.Failure? && !AllContinue(job, seen) ==>
            seen != [] && !HasRecordList(job, seen[|seen| - 1]) && run.result.error == PageError(job, seen[|seen| - 1]))
  {
    var seen := run.seen;
    if seen != [] {
      var init, last := seen[..|seen| - 1], seen[|seen| - 1];
      assert seen == init + [last];
      LastPage(job, init, last);
    }
  }

  /**
    Proof-split helper of `RunEnds`: after pages that all went on, the
    records are below the limit, and a last page with a list of records that
    does not go on and leaves them below the limit has a falsy cursor.
   */
  lemma LastPage(job: Job, init: seq<Value>, last: Value)
    requires job.limit.Some? ==> job.limit.value >= 1
    requires AllContinue(job, init)
    ensures !Reaches(job.limit, RecordCount(job.recordKey, init))
    ensures RecordCount(job.recordKey, init + [last]) == RecordCount(job.recordKey, init) + PageCount(job.recordKey, last)
    ensures (&& HasRecordList(job, last)
             && !Continues(job, RecordCount(job.recordKey, init), last)
             && !Reaches(job.limit, RecordCount(job.recordKey, init + [last])))
            ==> !Truthy(NextPosition(last))
  {
    if init != [] {
      ContinuedBelowLimit(job, init);
    }
    RecordCountAppend(job.recordKey, init, last);
  }

  /**
    Without a cache, the requests `search_records` sends: the first carries
    the caller's params, each later one sets `startRecord` to the cursor of
    the page before it, the network's answer to each is the page seen, and a
    run that ended on a fetch error sent one more request, whose answer is
    that error. The cache is left alone.
   */
  lemma SearchAsks(cache: map<CacheKey, CacheEntry>, sent: seq<Request>, net: Network, disk: Disk,
                   endpoint: string, recordKey: string, params: Pairs, limitTotal: Value, fuel: nat)
    requires CheckRequiredAnyCondition(params).Pass? && SanitizeLimit(limitTotal).Success?
    ensures var run, job := Search(false, cache, sent, net, disk, endpoint, recordKey, params, limitTotal, fuel),
                            Job(endpoint, recordKey, params, SanitizeLimit(limitTotal).value);
      && run.cache == cache
      && Answered(net, |sent|, endpoint, params, run.seen)
      && run.sent == sent + Asked(endpoint, params, run.seen) +
           (if EndedByFetch(job, run) then [Request(endpoint, Cursor(params, run.seen))] else [])
      && (EndedByFetch(job, run) ==>
            && run.result.error.Raised?
            && Classify(endpoint, net(|run.sent| - 1, run.sent[|run.sent| - 1])) == Failure(run.result.error.error))
  {
    SearchRunAsks(cache, sent, net, disk, endpoint, recordKey, params, limitTotal, fuel);
  }

  /** Proof-split helper of `SearchAsks`: `RunAsks` of the search itself. */
  lemma SearchRunAsks(cache: map<CacheKey, CacheEntry>, sent: seq<Request>, net: Network, disk: Disk,
                      endpoint: string, recordKey: string, params: Pairs, limitTotal: Value, fuel: nat)
    requires CheckRequiredAnyCondition(params).Pass? && SanitizeLimit(limitTotal).Success?
    ensures Search(false, cache, sent, net, disk, endpoint, recordKey, params, limitTotal, fuel).cache == cache
    ensures RunAsks(Job(endpoint, recordKey, params, SanitizeLimit(limitTotal).value), net, sent,
                    Search(false, cache, sent, net, disk, endpoint, recordKey, params, limitTotal, fuel))
  {
    var job := Job(endpoint, recordKey, params, SanitizeLimit(limitTotal).value);
    SearchIsPages(false, cache, sent, net, disk, endpoint, recordKey, params, limitTotal, fuel);
    LimitPositive(limitTotal);
    LoopAsks(net, disk, job, cache, sent, fuel);
  }

  /** Proof-split helper of `SearchAsks`: without a cache, the loop from the start asks as `RunAsks` says. */
  lemma LoopAsks(net: Network, disk: Disk, job: Job, cache: map<CacheKey, CacheEntry>, sent: seq<Request>, fuel: nat)
    requires job.limit.Some? ==> job.limit.value >= 1
    ensures Pages(fuel, TurnOf(false, net, disk, job), Start(cache, sent, job.params)).cache == cache
    ensures RunAsks(job, net, sent, Pages(fuel, TurnOf(false, net, disk, job), Start(cache, sent, job.params)))
  {
    StartFollows(job, cache, sent);
    assert sent == sent + Asked(job.endpoint, job.params, []);
    PagesAsks(fuel, net, disk, job, Start(cache, sent, job.params), sent);
  }

  // ---------------- the client object ----------------

  /** `_DietCore`: the API root, the cache directory if any, and the requests sent so far. */
  class DietCore {
    const baseUrl: string
    const cacheEnabled: bool
    var cache: map<CacheKey, CacheEntry>
    var sent: seq<Request>

    /** `cacheDir` says whether a cache directory was given; `files` is what it already holds. */
    constructor (baseUrl: string, cacheDir: bool, files: map<CacheKey, CacheEntry>)
      ensures this.baseUrl == RStripSlash(baseUrl)
      ensures cacheEnabled == cacheDir && cache == files && sent == []
    {
      this.baseUrl := RStripSlash(baseUrl);
      cacheEnabled := cacheDir;
      cache := files;
      sent := [];
    }

    method LoadFromCache(endpoint: string, params: Pairs) returns (data: Value)
      ensures data == CachedValue(cacheEnabled, cache, endpoint, params)
    {
      if !cacheEnabled {
        return Null;
      }
      var key := CacheKeyOf(endpoint, params);
      if key !in cache {
        return Null;
      }
      match cache[key]
      case Stored(v) => data := v;
      case Unreadable => data := Null;
    }

    method SaveToCache(endpoint: string, params: Pairs, data: Value, w: WriteOutcome)
      modifies this`cache
      ensures cache == CacheAfterSave(cacheEnabled, old(cache), endpoint, params, data, w)
    {
      if !cacheEnabled {
        return;
      }
      var key := CacheKeyOf(endpoint, params);
      match w
      case Written => cache := cache[key := Stored(data)];
      case NotOpened =>
      case BrokenOff => cache := cache[key := Unreadable];
    }

    method RequestJson(endpoint: string, params: Pairs, net: Network, disk: Disk)
      returns (r: Result<Value, DietSearchError>)
      modifies this`cache, this`sent
      ensures var f := Fetched(cacheEnabled, old(cache), old(sent), net, disk, endpoint, params);
        r == f.result && cache == f.cache && sent == f.sent
    {
      var cached := LoadFromCache(endpoint, params);
      if cached != Null {
        return Success(cached);
      }
      var n := |sent|;
      var req := Request(endpoint, params);
      var outcome := net(n, req);
      sent := sent + [req];
      if outcome.TransportFailure? {
        return Failure(RequestError("Request failed: " + outcome.reason));
      }
      if outcome.status == 429 {
        return Failure(NewRateLimitError("HTTP 429 (rate limit exceeded) for " + endpoint, BodyDetails(outcome.text)));
      }
      if outcome.status != 200 {
        return Failure(NewAPIError("HTTP " + IntToDecimal(outcome.status) + " for " + endpoint,
                                   BodyDetails(outcome.text)));
      }
      if outcome.body.Undecodable? {
        return Failure(ParseError("Failed to parse JSON response: " + outcome.body.reason));
      }
      var data := outcome.body.data;
      SaveToCache(endpoint, params, data, disk(n));
      return Success(data);
    }

    method SearchRecords(endpoint: string, recordKey: string, params: Pairs, limitTotal: Value, fuel: nat,
                         net: Network, disk: Disk)
      returns (r: Result<SearchResult, SearchFailure>)
      modifies this`cache, this`sent
      ensures var run := Search(cacheEnabled, old(cache), old(sent), net, disk, endpoint, recordKey, params,
                                limitTotal, fuel);
        r == run.result && cache == run.cache && sent == run.sent
    {
      var check := CheckRequiredAnyCondition(params);
      if check.Fail? {
        return Failure(Raised(check.error));
      }
      var sanitized := SanitizeLimit(limitTotal);
      if sanitized.Failure? {
        return Failure(Raised(sanitized.error));
      }
      var job := Job(endpoint, recordKey, params, sanitized.value);
      ghost var turn := PassesOf(cacheEnabled, cache, sent, net, disk, endpoint, recordKey, params, limitTotal,
                                 fuel, job);
      r := FetchPages(job, fuel, net, disk, turn);
    }

    /** The `while True` loop of `search_records`, followed pass by pass. */
    method FetchPages(job: Job, fuel: nat, net: Network, disk: Disk, ghost turn: Loop -> Turn)
      returns (r: Result<SearchResult, SearchFailure>)
      requires forall st: Loop {:trigger PageTurn(cacheEnabled, net, disk, job, st)} ::
        turn(st) == PageTurn(cacheEnabled, net, disk, job, st)
      modifies this`cache, this`sent
      ensures var run := Pages(fuel, turn, Start(old(cache), old(sent), job.params));
        r == run.result && cache == run.cache && sent == run.sent
    {
      var all: seq<Pairs> := [];
      var pages: nat := 0;
      var total := Null;
      var cur := job.params;
      ghost var seen: seq<Value> := [];
      var left: nat := fuel;
      while left > 0
        invariant Pages(left, turn, Loop(cache, sent, cur, all, pages, total, seen))
          == Pages(fuel, turn, Start(old(cache), old(sent), job.params))
        decreases left
      {
        ghost var st := Loop(cache, sent, cur, all, pages, total, seen);
        pages := pages + 1;
        var fetched := RequestJson(job.endpoint, cur, net, disk);
        ghost var f := Fetch(fetched, cache, sent);
        PageTurnAfterFetch(cacheEnabled, net, disk, job, st, f);
        if fetched.Failure? {
          PagesStop(left, turn, st, Run(Failure(Raised(fetched.error)), cache, sent, seen));
          return Failure(Raised(fetched.error));
        }
        var step := HandlePage(job, fetched.value, cur, all, pages, total);
        TurnOnStep(f, job, st, fetched.value, pages, step);
        if step.Finish? {
          PagesStop(left, turn, st, Run(step.result, cache, sent, seen + [fetched.value]));
          return step.result;
        }
        PagesGo(left, turn, st, Loop(cache, sent, step.cur, step.acc, pages, step.total, seen + [fetched.value]));
        cur, all, total, seen := step.cur, step.acc, step.total, seen + [fetched.value];
        left := left - 1;
      }
      return Failure(OutOfFuel);
    }
  }

  /** The body of the `while True` loop once the page's data has come back. */
  method HandlePage(job: Job, data: Value, cur: Pairs, all: seq<Pairs>, pages: nat, total: Value)
    returns (step: Step)
    ensures step == PageStep(job, data, cur, all, pages, total)
  {
    if !data.Object? {
      return Finish(Failure(NotADict(data)));
    }
    var totalRecords := total;
    if totalRecords == Null {
      totalRecords := Get(data.members, "totalRecords");
    }
    var raw := RawRecords(data.members, job.recordKey);
    if !raw.Array? {
      return Finish(Failure(Raised(RequestError("Unexpected '" + job.recordKey + "' shape: " + TypeName(raw)))));
    }
    var a := AppendRecords(all, raw.items, job.limit);
    if a.hit {
      return Finish(Success(SearchResult(job.endpoint, job.params, totalRecords, |a.records|, pages, a.records, true)));
    }
    var next := Get(data.members, "nextRecordPosition");
    if !Truthy(next) {
      return Finish(Success(SearchResult(job.endpoint, job.params, totalRecords, |a.records|, pages, a.records, false)));
    }
    return Next(Store(cur, "startRecord", next), a.records, totalRecords);
  }

  /** The `for rec in raw_records` loop: wrap and append each record, stopping once the limit is met. */
  method AppendRecords(all: seq<Pairs>, records: seq<Value>, limit: Option<nat>) returns (a: Absorbed)
    ensures a == Absorb(all, records, limit)
  {
    var acc := all;
    var i := 0;
    while i < |records|
      invariant 0 <= i <= |records|
      invariant Absorb(acc, records[i..], limit) == Absorb(all, records, limit)
    {
      assert records[i..][1..] == records[i + 1..];
      var rec := records[i];
      if rec.Object? {
        acc := acc + [rec.members];
      } else {
        acc := acc + [[("value", rec)]];
      }
      if limit.Some? && |acc| >= limit.value {
        return Absorbed(acc[..limit.value], true);
      }
      i := i + 1;
    }
    return Absorbed(acc, false);
  }
}
