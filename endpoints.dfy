/**
  The three endpoints of the client: `MeetingListEndpoint`, `MeetingEndpoint`
  and `SpeechEndpoint`. Each binds a URL suffix, a record key and a query
  class, turns a query into params with `to_params` and hands everything to
  `search_records`; `search_any` and `search_by_speaker` first build the query
  from keyword arguments.

  The endpoint methods are methods of one class that differs only in its kind.
 */
module Endpoints {
  import opened Wrappers
  import opened Json
  import opened Exceptions
  import Queries
  import opened Core

  /** Which of the three endpoint classes. */
  datatype EndpointKind = MeetingListEndpoint | MeetingEndpoint | SpeechEndpoint

  /** The URL suffix appended to the base URL. */
  function Suffix(e: EndpointKind): string
  {
    match e
    case MeetingListEndpoint => "/meeting_list"
    case MeetingEndpoint => "/meeting"
    case SpeechEndpoint => "/speech"
  }

  /** The key of the record list in each page. */
  function RecordKey(e: EndpointKind): string
  {
    match e
    case MeetingListEndpoint => "meetingRecord"
    case MeetingEndpoint => "meetingRecord"
    case SpeechEndpoint => "speechRecord"
  }

  /** The query class `search_any` builds. */
  function QueryKindOf(e: EndpointKind): Queries.QueryKind
  {
    match e
    case MeetingListEndpoint => Queries.MeetingListQuery
    case MeetingEndpoint => Queries.MeetingQuery
    case SpeechEndpoint => Queries.SpeechQuery
  }

  /** The default `maximum_records` of `search_any` and `search_by_speaker`. */
  function DefaultMaximum(e: EndpointKind): int
  {
    match e
    case MeetingListEndpoint => 100
    case MeetingEndpoint => 10
    case SpeechEndpoint => 100
  }

  /** `f"{base_url}/..."`. */
  function Url(baseUrl: string, e: EndpointKind): string
  {
    baseUrl + Suffix(e)
  }

  /** The record keys and URLs of the three endpoints, side by side; the URL keeps the base as its prefix. */
  lemma EndpointBindings(baseUrl: string, e: EndpointKind)
    ensures RecordKey(e) == (if e == SpeechEndpoint then "speechRecord" else "meetingRecord")
    ensures baseUrl <= Url(baseUrl, e) && Url(baseUrl, e)[|baseUrl|..] == Suffix(e)
    ensures e == MeetingListEndpoint ==> Url(baseUrl, e) == baseUrl + "/meeting_list"
    ensures e == MeetingEndpoint ==> Url(baseUrl, e) == baseUrl + "/meeting"
    ensures e == SpeechEndpoint ==> Url(baseUrl, e) == baseUrl + "/speech"
  {
  }

  /** `search_any`'s default page size is the largest its query class accepts. */
  lemma DefaultMaximumIsCeiling(e: EndpointKind)
    ensures DefaultMaximum(e) == Queries.Ceiling(QueryKindOf(e))
  {
  }

  // ---------------- the two condition checks agree ----------------

  /** The condition fields, in the order of the core's condition keys. */
  const ConditionFields: seq<Queries.Field> := [
    Queries.NameOfHouse, Queries.NameOfMeeting, Queries.Any, Queries.Speaker,
    Queries.FromDate, Queries.UntilDate, Queries.SpeechNumber, Queries.SpeakerPosition,
    Queries.SpeakerGroup, Queries.SpeakerRole, Queries.SpeechId, Queries.IssueId,
    Queries.SessionFrom, Queries.SessionTo, Queries.IssueFrom, Queries.IssueTo
  ]

  lemma ConditionWireNamesA(i: nat)
    requires i < 4
    ensures Queries.WireName(ConditionFields[i]) == ConditionKeys[i]
  {
  }

  lemma ConditionWireNamesB(i: nat)
    requires 4 <= i < 8
    ensures Queries.WireName(ConditionFields[i]) == ConditionKeys[i]
  {
  }

  lemma ConditionWireNamesC(i: nat)
    requires 8 <= i < 12
    ensures Queries.WireName(ConditionFields[i]) == ConditionKeys[i]
  {
  }

  lemma ConditionWireNamesD(i: nat)
    requires 12 <= i < 16
    ensures Queries.WireName(ConditionFields[i]) == ConditionKeys[i]
  {
  }

  /** The core's sixteen keys are exactly the wire keys of the query's sixteen condition fields. */
  lemma ConditionWireNames(i: nat)
    requires i < |ConditionKeys|
    ensures |ConditionFields| == |ConditionKeys|
    ensures Queries.IsCondition(ConditionFields[i])
    ensures Queries.WireName(ConditionFields[i]) == ConditionKeys[i]
  {
    if i < 4 {
      ConditionWireNamesA(i);
    } else if i < 8 {
      ConditionWireNamesB(i);
    } else if i < 12 {
      ConditionWireNamesC(i);
    } else {
      ConditionWireNamesD(i);
    }
  }

  /** Every condition field is listed. */
  lemma ConditionFieldListed(f: Queries.Field)
    requires Queries.IsCondition(f)
    ensures f in ConditionFields
  {
  }

  /** A condition key set in the params comes from a condition field set in the query. */
  lemma CoreConditionFromQuery(q: Queries.Query, i: nat)
    requires i < |ConditionKeys| && IsSet(Json.Get(Queries.WireParams(q), ConditionKeys[i]))
    ensures Queries.HasCondition(q)
  {
    ConditionWireNames(i);
    var f := ConditionFields[i];
    Queries.WireParamsLookup(q, f);
    Queries.AllFieldsComplete(f);
    assert Queries.IsCondition(Queries.AllFields[Queries.FieldIndex(f)]);
  }

  /** A condition field set in the query is sent under a condition key. */
  lemma QueryConditionToCore(q: Queries.Query, f: Queries.Field)
    requires Queries.IsCondition(f) && IsSet(Queries.Get(q, f))
    ensures CheckRequiredAnyCondition(Queries.WireParams(q)).Pass?
  {
    ConditionFieldListed(f);
    var j :| 0 <= j < |ConditionFields| && ConditionFields[j] == f;
    ConditionWireNames(j);
    Queries.WireParamsLookup(q, f);
    assert IsSet(Json.Get(Queries.WireParams(q), ConditionKeys[j]));
  }

  /**
    The core's `check_required_any_condition` on `to_params()` passes exactly
    when the query satisfies `require_some_condition`: a query that could be
    built never trips the core's check, and the two lists of conditions agree.
   */
  lemma ConditionChecksAgree(q: Queries.Query)
    ensures CheckRequiredAnyCondition(Queries.WireParams(q)).Pass? <==> Queries.HasCondition(q)
  {
    var p := Queries.WireParams(q);
    if CheckRequiredAnyCondition(p).Pass? {
      var i :| 0 <= i < |ConditionKeys| && IsSet(Json.Get(p, ConditionKeys[i]));
      CoreConditionFromQuery(q, i);
    }
    if Queries.HasCondition(q) {
      var i :| 0 <= i < |Queries.AllFields| && Queries.IsCondition(Queries.AllFields[i])
               && IsSet(Queries.Get(q, Queries.AllFields[i]));
      QueryConditionToCore(q, Queries.AllFields[i]);
    }
  }

  /** A query that validated passes the core's condition check. */
  lemma BuiltQueryPassesCheck(kind: Queries.QueryKind, input: map<string, Value>)
    requires Queries.Validate(kind, input).Success?
    ensures CheckRequiredAnyCondition(Queries.WireParams(Queries.Validate(kind, input).value)).Pass?
  {
    Queries.AcceptedQueryWellFormed(kind, input, Queries.Any);
    ConditionChecksAgree(Queries.Validate(kind, input).value);
  }

  // ---------------- the search an endpoint runs ----------------

  /** `EndpointClass.search(query, limit_total=...)`: `search_records` on the endpoint's URL and key. */
  function EndpointSearch(e: EndpointKind, baseUrl: string, enabled: bool, cache: map<CacheKey, CacheEntry>,
                          sent: seq<Request>, net: Network, disk: Disk, q: Queries.Query, limitTotal: Value,
                          fuel: nat): Run
  {
    Search(enabled, cache, sent, net, disk, Url(baseUrl, e), RecordKey(e), Queries.WireParams(q), limitTotal, fuel)
  }

  /** Searches through an endpoint fail only as the core fails: the error comes through unchanged. */
  lemma EndpointSearchPropagates(e: EndpointKind, baseUrl: string, enabled: bool,
                                 cache: map<CacheKey, CacheEntry>, sent: seq<Request>, net: Network, disk: Disk,
                                 q: Queries.Query, limitTotal: Value, fuel: nat)
    ensures var run := EndpointSearch(e, baseUrl, enabled, cache, sent, net, disk, q, limitTotal, fuel);
      && run == Search(enabled, cache, sent, net, disk, baseUrl + Suffix(e), RecordKey(e),
                       Queries.WireParams(q), limitTotal, fuel)
      && (SanitizeLimit(limitTotal).Failure? && Queries.HasCondition(q) ==>
            run == Run(Failure(Raised(SanitizeLimit(limitTotal).error)), cache, sent, []))
      && (!Queries.HasCondition(q) ==>
            run == Run(Failure(Raised(APIError(NoConditionMessage, []))), cache, sent, []))
  {
    ConditionChecksAgree(q);
  }

  /** A successful endpoint search names the endpoint's URL and the query's params. */
  lemma EndpointSearchReports(e: EndpointKind, baseUrl: string, enabled: bool,
                              cache: map<CacheKey, CacheEntry>, sent: seq<Request>, net: Network, disk: Disk,
                              q: Queries.Query, limitTotal: Value, fuel: nat)
    ensures var run := EndpointSearch(e, baseUrl, enabled, cache, sent, net, disk, q, limitTotal, fuel);
      run.result.Success? ==>
        run.result.value.endpoint == baseUrl + Suffix(e) && run.result.value.params == Queries.WireParams(q)
  {
    if EndpointSearch(e, baseUrl, enabled, cache, sent, net, disk, q, limitTotal, fuel).result.Success? {
      SearchResultFacts(enabled, cache, sent, net, disk, Url(baseUrl, e), RecordKey(e), Queries.WireParams(q),
                        limitTotal, fuel);
    }
  }

  // ---------------- the queries search_any and search_by_speaker build ----------------

  /** The keyword arguments of `Kind(any=text, maximum_records=n)`. */
  function AnyInput(text: string, n: int): map<string, Value>
  {
    map["any" := Str(text), "maximum_records" := Int(n)]
  }

  /** `None` or a string, as an optional argument is passed on. */
  function OptionalStr(s: Option<string>): Value
  {
    if s.None? then Null else Str(s.value)
  }

  /** The keyword arguments of `SpeechQuery(speaker=..., from_date=..., until_date=..., maximum_records=n)`. */
  function SpeakerInput(speaker: string, fromDate: Option<string>, untilDate: Option<string>, n: int)
    : map<string, Value>
  {
    map["speaker" := Str(speaker), "from_date" := OptionalStr(fromDate), "until_date" := OptionalStr(untilDate),
        "maximum_records" := Int(n)]
  }

  /** The fields of a dict that holds exactly the given plain field names take their values from it. */
  lemma ResolvedPlainKey(input: map<string, Value>, f: Queries.Field)
    requires Queries.Alias(f).None? && Queries.PyName(f) in input
    ensures Queries.Resolved(input, f) == input[Queries.PyName(f)]
  {
  }

  /** A field whose names are all missing from the dict takes its default. */
  lemma ResolvedAbsent(input: map<string, Value>, f: Queries.Field)
    requires (Queries.Alias(f).None? || Queries.Alias(f).value !in input) && Queries.PyName(f) !in input
    ensures Queries.Resolved(input, f) == Queries.Default(f)
  {
  }

  /** Each field of the `search_any` query: `any` and `maximum_records` as given, the rest defaults. */
  lemma AnyInputResolved(text: string, n: int, f: Queries.Field)
    ensures Queries.Resolved(AnyInput(text, n), f) ==
      if f == Queries.Any then Str(text)
      else if f == Queries.MaximumRecords then Int(n)
      else Queries.Default(f)
  {
    if f == Queries.Any {
      ResolvedPlainKey(AnyInput(text, n), Queries.Any);
    } else if f == Queries.MaximumRecords {
      ResolvedPlainKey(AnyInput(text, n), Queries.MaximumRecords);
    } else {
      AnyInputUnkeyed(text, n, f);
      ResolvedAbsent(AnyInput(text, n), f);
    }
  }

  lemma AnyInputUnkeyed(text: string, n: int, f: Queries.Field)
    requires f != Queries.Any && f != Queries.MaximumRecords
    ensures Queries.PyName(f) !in AnyInput(text, n)
    ensures Queries.Alias(f).None? || Queries.Alias(f).value !in AnyInput(text, n)
  {
  }

  /** Each field of the `search_by_speaker` query. */
  lemma SpeakerInputResolved(speaker: string, fromDate: Option<string>, untilDate: Option<string>, n: int,
                             f: Queries.Field)
    ensures Queries.Resolved(SpeakerInput(speaker, fromDate, untilDate, n), f) ==
      if f == Queries.Speaker then Str(speaker)
      else if f == Queries.FromDate then OptionalStr(fromDate)
      else if f == Queries.UntilDate then OptionalStr(untilDate)
      else if f == Queries.MaximumRecords then Int(n)
      else Queries.Default(f)
  {
    var input := SpeakerInput(speaker, fromDate, untilDate, n);
    if f == Queries.Speaker {
      ResolvedPlainKey(input, Queries.Speaker);
    } else if f == Queries.MaximumRecords {
      ResolvedPlainKey(input, Queries.MaximumRecords);
    } else if f == Queries.FromDate {
      assert "from" !in input;
    } else if f == Queries.UntilDate {
      assert "until" !in input;
    } else {
      SpeakerInputUnkeyed(speaker, fromDate, untilDate, n, f);
      ResolvedAbsent(input, f);
    }
  }

  lemma SpeakerInputUnkeyed(speaker: string, fromDate: Option<string>, untilDate: Option<string>, n: int,
                            f: Queries.Field)
    requires f != Queries.Speaker && f != Queries.FromDate && f != Queries.UntilDate && f != Queries.MaximumRecords
    ensures Queries.PyName(f) !in SpeakerInput(speaker, fromDate, untilDate, n) && Queries.Alias(f).None?
  {
    if Queries.FieldIndex(f) < 12 {
      SpeakerInputUnkeyedLow(speaker, fromDate, untilDate, n, f);
    } else {
      SpeakerInputUnkeyedHigh(speaker, fromDate, untilDate, n, f);
    }
  }

  lemma SpeakerInputUnkeyedLow(speaker: string, fromDate: Option<string>, untilDate: Option<string>, n: int,
                               f: Queries.Field)
    requires f != Queries.Speaker && f != Queries.FromDate && f != Queries.UntilDate && f != Queries.MaximumRecords
    requires Queries.FieldIndex(f) < 12
    ensures Queries.PyName(f) !in SpeakerInput(speaker, fromDate, untilDate, n) && Queries.Alias(f).None?
  {
  }

  lemma SpeakerInputUnkeyedHigh(speaker: string, fromDate: Option<string>, untilDate: Option<string>, n: int,
                                f: Queries.Field)
    requires Queries.FieldIndex(f) >= 12
    ensures Queries.PyName(f) !in SpeakerInput(speaker, fromDate, untilDate, n) && Queries.Alias(f).None?
  {
  }

  /** Every key of the `search_any` dict is read, and every field but `maximum_records` checks out. */
  lemma AnyInputClean(kind: Queries.QueryKind, text: string, n: int)
    ensures forall f :: f != Queries.MaximumRecords ==>
      Queries.FieldIssue(kind, f, Queries.Resolved(AnyInput(text, n), f)).None?
    ensures forall k :: k in AnyInput(text, n) ==> !Queries.IsExtra(AnyInput(text, n), k)
  {
    var input := AnyInput(text, n);
    forall f | f != Queries.MaximumRecords ensures Queries.FieldIssue(kind, f, Queries.Resolved(input, f)).None? {
      AnyInputResolved(text, n, f);
    }
    assert Queries.UsedKey(input, Queries.Any) == Some("any");
    Queries.UsedKeyNotExtra(input, Queries.Any);
    assert Queries.UsedKey(input, Queries.MaximumRecords) == Some("maximum_records");
    Queries.UsedKeyNotExtra(input, Queries.MaximumRecords);
  }

  /** `Kind(any=text, maximum_records=n)` builds exactly when the text is not empty and `n` is in range. */
  lemma AnyQueryBuilds(kind: Queries.QueryKind, text: string, n: int)
    ensures Queries.Validate(kind, AnyInput(text, n)).Success? <==> text != "" && 1 <= n <= Queries.Ceiling(kind)
  {
    var input := AnyInput(text, n);
    AnyInputClean(kind, text, n);
    AnyInputResolved(text, n, Queries.Any);
    AnyInputResolved(text, n, Queries.MaximumRecords);
    if text != "" && 1 <= n <= Queries.Ceiling(kind) {
      Queries.ConditionSufficesToBuild(kind, input, Queries.Any);
    } else if text == "" {
      forall f | Queries.IsCondition(f) ensures !IsSet(Queries.Resolved(input, f)) {
        AnyInputResolved(text, n, f);
      }
      Queries.ConditionRequiredToBuild(kind, input);
    } else {
      Queries.FieldIssueRejects(kind, input, Queries.MaximumRecords);
    }
  }

  /** Every key of the `search_by_speaker` dict is read, and every field but `maximum_records` checks out. */
  lemma SpeakerInputClean(speaker: string, fromDate: Option<string>, untilDate: Option<string>, n: int)
    ensures var input := SpeakerInput(speaker, fromDate, untilDate, n);
      && (forall f :: f != Queries.MaximumRecords ==>
            Queries.FieldIssue(Queries.SpeechQuery, f, Queries.Resolved(input, f)).None?)
      && (forall k :: k in input ==> !Queries.IsExtra(input, k))
  {
    SpeakerInputFieldsClean(speaker, fromDate, untilDate, n);
    SpeakerInputKeysUsed(speaker, fromDate, untilDate, n);
  }

  lemma SpeakerInputFieldsClean(speaker: string, fromDate: Option<string>, untilDate: Option<string>, n: int)
    ensures forall f :: f != Queries.MaximumRecords ==>
      Queries.FieldIssue(Queries.SpeechQuery, f, Queries.Resolved(SpeakerInput(speaker, fromDate, untilDate, n), f)).None?
  {
    forall f | f != Queries.MaximumRecords
      ensures Queries.FieldIssue(Queries.SpeechQuery, f, Queries.Resolved(SpeakerInput(speaker, fromDate, untilDate, n), f)).None?
    {
      SpeakerInputResolved(speaker, fromDate, untilDate, n, f);
    }
  }

  lemma SpeakerInputKeysUsed(speaker: string, fromDate: Option<string>, untilDate: Option<string>, n: int)
    ensures var input := SpeakerInput(speaker, fromDate, untilDate, n);
      forall k :: k in input ==> !Queries.IsExtra(input, k)
  {
    var input := SpeakerInput(speaker, fromDate, untilDate, n);
    assert Queries.UsedKey(input, Queries.Speaker) == Some("speaker");
    Queries.UsedKeyNotExtra(input, Queries.Speaker);
    assert Queries.UsedKey(input, Queries.FromDate) == Some("from_date");
    Queries.UsedKeyNotExtra(input, Queries.FromDate);
    assert Queries.UsedKey(input, Queries.UntilDate) == Some("until_date");
    Queries.UsedKeyNotExtra(input, Queries.UntilDate);
    assert Queries.UsedKey(input, Queries.MaximumRecords) == Some("maximum_records");
    Queries.UsedKeyNotExtra(input, Queries.MaximumRecords);
  }

  /** Without a non-empty speaker or date, the `search_by_speaker` dict sets no condition. */
  lemma SpeakerInputUnset(speaker: string, fromDate: Option<string>, untilDate: Option<string>, n: int)
    requires speaker == "" && !(fromDate.Some? && fromDate.value != "") && !(untilDate.Some? && untilDate.value != "")
    ensures forall f :: Queries.IsCondition(f) ==> !IsSet(Queries.Resolved(SpeakerInput(speaker, fromDate, untilDate, n), f))
  {
    forall f | Queries.IsCondition(f)
      ensures !IsSet(Queries.Resolved(SpeakerInput(speaker, fromDate, untilDate, n), f))
    {
      SpeakerInputResolved(speaker, fromDate, untilDate, n, f);
    }
  }

  /**
    `SpeechQuery(speaker=..., from_date=..., until_date=..., maximum_records=n)`
    builds exactly when `n` is in range and one of the speaker and the two
    dates is a non-empty string: an empty speaker is carried by a date.
   */
  lemma SpeakerQueryBuilds(speaker: string, fromDate: Option<string>, untilDate: Option<string>, n: int)
    ensures Queries.Validate(Queries.SpeechQuery, SpeakerInput(speaker, fromDate, untilDate, n)).Success?
      <==> (speaker != "" || (fromDate.Some? && fromDate.value != "") || (untilDate.Some? && untilDate.value != ""))
           && 1 <= n <= 100
  {
    var kind := Queries.SpeechQuery;
    var input := SpeakerInput(speaker, fromDate, untilDate, n);
    SpeakerInputClean(speaker, fromDate, untilDate, n);
    SpeakerInputResolved(speaker, fromDate, untilDate, n, Queries.MaximumRecords);
    if !(1 <= n <= 100) {
      Queries.FieldIssueRejects(kind, input, Queries.MaximumRecords);
    } else if speaker != "" {
      SpeakerInputResolved(speaker, fromDate, untilDate, n, Queries.Speaker);
      Queries.ConditionSufficesToBuild(kind, input, Queries.Speaker);
    } else if fromDate.Some? && fromDate.value != "" {
      SpeakerInputResolved(speaker, fromDate, untilDate, n, Queries.FromDate);
      Queries.ConditionSufficesToBuild(kind, input, Queries.FromDate);
    } else if untilDate.Some? && untilDate.value != "" {
      SpeakerInputResolved(speaker, fromDate, untilDate, n, Queries.UntilDate);
      Queries.ConditionSufficesToBuild(kind, input, Queries.UntilDate);
    } else {
      SpeakerInputUnset(speaker, fromDate, untilDate, n);
      Queries.ConditionRequiredToBuild(kind, input);
    }
  }

  /** A field of the built `search_any` query: the text and the page size, and the defaults. */
  lemma AnyQueryField(kind: Queries.QueryKind, text: string, n: int, f: Queries.Field)
    requires Queries.Validate(kind, AnyInput(text, n)).Success?
    ensures Queries.Get(Queries.Validate(kind, AnyInput(text, n)).value, f) ==
      if f == Queries.Any then Str(text) else if f == Queries.MaximumRecords then Int(n) else Queries.Default(f)
  {
    Queries.ValidateFields(kind, AnyInput(text, n), f);
    AnyInputResolved(text, n, f);
  }

  /** The wire keys of the three fields a `search_any` query sets. */
  lemma AnyQueryWireNames()
    ensures Queries.WireName(Queries.Any) == "any"
    ensures Queries.WireName(Queries.MaximumRecords) == "maximumRecords"
    ensures Queries.WireName(Queries.RecordPacking) == "recordPacking"
  {
  }

  /** The params `search_any` sends: the text, the page size and the default format, and nothing else. */
  lemma AnyQueryParams(kind: Queries.QueryKind, text: string, n: int)
    requires Queries.Validate(kind, AnyInput(text, n)).Success?
    ensures var p := Queries.WireParams(Queries.Validate(kind, AnyInput(text, n)).value);
      && Lookup(p, "any") == Some(Str(text))
      && Lookup(p, "maximumRecords") == Some(Int(n))
      && Lookup(p, "recordPacking") == Some(Str("json"))
      && forall k :: k in Keys(p) ==> k == "any" || k == "maximumRecords" || k == "recordPacking"
  {
    var q := Queries.Validate(kind, AnyInput(text, n)).value;
    var p := Queries.WireParams(q);
    AnyQueryWireNames();
    AnyQueryField(kind, text, n, Queries.Any);
    AnyQueryField(kind, text, n, Queries.MaximumRecords);
    AnyQueryField(kind, text, n, Queries.RecordPacking);
    Queries.WireParamsLookup(q, Queries.Any);
    Queries.WireParamsLookup(q, Queries.MaximumRecords);
    Queries.WireParamsLookup(q, Queries.RecordPacking);
    forall k | k in Keys(p) ensures k == "any" || k == "maximumRecords" || k == "recordPacking" {
      Queries.WireParamsKeys(q, k);
      var f :| Queries.WireName(f) == k && Queries.Get(q, f) != Null;
      AnyQueryField(kind, text, n, f);
      assert f == Queries.Any || f == Queries.MaximumRecords || f == Queries.RecordPacking;
    }
  }

  /** What `search_any` and `search_by_speaker` can fail with: the query, or the search. */
  datatype EndpointFailure = InvalidQuery(issues: set<Queries.Issue>) | SearchFailed(failure: SearchFailure)

  /** An endpoint bound to a core. */
  class Endpoint {
    const core: DietCore
    const kind: EndpointKind

    constructor (core: DietCore, kind: EndpointKind)
      ensures this.core == core && this.kind == kind
    {
      this.core := core;
      this.kind := kind;
    }

    /** `search`: the query's params and the limit go to `search_records` unchanged. */
    method Search(q: Queries.Query, limitTotal: Value, fuel: nat, net: Network, disk: Disk)
      returns (r: Result<SearchResult, SearchFailure>)
      modifies core`cache, core`sent
      ensures var run := EndpointSearch(kind, core.baseUrl, core.cacheEnabled, old(core.cache), old(core.sent),
                                        net, disk, q, limitTotal, fuel);
        r == run.result && core.cache == run.cache && core.sent == run.sent
    {
      var params := Queries.ToParams(q);
      r := core.SearchRecords(core.baseUrl + Suffix(kind), RecordKey(kind), params, limitTotal, fuel, net, disk);
    }

    /** `search_any(text, maximum_records=n)`: build the query, then search. */
    method SearchAny(text: string, maximumRecords: int, limitTotal: Value, fuel: nat, net: Network, disk: Disk)
      returns (r: Result<SearchResult, EndpointFailure>)
      modifies core`cache, core`sent
      ensures var built := Queries.Validate(QueryKindOf(kind), AnyInput(text, maximumRecords));
        if built.Failure? then
          r == Failure(InvalidQuery(built.error)) && core.cache == old(core.cache) && core.sent == old(core.sent)
        else
          var run := EndpointSearch(kind, core.baseUrl, core.cacheEnabled, old(core.cache), old(core.sent),
                                    net, disk, built.value, limitTotal, fuel);
          && (r.Success? <==> run.result.Success?)
          && (r.Success? ==> r.value == run.result.value)
          && (r.Failure? ==> r.error == SearchFailed(run.result.error))
          && core.cache == run.cache && core.sent == run.sent
    {
      var built := Queries.Validate(QueryKindOf(kind), AnyInput(text, maximumRecords));
      if built.Failure? {
        return Failure(InvalidQuery(built.error));
      }
      var found := Search(built.value, limitTotal, fuel, net, disk);
      r := if found.Success? then Success(found.value) else Failure(SearchFailed(found.error));
    }

    /** `search_by_speaker(speaker, from_date=..., until_date=..., maximum_records=n)` of `SpeechEndpoint`. */
    method SearchBySpeaker(speaker: string, fromDate: Option<string>, untilDate: Option<string>,
                           maximumRecords: int, limitTotal: Value, fuel: nat, net: Network, disk: Disk)
      returns (r: Result<SearchResult, EndpointFailure>)
      requires kind == SpeechEndpoint
      modifies core`cache, core`sent
      ensures var built := Queries.Validate(Queries.SpeechQuery,
                                            SpeakerInput(speaker, fromDate, untilDate, maximumRecords));
        if built.Failure? then
          r == Failure(InvalidQuery(built.error)) && core.cache == old(core.cache) && core.sent == old(core.sent)
        else
          var run := EndpointSearch(kind, core.baseUrl, core.cacheEnabled, old(core.cache), old(core.sent),
                                    net, disk, built.value, limitTotal, fuel);
          && (r.Success? <==> run.result.Success?)
          && (r.Success? ==> r.value == run.result.value)
          && (r.Failure? ==> r.error == SearchFailed(run.result.error))
          && core.cache == run.cache && core.sent == run.sent
    {
      var built := Queries.Validate(Queries.SpeechQuery, SpeakerInput(speaker, fromDate, untilDate, maximumRecords));
      if built.Failure? {
        return Failure(InvalidQuery(built.error));
      }
      var found := Search(built.value, limitTotal, fuel, net, disk);
      r := if found.Success? then Success(found.value) else Failure(SearchFailed(found.error));
    }
  }
}
