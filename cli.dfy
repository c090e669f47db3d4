/**
  The parts of the command-line tool that compute something: the params dict
  `_collect_params` builds from the parsed arguments, the limit a dry run
  passes, and the header row of the CSV output.

  The commands hand the dict to the client, which rebuilds a query from it
  with `model_validate`; the query forgets the dict's order, so the model of
  the dict states its contents and not its order.
 */
module Cli {
  import opened Wrappers
  import opened Json
  import opened Text
  import opened Sorting
  import Queries
  import opened Core
  import Endpoints

  /** The parsed arguments `_collect_params` reads; `None` stands for an option not given. */
  datatype Namespace = Namespace(
    anyText: Option<string>,        // --any
    nameOfMeeting: Option<string>,  // --name-of-meeting
    speaker: Option<string>,        // --speaker
    from_: Option<string>,          // --from
    until: Option<string>,          // --until
    since: Option<int>,             // --since
    maximumRecords: Option<int>,    // --maximum-records
    sessionFrom: Option<int>,       // --session-from
    sessionTo: Option<int>,         // --session-to
    limitTotal: Option<int>,        // --limit-total
    dryRun: bool)                   // --dry-run

  function OptionalInt(n: Option<int>): Value
  {
    if n.None? then Null else Int(n.value)
  }

  /** The attributes `_collect_params` copies as they are. */
  datatype Attr = AnyAttr | NameOfMeetingAttr | SpeakerAttr | MaximumRecordsAttr | SessionFromAttr | SessionToAttr

  /** The attribute's name on the namespace, which is also the key it is stored under. */
  function Dest(a: Attr): string
  {
    match a
    case AnyAttr => "any"
    case NameOfMeetingAttr => "nameOfMeeting"
    case SpeakerAttr => "speaker"
    case MaximumRecordsAttr => "maximumRecords"
    case SessionFromAttr => "sessionFrom"
    case SessionToAttr => "sessionTo"
  }

  /** The copied attributes, in the order of the loop. */
  const CopiedAttrs: seq<Attr> := [AnyAttr, NameOfMeetingAttr, SpeakerAttr, MaximumRecordsAttr, SessionFromAttr, SessionToAttr]

  /** `getattr(ns, Dest(a), None)`. */
  function Given(ns: Namespace, a: Attr): Value
  {
    match a
    case AnyAttr => Endpoints.OptionalStr(ns.anyText)
    case NameOfMeetingAttr => Endpoints.OptionalStr(ns.nameOfMeeting)
    case SpeakerAttr => Endpoints.OptionalStr(ns.speaker)
    case MaximumRecordsAttr => OptionalInt(ns.maximumRecords)
    case SessionFromAttr => OptionalInt(ns.sessionFrom)
    case SessionToAttr => OptionalInt(ns.sessionTo)
  }

  /** A key some copied attribute is stored under. */
  predicate IsDest(k: string)
  {
    exists a :: Dest(a) == k
  }

  /** The start date: a non-empty `--from`, else January 1st of a non-zero `--since`, else nothing. */
  function FromValue(ns: Namespace): Value
  {
    if Truthy(Endpoints.OptionalStr(ns.from_)) then Str(ns.from_.value)
    else if Truthy(OptionalInt(ns.since)) then Str(Format04d(ns.since.value) + "-01-01")
    else Null
  }

  /** The end date: a non-empty `--until`, else nothing. */
  function UntilValue(ns: Namespace): Value
  {
    if Truthy(Endpoints.OptionalStr(ns.until)) then Str(ns.until.value) else Null
  }

  /** What a lookup of a key finds when the value is stored only if it is not None. */
  function SomeIfSet(v: Value): Option<Value>
  {
    if v == Null then None else Some(v)
  }

  /** Where an attribute comes in the loop. */
  function AttrIndex(a: Attr): (i: nat)
    ensures i < |CopiedAttrs| && CopiedAttrs[i] == a
  {
    match a
    case AnyAttr => 0
    case NameOfMeetingAttr => 1
    case SpeakerAttr => 2
    case MaximumRecordsAttr => 3
    case SessionFromAttr => 4
    case SessionToAttr => 5
  }

  /** No two copied attributes, nor an attribute and a date, share a key. */
  lemma DestInjective()
    ensures forall a, b :: Dest(a) == Dest(b) ==> a == b
    ensures forall a :: Dest(a) != "from" && Dest(a) != "until"
  {
  }

  /** What the loop of `_collect_params` has built after the first `i` attributes. */
  predicate CopiedUpTo(ns: Namespace, params: Pairs, i: nat)
  {
    && DistinctKeys(params)
    && (forall a :: AttrIndex(a) < i ==> Lookup(params, Dest(a)) == SomeIfSet(Given(ns, a)))
    && (forall a :: AttrIndex(a) >= i ==> Dest(a) !in Keys(params))
    && (forall k :: k in Keys(params) ==> IsDest(k))
  }

  /** The loop visits the attributes in the order of `AttrIndex`. */
  lemma AttrAt(i: nat)
    requires i < |CopiedAttrs|
    ensures AttrIndex(CopiedAttrs[i]) == i
  {
  }

  /** The dict after one turn of the loop: the attribute is stored when it is not None. */
  function CopyTurn(ns: Namespace, params: Pairs, a: Attr): Pairs
  {
    if Given(ns, a) != Null then Store(params, Dest(a), Given(ns, a)) else params
  }

  lemma CopyTurnKeys(ns: Namespace, params: Pairs, a: Attr)
    requires CopiedUpTo(ns, params, AttrIndex(a))
    ensures DistinctKeys(CopyTurn(ns, params, a))
    ensures forall k :: k in Keys(CopyTurn(ns, params, a)) ==> IsDest(k)
  {
    if Given(ns, a) != Null {
      StoreLookupAll(params, Dest(a), Given(ns, a));
    }
  }

  lemma CopyTurnLookups(ns: Namespace, params: Pairs, a: Attr)
    requires CopiedUpTo(ns, params, AttrIndex(a))
    ensures forall b :: AttrIndex(b) <= AttrIndex(a) ==> Lookup(CopyTurn(ns, params, a), Dest(b)) == SomeIfSet(Given(ns, b))
  {
    DestInjective();
    if Given(ns, a) != Null {
      StoreLookupAll(params, Dest(a), Given(ns, a));
    }
  }

  lemma CopyTurnAbsent(ns: Namespace, params: Pairs, a: Attr)
    requires CopiedUpTo(ns, params, AttrIndex(a))
    ensures forall b :: AttrIndex(b) > AttrIndex(a) ==> Dest(b) !in Keys(CopyTurn(ns, params, a))
  {
    DestInjective();
    if Given(ns, a) != Null {
      StoreLookupAll(params, Dest(a), Given(ns, a));
    }
  }

  /** One turn of the loop keeps what it has built. */
  lemma CopyStep(ns: Namespace, params: Pairs, a: Attr)
    requires CopiedUpTo(ns, params, AttrIndex(a))
    ensures CopiedUpTo(ns, CopyTurn(ns, params, a), AttrIndex(a) + 1)
  {
    CopyTurnKeys(ns, params, a);
    CopyTurnLookups(ns, params, a);
    CopyTurnAbsent(ns, params, a);
  }

  /** The loop of `_collect_params`: each copied attribute that is not None, under its own name. */
  method CopyAttrs(ns: Namespace) returns (params: Pairs)
    ensures DistinctKeys(params)
    ensures forall a :: Lookup(params, Dest(a)) == SomeIfSet(Given(ns, a))
    ensures forall k :: k in Keys(params) ==> IsDest(k)
  {
    params := [];
    for i := 0 to |CopiedAttrs|
      invariant CopiedUpTo(ns, params, i)
    {
      var attr := CopiedAttrs[i];
      var val := Given(ns, attr);
      AttrAt(i);
      CopyStep(ns, params, attr);
      if val != Null {
        params := Store(params, Dest(attr), val);
      }
    }
  }

  /**
    `_collect_params`: every copied attribute that is not None, the start
    date with `--from` taking precedence over `--since`, and the end date;
    no other key, so `limit_total` and the output options never reach the
    query.
   */
  method CollectParams(ns: Namespace) returns (params: Pairs)
    ensures DistinctKeys(params)
    ensures forall a :: Lookup(params, Dest(a)) == SomeIfSet(Given(ns, a))
    ensures Lookup(params, "from") == SomeIfSet(FromValue(ns))
    ensures Lookup(params, "until") == SomeIfSet(UntilValue(ns))
    ensures forall k :: k in Keys(params) ==> IsDest(k) || k == "from" || k == "until"
  {
    DestInjective();
    params := CopyAttrs(ns);
    params := SetFrom(ns, params);
    params := SetUntil(ns, params);
  }

  /** The start date of `_collect_params`: `--from` if it is not empty, else `--since` if it is not 0. */
  method SetFrom(ns: Namespace, p: Pairs) returns (params: Pairs)
    requires DistinctKeys(p)
    ensures DistinctKeys(params)
    ensures Lookup(params, "from") == if FromValue(ns) == Null then Lookup(p, "from") else Some(FromValue(ns))
    ensures forall k :: k != "from" ==> Lookup(params, k) == Lookup(p, k)
    ensures forall k :: k in Keys(params) <==> k in Keys(p) || (k == "from" && FromValue(ns) != Null)
  {
    params := p;
    if Truthy(Endpoints.OptionalStr(ns.from_)) {
      StoreLookupAll(params, "from", Str(ns.from_.value));
      params := Store(params, "from", Str(ns.from_.value));
    } else if Truthy(OptionalInt(ns.since)) {
      StoreLookupAll(params, "from", Str(Format04d(ns.since.value) + "-01-01"));
      params := Store(params, "from", Str(Format04d(ns.since.value) + "-01-01"));
    }
  }

  /** The end date of `_collect_params`: `--until` if it is not empty. */
  method SetUntil(ns: Namespace, p: Pairs) returns (params: Pairs)
    requires DistinctKeys(p)
    ensures DistinctKeys(params)
    ensures Lookup(params, "until") == if UntilValue(ns) == Null then Lookup(p, "until") else Some(UntilValue(ns))
    ensures forall k :: k != "until" ==> Lookup(params, k) == Lookup(p, k)
    ensures forall k :: k in Keys(params) <==> k in Keys(p) || (k == "until" && UntilValue(ns) != Null)
  {
    params := p;
    if Truthy(Endpoints.OptionalStr(ns.until)) {
      StoreLookupAll(params, "until", Str(ns.until.value));
      params := Store(params, "until", Str(ns.until.value));
    }
  }

  /** What storing one more key does to every lookup, to the keys and to their distinctness. */
  lemma StoreLookupAll(p: Pairs, k: string, v: Value)
    requires DistinctKeys(p)
    ensures DistinctKeys(Store(p, k, v))
    ensures forall k' :: Lookup(Store(p, k, v), k') == if k' == k then Some(v) else Lookup(p, k')
    ensures forall k' :: k' in Keys(Store(p, k, v)) <==> k' in Keys(p) || k' == k
  {
    StoreDistinct(p, k, v);
    StoreKeys(p, k, v);
    forall k' ensures Lookup(Store(p, k, v), k') == if k' == k then Some(v) else Lookup(p, k') {
      StoreLookup(p, k, v, k');
    }
  }

  /** `--since 5` gives the start date "0005-01-01", and every `--since` year reads back from the date. */
  lemma SinceDate(ns: Namespace)
    requires !Truthy(Endpoints.OptionalStr(ns.from_)) && ns.since.Some? && ns.since.value != 0
    ensures FromValue(ns).Str?
    ensures var d := FromValue(ns).s;
      && |d| >= 10
      && d[|d| - 6..] == "-01-01"
      && ParseInt(d[..|d| - 6]) == Some(ns.since.value)
  {
    var y := Format04d(ns.since.value);
    Format04dValue(ns.since.value);
    var d := y + "-01-01";
    assert d[..|d| - 6] == y;
    assert d[|d| - 6..] == "-01-01";
  }

  /** `--since 5` gives the start date "0005-01-01". */
  lemma SinceFive(ns: Namespace)
    requires !Truthy(Endpoints.OptionalStr(ns.from_)) && ns.since == Some(5)
    ensures FromValue(ns) == Str("0005-01-01")
  {
    assert NatToDecimal(5) == "5";
    assert ['0'] + "5" == "05" && ['0'] + "05" == "005" && ['0'] + "005" == "0005";
    assert ZeroPad("5", 4) == ZeroPad("05", 4);
    assert ZeroPad("05", 4) == ZeroPad("005", 4);
    assert ZeroPad("005", 4) == ZeroPad("0005", 4);
  }

  /** A non-empty `--from` always wins; an empty `--from` and a `--since` of 0 count as not given. */
  lemma FromPrecedence(ns: Namespace)
    ensures ns.from_.Some? && ns.from_.value != "" ==> FromValue(ns) == Str(ns.from_.value)
    ensures FromValue(ns) == Null <==>
      (ns.from_.None? || ns.from_.value == "") && (ns.since.None? || ns.since.value == 0)
  {
  }

  // ---------------- the dict as the client reads it ----------------

  /** `Kind.model_validate(params)` of the client's dict-of-params methods. */
  function ClientQuery(kind: Queries.QueryKind, params: Pairs): Result<Queries.Query, set<Queries.Issue>>
  {
    Queries.Validate(kind, Contents(params))
  }

  /**
    Of the copied keys only `any` and `speaker` are names the query class
    knows; `nameOfMeeting`, `maximumRecords`, `sessionFrom` and `sessionTo`
    are neither a field name nor an alias.
   */
  lemma DestUnknownToQuery(a: Attr)
    ensures (forall f :: Dest(a) != Queries.PyName(f) && Queries.Alias(f) != Some(Dest(a)))
            <==> a != AnyAttr && a != SpeakerAttr
  {
    if a == AnyAttr {
      assert Dest(a) == Queries.PyName(Queries.Any);
    } else if a == SpeakerAttr {
      assert Dest(a) == Queries.PyName(Queries.Speaker);
    }
  }

  /**
    As written: the dict `_collect_params` builds stores four of its copied
    attributes under the API's camelCase keys, which the strict query class
    does not know, so the client rejects every command line that gives
    `--name-of-meeting`, `--maximum-records`, `--session-from` or `--session-to`.
   */
  lemma CollectedParamsRejected(kind: Queries.QueryKind, params: Pairs, a: Attr)
    requires DistinctKeys(params)
    requires a != AnyAttr && a != SpeakerAttr
    requires Dest(a) in Keys(params)
    ensures ClientQuery(kind, params).Failure?
    ensures Queries.ExtraForbidden(Dest(a)) in ClientQuery(kind, params).error
  {
    DestUnknownToQuery(a);
    assert Dest(a) in Contents(params);
    Queries.UnknownKeyRejected(kind, Contents(params), Dest(a));
  }

  /** A concrete command line: `--any 予算 --maximum-records 10` is turned away for the key "maximumRecords". */
  lemma MaximumRecordsOptionRejected(kind: Queries.QueryKind, params: Pairs)
    requires DistinctKeys(params)
    requires Lookup(params, "any") == Some(Str("予算")) && Lookup(params, "maximumRecords") == Some(Int(10))
    ensures ClientQuery(kind, params).Failure?
    ensures Queries.ExtraForbidden("maximumRecords") in ClientQuery(kind, params).error
  {
    CollectedParamsRejected(kind, params, MaximumRecordsAttr);
  }

  /** The query field each copied attribute stands for. */
  function FieldOfAttr(a: Attr): Queries.Field
  {
    match a
    case AnyAttr => Queries.Any
    case NameOfMeetingAttr => Queries.NameOfMeeting
    case SpeakerAttr => Queries.Speaker
    case MaximumRecordsAttr => Queries.MaximumRecords
    case SessionFromAttr => Queries.SessionFrom
    case SessionToAttr => Queries.SessionTo
  }

  /** The fields the command line can set: the six copied attributes and the two dates. */
  const InputFields: seq<Queries.Field> := [
    Queries.Any, Queries.NameOfMeeting, Queries.Speaker, Queries.MaximumRecords,
    Queries.SessionFrom, Queries.SessionTo, Queries.FromDate, Queries.UntilDate
  ]

  /** The argument a field takes from the command line; None for the fields it cannot set. */
  function Argument(ns: Namespace, f: Queries.Field): Value
  {
    match f
    case Any => Given(ns, AnyAttr)
    case NameOfMeeting => Given(ns, NameOfMeetingAttr)
    case Speaker => Given(ns, SpeakerAttr)
    case MaximumRecords => Given(ns, MaximumRecordsAttr)
    case SessionFrom => Given(ns, SessionFromAttr)
    case SessionTo => Given(ns, SessionToAttr)
    case FromDate => FromValue(ns)
    case UntilDate => UntilValue(ns)
    case _ => Null
  }

  /** The key of a field in a dict the query reads: the alias of a date, the field name of the rest. */
  lemma InputKeysOwnField(f: Queries.Field, g: Queries.Field)
    requires g in InputFields
    ensures Queries.PyName(f) == Queries.DumpName(g) ==> f == g
    ensures Queries.Alias(f) == Some(Queries.DumpName(g)) ==> f == g
  {
    if g == Queries.Any || g == Queries.NameOfMeeting || g == Queries.Speaker || g == Queries.MaximumRecords {
      InputKeysOwnFieldA(f, g);
    } else {
      InputKeysOwnFieldB(f, g);
    }
  }

  lemma InputKeysOwnFieldA(f: Queries.Field, g: Queries.Field)
    requires g == Queries.Any || g == Queries.NameOfMeeting || g == Queries.Speaker || g == Queries.MaximumRecords
    ensures Queries.PyName(f) == Queries.DumpName(g) ==> f == g
    ensures Queries.Alias(f) == Some(Queries.DumpName(g)) ==> f == g
  {
  }

  lemma InputKeysOwnFieldB(f: Queries.Field, g: Queries.Field)
    requires g == Queries.SessionFrom || g == Queries.SessionTo || g == Queries.FromDate || g == Queries.UntilDate
    ensures Queries.PyName(f) == Queries.DumpName(g) ==> f == g
    ensures Queries.Alias(f) == Some(Queries.DumpName(g)) ==> f == g
  {
  }

  /**
    Corrected: the same arguments under the query's field names (the dates
    under their aliases), so that the query reads every key.
   */
  function QueryInput(ns: Namespace): map<string, Value>
  {
    map f | f in InputFields && Argument(ns, f) != Null :: Queries.DumpName(f) := Argument(ns, f)
  }

  /** A key of the corrected dict belongs to one field that the command line sets. */
  lemma QueryInputKey(ns: Namespace, k: string)
    requires k in QueryInput(ns)
    ensures exists g :: && g in InputFields && Queries.DumpName(g) == k && Argument(ns, g) != Null
                        && QueryInput(ns)[k] == Argument(ns, g)
  {
  }

  /** Each field the command line sets is in the corrected dict exactly when its argument was given. */
  lemma QueryInputAt(ns: Namespace, g: Queries.Field)
    requires g in InputFields
    ensures Queries.DumpName(g) in QueryInput(ns) <==> Argument(ns, g) != Null
    ensures Queries.DumpName(g) in QueryInput(ns) ==> QueryInput(ns)[Queries.DumpName(g)] == Argument(ns, g)
  {
    if Queries.DumpName(g) in QueryInput(ns) {
      QueryInputKey(ns, Queries.DumpName(g));
      var h :| h in InputFields && Queries.DumpName(h) == Queries.DumpName(g) && Argument(ns, h) != Null
               && QueryInput(ns)[Queries.DumpName(g)] == Argument(ns, h);
      InputKeysOwnField(g, h);
    }
  }

  /** No other name of a field is a key of the corrected dict. */
  lemma QueryInputOnlyDumpNames(ns: Namespace, f: Queries.Field)
    ensures Queries.PyName(f) in QueryInput(ns) ==> f in InputFields && Queries.PyName(f) == Queries.DumpName(f)
  {
    if Queries.PyName(f) in QueryInput(ns) {
      QueryInputKey(ns, Queries.PyName(f));
      var g :| g in InputFields && Queries.DumpName(g) == Queries.PyName(f) && Argument(ns, g) != Null;
      InputKeysOwnField(f, g);
    }
  }

  /** The key a field the command line sets is read from. */
  lemma UsedKeyOfInputField(m: map<string, Value>, g: Queries.Field)
    requires g in InputFields
    ensures Queries.DumpName(g) in m ==> Queries.UsedKey(m, g) == Some(Queries.DumpName(g))
    ensures g in {Queries.FromDate, Queries.UntilDate} && Queries.DumpName(g) !in m ==>
      Queries.UsedKey(m, g) == if Queries.PyName(g) in m then Some(Queries.PyName(g)) else None
    ensures g !in {Queries.FromDate, Queries.UntilDate} ==> Queries.PyName(g) == Queries.DumpName(g)
  {
  }

  /** Each field of the corrected query is the argument it stands for, or its default. */
  lemma QueryInputResolved(ns: Namespace, f: Queries.Field)
    ensures Queries.Resolved(QueryInput(ns), f) == if f in InputFields then Argument(ns, f) else Queries.Default(f)
  {
    if f in InputFields {
      QueryInputResolvedSet(ns, f);
    } else {
      QueryInputResolvedUnset(ns, f);
    }
  }

  lemma QueryInputResolvedSet(ns: Namespace, f: Queries.Field)
    requires f in InputFields
    ensures Queries.Resolved(QueryInput(ns), f) == Argument(ns, f)
  {
    var m := QueryInput(ns);
    var k := Queries.DumpName(f);
    QueryInputAt(ns, f);
    UsedKeyOfInputField(m, f);
    if k in m {
      assert Queries.Provided(m, f) == Some(m[k]);
    } else {
      QueryInputOnlyDumpNames(ns, f);
      assert Queries.UsedKey(m, f) == None;
    }
  }

  lemma QueryInputResolvedUnset(ns: Namespace, f: Queries.Field)
    requires f !in InputFields
    ensures Queries.Resolved(QueryInput(ns), f) == Queries.Default(f)
  {
    QueryInputOnlyDumpNames(ns, f);
    assert Queries.Alias(f).None?;
  }

  /** The copied attributes are sent under their own names once the query renames its fields. */
  lemma CopiedAttrWireNames(ns: Namespace, a: Attr)
    ensures FieldOfAttr(a) in InputFields
    ensures Argument(ns, FieldOfAttr(a)) == Given(ns, a)
    ensures Queries.WireName(FieldOfAttr(a)) == Dest(a)
  {
    if AttrIndex(a) < 3 {
      CopiedAttrWireNamesA(ns, a);
    } else {
      CopiedAttrWireNamesB(ns, a);
    }
  }

  lemma CopiedAttrWireNamesA(ns: Namespace, a: Attr)
    requires AttrIndex(a) < 3
    ensures FieldOfAttr(a) in InputFields
    ensures Argument(ns, FieldOfAttr(a)) == Given(ns, a)
    ensures Queries.WireName(FieldOfAttr(a)) == Dest(a)
  {
    match a
    case AnyAttr =>
    case NameOfMeetingAttr =>
    case SpeakerAttr =>
  }

  lemma CopiedAttrWireNamesB(ns: Namespace, a: Attr)
    requires AttrIndex(a) >= 3
    ensures FieldOfAttr(a) in InputFields
    ensures Argument(ns, FieldOfAttr(a)) == Given(ns, a)
    ensures Queries.WireName(FieldOfAttr(a)) == Dest(a)
  {
    match a
    case MaximumRecordsAttr =>
    case SessionFromAttr =>
    case SessionToAttr =>
  }

  /** The corrected dict has no key the query does not read. */
  lemma QueryInputKeysRead(ns: Namespace, k: string)
    requires k in QueryInput(ns)
    ensures !Queries.IsExtra(QueryInput(ns), k)
  {
    QueryInputKey(ns, k);
    var g :| g in InputFields && Queries.DumpName(g) == k && Argument(ns, g) != Null;
    UsedKeyOfInputField(QueryInput(ns), g);
    Queries.AllFieldsComplete(g);
    assert Queries.UsedKey(QueryInput(ns), Queries.AllFields[Queries.FieldIndex(g)]) == Some(k);
  }

  /** One field of the corrected query is sent as the command line gave it. */
  lemma CorrectedFieldSent(kind: Queries.QueryKind, ns: Namespace, f: Queries.Field)
    requires Queries.Validate(kind, QueryInput(ns)).Success? && f in InputFields
    ensures Lookup(Queries.WireParams(Queries.Validate(kind, QueryInput(ns)).value), Queries.WireName(f))
      == SomeIfSet(Argument(ns, f))
  {
    Queries.ValidateFields(kind, QueryInput(ns), f);
    QueryInputResolved(ns, f);
    Queries.WireParamsLookup(Queries.Validate(kind, QueryInput(ns)).value, f);
  }

  /**
    With field names, the query the client builds sends each argument under
    the very key `_collect_params` meant for it, and both dates as chosen.
   */
  lemma CorrectedParamsSent(kind: Queries.QueryKind, ns: Namespace)
    requires Queries.Validate(kind, QueryInput(ns)).Success?
    ensures var p := Queries.WireParams(Queries.Validate(kind, QueryInput(ns)).value);
      && (forall a :: Lookup(p, Dest(a)) == SomeIfSet(Given(ns, a)))
      && Lookup(p, "from") == SomeIfSet(FromValue(ns))
      && Lookup(p, "until") == SomeIfSet(UntilValue(ns))
  {
    forall a ensures Lookup(Queries.WireParams(Queries.Validate(kind, QueryInput(ns)).value), Dest(a))
      == SomeIfSet(Given(ns, a))
    {
      CopiedAttrWireNames(ns, a);
      CorrectedFieldSent(kind, ns, FieldOfAttr(a));
    }
    Queries.WireNameOfDate();
    CorrectedFieldSent(kind, ns, Queries.FromDate);
    CorrectedFieldSent(kind, ns, Queries.UntilDate);
  }

  /** Every field of the corrected query has the type the query declares; only the page size has a range. */
  lemma QueryInputFieldsCheck(kind: Queries.QueryKind, ns: Namespace, f: Queries.Field)
    requires ns.maximumRecords.None? || 1 <= ns.maximumRecords.value <= Queries.Ceiling(kind)
    ensures Queries.FieldIssue(kind, f, Queries.Resolved(QueryInput(ns), f)).None?
  {
    QueryInputResolved(ns, f);
    ArgumentChecks(kind, ns, f);
  }

  /** The same on the arguments themselves. */
  lemma ArgumentChecks(kind: Queries.QueryKind, ns: Namespace, f: Queries.Field)
    requires ns.maximumRecords.None? || 1 <= ns.maximumRecords.value <= Queries.Ceiling(kind)
    ensures Queries.FieldIssue(kind, f, if f in InputFields then Argument(ns, f) else Queries.Default(f)).None?
  {
    if f == Queries.Any || f == Queries.NameOfMeeting || f == Queries.Speaker {
    } else if f == Queries.FromDate || f == Queries.UntilDate {
    } else if f == Queries.MaximumRecords || f == Queries.SessionFrom || f == Queries.SessionTo {
    } else if f == Queries.RecordPacking {
    } else {
      assert f !in InputFields;
    }
  }

  /**
    The corrected dict is accepted whenever the command line gives some
    search condition and a page size the query class allows.
   */
  lemma CorrectedInputAccepted(kind: Queries.QueryKind, ns: Namespace, c: Queries.Field)
    requires c in InputFields && Queries.IsCondition(c) && IsSet(Argument(ns, c))
    requires ns.maximumRecords.None? || 1 <= ns.maximumRecords.value <= Queries.Ceiling(kind)
    ensures Queries.Validate(kind, QueryInput(ns)).Success?
  {
    forall f ensures Queries.FieldIssue(kind, f, Queries.Resolved(QueryInput(ns), f)).None? {
      QueryInputFieldsCheck(kind, ns, f);
    }
    forall k | k in QueryInput(ns) ensures !Queries.IsExtra(QueryInput(ns), k) {
      QueryInputKeysRead(ns, k);
    }
    QueryInputResolved(ns, c);
    Queries.ConditionSufficesToBuild(kind, QueryInput(ns), c);
  }

  // ---------------- dry run ----------------

  /** The `limit_total` a command passes: 1 for a dry run, else `--limit-total`. */
  function CommandLimit(ns: Namespace): Value
  {
    if ns.dryRun then Int(1) else OptionalInt(ns.limitTotal)
  }

  /** A dry run that returns has fetched at most one record, and says it was cut short exactly when it found one. */
  lemma DryRunOneRecord(e: Endpoints.EndpointKind, baseUrl: string, enabled: bool,
                        cache: map<CacheKey, CacheEntry>, sent: seq<Request>, net: Network, disk: Disk,
                        q: Queries.Query, ns: Namespace, fuel: nat)
    requires ns.dryRun
    ensures SanitizeLimit(CommandLimit(ns)) == Success(Some(1))
    ensures var run := Endpoints.EndpointSearch(e, baseUrl, enabled, cache, sent, net, disk, q, CommandLimit(ns), fuel);
      run.result.Success? ==>
        |run.result.value.records| <= 1 && (run.result.value.truncated <==> |run.result.value.records| == 1)
  {
    var run := Endpoints.EndpointSearch(e, baseUrl, enabled, cache, sent, net, disk, q, CommandLimit(ns), fuel);
    if run.result.Success? {
      SearchResultFacts(enabled, cache, sent, net, disk, Endpoints.Url(baseUrl, e), Endpoints.RecordKey(e),
                        Queries.WireParams(q), CommandLimit(ns), fuel);
    }
  }

  // ---------------- CSV header ----------------

  /** What `_print_output` is given: a list of dicts, or one dict. */
  datatype Printed = Rows(rows: seq<Pairs>) | OneRow(row: Pairs)

  /** A single dict is printed as a list of one row. */
  function CsvRows(obj: Printed): seq<Pairs>
  {
    match obj
    case Rows(rows) => rows
    case OneRow(row) => [row]
  }

  predicate InSomeRow(rows: seq<Pairs>, k: string)
  {
    exists i :: 0 <= i < |rows| && k in Keys(rows[i])
  }

  /** The keys of all rows, one row after another. */
  function AllKeys(rows: seq<Pairs>): (ks: seq<string>)
    ensures forall k :: k in ks <==> InSomeRow(rows, k)
  {
    if rows == [] then []
    else
      var rest := AllKeys(rows[1..]);
      assert forall k :: InSomeRow(rows, k) <==> k in Keys(rows[0]) || InSomeRow(rows[1..], k) by {
        forall k ensures InSomeRow(rows, k) <==> k in Keys(rows[0]) || InSomeRow(rows[1..], k) {
          if InSomeRow(rows, k) && k !in Keys(rows[0]) {
            var i :| 0 <= i < |rows| && k in Keys(rows[i]);
            assert rows[1..][i - 1] == rows[i];
          }
          if InSomeRow(rows[1..], k) {
            var i :| 0 <= i < |rows[1..]| && k in Keys(rows[1..][i]);
            assert rows[i + 1] == rows[1..][i];
          }
        }
      }
      Keys(rows[0]) + rest
  }

  /**
    `sorted(set().union(*(row.keys() for row in rows)))`, or nothing when there
    are no rows and nothing is printed: every key of every row once, in
    ascending order, and no other.
   */
  function CsvHeader(obj: Printed): (h: Option<seq<string>>)
    ensures h.None? <==> CsvRows(obj) == []
    ensures h.Some? ==> StrictlySorted(h.value)
    ensures h.Some? ==> forall k :: k in h.value <==> InSomeRow(CsvRows(obj), k)
  {
    var rows := CsvRows(obj);
    if rows == [] then None else Some(SortedDistinct(AllKeys(rows)))
  }

  /** The header is the only ascending list without repeats of the row keys. */
  lemma CsvHeaderUnique(obj: Printed, names: seq<string>)
    requires CsvRows(obj) != []
    requires StrictlySorted(names)
    requires forall k :: k in names <==> InSomeRow(CsvRows(obj), k)
    ensures CsvHeader(obj) == Some(names)
  {
    StrictlySortedUnique(CsvHeader(obj).value, names);
  }

  /** One dict is printed with its own keys, sorted, even when it has none. */
  lemma CsvHeaderOfOneDict(row: Pairs)
    ensures CsvHeader(OneRow(row)).Some?
    ensures forall k :: k in CsvHeader(OneRow(row)).value <==> k in Keys(row)
  {
    forall k ensures InSomeRow([row], k) <==> k in Keys(row) {
      if k in Keys(row) {
        assert [row][0] == row;
      }
    }
  }
}
