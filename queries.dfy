/**
  The query models: `BaseQuery` and its three subclasses.

  A query is built from a dict of keyword arguments. Building it validates
  the fields, rejects unknown keys, and requires at least one search
  condition. `to_params` then turns it into the parameter dict sent to the
  API. Only `maximum_records` differs between the subclasses: its ceiling
  is 100 for meeting_list and speech, and 10 for meeting.
 */
module Queries {
  import opened Wrappers
  import opened Json

  /** `MeetingListQuery`, `SpeechQuery`, `MeetingQuery`. */
  datatype QueryKind = MeetingListQuery | SpeechQuery | MeetingQuery

  /** The largest `maximum_records` each subclass accepts. */
  function Ceiling(kind: QueryKind): nat
  {
    match kind
    case MeetingListQuery => 100
    case SpeechQuery => 100
    case MeetingQuery => 10
  }

  /** The fields of `BaseQuery`, in declaration order. */
  datatype Field =
    | StartRecord | MaximumRecords | RecordPacking
    | NameOfHouse | NameOfMeeting | Any | Speaker | FromDate | UntilDate
    | SupplementAndAppendix | ContentsAndIndex | SearchRange | Closing
    | SpeechNumber | SpeakerPosition | SpeakerGroup | SpeakerRole | SpeechId | IssueId
    | SessionFrom | SessionTo | IssueFrom | IssueTo

  /** The position of each field in the class body. */
  function FieldIndex(f: Field): nat
  {
    match f
    case StartRecord => 0
    case MaximumRecords => 1
    case RecordPacking => 2
    case NameOfHouse => 3
    case NameOfMeeting => 4
    case Any => 5
    case Speaker => 6
    case FromDate => 7
    case UntilDate => 8
    case SupplementAndAppendix => 9
    case ContentsAndIndex => 10
    case SearchRange => 11
    case Closing => 12
    case SpeechNumber => 13
    case SpeakerPosition => 14
    case SpeakerGroup => 15
    case SpeakerRole => 16
    case SpeechId => 17
    case IssueId => 18
    case SessionFrom => 19
    case SessionTo => 20
    case IssueFrom => 21
    case IssueTo => 22
  }

  const FieldCount: nat := 23

  /** The field at position `i` (the last one for any `i` beyond). */
  function FieldAt(i: int): (f: Field)
    ensures 0 <= i < FieldCount ==> FieldIndex(f) == i
  {
    if i == 0 then StartRecord else if i == 1 then MaximumRecords else if i == 2 then RecordPacking
    else if i == 3 then NameOfHouse else if i == 4 then NameOfMeeting else if i == 5 then Any
    else if i == 6 then Speaker else if i == 7 then FromDate else if i == 8 then UntilDate
    else if i == 9 then SupplementAndAppendix else if i == 10 then ContentsAndIndex
    else if i == 11 then SearchRange else if i == 12 then Closing else if i == 13 then SpeechNumber
    else if i == 14 then SpeakerPosition else if i == 15 then SpeakerGroup
    else if i == 16 then SpeakerRole else if i == 17 then SpeechId else if i == 18 then IssueId
    else if i == 19 then SessionFrom else if i == 20 then SessionTo else if i == 21 then IssueFrom
    else IssueTo
  }

  /** The fields in declaration order. */
  const AllFields: seq<Field> := [
    StartRecord, MaximumRecords, RecordPacking,
    NameOfHouse, NameOfMeeting, Any, Speaker, FromDate, UntilDate,
    SupplementAndAppendix, ContentsAndIndex, SearchRange, Closing,
    SpeechNumber, SpeakerPosition, SpeakerGroup, SpeakerRole, SpeechId, IssueId,
    SessionFrom, SessionTo, IssueFrom, IssueTo
  ]

  lemma AllFieldsAt(i: int)
    requires 0 <= i < |AllFields|
    ensures AllFields[i] == FieldAt(i)
  {
  }

  /** Every field occurs in `AllFields`, at its index. */
  lemma AllFieldsComplete(f: Field)
    ensures FieldIndex(f) < |AllFields| && AllFields[FieldIndex(f)] == f
    ensures f in AllFields
  {
  }

  /** The Python attribute name. */
  function PyName(f: Field): string
  {
    match f
    case StartRecord => "start_record"
    case MaximumRecords => "maximum_records"
    case RecordPacking => "record_packing"
    case NameOfHouse => "name_of_house"
    case NameOfMeeting => "name_of_meeting"
    case Any => "any"
    case Speaker => "speaker"
    case FromDate => "from_date"
    case UntilDate => "until_date"
    case SupplementAndAppendix => "supplement_and_appendix"
    case ContentsAndIndex => "contents_and_index"
    case SearchRange => "search_range"
    case Closing => "closing"
    case SpeechNumber => "speech_number"
    case SpeakerPosition => "speaker_position"
    case SpeakerGroup => "speaker_group"
    case SpeakerRole => "speaker_role"
    case SpeechId => "speech_id"
    case IssueId => "issue_id"
    case SessionFrom => "session_from"
    case SessionTo => "session_to"
    case IssueFrom => "issue_from"
    case IssueTo => "issue_to"
  }

  /** The declared alias: `from` and `until` are Python keywords. */
  function Alias(f: Field): Option<string>
  {
    match f
    case FromDate => Some("from")
    case UntilDate => Some("until")
    case _ => None
  }

  /** What a field's value must be, besides None. */
  datatype FieldType = IntType | StrType | BoolType | PackingType

  function TypeOf(f: Field): FieldType
  {
    match f
    case StartRecord => IntType
    case MaximumRecords => IntType
    case RecordPacking => PackingType
    case SupplementAndAppendix => BoolType
    case ContentsAndIndex => BoolType
    case Closing => BoolType
    case SpeechNumber => IntType
    case SessionFrom => IntType
    case SessionTo => IntType
    case IssueFrom => IntType
    case IssueTo => IntType
    case _ => StrType
  }

  /** The sixteen search conditions; paging, format and flag fields are not among them. */
  predicate IsCondition(f: Field)
  {
    !(f in {StartRecord, MaximumRecords, RecordPacking, SupplementAndAppendix,
            ContentsAndIndex, SearchRange, Closing})
  }

  /** The value a field takes when the dict does not mention it. */
  function Default(f: Field): Value
  {
    if f == RecordPacking then Str("json") else Null
  }

  /** Why building a query fails. */
  datatype Issue =
    | ExtraForbidden(key: string)                 // extra="forbid"
    | WrongType(field: Field)                     // not of the declared type
    | LessThanOne(field: Field)                   // ge=1
    | AboveCeiling(field: Field, ceiling: nat)    // max_100 / max_10
    | ConditionRequired                           // require_some_condition

  /** A built query: the value of every field, Null standing for None. */
  datatype Query = Query(kind: QueryKind, fields: map<Field, Value>)

  function Get(q: Query, f: Field): Value
  {
    if f in q.fields then q.fields[f] else Null
  }


  /** `require_some_condition`: some condition field is neither None nor "". */
  predicate HasCondition(q: Query)
  {
    exists i :: 0 <= i < |AllFields| && IsCondition(AllFields[i]) && IsSet(Get(q, AllFields[i]))
  }

  /** The dict key a field is read from: the alias first, then the field name. */
  function UsedKey(input: map<string, Value>, f: Field): Option<string>
  {
    if Alias(f).Some? && Alias(f).value in input then Alias(f)
    else if PyName(f) in input then Some(PyName(f))
    else None
  }

  /** The value given for a field, if any. */
  function Provided(input: map<string, Value>, f: Field): Option<Value>
  {
    match UsedKey(input, f)
    case None => None
    case Some(k) => if k in input then Some(input[k]) else None
  }

  /** The field's value after defaults. */
  function Resolved(input: map<string, Value>, f: Field): Value
  {
    match Provided(input, f)
    case None => Default(f)
    case Some(v) => v
  }

  /** The check of one field: its type, `ge=1`, and the subclass ceiling. */
  function FieldIssue(kind: QueryKind, f: Field, v: Value): Option<Issue>
  {
    if v == Null then None
    else match TypeOf(f)
      case IntType =>
        if !v.Int? then Some(WrongType(f))
        else if (f == StartRecord || f == MaximumRecords) && v.i < 1 then Some(LessThanOne(f))
        else if f == MaximumRecords && v.i > Ceiling(kind) then Some(AboveCeiling(f, Ceiling(kind)))
        else None
      case StrType => if v.Str? then None else Some(WrongType(f))
      case BoolType => if v.Bool? then None else Some(WrongType(f))
      case PackingType => if v == Str("json") || v == Str("xml") then None else Some(WrongType(f))
  }

  function FieldIssues(kind: QueryKind, input: map<string, Value>): set<Issue>
  {
    set i | 0 <= i < |AllFields| && FieldIssue(kind, AllFields[i], Resolved(input, AllFields[i])).Some?
      :: FieldIssue(kind, AllFields[i], Resolved(input, AllFields[i])).value
  }

  /** A key of the dict that no field read. */
  predicate IsExtra(input: map<string, Value>, k: string)
  {
    k in input && !(exists i :: 0 <= i < |AllFields| && UsedKey(input, AllFields[i]) == Some(k))
  }

  /** A key some field reads is not extra. */
  lemma UsedKeyNotExtra(input: map<string, Value>, f: Field)
    requires UsedKey(input, f).Some?
    ensures !IsExtra(input, UsedKey(input, f).value)
  {
    AllFieldsComplete(f);
  }

  function ExtraIssues(input: map<string, Value>): set<Issue>
  {
    set k | k in input && IsExtra(input, k) :: ExtraForbidden(k)
  }

  /** The fields read from `input`, with defaults for the rest. */
  function Fill(input: map<string, Value>): (m: map<Field, Value>)
    ensures forall f :: f in m && m[f] == Resolved(input, f)
  {
    var m := map i | 0 <= i < |AllFields| :: AllFields[i] := Resolved(input, AllFields[i]);
    assert forall f :: f in m && m[f] == Resolved(input, f) by {
      forall f ensures f in m && m[f] == Resolved(input, f) {
        AllFieldsComplete(f);
      }
    }
    m
  }

  /**
    `Kind.model_validate(input)`, or `Kind(**input)`: all field and extra-key
    issues together, then the condition check on a query that has none.
   */
  function Validate(kind: QueryKind, input: map<string, Value>): Result<Query, set<Issue>>
  {
    var issues := FieldIssues(kind, input) + ExtraIssues(input);
    if issues != {} then Failure(issues)
    else
      var q := Query(kind, Fill(input));
      if HasCondition(q) then Success(q) else Failure({ConditionRequired})
  }

  /** A built query holds what the dict gave, or the defaults. */
  lemma ValidateFields(kind: QueryKind, input: map<string, Value>, f: Field)
    requires Validate(kind, input).Success?
    ensures Get(Validate(kind, input).value, f) == Resolved(input, f)
    ensures Validate(kind, input).value.kind == kind
  {
  }

  /** One field's problem is enough to reject the dict. */
  lemma FieldIssueRejects(kind: QueryKind, input: map<string, Value>, f: Field)
    requires FieldIssue(kind, f, Resolved(input, f)).Some?
    ensures Validate(kind, input).Failure?
    ensures FieldIssue(kind, f, Resolved(input, f)).value in Validate(kind, input).error
  {
    AllFieldsComplete(f);
    IssueInIssues(kind, input, FieldIndex(f));
  }

  /** A field is read from its alias or its name, or not at all. */
  lemma UsedKeyShape(input: map<string, Value>, f: Field)
    ensures UsedKey(input, f).Some? ==> UsedKey(input, f) == Alias(f) || UsedKey(input, f) == Some(PyName(f))
  {
  }

  lemma IssueInIssues(kind: QueryKind, input: map<string, Value>, i: nat)
    requires i < |AllFields|
    requires FieldIssue(kind, AllFields[i], Resolved(input, AllFields[i])).Some?
    ensures FieldIssue(kind, AllFields[i], Resolved(input, AllFields[i])).value in FieldIssues(kind, input)
  {
  }

  /** Unknown keys are rejected (extra="forbid"). */
  lemma UnknownKeyRejected(kind: QueryKind, input: map<string, Value>, k: string)
    requires k in input
    requires forall f :: k != PyName(f) && Alias(f) != Some(k)
    ensures Validate(kind, input).Failure?
    ensures ExtraForbidden(k) in Validate(kind, input).error
  {
    forall i | 0 <= i < |AllFields| ensures UsedKey(input, AllFields[i]) != Some(k) {
      UsedKeyShape(input, AllFields[i]);
    }
    assert IsExtra(input, k);
    assert ExtraForbidden(k) in ExtraIssues(input);
  }

  /** An accepted dict names only fields, by name or by alias. */
  lemma AcceptedKeysAreFields(kind: QueryKind, input: map<string, Value>, k: string)
    requires Validate(kind, input).Success? && k in input
    ensures exists f :: k == PyName(f) || Alias(f) == Some(k)
  {
    if !exists f :: k == PyName(f) || Alias(f) == Some(k) {
      UnknownKeyRejected(kind, input, k);
    }
  }

  /** An accepted query has a search condition, and its fields have their declared types. */
  lemma AcceptedQueryWellFormed(kind: QueryKind, input: map<string, Value>, f: Field)
    requires Validate(kind, input).Success?
    ensures HasCondition(Validate(kind, input).value)
    ensures FieldIssue(kind, f, Get(Validate(kind, input).value, f)).None?
  {
    if FieldIssue(kind, f, Resolved(input, f)).Some? {
      FieldIssueRejects(kind, input, f);
    }
  }

  /** `start_record` and `maximum_records`, when set, are at least 1; `maximum_records` is at most the ceiling. */
  lemma AcceptedPaging(kind: QueryKind, input: map<string, Value>)
    requires Validate(kind, input).Success?
    ensures var q := Validate(kind, input).value;
      && (Get(q, StartRecord) == Null || (Get(q, StartRecord).Int? && Get(q, StartRecord).i >= 1))
      && (Get(q, MaximumRecords) == Null
          || (Get(q, MaximumRecords).Int? && 1 <= Get(q, MaximumRecords).i <= Ceiling(kind)))
  {
    AcceptedQueryWellFormed(kind, input, StartRecord);
    AcceptedQueryWellFormed(kind, input, MaximumRecords);
  }

  /** Without a set condition field, no dict is accepted; paging, format and flag fields do not help. */
  lemma ConditionRequiredToBuild(kind: QueryKind, input: map<string, Value>)
    requires forall f :: IsCondition(f) ==> !IsSet(Resolved(input, f))
    ensures Validate(kind, input).Failure?
  {
    var q := Query(kind, Fill(input));
    assert !HasCondition(q) by {
      forall i | 0 <= i < |AllFields| ensures !(IsCondition(AllFields[i]) && IsSet(Get(q, AllFields[i]))) {
      }
    }
  }

  /** A dict whose fields all check out and that sets a condition field is accepted. */
  lemma ConditionSufficesToBuild(kind: QueryKind, input: map<string, Value>, c: Field)
    requires forall f :: FieldIssue(kind, f, Resolved(input, f)).None?
    requires forall k :: k in input ==> !IsExtra(input, k)
    requires IsCondition(c) && IsSet(Resolved(input, c))
    ensures Validate(kind, input).Success?
  {
    var q := Query(kind, Fill(input));
    AllFieldsComplete(c);
    assert IsCondition(AllFields[FieldIndex(c)]) && IsSet(Get(q, AllFields[FieldIndex(c)]));
    assert FieldIssues(kind, input) == {};
    assert ExtraIssues(input) == {};
  }

  // ---------------- to_params ----------------

  /** The key `model_dump(by_alias=True)` writes: the alias if there is one. */
  function DumpName(f: Field): string
  {
    if Alias(f).Some? then Alias(f).value else PyName(f)
  }

  /** The `mapping` dict of `to_params`. */
  function Mapping(k: string): Option<string>
  {
    match k
    case "start_record" => Some("startRecord")
    case "maximum_records" => Some("maximumRecords")
    case "record_packing" => Some("recordPacking")
    case "name_of_house" => Some("nameOfHouse")
    case "name_of_meeting" => Some("nameOfMeeting")
    case "supplement_and_appendix" => Some("supplementAndAppendix")
    case "contents_and_index" => Some("contentsAndIndex")
    case "search_range" => Some("searchRange")
    case "speech_number" => Some("speechNumber")
    case "speaker_position" => Some("speakerPosition")
    case "speaker_group" => Some("speakerGroup")
    case "speaker_role" => Some("speakerRole")
    case "speech_id" => Some("speechID")
    case "issue_id" => Some("issueID")
    case "session_from" => Some("sessionFrom")
    case "session_to" => Some("sessionTo")
    case "issue_from" => Some("issueFrom")
    case "issue_to" => Some("issueTo")
    case "from_date" => Some("from")
    case "until_date" => Some("until")
    case _ => None
  }

  /** `mapping.get(k, k)`. */
  function Rename(k: string): string
  {
    match Mapping(k)
    case Some(w) => w
    case None => k
  }

  /** The key a field is sent under. */
  function WireName(f: Field): string
  {
    Rename(DumpName(f))
  }

  /** Reads a wire key back as the field it came from. */
  function FieldOfWire(k: string): Option<Field>
  {
    match k
    case "startRecord" => Some(StartRecord)
    case "maximumRecords" => Some(MaximumRecords)
    case "recordPacking" => Some(RecordPacking)
    case "nameOfHouse" => Some(NameOfHouse)
    case "nameOfMeeting" => Some(NameOfMeeting)
    case "any" => Some(Any)
    case "speaker" => Some(Speaker)
    case "from" => Some(FromDate)
    case "until" => Some(UntilDate)
    case "supplementAndAppendix" => Some(SupplementAndAppendix)
    case "contentsAndIndex" => Some(ContentsAndIndex)
    case "searchRange" => Some(SearchRange)
    case "closing" => Some(Closing)
    case "speechNumber" => Some(SpeechNumber)
    case "speakerPosition" => Some(SpeakerPosition)
    case "speakerGroup" => Some(SpeakerGroup)
    case "speakerRole" => Some(SpeakerRole)
    case "speechID" => Some(SpeechId)
    case "issueID" => Some(IssueId)
    case "sessionFrom" => Some(SessionFrom)
    case "sessionTo" => Some(SessionTo)
    case "issueFrom" => Some(IssueFrom)
    case "issueTo" => Some(IssueTo)
    case _ => None
  }

  /** Every field's wire key reads back as that field. */
  lemma WireNameRoundTrip(f: Field)
    ensures FieldOfWire(WireName(f)) == Some(f)
  {
    if FieldIndex(f) < 3 {
      RoundTripA(f);
    } else if FieldIndex(f) < 6 {
      RoundTripB(f);
    } else if FieldIndex(f) < 9 {
      RoundTripC(f);
    } else if FieldIndex(f) < 12 {
      RoundTripD(f);
    } else if FieldIndex(f) < 15 {
      RoundTripE(f);
    } else if FieldIndex(f) < 18 {
      RoundTripF(f);
    } else if FieldIndex(f) < 21 {
      RoundTripG(f);
    } else {
      RoundTripH(f);
    }
  }

  lemma RoundTripA(f: Field)
    requires FieldIndex(f) < 3
    ensures FieldOfWire(WireName(f)) == Some(f)
  {
  }

  lemma RoundTripB(f: Field)
    requires 3 <= FieldIndex(f) < 6
    ensures FieldOfWire(WireName(f)) == Some(f)
  {
  }

  lemma RoundTripC(f: Field)
    requires 6 <= FieldIndex(f) < 9
    ensures FieldOfWire(WireName(f)) == Some(f)
  {
  }

  lemma RoundTripD(f: Field)
    requires 9 <= FieldIndex(f) < 12
    ensures FieldOfWire(WireName(f)) == Some(f)
  {
  }

  lemma RoundTripE(f: Field)
    requires 12 <= FieldIndex(f) < 15
    ensures FieldOfWire(WireName(f)) == Some(f)
  {
  }

  lemma RoundTripF(f: Field)
    requires 15 <= FieldIndex(f) < 18
    ensures FieldOfWire(WireName(f)) == Some(f)
  {
  }

  lemma RoundTripG(f: Field)
    requires 18 <= FieldIndex(f) < 21
    ensures FieldOfWire(WireName(f)) == Some(f)
  {
  }

  lemma RoundTripH(f: Field)
    requires 21 <= FieldIndex(f)
    ensures FieldOfWire(WireName(f)) == Some(f)
  {
  }

  /** The rename table never sends two fields under one key. */
  lemma WireNameInjective(f: Field, g: Field)
    ensures WireName(f) == WireName(g) ==> f == g
  {
    WireNameRoundTrip(f);
    WireNameRoundTrip(g);
  }

  /** The set fields of `fs`, in order, each under `name(f)`. */
  function EntriesOf(q: Query, fs: seq<Field>, name: Field -> string): Pairs
  {
    if |fs| == 0 then []
    else (if Get(q, fs[0]) == Null then [] else [(name(fs[0]), Get(q, fs[0]))]) + EntriesOf(q, fs[1..], name)
  }

  /** `model_dump(by_alias=True, exclude_none=True)`. */
  function Dump(q: Query): Pairs
  {
    EntriesOf(q, AllFields, DumpName)
  }

  /** What `to_params` returns, as a specification: every set field under its wire key. */
  function WireParams(q: Query): Pairs
  {
    EntriesOf(q, AllFields, WireName)
  }

  /** The pairs of `EntriesOf` are exactly the set fields of `fs` under their names. */
  lemma {:induction false} EntriesMembers(q: Query, fs: seq<Field>, name: Field -> string, k: string, v: Value)
    ensures (k, v) in EntriesOf(q, fs, name)
      <==> exists f :: f in fs && Get(q, f) != Null && k == name(f) && v == Get(q, f)
  {
    if |fs| > 0 {
      EntriesMembers(q, fs[1..], name, k, v);
      var head := if Get(q, fs[0]) == Null then [] else [(name(fs[0]), Get(q, fs[0]))];
      assert EntriesOf(q, fs, name) == head + EntriesOf(q, fs[1..], name);
      assert forall f :: f in fs <==> f == fs[0] || f in fs[1..] by {
        assert fs == [fs[0]] + fs[1..];
      }
    }
  }

  predicate DistinctFields(fs: seq<Field>)
  {
    forall i, j :: 0 <= i < j < |fs| ==> fs[i] != fs[j]
  }

  /** Distinct fields under an injective naming give distinct keys. */
  lemma {:induction false} EntriesDistinct(q: Query, fs: seq<Field>, name: Field -> string)
    requires DistinctFields(fs)
    requires forall f, g :: name(f) == name(g) ==> f == g
    ensures DistinctKeys(EntriesOf(q, fs, name))
  {
    if |fs| > 0 {
      var rest := EntriesOf(q, fs[1..], name);
      assert DistinctFields(fs[1..]) by {
        forall i, j | 0 <= i < j < |fs[1..]| ensures fs[1..][i] != fs[1..][j] {
          assert fs[1..][i] == fs[i + 1] && fs[1..][j] == fs[j + 1];
        }
      }
      EntriesDistinct(q, fs[1..], name);
      if Get(q, fs[0]) != Null {
        var r := EntriesOf(q, fs, name);
        assert r == [(name(fs[0]), Get(q, fs[0]))] + rest;
        forall j | 0 <= j < |rest| ensures rest[j].0 != name(fs[0]) {
          var kv := rest[j];
          assert kv in rest;
          EntriesMembers(q, fs[1..], name, kv.0, kv.1);
          var f :| f in fs[1..] && Get(q, f) != Null && kv.0 == name(f) && kv.1 == Get(q, f);
          var m :| 0 <= m < |fs[1..]| && fs[1..][m] == f;
          assert fs[m + 1] == f;
        }
        forall i, j | 0 <= i < j < |r| ensures r[i].0 != r[j].0 {
          if i == 0 {
            assert r[j] == rest[j - 1];
          } else {
            assert r[i] == rest[i - 1] && r[j] == rest[j - 1];
          }
        }
      }
    }
  }

  lemma AllFieldsDistinct()
    ensures DistinctFields(AllFields)
  {
    forall i, j | 0 <= i < j < |AllFields| ensures AllFields[i] != AllFields[j] {
      AllFieldsAt(i);
      AllFieldsAt(j);
    }
  }

  /** `to_params` never produces two entries with one key. */
  lemma WireParamsDistinct(q: Query)
    ensures DistinctKeys(WireParams(q))
  {
    AllFieldsDistinct();
    WireNamesInjective();
    EntriesDistinct(q, AllFields, WireName);
  }

  /** Looking up a field's name finds its value, or nothing when the field is None. */
  lemma EntriesLookup(q: Query, fs: seq<Field>, name: Field -> string, f: Field)
    requires DistinctFields(fs) && f in fs
    requires forall f, g :: name(f) == name(g) ==> f == g
    ensures Lookup(EntriesOf(q, fs, name), name(f)) == if Get(q, f) == Null then None else Some(Get(q, f))
  {
    var p := EntriesOf(q, fs, name);
    EntriesDistinct(q, fs, name);
    if Get(q, f) != Null {
      EntriesMembers(q, fs, name, name(f), Get(q, f));
      PairInDict(p, name(f), Get(q, f));
    } else if Lookup(p, name(f)).Some? {
      var v := Lookup(p, name(f)).value;
      EntriesMembers(q, fs, name, name(f), v);
    }
  }

  /** The wire keys of distinct fields differ. */
  lemma WireNamesInjective()
    ensures forall f, g :: WireName(f) == WireName(g) ==> f == g
  {
    forall f, g | WireName(f) == WireName(g) ensures f == g {
      WireNameInjective(f, g);
    }
  }

  /**
    `to_params()[WireName(f)]` is the field's value, and the key is absent
    exactly when the field is None: no field is dropped, renamed wrongly or changed.
   */
  lemma WireParamsLookup(q: Query, f: Field)
    ensures Lookup(WireParams(q), WireName(f)) == if Get(q, f) == Null then None else Some(Get(q, f))
  {
    AllFieldsDistinct();
    AllFieldsComplete(f);
    WireNamesInjective();
    EntriesLookup(q, AllFields, WireName, f);
  }

  /** Every key of `to_params()` is the wire key of a set field. */
  lemma WireParamsKeys(q: Query, k: string)
    ensures k in Keys(WireParams(q)) <==> exists f :: WireName(f) == k && Get(q, f) != Null
  {
    var p := WireParams(q);
    if k in Keys(p) {
      var i :| 0 <= i < |p| && Keys(p)[i] == k;
      assert p[i] in p;
      EntriesMembers(q, AllFields, WireName, k, p[i].1);
    }
    if exists f :: WireName(f) == k && Get(q, f) != Null {
      var f :| WireName(f) == k && Get(q, f) != Null;
      WireParamsLookup(q, f);
    }
  }

  /** The renaming of each dumped pair, as in `out[mapping.get(k, k)] = v`. */
  function RenameEach(d: Pairs): (r: Pairs)
    ensures |r| == |d|
    ensures forall j :: 0 <= j < |d| ==> r[j] == (Rename(d[j].0), d[j].1)
  {
    seq(|d|, j requires 0 <= j < |d| => (Rename(d[j].0), d[j].1))
  }

  /** Renaming the dump gives the wire params. */
  lemma {:induction false} RenameEntries(q: Query, fs: seq<Field>)
    ensures RenameEach(EntriesOf(q, fs, DumpName)) == EntriesOf(q, fs, WireName)
  {
    if |fs| > 0 {
      RenameEntries(q, fs[1..]);
      var head := if Get(q, fs[0]) == Null then [] else [(DumpName(fs[0]), Get(q, fs[0]))];
      RenameConcat(head, EntriesOf(q, fs[1..], DumpName));
    }
  }

  lemma RenameConcat(a: Pairs, b: Pairs)
    ensures RenameEach(a + b) == RenameEach(a) + RenameEach(b)
  {
    var l, r := RenameEach(a + b), RenameEach(a) + RenameEach(b);
    assert |l| == |r|;
    forall j | 0 <= j < |l| ensures l[j] == r[j] {
      if j < |a| { assert (a + b)[j] == a[j]; } else { assert (a + b)[j] == b[j - |a|]; }
    }
  }

  /** In a dict, no entry's key occurs before it. */
  lemma PrefixKeyFresh(p: Pairs, i: nat)
    requires DistinctKeys(p) && i < |p|
    ensures p[i].0 !in Keys(p[..i])
  {
    forall j | 0 <= j < i ensures Keys(p[..i])[j] != p[i].0 {
      assert p[..i][j] == p[j];
    }
  }

  /** `BaseQuery.to_params`: dump the set fields by alias, then rename each key through the table. */
  method ToParams(q: Query) returns (out: Pairs)
    ensures out == WireParams(q)
  {
    var data := Dump(q);
    RenameEntries(q, AllFields);
    WireParamsDistinct(q);
    ghost var all := RenameEach(data);
    out := [];
    var i := 0;
    while i < |data|
      invariant 0 <= i <= |data|
      invariant out == all[..i]
    {
      var k, v := data[i].0, data[i].1;
      assert all[i] == (Rename(k), v);
      PrefixKeyFresh(all, i);
      out := Store(out, Rename(k), v);
      assert out == all[..i + 1];
      i := i + 1;
    }
  }

  /** An aliased field takes the alias's value, else the name's, else its default. */
  lemma ResolvedAliased(input: map<string, Value>, f: Field)
    requires Alias(f).Some?
    ensures Resolved(input, f) == if Alias(f).value in input then input[Alias(f).value]
                                  else if PyName(f) in input then input[PyName(f)] else Default(f)
  {
  }

  lemma WireNameOfDate()
    ensures WireName(FromDate) == "from" && WireName(UntilDate) == "until"
  {
  }

  /** `from_date` is read from "from" first, then from "from_date", and is sent as "from". */
  lemma FromDateByAliasOrName(kind: QueryKind, input: map<string, Value>)
    requires Validate(kind, input).Success?
    ensures var q := Validate(kind, input).value;
      && Get(q, FromDate) == (if "from" in input then input["from"]
                              else if "from_date" in input then input["from_date"] else Null)
      && Lookup(WireParams(q), "from") == if Get(q, FromDate) == Null then None else Some(Get(q, FromDate))
  {
    var q := Validate(kind, input).value;
    ValidateFields(kind, input, FromDate);
    assert Alias(FromDate) == Some("from") && PyName(FromDate) == "from_date" && Default(FromDate) == Null;
    ResolvedAliased(input, FromDate);
    WireParamsLookup(q, FromDate);
    WireNameOfDate();
  }

  /** `until_date` is read from "until" first, then from "until_date", and is sent as "until". */
  lemma UntilDateByAliasOrName(kind: QueryKind, input: map<string, Value>)
    requires Validate(kind, input).Success?
    ensures var q := Validate(kind, input).value;
      && Get(q, UntilDate) == (if "until" in input then input["until"]
                               else if "until_date" in input then input["until_date"] else Null)
      && Lookup(WireParams(q), "until") == if Get(q, UntilDate) == Null then None else Some(Get(q, UntilDate))
  {
    var q := Validate(kind, input).value;
    ValidateFields(kind, input, UntilDate);
    assert Alias(UntilDate) == Some("until") && PyName(UntilDate) == "until_date" && Default(UntilDate) == Null;
    ResolvedAliased(input, UntilDate);
    WireParamsLookup(q, UntilDate);
    WireNameOfDate();
  }

  /** Unless `record_packing` is given, the params carry recordPacking "json"; an explicit None drops it. */
  lemma RecordPackingDefault(kind: QueryKind, input: map<string, Value>)
    requires Validate(kind, input).Success?
    ensures var p := WireParams(Validate(kind, input).value);
      && ("record_packing" !in input ==> Lookup(p, "recordPacking") == Some(Str("json")))
      && ("record_packing" in input && input["record_packing"] == Null ==> Lookup(p, "recordPacking") == None)
  {
    WireParamsLookup(Validate(kind, input).value, RecordPacking);
  }
}
