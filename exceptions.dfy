/**
  The exception hierarchy of jp_diet_search and the text of its messages.

    DietSearchError
    ├── DietSearchRequestError
    │   └── DietSearchParseError
    └── DietSearchAPIError
        └── DietSearchRateLimitError

  Request and parse errors carry one message; API and rate-limit errors
  carry a message and a list of detail strings.
 */
module Exceptions {
  import opened Wrappers
  import opened Text

  /** The exception classes. */
  datatype Class = BaseClass | RequestClass | ParseClass | APIClass | RateLimitClass

  /** The direct base class; `BaseClass` is the root. */
  function Parent(c: Class): Class
  {
    match c
    case BaseClass => BaseClass
    case RequestClass => BaseClass
    case ParseClass => RequestClass
    case APIClass => BaseClass
    case RateLimitClass => APIClass
  }

  /** Distance from the root. */
  function Depth(c: Class): nat
  {
    match c
    case BaseClass => 0
    case RequestClass => 1
    case APIClass => 1
    case ParseClass => 2
    case RateLimitClass => 2
  }

  /** `issubclass(c, d)`: `d` is `c` or one of its ancestors. */
  predicate IsSubclass(c: Class, d: Class)
    decreases Depth(c)
  {
    c == d || (c != BaseClass && IsSubclass(Parent(c), d))
  }

  lemma {:induction false} IsSubclassTransitive(a: Class, b: Class, c: Class)
    requires IsSubclass(a, b) && IsSubclass(b, c)
    ensures IsSubclass(a, c)
    decreases Depth(a)
  {
    if a != b {
      IsSubclassTransitive(Parent(a), b, c);
    }
  }

  lemma {:induction false} IsSubclassAntisymmetric(a: Class, b: Class)
    requires IsSubclass(a, b) && IsSubclass(b, a)
    ensures a == b
  {
    SubclassDepth(a, b);
    SubclassDepth(b, a);
    if a != b {
      SubclassDepthStrict(a, b);
    }
  }

  /** A subclass sits at least as deep as its ancestors. */
  lemma {:induction false} SubclassDepth(a: Class, b: Class)
    requires IsSubclass(a, b)
    ensures Depth(b) <= Depth(a)
    decreases Depth(a)
  {
    if a != b {
      SubclassDepth(Parent(a), b);
    }
  }

  lemma {:induction false} SubclassDepthStrict(a: Class, b: Class)
    requires IsSubclass(a, b) && a != b
    ensures Depth(b) < Depth(a)
  {
    SubclassDepth(Parent(a), b);
  }

  /** An exception as the client raises it. */
  datatype DietSearchError =
    | RequestError(message: string)
    | ParseError(message: string)
    | APIError(message: string, details: seq<string>)
    | RateLimitError(message: string, details: seq<string>)

  function ClassOf(e: DietSearchError): Class
  {
    match e
    case RequestError(_) => RequestClass
    case ParseError(_) => ParseClass
    case APIError(_, _) => APIClass
    case RateLimitError(_, _) => RateLimitClass
  }

  /** `isinstance(e, c)`. */
  predicate IsInstance(e: DietSearchError, c: Class)
  {
    IsSubclass(ClassOf(e), c)
  }

  /** `except DietSearchRequestError` catches request and parse errors and nothing else. */
  lemma RequestErrorFamily(e: DietSearchError)
    ensures IsInstance(e, RequestClass) <==> e.RequestError? || e.ParseError?
    ensures IsInstance(e, ParseClass) <==> e.ParseError?
  {
  }

  /** `except DietSearchAPIError` catches API and rate-limit errors and nothing else. */
  lemma APIErrorFamily(e: DietSearchError)
    ensures IsInstance(e, APIClass) <==> e.APIError? || e.RateLimitError?
    ensures IsInstance(e, RateLimitClass) <==> e.RateLimitError?
  {
  }

  /** Every exception of the client is a `DietSearchError`, and none is both a request and an API error. */
  lemma ErrorFamiliesDisjoint(e: DietSearchError)
    ensures IsInstance(e, BaseClass)
    ensures !(IsInstance(e, RequestClass) && IsInstance(e, APIClass))
  {
  }

  /** `details or []`: a missing or empty list becomes the empty list. */
  function NormalizeDetails(details: Option<seq<string>>): (d: seq<string>)
    ensures details.None? ==> d == []
    ensures details.Some? ==> d == details.value
    ensures d == [] <==> details.None? || details.value == []
  {
    match details
    case None => []
    case Some(ds) => ds
  }

  /**
    `DietSearchAPIError(message, details)`: an API error, not a rate-limit
    error, whose `str` is the bare message exactly when the details are
    missing or empty.
   */
  function NewAPIError(message: string, details: Option<seq<string>>): (e: DietSearchError)
    ensures e.APIError? && e.message == message
    ensures e.details == NormalizeDetails(details)
    ensures IsInstance(e, APIClass) && !IsInstance(e, RateLimitClass) && !IsInstance(e, RequestClass)
    ensures Str(e) == message <==> details.None? || details.value == []
  {
    var e := APIError(message, NormalizeDetails(details));
    StrShowsMessage(e);
    e
  }

  /**
    `DietSearchRateLimitError(message, details)`: the same constructor,
    inherited; the error is also an API error.
   */
  function NewRateLimitError(message: string, details: Option<seq<string>>): (e: DietSearchError)
    ensures e.RateLimitError? && e.message == message
    ensures e.details == NormalizeDetails(details)
    ensures IsInstance(e, RateLimitClass) && IsInstance(e, APIClass) && !IsInstance(e, RequestClass)
    ensures Str(e) == message <==> details.None? || details.value == []
  {
    var e := RateLimitError(message, NormalizeDetails(details));
    StrShowsMessage(e);
    e
  }

  /** The detail list of an exception; request and parse errors have none. */
  function DetailsOf(e: DietSearchError): seq<string>
  {
    if e.APIError? || e.RateLimitError? then e.details else []
  }

  /** `str(e)`. */
  function Str(e: DietSearchError): string
  {
    var d := DetailsOf(e);
    if |d| > 0 then e.message + " (details: " + Join("; ", d) + ")" else e.message
  }

  /** The message always opens `str(e)`; it is all of it exactly when there are no details. */
  lemma StrShowsMessage(e: DietSearchError)
    ensures e.message <= Str(e)
    ensures Str(e) == e.message <==> DetailsOf(e) == []
  {
    var d := DetailsOf(e);
    if |d| > 0 {
      assert Str(e) == e.message + (" (details: " + Join("; ", d) + ")");
    }
  }

  /** With details, `str(e)` is the message followed by the joined details in parentheses. */
  lemma StrWithDetails(e: DietSearchError)
    requires DetailsOf(e) != []
    ensures var s, m := Str(e), e.message;
      && |s| > |m| + 11
      && s[|m|..|m| + 11] == " (details: "
      && s[|m| + 11..|s| - 1] == Join("; ", DetailsOf(e))
      && s[|s| - 1] == ')'
  {
    var j := Join("; ", DetailsOf(e));
    var s := Str(e);
    var m := e.message;
    assert s == m + " (details: " + j + ")";
    assert s[|m|..|m| + 11] == " (details: ";
    assert s[|m| + 11..|s| - 1] == j;
  }

  /** Building an API error twice with `None` or with an empty list gives the same exception. */
  lemma NoneAndEmptyDetailsAgree(message: string)
    ensures NewAPIError(message, None) == NewAPIError(message, Some([]))
    ensures Str(NewAPIError(message, None)) == message
    ensures NewRateLimitError(message, None) == NewRateLimitError(message, Some([]))
    ensures Str(NewRateLimitError(message, None)) == message
  {
  }
}
