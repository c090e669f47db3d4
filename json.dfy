/**
  Decoded JSON values and Python dicts.

  A Python dict keeps its insertion order, so a dict is an association list
  (`Pairs`) rather than a Dafny `map`; `Lookup` is `d.get(k)`, `Store` is
  `d[k] = v` and `Contents` forgets the order.
 */
module Json {
  import opened Wrappers
  import opened Text

  /** What `json.load` / `Response.json()` can return (floats are not modelled). */
  datatype Value =
    | Null                          // JSON null, Python None
    | Bool(b: bool)
    | Int(i: int)
    | Str(s: string)
    | Array(items: seq<Value>)      // Python list
    | Object(members: Pairs)        // Python dict

  type Pairs = seq<(string, Value)>

  function Keys(p: Pairs): (ks: seq<string>)
    ensures |ks| == |p|
    ensures forall i :: 0 <= i < |p| ==> ks[i] == p[i].0
  {
    if |p| == 0 then [] else [p[0].0] + Keys(p[1..])
  }

  /** Every Python dict has pairwise distinct keys. */
  predicate DistinctKeys(p: Pairs)
  {
    forall i, j :: 0 <= i < j < |p| ==> p[i].0 != p[j].0
  }

  /** `d.get(k)`, with None for a missing key: the first pair whose key is `k`. */
  function Lookup(p: Pairs, k: string): (r: Option<Value>)
    ensures r.None? <==> k !in Keys(p)
    ensures r.Some? ==> (k, r.value) in p
  {
    if |p| == 0 then None
    else if p[0].0 == k then Some(p[0].1)
    else Lookup(p[1..], k)
  }

  /** `d.get(k)` where a missing key and a stored None both read as Null. */
  function Get(p: Pairs, k: string): Value
  {
    match Lookup(p, k)
    case None => Null
    case Some(v) => v
  }

  /** `d[k] = v`: an existing key keeps its position, a new key goes to the end. */
  function Store(p: Pairs, k: string, v: Value): (r: Pairs)
    ensures k !in Keys(p) ==> r == p + [(k, v)]
  {
    if |p| == 0 then [(k, v)]
    else if p[0].0 == k then [(k, v)] + p[1..]
    else [p[0]] + Store(p[1..], k, v)
  }

  /** After `d[k] = v`, `k` maps to `v` and every other key is unchanged. */
  lemma {:induction false} StoreLookup(p: Pairs, k: string, v: Value, k': string)
    ensures Lookup(Store(p, k, v), k') == if k' == k then Some(v) else Lookup(p, k')
  {
    if |p| > 0 && p[0].0 != k {
      StoreLookup(p[1..], k, v, k');
      assert ([p[0]] + Store(p[1..], k, v))[1..] == Store(p[1..], k, v);
    }
  }

  /** A second `d[k] = w` undoes the first `d[k] = v`. */
  lemma {:induction false} StoreStore(p: Pairs, k: string, v: Value, w: Value)
    ensures Store(Store(p, k, v), k, w) == Store(p, k, w)
  {
    if |p| > 0 && p[0].0 != k {
      StoreStore(p[1..], k, v, w);
      assert ([p[0]] + Store(p[1..], k, v))[1..] == Store(p[1..], k, v);
    }
  }

  /** Overwriting an existing key keeps the key order. */
  lemma {:induction false} StoreKeys(p: Pairs, k: string, v: Value)
    ensures Keys(Store(p, k, v)) == if k in Keys(p) then Keys(p) else Keys(p) + [k]
  {
    if |p| > 0 {
      var r := Store(p, k, v);
      if p[0].0 != k {
        StoreKeys(p[1..], k, v);
        assert r[1..] == Store(p[1..], k, v);
      } else {
        assert r[1..] == p[1..];
      }
    }
  }

  /** `d[k] = v` keeps the keys of a dict distinct. */
  lemma StoreDistinct(p: Pairs, k: string, v: Value)
    requires DistinctKeys(p)
    ensures DistinctKeys(Store(p, k, v))
  {
    var r := Store(p, k, v);
    StoreKeys(p, k, v);
    var ks := Keys(r);
    forall i, j | 0 <= i < j < |r| ensures r[i].0 != r[j].0 {
      assert ks[i] == r[i].0 && ks[j] == r[j].0;
      if k in Keys(p) {
        assert ks == Keys(p);
      } else {
        assert ks == Keys(p) + [k];
        if j == |p| {
          assert ks[i] == Keys(p)[i];
        }
      }
    }
  }

  /** The dict as an unordered mapping. */
  function Contents(p: Pairs): map<string, Value>
  {
    map k | k in Keys(p) :: Lookup(p, k).value
  }

  /** In a dict, a pair occurs exactly when looking up its key finds its value. */
  lemma {:induction false} PairInDict(p: Pairs, k: string, v: Value)
    requires DistinctKeys(p)
    ensures (k, v) in p <==> Lookup(p, k) == Some(v)
  {
    if |p| > 0 {
      assert DistinctKeys(p[1..]);
      PairInDict(p[1..], k, v);
      if p[0].0 == k {
        assert forall i :: 0 <= i < |p[1..]| ==> p[1..][i].0 != k by {
          forall i | 0 <= i < |p[1..]| ensures p[1..][i].0 != k {
            assert p[1..][i] == p[i + 1];
          }
        }
        assert (k, v) !in p[1..];
      }
    }
  }

  /** Python truthiness: None, False, 0, "", [] and {} are false. */
  predicate Truthy(v: Value)
  {
    match v
    case Null => false
    case Bool(b) => b
    case Int(i) => i != 0
    case Str(s) => s != ""
    case Array(items) => items != []
    case Object(members) => members != []
  }

  /** `str(type(v))`. */
  function TypeName(v: Value): string
  {
    match v
    case Null => "<class 'NoneType'>"
    case Bool(_) => "<class 'bool'>"
    case Int(_) => "<class 'int'>"
    case Str(_) => "<class 'str'>"
    case Array(_) => "<class 'list'>"
    case Object(_) => "<class 'dict'>"
  }

  /** Python `v not in ("", None)`: 0, False and empty containers count as given. */
  predicate IsSet(v: Value)
  {
    v != Null && v != Str("")
  }

  /** `repr(s)`: single quotes, unless the text holds a single quote and no double quote. */
  function ReprString(s: string): string
  {
    var q := if '\'' in s && '"' !in s then '"' else '\'';
    [q] + Escaped(s, q) + [q]
  }

  /** The body of a string literal quoted with `q`. */
  function Escaped(s: string, q: char): string
  {
    if s == [] then []
    else
      var c := s[0];
      var e := if c == q || c == '\\' then ['\\', c]
               else if c == '\n' then "\\n"
               else if c == '\r' then "\\r"
               else if c == '\t' then "\\t"
               else [c];
      e + Escaped(s[1..], q)
  }

  /** `repr(v)` of the Python object a value stands for. */
  function Repr(v: Value): string
  {
    match v
    case Null => "None"
    case Bool(b) => if b then "True" else "False"
    case Int(i) => IntToDecimal(i)
    case Str(s) => ReprString(s)
    case Array(items) => "[" + ReprItems(items) + "]"
    case Object(members) => "{" + ReprMembers(members) + "}"
  }

  /** The items of a list, separated by ", ". */
  function ReprItems(items: seq<Value>): string
  {
    if items == [] then ""
    else if |items| == 1 then Repr(items[0])
    else Repr(items[0]) + ", " + ReprItems(items[1..])
  }

  /** The members of a dict as `key: value`, separated by ", ". */
  function ReprMembers(members: Pairs): string
  {
    if members == [] then ""
    else
      var p := members[0];
      assert p.1 < p;
      var m := ReprString(p.0) + ": " + Repr(p.1);
      if |members| == 1 then m else m + ", " + ReprMembers(members[1..])
  }
}
