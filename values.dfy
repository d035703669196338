/**
 * Dynamic values as they cross the API: the JSON-like data that handlers
 * return and projections build, and Python's insertion-ordered `dict`.
 */
module Values {

  datatype Option<+T> = None | Some(value: T)

  /** A Python value as it can appear in a request, a token payload or a response body. */
  datatype Value =
    | VNone
    | VBool(b: bool)
    | VInt(i: int)
    | VFloat(r: real)
    | VStr(s: string)
    | VList(items: seq<Value>)
    | VDict(entries: seq<(string, Value)>)

  /** A Python `dict`: its entries in insertion order. */
  type Dict = seq<(string, Value)>

  /** The keys of a dict, in insertion order. */
  function KeyList(d: Dict): seq<string>
  {
    if d == [] then [] else [d[0].0] + KeyList(d[1..])
  }

  /** `d.get(k)`: the value stored under `k`, if any. */
  function Get(d: Dict, k: string): (r: Option<Value>)
    ensures r.None? <==> k !in KeyList(d)
    ensures r.Some? ==> (k, r.value) in d
  {
    if d == [] then None
    else if d[0].0 == k then Some(d[0].1)
    else Get(d[1..], k)
  }

  /**
   * `d[k] = v`: an existing key keeps its position and gets the new value,
   * a new key is appended at the end.
   */
  function Put(d: Dict, k: string, v: Value): (r: Dict)
    ensures Get(r, k) == Some(v)
    ensures KeyList(r) == if k in KeyList(d) then KeyList(d) else KeyList(d) + [k]
  {
    if d == [] then [(k, v)]
    else if d[0].0 == k then [(k, v)] + d[1..]
    else
      var rest := Put(d[1..], k, v);
      assert ([d[0]] + rest)[1..] == rest;
      [d[0]] + rest
  }

  /** Writing one key leaves every other key's value as it was. */
  lemma {:induction false} PutOther(d: Dict, k: string, v: Value, k': string)
    requires k' != k
    ensures Get(Put(d, k, v), k') == Get(d, k')
  {
    if d != [] && d[0].0 != k {
      PutOther(d[1..], k, v, k');
      assert ([d[0]] + Put(d[1..], k, v))[1..] == Put(d[1..], k, v);
    }
  }

  /** The key list holds the keys of the entries, position by position. */
  lemma {:induction false} KeyListAt(d: Dict)
    ensures |KeyList(d)| == |d|
    ensures forall i :: 0 <= i < |d| ==> KeyList(d)[i] == d[i].0
  {
    if d != [] {
      KeyListAt(d[1..]);
    }
  }

  /** Writing a key the dict does not hold appends the entry. */
  lemma {:induction false} PutAppends(d: Dict, k: string, v: Value)
    requires k !in KeyList(d)
    ensures Put(d, k, v) == d + [(k, v)]
  {
    if d != [] {
      assert KeyList(d) == [d[0].0] + KeyList(d[1..]);
      assert d[0].0 != k && k !in KeyList(d[1..]);
      PutAppends(d[1..], k, v);
      assert Put(d, k, v) == [d[0]] + Put(d[1..], k, v);
      assert [d[0]] + (d[1..] + [(k, v)]) == d + [(k, v)];
    }
  }

  /** The value under a key is the one of its first entry. */
  lemma {:induction false} GetAt(d: Dict, i: nat)
    requires i < |d|
    requires forall j :: 0 <= j < i ==> d[j].0 != d[i].0
    ensures Get(d, d[i].0) == Some(d[i].1)
  {
    if i > 0 {
      GetAt(d[1..], i - 1);
    }
  }

  predicate IsDigit(c: char)
  {
    '0' <= c <= '9'
  }

  /** A non-empty run of decimal digits. */
  predicate IsDigits(s: string)
  {
    s != "" && forall i :: 0 <= i < |s| ==> IsDigit(s[i])
  }

  /** The number a run of decimal digits denotes. */
  function DigitsValue(s: string): nat
    requires forall i :: 0 <= i < |s| ==> IsDigit(s[i])
  {
    if s == "" then 0
    else
      assert IsDigit(s[|s| - 1]);
      10 * DigitsValue(s[..|s| - 1]) + (s[|s| - 1] as int - '0' as int)
  }

  /** `str(n)` for a natural number: its decimal digits, most significant first. */
  function NatToString(n: nat): (s: string)
    ensures IsDigits(s)
    ensures DigitsValue(s) == n
  {
    var last := ['0' + ((n % 10) as char)];
    if n < 10 then
      assert last[..0] == "";
      last
    else
      var prefix := NatToString(n / 10);
      var s := prefix + last;
      assert s[..|s| - 1] == prefix;
      s
  }
}
