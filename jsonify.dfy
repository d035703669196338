/**
 * The projection mixin of utils/jsonify.py: an entity is turned into a dict
 * by a list of field requests, each `"attr"` or `"attr->alias"`, optionally
 * with extra arguments. A per-field projector (`_jsonify_<attr>`), when the
 * entity has one, computes the value; otherwise the raw attribute is used.
 */
module Jsonify {
  import opened Values

  /** The key handed to `_parse_name`: a string, or some other Python value. */
  datatype Key = Str(s: string) | NonStr(other: Value)

  predicate ArrowAt(s: string, j: int)
  {
    0 <= j < |s| - 1 && s[j] == '-' && s[j + 1] == '>'
  }

  predicate NoArrow(s: string)
  {
    forall j :: 0 <= j < |s| ==> !ArrowAt(s, j)
  }

  /** The first arrow at or after `from`, or -1. */
  function FindArrowFrom(s: string, from: nat): int
    requires from <= |s|
    decreases |s| - from
  {
    if from == |s| then -1
    else if ArrowAt(s, from) then from
    else FindArrowFrom(s, from + 1)
  }

  lemma {:induction false} FindArrowFromFirst(s: string, from: nat)
    requires from <= |s|
    ensures var i := FindArrowFrom(s, from); i == -1 || (from <= i && ArrowAt(s, i))
    ensures var i := FindArrowFrom(s, from); i == -1 ==> forall j :: from <= j < |s| ==> !ArrowAt(s, j)
    ensures var i := FindArrowFrom(s, from); i != -1 ==> forall j :: from <= j < i ==> !ArrowAt(s, j)
    decreases |s| - from
  {
    if from < |s| && !ArrowAt(s, from) {
      FindArrowFromFirst(s, from + 1);
    }
  }

  /** `key.find('->')`: the index of the first arrow, or -1. */
  function FindArrow(s: string): (i: int)
    ensures i == -1 <==> NoArrow(s)
    ensures i != -1 ==> ArrowAt(s, i) && NoArrow(s[..i])
  {
    FindArrowFromFirst(s, 0);
    var i := FindArrowFrom(s, 0);
    assert i != -1 ==> forall j :: 0 <= j < i ==> (ArrowAt(s[..i], j) ==> ArrowAt(s, j));
    i
  }

  /**
   * `_parse_name` on a string: the attribute to read and the name to emit.
   * Without an arrow both are the key; otherwise the key is cut at its first
   * arrow, the part before it naming the attribute and the part after it the
   * output field.
   */
  function ParseStr(key: string): (r: (string, string))
    ensures NoArrow(key) ==> r == (key, key)
    ensures !NoArrow(key) ==> key == r.0 + "->" + r.1 && NoArrow(r.0)
  {
    var arrow := FindArrow(key);
    if arrow == -1 then (key, key)
    else
      assert key == key[..arrow] + "->" + key[arrow + 2..];
      (key[..arrow], key[arrow + 2..])
  }

  /** `_parse_name`: a key that is not a string parses to `(None, None)`. */
  function ParseName(key: Key): (r: (Option<string>, Option<string>))
    ensures key.NonStr? <==> r == (None, None)
    ensures key.Str? ==> r == (Some(ParseStr(key.s).0), Some(ParseStr(key.s).1))
  {
    match key
    case NonStr(_) => (None, None)
    case Str(s) => (Some(ParseStr(s).0), Some(ParseStr(s).1))
  }

  /** The cut is unique: a key with an arrow splits exactly at its first one. */
  lemma ParseAtFirstArrow(source: string, output: string)
    requires NoArrow(source)
    ensures ParseStr(source + "->" + output) == (source, output)
  {
    var key := source + "->" + output;
    assert ArrowAt(key, |source|);
    forall j | 0 <= j < |source| ensures !ArrowAt(key, j) {
      if j < |source| - 1 {
        assert key[j] == source[j] && key[j + 1] == source[j + 1];
        assert !ArrowAt(source, j);
      } else {
        assert key[j + 1] == '-';
      }
    }
    var i := FindArrow(key);
    assert i == |source| by {
      assert !NoArrow(key);
      assert ArrowAt(key, i) && NoArrow(key[..i]);
      assert forall j :: 0 <= j && j + 1 < i ==> (ArrowAt(key[..i], j) <==> ArrowAt(key, j));
    }
    assert key[..i] == source;
    assert key[i + 2..] == output;
  }

  /** A field request: a plain key, or a tuple `(key, a1, ..., an)`. */
  datatype Request = Plain(key: string) | WithArgs(key: string, args: seq<Value>)

  /** The arguments handed to a projector: the tuple's tail, or none. */
  function Args(r: Request): seq<Value>
  {
    match r
    case Plain(_) => []
    case WithArgs(_, args) => args
  }

  /**
   * An entity as the projection sees it: its readable attributes and its
   * callable `_jsonify_<attr>` projectors, keyed by `<attr>`.
   */
  datatype Entity = Entity(attrs: map<string, Value>, projectors: map<string, seq<Value> -> Value>)

  function Source(r: Request): string { ParseStr(r.key).0 }

  function OutName(r: Request): string { ParseStr(r.key).1 }

  /** The value one request yields: the projector's result if there is one, else the attribute or `None`. */
  function FieldValue(e: Entity, r: Request): Value
  {
    var source := Source(r);
    if source in e.projectors then e.projectors[source](Args(r))
    else if source in e.attrs then e.attrs[source]
    else VNone
  }

  /** The dict `jsonify(*requests)` builds. */
  function Project(e: Entity, requests: seq<Request>): Dict
  {
    if requests == [] then []
    else
      var last := requests[|requests| - 1];
      Put(Project(e, requests[..|requests| - 1]), OutName(last), FieldValue(e, last))
  }

  /** `Jsonify.jsonify`: fills the dict one request after another. */
  method Jsonify(e: Entity, requests: seq<Request>) returns (data: Dict)
    ensures data == Project(e, requests)
  {
    data := [];
    var n := 0;
    while n < |requests|
      invariant 0 <= n <= |requests|
      invariant data == Project(e, requests[..n])
    {
      var request := requests[n];
      var args := if request.WithArgs? then request.args else [];
      var (key, yieldName) := ParseStr(request.key);
      var value := if key in e.attrs then e.attrs[key] else VNone;
      if key in e.projectors {
        value := e.projectors[key](args);
      }
      assert (key, yieldName) == (Source(request), OutName(request));
      assert value == FieldValue(e, request);
      data := Put(data, yieldName, value);
      n := n + 1;
      assert requests[..n][..n - 1] == requests[..n - 1];
    }
    assert requests[..|requests|] == requests;
  }

  predicate Unique(ks: seq<string>)
  {
    forall i, j :: 0 <= i < j < |ks| ==> ks[i] != ks[j]
  }

  /** The output names requested, in request order. */
  function OutNames(requests: seq<Request>): (names: seq<string>)
    ensures |names| == |requests|
    ensures forall i :: 0 <= i < |requests| ==> names[i] == OutName(requests[i])
  {
    seq(|requests|, i requires 0 <= i < |requests| => OutName(requests[i]))
  }

  /** The keys of the projection are each emitted once (a dict has no duplicate keys). */
  lemma {:induction false} ProjectKeysUnique(e: Entity, requests: seq<Request>)
    ensures Unique(KeyList(Project(e, requests)))
  {
    if requests != [] {
      ProjectKeysUnique(e, requests[..|requests| - 1]);
    }
  }

  /**
   * The keys of the projection are exactly the requested output names (so the
   * source attribute of a renamed field is not emitted).
   */
  lemma {:induction false} ProjectKeys(e: Entity, requests: seq<Request>, k: string)
    ensures k in KeyList(Project(e, requests)) <==> k in OutNames(requests)
  {
    if requests != [] {
      var init := requests[..|requests| - 1];
      ProjectKeys(e, init, k);
      OutNamesSnoc(requests);
    }
  }

  lemma OutNamesSnoc(requests: seq<Request>)
    requires requests != []
    ensures OutNames(requests) == OutNames(requests[..|requests| - 1]) + [OutName(requests[|requests| - 1])]
  {
    var init := requests[..|requests| - 1];
    assert forall i :: 0 <= i < |init| ==> OutNames(requests)[i] == OutNames(init)[i];
  }

  /**
   * The value under an output name is the one of the LAST request with that
   * name: a later request overwrites an earlier one.
   */
  lemma {:induction false} ProjectLastWins(e: Entity, requests: seq<Request>, i: nat)
    requires i < |requests|
    requires forall j :: i < j < |requests| ==> OutName(requests[j]) != OutName(requests[i])
    ensures Get(Project(e, requests), OutName(requests[i])) == Some(FieldValue(e, requests[i]))
  {
    var init := requests[..|requests| - 1];
    var last := requests[|requests| - 1];
    if i < |requests| - 1 {
      assert requests[i] == init[i];
      ProjectLastWins(e, init, i);
      PutOther(Project(e, init), OutName(last), FieldValue(e, last), OutName(requests[i]));
    }
  }

  /**
   * A renamed request `"src->out"` emits the attribute `src` under `out`,
   * and only under `out`.
   */
  lemma RenamedField(e: Entity, source: string, output: string)
    requires NoArrow(source)
    requires source !in e.projectors && source in e.attrs
    ensures KeyList(Project(e, [Plain(source + "->" + output)])) == [output]
    ensures Get(Project(e, [Plain(source + "->" + output)]), output) == Some(e.attrs[source])
  {
    ParseAtFirstArrow(source, output);
    assert [Plain(source + "->" + output)][..0] == [];
  }

  /** A projector receives exactly the tuple's extra arguments, and a plain key passes none. */
  lemma ProjectorArguments(e: Entity, r: Request)
    requires Source(r) in e.projectors
    ensures FieldValue(e, r) == e.projectors[Source(r)](if r.WithArgs? then r.args else [])
  {
  }

  /** The projection entry by entry: each request's output name with its field value, in request order. */
  function Fields(e: Entity, requests: seq<Request>): (d: Dict)
    ensures |d| == |requests|
    ensures forall i :: 0 <= i < |requests| ==> d[i] == (OutName(requests[i]), FieldValue(e, requests[i]))
  {
    if requests == [] then []
    else
      var last := requests[|requests| - 1];
      Fields(e, requests[..|requests| - 1]) + [(OutName(last), FieldValue(e, last))]
  }

  /** With distinct output names, no request overwrites another and entries follow the requests. */
  lemma {:induction false} ProjectDistinct(e: Entity, requests: seq<Request>)
    requires Unique(OutNames(requests))
    ensures Project(e, requests) == Fields(e, requests)
  {
    if requests != [] {
      var n := |requests| - 1;
      var init := requests[..n];
      var last := requests[n];
      assert Unique(OutNames(init)) by {
        assert forall i :: 0 <= i < n ==> OutNames(init)[i] == OutNames(requests)[i];
      }
      ProjectDistinct(e, init);
      ProjectKeys(e, init, OutName(last));
      assert OutName(last) !in OutNames(init) by {
        assert forall i :: 0 <= i < n ==> OutNames(init)[i] == OutNames(requests)[i];
        assert OutNames(requests)[n] == OutName(last);
      }
      PutAppends(Project(e, init), OutName(last), FieldValue(e, last));
    }
  }

  /** A key without an arrow reads and emits the attribute of its own name. */
  lemma PlainKey(k: string)
    requires NoArrow(k)
    ensures Source(Plain(k)) == k && OutName(Plain(k)) == k
  {
  }

  /** With distinct output names the keys come out in request order, each with its own request's value. */
  lemma ProjectDistinctFields(e: Entity, requests: seq<Request>)
    requires Unique(OutNames(requests))
    ensures KeyList(Project(e, requests)) == OutNames(requests)
    ensures forall i :: 0 <= i < |requests| ==>
              Get(Project(e, requests), OutName(requests[i])) == Some(FieldValue(e, requests[i]))
  {
    ProjectDistinct(e, requests);
    var d := Fields(e, requests);
    KeyListAt(d);
    forall i | 0 <= i < |requests|
      ensures Get(d, OutName(requests[i])) == Some(FieldValue(e, requests[i]))
    {
      assert OutNames(requests)[i] == OutName(requests[i]);
      GetAt(d, i);
    }
  }

  /**
   * A projection whose output names are known and distinct: its keys are
   * those names, in request order, each with its own request's value.
   */
  lemma ProjectNamed(e: Entity, requests: seq<Request>, names: seq<string>)
    requires |names| == |requests|
    requires forall i :: 0 <= i < |requests| ==> OutName(requests[i]) == names[i]
    requires Unique(names)
    ensures KeyList(Project(e, requests)) == names
    ensures forall i :: 0 <= i < |requests| ==> Get(Project(e, requests), names[i]) == Some(FieldValue(e, requests[i]))
  {
    assert OutNames(requests) == names;
    ProjectDistinctFields(e, requests);
  }
}
