/** JSON values as `json.loads` hands them to the nodes, and the Python `dict`
    operations the nodes apply to them. A dict is an ordered list of key/value
    pairs: Python dicts keep insertion order. */
module Json {
  import opened Wrappers
  import opened Strings

  datatype Value =
    | Null
    | Bool(b: bool)
    | Int(i: int)
    | Str(s: string)
    | Array(items: seq<Value>)
    | Object(fields: seq<(string, Value)>)

  /** A JSON text as a node input: the raw string and what `json.loads(raw)`
      gives, `Raised(message)` standing for a `JSONDecodeError`. */
  datatype Text = Text(raw: string, parsed: Result<Value>)

  type Fields = seq<(string, Value)>

  function Keys(d: Fields): (ks: seq<string>)
    ensures |ks| == |d|
    ensures forall i :: 0 <= i < |d| ==> ks[i] == d[i].0
  {
    seq(|d|, i requires 0 <= i < |d| => d[i].0)
  }

  /** What a Python dict guarantees: no key twice. */
  predicate DistinctKeys(d: Fields) {
    forall i, j :: 0 <= i < j < |d| ==> d[i].0 != d[j].0
  }

  /** Position of key `k`, if present. */
  function IndexOf(d: Fields, k: string): (r: Option<nat>)
    ensures r.Some? ==> r.value < |d| && d[r.value].0 == k
    ensures r.Some? ==> forall j :: 0 <= j < r.value ==> d[j].0 != k
    ensures r.None? <==> k !in Keys(d)
  {
    if |d| == 0 then None
    else if d[0].0 == k then Some(0)
    else match IndexOf(d[1..], k)
      case None => (assert Keys(d) == [d[0].0] + Keys(d[1..]); None)
      case Some(i) => Some(i + 1)
  }

  /** `d.get(k)`. */
  function Get(d: Fields, k: string): Option<Value> {
    match IndexOf(d, k)
    case None => None
    case Some(i) => Some(d[i].1)
  }

  /** `d[k] = v`: an existing key keeps its position, a new one goes last. */
  function Put(d: Fields, k: string, v: Value): (r: Fields)
    ensures Keys(r) == if k in Keys(d) then Keys(d) else Keys(d) + [k]
    ensures DistinctKeys(d) ==> DistinctKeys(r)
  {
    match IndexOf(d, k)
    case None =>
      assert Keys(d + [(k, v)]) == Keys(d) + [k];
      d + [(k, v)]
    case Some(i) =>
      assert Keys(d[i := (k, v)]) == Keys(d);
      d[i := (k, v)]
  }

  /** After `d[k] = v`, `k` maps to `v` and every other key is unaffected. */
  lemma PutGet(d: Fields, k: string, v: Value, k': string)
    ensures Get(Put(d, k, v), k') == if k' == k then Some(v) else Get(d, k')
  {
    match IndexOf(d, k)
    case None =>
      IndexOfAppend(d, k', (k, v));
    case Some(i) =>
      IndexOfSameKeys(d, Put(d, k, v), k');
  }

  lemma {:induction false} IndexOfAppend(d: Fields, k: string, p: (string, Value))
    ensures IndexOf(d + [p], k) == if k in Keys(d) then IndexOf(d, k) else if p.0 == k then Some(|d|) else None
  {
    if |d| > 0 {
      assert (d + [p])[1..] == d[1..] + [p];
      assert Keys(d) == [d[0].0] + Keys(d[1..]);
      IndexOfAppend(d[1..], k, p);
    }
  }

  lemma {:induction false} IndexOfSameKeys(d: Fields, e: Fields, k: string)
    requires Keys(d) == Keys(e)
    ensures IndexOf(d, k) == IndexOf(e, k)
  {
    if |d| > 0 {
      assert Keys(d[1..]) == Keys(d)[1..] && Keys(e[1..]) == Keys(e)[1..];
      IndexOfSameKeys(d[1..], e[1..], k);
    }
  }

  /** `d.update(other)`: the pairs of `other` put into `d` one by one, in order. */
  function Update(d: Fields, other: Fields): Fields
    decreases |other|
  {
    if |other| == 0 then d else Update(Put(d, other[0].0, other[0].1), other[1..])
  }

  /** Keys of `ks` that are not in `existing`, in their order. */
  function NewKeys(ks: seq<string>, existing: seq<string>): seq<string>
    decreases |ks|
  {
    if |ks| == 0 then []
    else if ks[0] in existing then NewKeys(ks[1..], existing)
    else [ks[0]] + NewKeys(ks[1..], existing)
  }

  lemma {:induction false} NewKeysExtend(ks: seq<string>, existing: seq<string>, x: string)
    requires x !in ks
    ensures NewKeys(ks, existing + [x]) == NewKeys(ks, existing)
    decreases |ks|
  {
    if |ks| > 0 {
      NewKeysExtend(ks[1..], existing, x);
    }
  }

  /** After `d.update(other)` a key of `other` holds `other`'s value; every other
      key keeps the value it had in `d`. */
  lemma {:induction false} UpdateGet(d: Fields, other: Fields, k: string)
    requires DistinctKeys(other)
    ensures Get(Update(d, other), k) == if k in Keys(other) then Get(other, k) else Get(d, k)
    decreases |other|
  {
    if |other| > 0 {
      var d' := Put(d, other[0].0, other[0].1);
      assert Keys(other) == [other[0].0] + Keys(other[1..]);
      UpdateGet(d', other[1..], k);
      PutGet(d, other[0].0, other[0].1, k);
      if k == other[0].0 {
        assert k !in Keys(other[1..]);
      }
    }
  }

  /** `d.update(other)` keeps the keys of `d` where they were and appends the
      keys that are new, in `other`'s order. */
  lemma {:induction false} UpdateKeys(d: Fields, other: Fields)
    requires DistinctKeys(other)
    ensures Keys(Update(d, other)) == Keys(d) + NewKeys(Keys(other), Keys(d))
    decreases |other|
  {
    if |other| > 0 {
      var k := other[0].0;
      var d' := Put(d, k, other[0].1);
      var ks := Keys(other);
      assert ks == [k] + Keys(other[1..]);
      assert DistinctKeys(other[1..]);
      UpdateKeys(d', other[1..]);
      NewKeysStep(Keys(d), Keys(d'), k, Keys(other[1..]));
    }
  }

  lemma NewKeysStep(e: seq<string>, e': seq<string>, k: string, ks: seq<string>)
    requires k !in ks
    requires e' == if k in e then e else e + [k]
    ensures e' + NewKeys(ks, e') == e + NewKeys([k] + ks, e)
  {
    assert ([k] + ks)[1..] == ks;
    if k !in e {
      NewKeysExtend(ks, e, k);
    }
  }

  lemma {:induction false} UpdateDistinct(d: Fields, other: Fields)
    requires DistinctKeys(d)
    ensures DistinctKeys(Update(d, other))
    decreases |other|
  {
    if |other| > 0 {
      UpdateDistinct(Put(d, other[0].0, other[0].1), other[1..]);
    }
  }

  /** Python's `repr` of a JSON value (string escaping not modelled). */
  function Repr(v: Value): string
    decreases v
  {
    match v
    case Null => "None"
    case Bool(b) => BoolToString(b)
    case Int(i) => IntToString(i)
    case Str(s) => "'" + s + "'"
    case Array(items) =>
      "[" + Join(seq(|items|, k requires 0 <= k < |items| => Repr(items[k])), ", ") + "]"
    case Object(fields) =>
      "{" + Join(seq(|fields|, k requires 0 <= k < |fields| =>
                   "'" + fields[k].0 + "': " + Repr(fields[k].1)), ", ") + "}"
  }

  /** Python's `str(value)`: a string is itself, anything else its `repr`. */
  function PyStr(v: Value): string {
    if v.Str? then v.s else Repr(v)
  }

  /** Python's type name, as an `AttributeError` message shows it. */
  function TypeName(v: Value): string {
    match v
    case Null => "NoneType"
    case Bool(_) => "bool"
    case Int(_) => "int"
    case Str(_) => "str"
    case Array(_) => "list"
    case Object(_) => "dict"
  }
}
