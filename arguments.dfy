/** The arguments node (`ClaudeCodeArguments.build_arguments`): a copy of the
    base arguments, changed in place according to the input mode, handed out
    twice. JSON texts come parsed; `json.dumps` is not modelled, so the outputs
    are the resulting values. */
module Arguments {
  import opened Wrappers
  import opened Json

  /** What `json.loads` guarantees of a dict it returns: no key twice. */
  predicate Loaded(t: Text) {
    t.parsed.Ok? && t.parsed.value.Object? ==> DistinctKeys(t.parsed.value.fields)
  }

  /** `json.loads(base) if base else {}`, a decode error giving `{}` as well. */
  function Base(base: Text): (v: Value)
    ensures |base.raw| == 0 || base.parsed.Raised? ==> v == Object([])
    ensures |base.raw| > 0 && base.parsed.Ok? ==> v == base.parsed.value
  {
    if |base.raw| == 0 then Object([])
    else match base.parsed
      case Raised(_) => Object([])
      case Ok(v) => v
  }

  /** `v.copy()`: dicts and lists have one, anything else raises. */
  function Copy(v: Value): (r: Result<Value>)
    ensures r.Ok? <==> v.Object? || v.Array?
    ensures r.Ok? ==> r.value == v
  {
    if v.Object? || v.Array? then Ok(v)
    else Raised("AttributeError: '" + TypeName(v) + "' object has no attribute 'copy'")
  }

  /** `result.update(other)` for a dict `other`. */
  function UpdateWith(result: Value, other: Fields): (r: Result<Value>)
    ensures r.Ok? <==> result.Object?
    ensures r.Ok? ==> r.value == Object(Update(result.fields, other))
  {
    if result.Object? then Ok(Object(Update(result.fields, other)))
    else Raised("AttributeError: '" + TypeName(result) + "' object has no attribute 'update'")
  }

  /** `result[k] = v` for a string key `k`. */
  function SetItem(result: Value, k: string, v: Value): (r: Result<Value>)
    ensures r.Ok? <==> result.Object?
    ensures r.Ok? ==> r.value == Object(Put(result.fields, k, v))
  {
    match result
    case Object(d) => Ok(Object(Put(d, k, v)))
    case Array(_) => Raised("TypeError: list indices must be integers or slices, not str")
    case _ => Raised("TypeError: '" + TypeName(result) + "' object does not support item assignment")
  }

  /** `json.loads(merge) if merge else {}`. */
  function MergeValue(merge: Text): Result<Value> {
    if |merge.raw| == 0 then Ok(Object([])) else merge.parsed
  }

  /** Whether the mode changes the copy of the base: only then can a list base
      make the node raise. */
  predicate Mutates(mode: string, jsonArguments: Text, key: string, merge: Text) {
    || (mode == "json" && (jsonArguments.parsed.Raised? || jsonArguments.parsed.value.Object?))
    || (mode == "key_value" && |key| > 0)
    || (mode == "merge" && MergeValue(merge).Ok? && MergeValue(merge).value.Object?)
  }

  /** The value `build_arguments` serialises, or the exception it raises. */
  function Built(mode: string, jsonArguments: Text, key: string, value: string, base: Text, merge: Text)
    : (r: Result<Value>)
    ensures r.Raised? <==> !Base(base).Object? && (!Base(base).Array? || Mutates(mode, jsonArguments, key, merge))
    ensures mode != "json" && mode != "key_value" && mode != "merge" ==> r == Copy(Base(base))
  {
    var copied := Copy(Base(base));
    if copied.Raised? then copied
    else
      var result := copied.value;
      if mode == "json" then
        match jsonArguments.parsed
        case Ok(args) =>
          if args.Object? then
            UpdateWith(result, args.fields)
          else Ok(result)
        case Raised(message) => SetItem(result, "_error", Str("Invalid JSON: " + message))
      else if mode == "key_value" then
        if |key| > 0 then SetItem(result, key, Str(value)) else Ok(result)
      else if mode == "merge" then
        match MergeValue(merge)
        case Ok(m) =>
          if m.Object? then
            UpdateWith(result, m.fields)
          else Ok(result)
        case Raised(_) => Ok(result)
      else Ok(result)
  }

  /** `build_arguments`: `result_dict` starts as a copy of the base and is
      changed in place; both outputs carry the same result. */
  method BuildArguments(mode: string, jsonArguments: Text, key: string, value: string,
                        baseArguments: Text, mergeArguments: Text)
    returns (r: Result<(Value, Value)>)
    ensures r.Raised? <==> Built(mode, jsonArguments, key, value, baseArguments, mergeArguments).Raised?
    ensures r.Ok? ==> r.value.0 == r.value.1
                   == Built(mode, jsonArguments, key, value, baseArguments, mergeArguments).value
  {
    var copied := Copy(Base(baseArguments));
    if copied.Raised? {
      return Raised(copied.error);
    }
    var result := copied.value;
    if mode == "json" {
      match jsonArguments.parsed
      case Ok(args) =>
        if args.Object? {
          var updated := UpdateWith(result, args.fields);
          if updated.Raised? {
            return Raised(updated.error);
          }
          result := updated.value;
        }
      case Raised(message) =>
        var stored := SetItem(result, "_error", Str("Invalid JSON: " + message));
        if stored.Raised? {
          return Raised(stored.error);
        }
        result := stored.value;
    } else if mode == "key_value" {
      if |key| > 0 {
        var stored := SetItem(result, key, Str(value));
        if stored.Raised? {
          return Raised(stored.error);
        }
        result := stored.value;
      }
    } else if mode == "merge" {
      var merged := MergeValue(mergeArguments);
      if merged.Ok? && merged.value.Object? {
        var updated := UpdateWith(result, merged.value.fields);
        if updated.Raised? {
          return Raised(updated.error);
        }
        result := updated.value;
      }
    }
    return Ok((result, result));
  }

  // ---------------------------------------------------------------------------
  // Properties

  /** The result is a dict without repeated keys whenever the base is one. */
  lemma BuiltDistinct(mode: string, jsonArguments: Text, key: string, value: string, base: Text, merge: Text)
    requires Base(base).Object? && DistinctKeys(Base(base).fields)
    ensures Built(mode, jsonArguments, key, value, base, merge).Ok? ==>
      var v := Built(mode, jsonArguments, key, value, base, merge).value;
      v.Object? && DistinctKeys(v.fields)
  {
    var d := Base(base).fields;
    if mode == "json" && jsonArguments.parsed.Ok? && jsonArguments.parsed.value.Object? {
      UpdateDistinct(d, jsonArguments.parsed.value.fields);
    } else if mode == "merge" && MergeValue(merge).Ok? && MergeValue(merge).value.Object? {
      UpdateDistinct(d, MergeValue(merge).value.fields);
    }
  }

  /** An empty or undecodable base behaves exactly like `{}`. */
  lemma InvalidBaseIsEmpty(mode: string, jsonArguments: Text, key: string, value: string, base: Text, merge: Text)
    requires |base.raw| == 0 || base.parsed.Raised?
    ensures Built(mode, jsonArguments, key, value, base, merge)
         == Built(mode, jsonArguments, key, value, Text("{}", Ok(Object([]))), merge)
  {
  }

  /** Overriding with a dict `o`: a key of `o` takes `o`'s value, every other
      key keeps the base's, base keys stay in place and new keys follow in
      `o`'s order. */
  lemma Overridden(d: Fields, o: Fields)
    requires DistinctKeys(o)
    ensures UpdateWith(Object(d), o).Ok?
    ensures forall k :: Get(UpdateWith(Object(d), o).value.fields, k)
                     == if k in Keys(o) then Get(o, k) else Get(d, k)
    ensures Keys(UpdateWith(Object(d), o).value.fields) == Keys(d) + NewKeys(Keys(o), Keys(d))
  {
    forall k ensures Get(Update(d, o), k) == if k in Keys(o) then Get(o, k) else Get(d, k) {
      UpdateGet(d, o, k);
    }
    UpdateKeys(d, o);
  }

  /** json mode with a dict: the base overridden key for key. */
  lemma JsonOverrides(jsonArguments: Text, key: string, value: string, base: Text, merge: Text)
    requires Base(base).Object? && jsonArguments.parsed.Ok? && jsonArguments.parsed.value.Object?
    requires Loaded(jsonArguments)
    ensures Built("json", jsonArguments, key, value, base, merge)
         == UpdateWith(Base(base), jsonArguments.parsed.value.fields)
    ensures forall k :: Get(Built("json", jsonArguments, key, value, base, merge).value.fields, k)
                     == if k in Keys(jsonArguments.parsed.value.fields) then Get(jsonArguments.parsed.value.fields, k)
                        else Get(Base(base).fields, k)
  {
    Overridden(Base(base).fields, jsonArguments.parsed.value.fields);
  }

  /** json mode with valid JSON that is not a dict: the base, unchanged. */
  lemma JsonNotDict(jsonArguments: Text, key: string, value: string, base: Text, merge: Text)
    requires jsonArguments.parsed.Ok? && !jsonArguments.parsed.value.Object?
    ensures Built("json", jsonArguments, key, value, base, merge) == Copy(Base(base))
  {
  }

  /** json mode with invalid JSON: the base plus one `_error` key. */
  lemma JsonInvalid(jsonArguments: Text, key: string, value: string, base: Text, merge: Text)
    requires Base(base).Object? && jsonArguments.parsed.Raised?
    ensures Built("json", jsonArguments, key, value, base, merge).Ok?
    ensures forall k :: Get(Built("json", jsonArguments, key, value, base, merge).value.fields, k)
                     == if k == "_error" then Some(Str("Invalid JSON: " + jsonArguments.parsed.error))
                        else Get(Base(base).fields, k)
  {
    forall k ensures Get(Put(Base(base).fields, "_error", Str("Invalid JSON: " + jsonArguments.parsed.error)), k)
                  == if k == "_error" then Some(Str("Invalid JSON: " + jsonArguments.parsed.error))
                     else Get(Base(base).fields, k) {
      PutGet(Base(base).fields, "_error", Str("Invalid JSON: " + jsonArguments.parsed.error), k);
    }
  }

  /** key_value mode: an empty key leaves the base alone; otherwise only `key`
      changes, to `value`. */
  lemma KeyValueSets(jsonArguments: Text, key: string, value: string, base: Text, merge: Text)
    requires Base(base).Object?
    ensures |key| == 0 ==> Built("key_value", jsonArguments, key, value, base, merge) == Ok(Base(base))
    ensures Built("key_value", jsonArguments, key, value, base, merge).Ok?
    ensures forall k :: Get(Built("key_value", jsonArguments, key, value, base, merge).value.fields, k)
                     == if k == key && |key| > 0 then Some(Str(value)) else Get(Base(base).fields, k)
  {
    if |key| > 0 {
      forall k ensures Get(Put(Base(base).fields, key, Str(value)), k)
                    == if k == key then Some(Str(value)) else Get(Base(base).fields, k) {
        PutGet(Base(base).fields, key, Str(value), k);
      }
    }
  }

  /** merge mode: a valid dict overrides the base; invalid JSON, or JSON that
      is not a dict, leaves the base unchanged. */
  lemma MergeOverrides(jsonArguments: Text, key: string, value: string, base: Text, merge: Text)
    requires Base(base).Object? && Loaded(merge)
    ensures MergeValue(merge).Ok? && MergeValue(merge).value.Object? ==>
      forall k :: Get(Built("merge", jsonArguments, key, value, base, merge).value.fields, k)
               == if k in Keys(MergeValue(merge).value.fields) then Get(MergeValue(merge).value.fields, k)
                  else Get(Base(base).fields, k)
    ensures !(MergeValue(merge).Ok? && MergeValue(merge).value.Object?) ==>
      Built("merge", jsonArguments, key, value, base, merge) == Ok(Base(base))
  {
    var m := MergeValue(merge);
    if m.Ok? && m.value.Object? {
      Overridden(Base(base).fields, m.value.fields);
    }
  }

  /** An empty merge text is `{}`: the base comes back unchanged. */
  lemma MergeEmpty(jsonArguments: Text, key: string, value: string, base: Text, merge: Text)
    requires Base(base).Object? && |merge.raw| == 0
    ensures Built("merge", jsonArguments, key, value, base, merge) == Ok(Base(base))
  {
    assert Update(Base(base).fields, []) == Base(base).fields;
  }
}
