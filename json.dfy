/**
 * JSON and YAML documents as the program loads them (`json.load`,
 * `yaml.safe_load`): a tree of dicts (ordered key/value entries), lists and
 * scalars. Floating-point numbers are not represented.
 */
module Json {
  import opened Wrappers

  datatype Value =
    | Null
    | Bool(b: bool)
    | Int(i: int)
    | Str(s: string)
    | Arr(items: seq<Value>)
    | Obj(entries: seq<(string, Value)>)

  /** The keys of a dict in insertion order. */
  function Keys(entries: seq<(string, Value)>): (r: seq<string>)
    ensures |r| == |entries|
    decreases |entries|
  {
    if entries == [] then [] else [entries[0].0] + Keys(entries[1..])
  }

  /** A dict never holds a key twice. */
  predicate DistinctKeys(entries: seq<(string, Value)>) {
    forall i, j :: 0 <= i < j < |entries| ==> entries[i].0 != entries[j].0
  }

  /** `d.get(key)` on the entries of a dict. */
  function Lookup(entries: seq<(string, Value)>, key: string): (r: Option<Value>)
    ensures r.Some? ==> (key, r.value) in entries
    ensures r.None? <==> forall k :: 0 <= k < |entries| ==> entries[k].0 != key
    decreases |entries|
  {
    if entries == [] then None
    else if entries[0].0 == key then Some(entries[0].1)
    else Lookup(entries[1..], key)
  }

  /** `d.get(key)` on a value known to be a dict; `None` for any other value. */
  function Get(v: Value, key: string): Option<Value> {
    if v.Obj? then Lookup(v.entries, key) else None
  }

  /** `d[key] = value`: replaces the value in place or appends a new entry. */
  function Set(entries: seq<(string, Value)>, key: string, value: Value): (r: seq<(string, Value)>)
    decreases |entries|
  {
    if entries == [] then [(key, value)]
    else if entries[0].0 == key then [(key, value)] + entries[1..]
    else [entries[0]] + Set(entries[1..], key, value)
  }

  /** After `d[key] = value` the key reads `value`. */
  lemma {:induction false} SetReads(entries: seq<(string, Value)>, key: string, value: Value)
    ensures Lookup(Set(entries, key, value), key) == Some(value)
    decreases |entries|
  {
    if entries != [] && entries[0].0 != key {
      SetReads(entries[1..], key, value);
      var r := Set(entries, key, value);
      assert r[1..] == Set(entries[1..], key, value);
    }
  }

  /** `d[key] = value` leaves every other key reading as before. */
  lemma {:induction false} SetKeepsOthers(entries: seq<(string, Value)>, key: string, value: Value, other: string)
    requires other != key
    ensures Lookup(Set(entries, key, value), other) == Lookup(entries, other)
    decreases |entries|
  {
    if entries != [] {
      var r := Set(entries, key, value);
      if entries[0].0 != key {
        SetKeepsOthers(entries[1..], key, value, other);
        assert r[1..] == Set(entries[1..], key, value);
      } else {
        assert r[1..] == entries[1..];
      }
    }
  }

  /** `d[key] = value` keeps the key order, appending the key only when it is new. */
  lemma {:induction false} SetKeys(entries: seq<(string, Value)>, key: string, value: Value)
    ensures Keys(Set(entries, key, value)) == if Lookup(entries, key).Some? then Keys(entries) else Keys(entries) + [key]
    decreases |entries|
  {
    if entries != [] {
      var r := Set(entries, key, value);
      if entries[0].0 != key {
        SetKeys(entries[1..], key, value);
        assert r[1..] == Set(entries[1..], key, value);
        assert Keys(r) == [entries[0].0] + Keys(r[1..]);
      } else {
        assert r[1..] == entries[1..];
        assert Keys(r) == [key] + Keys(r[1..]);
      }
    }
  }

  /** `d.get(key, default)` on a value known to be a dict. */
  function GetOr(v: Value, key: string, default: Value): (r: Value)
    ensures v.Obj? && Lookup(v.entries, key).Some? ==> r == Lookup(v.entries, key).value
    ensures !(v.Obj? && Lookup(v.entries, key).Some?) ==> r == default
  {
    match Get(v, key)
    case None => default
    case Some(x) => x
  }

  /** `key in d`. */
  predicate HasKey(v: Value, key: string) {
    v.Obj? && Lookup(v.entries, key).Some?
  }

  /** The `AttributeError` of calling `.get` on a value that is not a dict. */
  const NoGetError := "object has no attribute 'get'"

  /** The `TypeError` of iterating, or using `in` on, a scalar. */
  const NotIterableError := "object is not iterable"

  /** `v.get(key, default)` on any value: only a dict has `.get`. */
  function GetIn(v: Value, key: string, default: Value): (r: Result<Value>)
    ensures r.Err? <==> !v.Obj?
    ensures r.Ok? ==> r.value == GetOr(v, key, default)
  {
    if v.Obj? then Ok(GetOr(v, key, default)) else Err(NoGetError)
  }

  /**
   * `for x in v`: a list yields its items, a dict its keys and a string its
   * characters, each as a string; any other value raises `TypeError`.
   */
  function Iterated(v: Value): (r: Result<seq<Value>>)
    ensures r.Err? <==> !(v.Arr? || v.Obj? || v.Str?)
    ensures v.Arr? ==> r == Ok(v.items)
    ensures r.Ok? && !v.Arr? ==> forall k :: 0 <= k < |r.value| ==> r.value[k].Str?
    ensures r.Ok? ==> (r.value == [] <==> !Truthy(v))
  {
    match v
    case Arr(items) => Ok(items)
    case Obj(entries) => Ok(seq(|entries|, k requires 0 <= k < |entries| => Str(entries[k].0)))
    case Str(s) => Ok(seq(|s|, k requires 0 <= k < |s| => Str([s[k]])))
    case _ => Err(NotIterableError)
  }

  /** Python truthiness. */
  predicate Truthy(v: Value) {
    match v
    case Null => false
    case Bool(b) => b
    case Int(i) => i != 0
    case Str(s) => s != []
    case Arr(items) => items != []
    case Obj(entries) => entries != []
  }

  /** A field read with a string default, as `d.get(key, '')` is used on metadata. */
  function GetString(v: Value, key: string): string {
    match Get(v, key)
    case Some(Str(s)) => s
    case _ => ""
  }

  /** The entries of a filtered dict keep their order and come from the original. */
  function KeepEntries(entries: seq<(string, Value)>, drop: set<string>): (r: seq<(string, Value)>)
    ensures forall e :: e in r ==> e in entries && e.0 !in drop
    ensures forall e :: e in entries && e.0 !in drop ==> e in r
    ensures |r| <= |entries|
    decreases |entries|
  {
    if entries == [] then []
    else (if entries[0].0 in drop then [] else [entries[0]]) + KeepEntries(entries[1..], drop)
  }

  /** A filtered dict reads like the original on every key it keeps, and misses the dropped ones. */
  lemma {:induction false} KeepEntriesLookup(entries: seq<(string, Value)>, drop: set<string>, key: string)
    ensures Lookup(KeepEntries(entries, drop), key) == if key in drop then None else Lookup(entries, key)
    decreases |entries|
  {
    if entries != [] {
      KeepEntriesLookup(entries[1..], drop, key);
      var r := KeepEntries(entries, drop);
      if entries[0].0 !in drop {
        assert r[0] == entries[0] && r[1..] == KeepEntries(entries[1..], drop);
      } else {
        assert r == KeepEntries(entries[1..], drop);
      }
    }
  }
}
