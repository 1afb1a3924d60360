/**
 * `Truncator`: shortening strings, dicts and lists before they are logged.
 * `truncate_dict` builds a fresh dict by inserting the truncated entries one
 * by one, so two keys that become equal once truncated end up as one entry
 * holding the later value.
 */
module Logger {
  import opened Wrappers
  import opened Strings
  import opened Json

  const Ellipsis := "..."

  /**
   * `_truncate`: a string longer than `maxLength` keeps its first `maxLength`
   * characters and gains `...`. The limit is a `nat`: every `Truncator` is
   * built with a positive limit (100), so the negative slice lengths Python
   * would also accept do not arise.
   */
  function Truncate(maxLength: nat, value: string): (r: string)
    ensures |value| <= maxLength ==> r == value
    ensures |value| > maxLength ==> |r| == maxLength + 3 && r[..maxLength] == value[..maxLength] && r[maxLength..] == Ellipsis
    ensures |r| <= maxLength + 3
  {
    if |value| > maxLength then value[..maxLength] + Ellipsis else value
  }

  /** Truncating a truncated string changes nothing. */
  lemma TruncateIdempotent(maxLength: nat, value: string)
    ensures Truncate(maxLength, Truncate(maxLength, value)) == Truncate(maxLength, value)
  {
    var r := Truncate(maxLength, value);
    if |value| > maxLength {
      assert r[..maxLength] == value[..maxLength];
    }
  }

  // ---------------------------------------------------------------- building a dict

  /** The dict obtained by `d[k] = v` for the pairs in order, starting from `{}`. */
  function Inserted(pairs: seq<(string, Value)>): seq<(string, Value)>
    decreases |pairs|
  {
    if pairs == [] then []
    else
      var last := pairs[|pairs| - 1];
      Set(Inserted(pairs[..|pairs| - 1]), last.0, last.1)
  }

  lemma InsertedSnoc(pairs: seq<(string, Value)>, p: (string, Value))
    ensures Inserted(pairs + [p]) == Set(Inserted(pairs), p.0, p.1)
  {
    assert (pairs + [p])[..|pairs|] == pairs;
  }

  /** Every entry `d[k] = v` leaves in the dict is either already there or `(k, v)`. */
  lemma {:induction false} SetEntries(entries: seq<(string, Value)>, key: string, value: Value)
    ensures forall e :: e in Set(entries, key, value) ==> e in entries || e == (key, value)
    decreases |entries|
  {
    if entries != [] && entries[0].0 != key {
      SetEntries(entries[1..], key, value);
      assert Set(entries, key, value) == [entries[0]] + Set(entries[1..], key, value);
      assert forall e :: e in entries[1..] ==> e in entries;
    }
  }

  /** `d[k] = v` never makes a key appear twice. */
  lemma {:induction false} SetDistinct(entries: seq<(string, Value)>, key: string, value: Value)
    requires DistinctKeys(entries)
    ensures DistinctKeys(Set(entries, key, value))
    decreases |entries|
  {
    if entries != [] {
      var r := Set(entries, key, value);
      if entries[0].0 != key {
        SetDistinct(entries[1..], key, value);
        SetKeys(entries[1..], key, value);
        assert r == [entries[0]] + Set(entries[1..], key, value);
        assert forall k :: 0 <= k < |r| - 1 ==> r[k + 1].0 == Keys(r[1..])[k] by {
          KeysIndex(r[1..]);
        }
        KeysIndex(entries[1..]);
        forall j | 1 <= j < |r|
          ensures r[0].0 != r[j].0
        {
          var ks := Keys(r[1..]);
          assert r[j].0 == ks[j - 1];
          if Lookup(entries[1..], key).None? {
            assert ks == Keys(entries[1..]) + [key];
          } else {
            assert ks == Keys(entries[1..]);
          }
        }
      } else {
        assert r == [(key, value)] + entries[1..];
      }
    }
  }

  /** The keys of a dict are read off its entries. */
  lemma {:induction false} KeysIndex(entries: seq<(string, Value)>)
    ensures forall k :: 0 <= k < |entries| ==> Keys(entries)[k] == entries[k].0
    decreases |entries|
  {
    if entries != [] {
      KeysIndex(entries[1..]);
    }
  }

  /** `d[k] = v` with a new key appends the entry. */
  lemma {:induction false} SetAbsent(entries: seq<(string, Value)>, key: string, value: Value)
    requires forall k :: 0 <= k < |entries| ==> entries[k].0 != key
    ensures Set(entries, key, value) == entries + [(key, value)]
    decreases |entries|
  {
    if entries != [] {
      SetAbsent(entries[1..], key, value);
      assert entries == [entries[0]] + entries[1..];
    }
  }

  /** The built dict holds each key once, and only inserted pairs. */
  lemma {:induction false} InsertedShape(pairs: seq<(string, Value)>)
    ensures DistinctKeys(Inserted(pairs))
    ensures forall e :: e in Inserted(pairs) ==> e in pairs
    decreases |pairs|
  {
    if pairs != [] {
      var init := pairs[..|pairs| - 1];
      var last := pairs[|pairs| - 1];
      InsertedShape(init);
      SetDistinct(Inserted(init), last.0, last.1);
      SetEntries(Inserted(init), last.0, last.1);
      assert forall e :: e in init ==> e in pairs;
    }
  }

  /**
   * A key reads the value of its last insertion, and is missing exactly when
   * it was never inserted.
   */
  lemma InsertedLookup(pairs: seq<(string, Value)>, key: string)
    ensures Lookup(Inserted(pairs), key).None? <==> forall j :: 0 <= j < |pairs| ==> pairs[j].0 != key
    ensures forall j :: 0 <= j < |pairs| && pairs[j].0 == key && (forall l :: j < l < |pairs| ==> pairs[l].0 != key)
                        ==> Lookup(Inserted(pairs), key) == Some(pairs[j].1)
  {
    InsertedMissing(pairs, key);
    forall j | 0 <= j < |pairs| && pairs[j].0 == key && (forall l :: j < l < |pairs| ==> pairs[l].0 != key)
      ensures Lookup(Inserted(pairs), key) == Some(pairs[j].1)
    {
      InsertedLast(pairs, key, j);
    }
  }

  lemma {:induction false} InsertedMissing(pairs: seq<(string, Value)>, key: string)
    ensures Lookup(Inserted(pairs), key).None? <==> forall j :: 0 <= j < |pairs| ==> pairs[j].0 != key
    decreases |pairs|
  {
    if pairs != [] {
      var init := pairs[..|pairs| - 1];
      var last := pairs[|pairs| - 1];
      assert Inserted(pairs) == Set(Inserted(init), last.0, last.1);
      InsertedMissing(init, key);
      if last.0 == key {
        SetReads(Inserted(init), key, last.1);
      } else {
        SetKeepsOthers(Inserted(init), last.0, last.1, key);
        assert forall j :: 0 <= j < |init| ==> init[j] == pairs[j];
      }
    }
  }

  lemma {:induction false} InsertedLast(pairs: seq<(string, Value)>, key: string, j: nat)
    requires j < |pairs| && pairs[j].0 == key && forall l :: j < l < |pairs| ==> pairs[l].0 != key
    ensures Lookup(Inserted(pairs), key) == Some(pairs[j].1)
    decreases |pairs|
  {
    var init := pairs[..|pairs| - 1];
    var last := pairs[|pairs| - 1];
    assert Inserted(pairs) == Set(Inserted(init), last.0, last.1);
    if j == |pairs| - 1 {
      SetReads(Inserted(init), key, last.1);
    } else {
      assert last.0 != key;
      assert init[j] == pairs[j];
      assert forall l :: j < l < |init| ==> init[l] == pairs[l];
      InsertedLast(init, key, j);
      SetKeepsOthers(Inserted(init), last.0, last.1, key);
    }
  }

  /** Inserting pairs whose keys are already distinct rebuilds them unchanged. */
  lemma {:induction false} InsertedDistinct(pairs: seq<(string, Value)>)
    requires DistinctKeys(pairs)
    ensures Inserted(pairs) == pairs
    decreases |pairs|
  {
    if pairs != [] {
      var init := pairs[..|pairs| - 1];
      var last := pairs[|pairs| - 1];
      assert DistinctKeys(init);
      InsertedDistinct(init);
      SetAbsent(init, last.0, last.1);
      assert init + [last] == pairs;
    }
  }

  // ---------------------------------------------------------------- truncate_dict

  /** A list element: a string is truncated, anything else is kept. */
  function TruncatedItem(maxLength: nat, v: Value): Value {
    if v.Str? then Str(Truncate(maxLength, v.s)) else v
  }

  /**
   * A dict value after `truncate_dict`: a dict is truncated recursively, the
   * string elements of a list are truncated, a string is truncated, and any
   * other value is kept.
   */
  function TruncatedValue(maxLength: nat, v: Value): Value
    decreases v, 1
  {
    match v
    case Obj(entries) => Obj(Inserted(DictPairs(maxLength, entries)))
    case Arr(items) => Arr(seq(|items|, k requires 0 <= k < |items| => TruncatedItem(maxLength, items[k])))
    case _ => TruncatedItem(maxLength, v)
  }

  /** The pairs `truncate_dict` inserts, in the dict's order. */
  function DictPairs(maxLength: nat, entries: seq<(string, Value)>): (r: seq<(string, Value)>)
    ensures |r| == |entries|
    decreases Obj(entries), 0
  {
    seq(|entries|, k requires 0 <= k < |entries| =>
      assert entries[k] in entries;
      (Truncate(maxLength, entries[k].0), TruncatedValue(maxLength, entries[k].1)))
  }

  lemma DictPairsSnoc(maxLength: nat, entries: seq<(string, Value)>, i: nat)
    requires i < |entries|
    ensures DictPairs(maxLength, entries[..i + 1])
         == DictPairs(maxLength, entries[..i]) + [(Truncate(maxLength, entries[i].0), TruncatedValue(maxLength, entries[i].1))]
  {
  }

  /** `truncate_dict`: fills a fresh dict entry by entry, recursing into dict values. */
  method TruncateDict(maxLength: nat, d: seq<(string, Value)>) returns (truncated: seq<(string, Value)>)
    ensures truncated == Inserted(DictPairs(maxLength, d))
    decreases Obj(d)
  {
    truncated := [];
    var i := 0;
    while i < |d|
      invariant 0 <= i <= |d|
      invariant truncated == Inserted(DictPairs(maxLength, d[..i]))
    {
      var (key, value) := d[i];
      var truncatedKey := Truncate(maxLength, key);
      var truncatedValue: Value;
      if value.Obj? {
        assert d[i] in d;
        var inner := TruncateDict(maxLength, value.entries);
        truncatedValue := Obj(inner);
      } else if value.Arr? {
        truncatedValue := Arr(seq(|value.items|, k requires 0 <= k < |value.items| => TruncatedItem(maxLength, value.items[k])));
      } else {
        truncatedValue := TruncatedItem(maxLength, value);
      }
      assert truncatedValue == TruncatedValue(maxLength, value);
      DictPairsSnoc(maxLength, d, i);
      InsertedSnoc(DictPairs(maxLength, d[..i]), (truncatedKey, truncatedValue));
      truncated := Set(truncated, truncatedKey, truncatedValue);
      i := i + 1;
    }
    assert d[..i] == d;
  }

  /**
   * What `truncate_dict` returns: each key once; a key is a truncated
   * original key, and it holds the truncated value of the last original key
   * that truncates to it.
   */
  lemma TruncateDictMeans(maxLength: nat, d: seq<(string, Value)>, key: string)
    ensures var r := Inserted(DictPairs(maxLength, d));
            DistinctKeys(r)
            && (Lookup(r, key).None? <==> forall j :: 0 <= j < |d| ==> Truncate(maxLength, d[j].0) != key)
            && forall j :: 0 <= j < |d| && Truncate(maxLength, d[j].0) == key
                           && (forall l :: j < l < |d| ==> Truncate(maxLength, d[l].0) != key)
                           ==> Lookup(r, key) == Some(TruncatedValue(maxLength, d[j].1))
  {
    var pairs := DictPairs(maxLength, d);
    assert forall j :: 0 <= j < |d| ==> pairs[j].0 == Truncate(maxLength, d[j].0) && pairs[j].1 == TruncatedValue(maxLength, d[j].1);
    InsertedShape(pairs);
    InsertedLookup(pairs, key);
  }

  /**
   * Every string `truncate_dict` truncates is at most `maxLength + 3` long:
   * keys at every depth, string values, and string elements of lists.
   */
  predicate Short(maxLength: nat, v: Value)
    decreases v
  {
    match v
    case Str(s) => |s| <= maxLength + 3
    case Obj(entries) => forall i :: 0 <= i < |entries| ==> |entries[i].0| <= maxLength + 3 && Short(maxLength, entries[i].1)
    case Arr(items) => forall i :: 0 <= i < |items| ==> items[i].Str? ==> |items[i].s| <= maxLength + 3
    case _ => true
  }

  lemma TruncatedShort(maxLength: nat, v: Value)
    ensures Short(maxLength, TruncatedValue(maxLength, v))
    decreases v
  {
    match v
    case Obj(entries) =>
      var pairs := DictPairs(maxLength, entries);
      var r := Inserted(pairs);
      InsertedShape(pairs);
      forall j | 0 <= j < |entries|
        ensures Short(maxLength, pairs[j].1)
      {
        assert entries[j] in entries;
        TruncatedShort(maxLength, entries[j].1);
      }
      forall i | 0 <= i < |r|
        ensures |r[i].0| <= maxLength + 3 && Short(maxLength, r[i].1)
      {
        assert r[i] in pairs;
      }
    case _ =>
  }

  /** Truncating a truncated dict or value changes nothing. */
  lemma TruncatedIdempotent(maxLength: nat, v: Value)
    ensures TruncatedValue(maxLength, TruncatedValue(maxLength, v)) == TruncatedValue(maxLength, v)
    decreases v
  {
    match v
    case Obj(entries) =>
      var pairs := DictPairs(maxLength, entries);
      var r := Inserted(pairs);
      InsertedShape(pairs);
      forall j | 0 <= j < |entries|
        ensures Truncate(maxLength, pairs[j].0) == pairs[j].0
        ensures TruncatedValue(maxLength, pairs[j].1) == pairs[j].1
      {
        assert entries[j] in entries;
        TruncatedIdempotent(maxLength, entries[j].1);
        TruncateIdempotent(maxLength, entries[j].0);
      }
      assert DictPairs(maxLength, r) == r by {
        forall i | 0 <= i < |r|
          ensures DictPairs(maxLength, r)[i] == r[i]
        {
          assert r[i] in pairs;
        }
      }
      InsertedDistinct(r);
    case Arr(items) =>
      forall k | 0 <= k < |items| && items[k].Str?
        ensures TruncatedItem(maxLength, TruncatedItem(maxLength, items[k])) == TruncatedItem(maxLength, items[k])
      {
        TruncateIdempotent(maxLength, items[k].s);
      }
    case Str(s) => TruncateIdempotent(maxLength, s);
    case _ =>
  }

  // ---------------------------------------------------------------- truncate

  /**
   * `str(v)`: strings are themselves, numbers in decimal, `True`/`False`
   * and `None`; the text of a container is an input.
   */
  function Show(v: Value, repr: Value -> string): (r: string)
    ensures v.Str? ==> r == v.s
  {
    match v
    case Str(s) => s
    case Int(i) => IntToString(i)
    case Bool(b) => if b then "True" else "False"
    case Null => "None"
    case _ => repr(v)
  }

  /**
   * `truncate`: a dict goes through `truncate_dict`; every item of a list
   * is stringified and truncated; anything else is returned as it is.
   */
  method TruncateData(maxLength: nat, data: Value, repr: Value -> string) returns (r: Value)
    ensures data.Obj? ==> r == TruncatedValue(maxLength, data)
    ensures data.Arr? ==> r.Arr? && |r.items| == |data.items|
    ensures data.Arr? ==> forall k :: 0 <= k < |r.items| ==>
              r.items[k] == Str(Truncate(maxLength, Show(data.items[k], repr)))
    ensures data.Arr? ==> forall k :: 0 <= k < |r.items| && data.items[k].Str? ==>
              r.items[k] == TruncatedItem(maxLength, data.items[k])
    ensures !data.Obj? && !data.Arr? ==> r == data
    ensures data.Obj? || data.Arr? ==> Short(maxLength, r)
  {
    match data
    case Obj(entries) =>
      var truncated := TruncateDict(maxLength, entries);
      r := Obj(truncated);
      TruncatedShort(maxLength, data);
    case Arr(items) =>
      r := Arr(seq(|items|, k requires 0 <= k < |items| => Str(Truncate(maxLength, Show(items[k], repr)))));
    case _ =>
      r := data;
  }
}
