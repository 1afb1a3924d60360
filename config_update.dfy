/**
 * `update_config`: bringing `config.ini` in line with `.default.config.ini`.
 * A configuration is an ordered dict of sections, each an ordered dict of
 * string options, as `ConfigObj` loads it with `list_values=False`. The
 * current configuration is edited in place: sections and keys the default
 * does not have are deleted, missing ones are added with their default
 * values, and everything else is kept. Reading and writing the two files
 * are left to the caller: the method receives both loaded configurations
 * and returns the one written back.
 */
module ConfigUpdate {
  import opened Wrappers

  type Options = seq<(string, string)>
  type Config = seq<(string, Options)>

  // ---------------------------------------------------------------- ordered dicts

  /** `d.get(key)` on an ordered dict. */
  function Find<T>(es: seq<(string, T)>, key: string): (r: Option<T>)
    ensures r.Some? ==> (key, r.value) in es
    ensures r.None? <==> forall i :: 0 <= i < |es| ==> es[i].0 != key
    decreases |es|
  {
    if es == [] then None
    else if es[0].0 == key then Some(es[0].1)
    else Find(es[1..], key)
  }

  /** `key in d`. */
  predicate Has<T>(es: seq<(string, T)>, key: string) {
    Find(es, key).Some?
  }

  /** A dict holds each key once. */
  predicate Distinct<T>(es: seq<(string, T)>) {
    forall i, j :: 0 <= i < j < |es| ==> es[i].0 != es[j].0
  }

  /** What a loaded `ConfigObj` is: distinct section names, and distinct keys in every section. */
  predicate IsConfig(c: Config) {
    Distinct(c) && forall i :: 0 <= i < |c| ==> Distinct(c[i].1)
  }

  /** `d[key] = value`: replaces the value in place or appends a new entry. */
  function Put<T>(es: seq<(string, T)>, key: string, value: T): (r: seq<(string, T)>)
    ensures !Has(es, key) ==> r == es + [(key, value)]
    ensures Has(es, key) ==> |r| == |es| && forall i :: 0 <= i < |r| ==> r[i].0 == es[i].0
    ensures forall e :: e in r ==> e in es || e == (key, value)
    decreases |es|
  {
    if es == [] then [(key, value)]
    else if es[0].0 == key then [(key, value)] + es[1..]
    else
      var rest := Put(es[1..], key, value);
      assert forall e :: e in es[1..] ==> e in es;
      [es[0]] + rest
  }

  /** `del d[key]`. */
  function Delete<T>(es: seq<(string, T)>, key: string): seq<(string, T)>
    decreases |es|
  {
    if es == [] then []
    else if es[0].0 == key then es[1..]
    else [es[0]] + Delete(es[1..], key)
  }

  /** The entries of `es` whose key `keep` has, in order. */
  function Prune<T, U>(es: seq<(string, T)>, keep: seq<(string, U)>): (r: seq<(string, T)>)
    ensures forall e :: e in r ==> e in es
    decreases |es|
  {
    if es == [] then []
    else
      var init := es[..|es| - 1];
      var last := es[|es| - 1];
      assert forall e :: e in init ==> e in es;
      Prune(init, keep) + (if Has(keep, last.0) then [last] else [])
  }

  /** `es` after `d[k] = v` for every default `(k, v)` whose key it does not have yet. */
  function AddMissing<T>(es: seq<(string, T)>, defaults: seq<(string, T)>): seq<(string, T)>
    decreases |defaults|
  {
    if defaults == [] then es
    else
      var a := AddMissing(es, defaults[..|defaults| - 1]);
      var last := defaults[|defaults| - 1];
      if Has(a, last.0) then a else Put(a, last.0, last.1)
  }

  /** One section after the two inner loops: keys outside the default dropped, missing ones added. */
  function MergedOptions(current: Options, defaults: Options): Options {
    AddMissing(Prune(current, defaults), defaults)
  }

  /** The second outer loop: each default section is added, or its current section is merged. */
  function MergeFrom(pruned: Config, defaults: Config): Config
    decreases |defaults|
  {
    if defaults == [] then pruned
    else
      var a := MergeFrom(pruned, defaults[..|defaults| - 1]);
      var last := defaults[|defaults| - 1];
      match Find(a, last.0)
      case None => Put(a, last.0, last.1)
      case Some(current) => Put(a, last.0, MergedOptions(current, last.1))
  }

  /** The configuration `update_config` writes. */
  function Merged(current: Config, defaults: Config): Config {
    MergeFrom(Prune(current, defaults), defaults)
  }

  // ---------------------------------------------------------------- facts about the dict operations

  lemma {:induction false} FindSnoc<T>(es: seq<(string, T)>, x: (string, T), key: string)
    ensures Find(es + [x], key) == if Has(es, key) then Find(es, key) else if x.0 == key then Some(x.1) else None
    decreases |es|
  {
    if es != [] {
      assert (es + [x])[1..] == es[1..] + [x];
      FindSnoc(es[1..], x, key);
    }
  }

  lemma FindDistinct<T>(es: seq<(string, T)>, i: nat)
    requires Distinct(es) && i < |es|
    ensures Find(es, es[i].0) == Some(es[i].1)
  {
    var r := Find(es, es[i].0);
    var j :| 0 <= j < |es| && es[j] == (es[i].0, r.value);
  }

  lemma {:induction false} FindPut<T>(es: seq<(string, T)>, key: string, value: T, other: string)
    ensures Find(Put(es, key, value), other) == if other == key then Some(value) else Find(es, other)
    decreases |es|
  {
    if es != [] && es[0].0 != key {
      FindPut(es[1..], key, value, other);
      assert Put(es, key, value) == [es[0]] + Put(es[1..], key, value);
    }
  }

  lemma {:induction false} PutSame<T>(es: seq<(string, T)>, key: string, value: T)
    requires Find(es, key) == Some(value)
    ensures Put(es, key, value) == es
    decreases |es|
  {
    if es[0].0 != key {
      PutSame(es[1..], key, value);
    }
  }

  lemma PutDistinct<T>(es: seq<(string, T)>, key: string, value: T)
    requires Distinct(es)
    ensures Distinct(Put(es, key, value))
  {
  }

  lemma {:induction false} DeleteAt<T>(a: seq<(string, T)>, x: (string, T), b: seq<(string, T)>)
    requires forall e :: e in a ==> e.0 != x.0
    ensures Delete(a + [x] + b, x.0) == a + b
    decreases |a|
  {
    if a == [] {
      assert ([x] + b)[1..] == b;
    } else {
      assert (a + [x] + b)[1..] == a[1..] + [x] + b;
      assert forall e :: e in a[1..] ==> e in a;
      DeleteAt(a[1..], x, b);
    }
  }

  lemma PruneSnoc<T, U>(es: seq<(string, T)>, keep: seq<(string, U)>, i: nat)
    requires i < |es|
    ensures Prune(es[..i + 1], keep) == Prune(es[..i], keep) + (if Has(keep, es[i].0) then [es[i]] else [])
  {
    assert es[..i + 1][..i] == es[..i];
  }

  /** Pruning keeps exactly the keys `keep` has, reading as before. */
  lemma {:induction false} FindPrune<T, U>(es: seq<(string, T)>, keep: seq<(string, U)>, key: string)
    ensures Find(Prune(es, keep), key) == if Has(keep, key) then Find(es, key) else None
    decreases |es|
  {
    if es != [] {
      var init := es[..|es| - 1];
      var last := es[|es| - 1];
      FindPrune(init, keep, key);
      assert init + [last] == es;
      FindSnoc(init, last, key);
      if Has(keep, last.0) {
        assert Prune(es, keep) == Prune(init, keep) + [last];
        FindSnoc(Prune(init, keep), last, key);
      } else {
        assert Prune(es, keep) == Prune(init, keep);
      }
    }
  }

  lemma {:induction false} PruneDistinct<T, U>(es: seq<(string, T)>, keep: seq<(string, U)>)
    requires Distinct(es)
    ensures Distinct(Prune(es, keep))
    decreases |es|
  {
    if es != [] {
      var init := es[..|es| - 1];
      var last := es[|es| - 1];
      assert Distinct(init);
      PruneDistinct(init, keep);
      var p := Prune(init, keep);
      forall e | e in p
        ensures e.0 != last.0
      {
        var j :| 0 <= j < |init| && init[j] == e;
      }
    }
  }

  lemma {:induction false} PruneAll<T, U>(es: seq<(string, T)>, keep: seq<(string, U)>)
    requires forall i :: 0 <= i < |es| ==> Has(keep, es[i].0)
    ensures Prune(es, keep) == es
    decreases |es|
  {
    if es != [] {
      var init := es[..|es| - 1];
      PruneAll(init, keep);
      assert init + [es[|es| - 1]] == es;
    }
  }

  /** Adding missing keys keeps the present ones and gives the others their default. */
  lemma {:induction false} FindAddMissing<T>(es: seq<(string, T)>, defaults: seq<(string, T)>, key: string)
    ensures Find(AddMissing(es, defaults), key) == if Has(es, key) then Find(es, key) else Find(defaults, key)
    decreases |defaults|
  {
    if defaults != [] {
      var init := defaults[..|defaults| - 1];
      var last := defaults[|defaults| - 1];
      var a := AddMissing(es, init);
      FindAddMissing(es, init, key);
      assert init + [last] == defaults;
      FindSnoc(init, last, key);
      if !Has(a, last.0) {
        FindPut(a, last.0, last.1, key);
        FindAddMissing(es, init, last.0);
      }
    }
  }

  lemma {:induction false} AddMissingDistinct<T>(es: seq<(string, T)>, defaults: seq<(string, T)>)
    requires Distinct(es)
    ensures Distinct(AddMissing(es, defaults))
    decreases |defaults|
  {
    if defaults != [] {
      var init := defaults[..|defaults| - 1];
      var last := defaults[|defaults| - 1];
      AddMissingDistinct(es, init);
      PutDistinct(AddMissing(es, init), last.0, last.1);
    }
  }

  lemma {:induction false} AddMissingPresent<T>(es: seq<(string, T)>, defaults: seq<(string, T)>)
    requires forall i :: 0 <= i < |defaults| ==> Has(es, defaults[i].0)
    ensures AddMissing(es, defaults) == es
    decreases |defaults|
  {
    if defaults != [] {
      AddMissingPresent(es, defaults[..|defaults| - 1]);
    }
  }

  // ---------------------------------------------------------------- one section

  /**
   * A merged section has exactly the default section's keys; a key the
   * current section already has keeps its current value, the others take
   * the default value.
   */
  lemma MergedOptionsMeans(current: Options, defaults: Options, key: string)
    ensures Has(MergedOptions(current, defaults), key) <==> Has(defaults, key)
    ensures Find(MergedOptions(current, defaults), key)
         == if Has(defaults, key) && Has(current, key) then Find(current, key) else Find(defaults, key)
  {
    FindAddMissing(Prune(current, defaults), defaults, key);
    FindPrune(current, defaults, key);
  }

  lemma MergedOptionsDistinct(current: Options, defaults: Options)
    requires Distinct(current)
    ensures Distinct(MergedOptions(current, defaults))
  {
    PruneDistinct(current, defaults);
    AddMissingDistinct(Prune(current, defaults), defaults);
  }

  /** A section that already has exactly the default's keys is left as it is. */
  lemma MergedOptionsFixed(current: Options, defaults: Options)
    requires forall key :: Has(current, key) <==> Has(defaults, key)
    ensures MergedOptions(current, defaults) == current
  {
    assert forall i :: 0 <= i < |current| ==> Has(current, current[i].0);
    PruneAll(current, defaults);
    assert forall i :: 0 <= i < |defaults| ==> Has(defaults, defaults[i].0);
    AddMissingPresent(current, defaults);
  }

  // ---------------------------------------------------------------- the whole configuration

  lemma {:induction false} FindMergeFrom(pruned: Config, defaults: Config, name: string)
    requires Distinct(defaults)
    ensures Find(MergeFrom(pruned, defaults), name)
         == if !Has(defaults, name) then Find(pruned, name)
            else match Find(pruned, name)
                 case None => Find(defaults, name)
                 case Some(current) => Some(MergedOptions(current, Find(defaults, name).value))
    decreases |defaults|
  {
    if defaults != [] {
      var init := defaults[..|defaults| - 1];
      var last := defaults[|defaults| - 1];
      var a := MergeFrom(pruned, init);
      assert Distinct(init);
      assert init + [last] == defaults;
      FindMergeFrom(pruned, init, name);
      FindMergeFrom(pruned, init, last.0);
      FindSnoc(init, last, name);
      match Find(a, last.0)
      case None => FindPut(a, last.0, last.1, name);
      case Some(current) => FindPut(a, last.0, MergedOptions(current, last.1), name);
    }
  }

  lemma {:induction false} MergeFromConfig(pruned: Config, defaults: Config)
    requires IsConfig(pruned) && IsConfig(defaults)
    ensures IsConfig(MergeFrom(pruned, defaults))
    decreases |defaults|
  {
    if defaults != [] {
      var init := defaults[..|defaults| - 1];
      var last := defaults[|defaults| - 1];
      assert IsConfig(init);
      MergeFromConfig(pruned, init);
      var a := MergeFrom(pruned, init);
      var value := match Find(a, last.0) case None => last.1 case Some(current) => MergedOptions(current, last.1);
      if Find(a, last.0).Some? {
        var j :| 0 <= j < |a| && a[j] == (last.0, Find(a, last.0).value);
        MergedOptionsDistinct(Find(a, last.0).value, last.1);
      }
      PutDistinct(a, last.0, value);
      var r := Put(a, last.0, value);
      forall i | 0 <= i < |r|
        ensures Distinct(r[i].1)
      {
        assert r[i] in r;
      }
    }
  }

  /** The sections of the merged configuration are exactly the default's, merged with the current ones. */
  lemma MergedSections(current: Config, defaults: Config, name: string)
    requires IsConfig(current) && IsConfig(defaults)
    ensures Find(Merged(current, defaults), name)
         == match Find(defaults, name)
            case None => None
            case Some(defaultOptions) =>
              match Find(current, name)
              case None => Some(defaultOptions)
              case Some(currentOptions) => Some(MergedOptions(currentOptions, defaultOptions))
  {
    FindMergeFrom(Prune(current, defaults), defaults, name);
    FindPrune(current, defaults, name);
  }

  /**
   * The merged configuration is a configuration; its section names are the
   * default's; within a section its keys are the default section's; a key
   * the current configuration had keeps its value and the others take the
   * default value.
   */
  lemma MergedMeans(current: Config, defaults: Config, name: string, key: string)
    requires IsConfig(current) && IsConfig(defaults)
    ensures IsConfig(Merged(current, defaults))
    ensures Has(Merged(current, defaults), name) <==> Has(defaults, name)
    ensures Has(defaults, name) ==>
              var merged := Find(Merged(current, defaults), name).value;
              var defaultOptions := Find(defaults, name).value;
              (Has(merged, key) <==> Has(defaultOptions, key))
              && Find(merged, key)
                 == if Has(current, name) && Has(Find(current, name).value, key) && Has(defaultOptions, key)
                    then Find(Find(current, name).value, key)
                    else Find(defaultOptions, key)
  {
    PruneDistinct(current, defaults);
    assert IsConfig(Prune(current, defaults)) by {
      var p := Prune(current, defaults);
      forall i | 0 <= i < |p|
        ensures Distinct(p[i].1)
      {
        assert p[i] in current;
      }
    }
    MergeFromConfig(Prune(current, defaults), defaults);
    MergedSections(current, defaults, name);
    if Has(defaults, name) && Has(current, name) {
      MergedOptionsMeans(Find(current, name).value, Find(defaults, name).value, key);
    }
  }

  /** A second run changes nothing. */
  lemma MergedIdempotent(current: Config, defaults: Config)
    requires IsConfig(current) && IsConfig(defaults)
    ensures Merged(Merged(current, defaults), defaults) == Merged(current, defaults)
  {
    var m := Merged(current, defaults);
    forall i | 0 <= i < |m|
      ensures Has(defaults, m[i].0)
    {
      MergedNames(current, defaults, m[i].0);
    }
    PruneAll(m, defaults);
    MergeFromFixed(current, defaults, |defaults|);
    assert defaults[..|defaults|] == defaults;
  }

  lemma MergedNames(current: Config, defaults: Config, name: string)
    requires IsConfig(current) && IsConfig(defaults)
    ensures Has(Merged(current, defaults), name) <==> Has(defaults, name)
  {
    MergedSections(current, defaults, name);
  }

  /** Every section of the merged configuration is already merged against its default. */
  lemma MergeFromFixed(current: Config, defaults: Config, n: nat)
    requires IsConfig(current) && IsConfig(defaults) && n <= |defaults|
    ensures MergeFrom(Merged(current, defaults), defaults[..n]) == Merged(current, defaults)
    decreases n
  {
    var m := Merged(current, defaults);
    if n > 0 {
      MergeFromFixed(current, defaults, n - 1);
      var last := defaults[n - 1];
      assert defaults[..n][..n - 1] == defaults[..n - 1];
      FindDistinct(defaults, n - 1);
      MergedMeans(current, defaults, last.0, "");
      var options := Find(m, last.0).value;
      forall key
        ensures Has(options, key) <==> Has(last.1, key)
      {
        MergedMeans(current, defaults, last.0, key);
      }
      MergedOptionsFixed(options, last.1);
      PutSame(m, last.0, options);
    }
  }

  // ---------------------------------------------------------------- the loops

  /**
   * `for key in list(d.keys()): if key not in keep: del d[key]`, as both
   * the section loop and the key loop are written.
   */
  method PruneKeys<T, U>(es: seq<(string, T)>, keep: seq<(string, U)>) returns (r: seq<(string, T)>)
    requires Distinct(es)
    ensures r == Prune(es, keep)
  {
    r := es;
    var keys := seq(|es|, k requires 0 <= k < |es| => es[k].0);
    var i := 0;
    while i < |keys|
      invariant 0 <= i <= |es|
      invariant r == Prune(es[..i], keep) + es[i..]
    {
      PruneStep(es, keep, i);
      if !Has(keep, keys[i]) {
        r := Delete(r, keys[i]);
      }
      i := i + 1;
    }
    assert es[..i] == es;
  }

  /** One iteration of the deletion loop. */
  lemma PruneStep<T, U>(es: seq<(string, T)>, keep: seq<(string, U)>, i: nat)
    requires Distinct(es) && i < |es|
    ensures var r := Prune(es[..i], keep) + es[i..];
            (if Has(keep, es[i].0) then r else Delete(r, es[i].0)) == Prune(es[..i + 1], keep) + es[i + 1..]
  {
    PruneSnoc(es, keep, i);
    assert es[i..] == [es[i]] + es[i + 1..];
    if !Has(keep, es[i].0) {
      forall e | e in Prune(es[..i], keep)
        ensures e.0 != es[i].0
      {
        var j :| 0 <= j < i && es[..i][j] == e;
      }
      var p := Prune(es[..i], keep);
      DeleteAt(p, es[i], es[i + 1..]);
      assert p + es[i..] == p + [es[i]] + es[i + 1..];
      assert Prune(es[..i + 1], keep) == p;
    }
  }

  /** `for key, value in defaults.items(): if key not in d: d[key] = value`. */
  method AddMissingKeys<T>(es: seq<(string, T)>, defaults: seq<(string, T)>) returns (r: seq<(string, T)>)
    ensures r == AddMissing(es, defaults)
  {
    r := es;
    var j := 0;
    while j < |defaults|
      invariant 0 <= j <= |defaults|
      invariant r == AddMissing(es, defaults[..j])
    {
      assert defaults[..j + 1][..j] == defaults[..j];
      var (key, value) := defaults[j];
      if !Has(r, key) {
        r := Put(r, key, value);
      }
      j := j + 1;
    }
    assert defaults[..j] == defaults;
  }

  /**
   * `update_config` on the loaded configurations: returns what is written
   * to `config.ini`. The default configuration is only read.
   */
  method UpdateConfig(current: Config, defaults: Config) returns (written: Config)
    requires IsConfig(current) && IsConfig(defaults)
    ensures written == Merged(current, defaults)
    ensures IsConfig(written)
  {
    var config := PruneKeys(current, defaults);
    PruneIsConfig(current, defaults);
    var j := 0;
    while j < |defaults|
      invariant 0 <= j <= |defaults|
      invariant config == MergeFrom(Prune(current, defaults), defaults[..j])
      invariant IsConfig(config)
    {
      assert defaults[..j + 1][..j] == defaults[..j];
      assert IsConfig(defaults[..j + 1]);
      var (section, defaultOptions) := defaults[j];
      var next: Config;
      if !Has(config, section) {
        next := Put(config, section, defaultOptions);
      } else {
        var options := Find(config, section).value;
        var k :| 0 <= k < |config| && config[k] == (section, options);
        var pruned := PruneKeys(options, defaultOptions);
        var merged := AddMissingKeys(pruned, defaultOptions);
        next := Put(config, section, merged);
      }
      assert next == MergeFrom(Prune(current, defaults), defaults[..j + 1]);
      PruneIsConfig(current, defaults);
      MergeFromConfig(Prune(current, defaults), defaults[..j + 1]);
      config := next;
      j := j + 1;
    }
    assert defaults[..j] == defaults;
    written := config;
  }

  lemma PruneIsConfig(current: Config, defaults: Config)
    requires IsConfig(current)
    ensures IsConfig(Prune(current, defaults))
  {
    PruneDistinct(current, defaults);
    var p := Prune(current, defaults);
    forall i | 0 <= i < |p|
      ensures Distinct(p[i].1)
    {
      assert p[i] in current;
    }
  }
}
