/**
 * The two questions both chart fetchers ask of a chart's configuration
 * (`values.json` of a backup, or `config` of a live release): is it a CNPG
 * app, and does it use PVC persistence.
 */
module ChartConfig {
  import opened Wrappers
  import opened Json

  /** `subconfig.get('enabled', False)`, read for truthiness. */
  predicate EnabledFlag(sub: Value) {
    match Get(sub, "enabled")
    case None => false
    case Some(v) => Truthy(v)
  }

  /** Whether some dict-valued entry among `entries` has a truthy `enabled`. */
  function AnyEnabled(entries: seq<(string, Value)>): (r: bool)
    ensures r <==> exists k :: 0 <= k < |entries| && entries[k].1.Obj? && EnabledFlag(entries[k].1)
    decreases |entries|
  {
    if entries == [] then false
    else
      var rest := AnyEnabled(entries[1..]);
      assert forall k :: 0 < k < |entries| ==> entries[k] == entries[1..][k - 1];
      (entries[0].1.Obj? && EnabledFlag(entries[0].1)) || rest
  }

  /**
   * `_is_cnpg(config)`: `config.get('cnpg', {})` must be a dict (its
   * `values()` are iterated); the app is a CNPG app iff some dict-valued
   * entry has a truthy `enabled`.
   */
  function IsCnpg(config: Value): (r: Result<bool>)
    requires config.Obj?
    ensures r.Ok? <==> (Lookup(config.entries, "cnpg").None? || Lookup(config.entries, "cnpg").value.Obj?)
    ensures r.Ok? && r.value <==>
              Lookup(config.entries, "cnpg").Some? && Lookup(config.entries, "cnpg").value.Obj?
              && exists k :: 0 <= k < |Lookup(config.entries, "cnpg").value.entries|
                   && Lookup(config.entries, "cnpg").value.entries[k].1.Obj?
                   && EnabledFlag(Lookup(config.entries, "cnpg").value.entries[k].1)
  {
    match Lookup(config.entries, "cnpg")
    case None => Ok(false)
    case Some(Obj(entries)) => Ok(AnyEnabled(entries))
    case Some(_) => Err("cnpg configuration is not a mapping")
  }

  /** `value.get('type') == 'pvc'` on a dict-valued persistence entry. */
  predicate PvcEntry(v: Value) {
    v.Obj? && Lookup(v.entries, "type") == Some(Str("pvc"))
  }

  /** Whether some entry among `entries` is a PVC persistence entry. */
  function AnyPvc(entries: seq<(string, Value)>): (r: bool)
    ensures r <==> exists k :: 0 <= k < |entries| && PvcEntry(entries[k].1)
    decreases |entries|
  {
    if entries == [] then false
    else
      var rest := AnyPvc(entries[1..]);
      assert forall k :: 0 < k < |entries| ==> entries[k] == entries[1..][k - 1];
      PvcEntry(entries[0].1) || rest
  }

  /**
   * `has_pvc`: `config.get('persistence', {})` must be a dict; the app has
   * PVCs iff one of its dict-valued entries has `type == 'pvc'`.
   */
  function HasPvc(config: Value): (r: Result<bool>)
    requires config.Obj?
    ensures r.Ok? <==> (Lookup(config.entries, "persistence").None? || Lookup(config.entries, "persistence").value.Obj?)
    ensures r.Ok? && r.value <==>
              Lookup(config.entries, "persistence").Some? && Lookup(config.entries, "persistence").value.Obj?
              && exists k :: 0 <= k < |Lookup(config.entries, "persistence").value.entries|
                   && PvcEntry(Lookup(config.entries, "persistence").value.entries[k].1)
  {
    match Lookup(config.entries, "persistence")
    case None => Ok(false)
    case Some(Obj(entries)) => Ok(AnyPvc(entries))
    case Some(_) => Err("persistence configuration is not a mapping")
  }
}
