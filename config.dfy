/** The effective configuration: built-in defaults deep-merged with an optional TOML file. */
module Config {
  import opened Wrappers
  import opened Json

  /** A configuration table: section name to value. */
  type Table = map<string, Json>

  /** The value `_merge_dicts` stores at a key of the override. */
  function MergedAt(base: Table, override: Table, key: string): Json
    requires key in override
    decreases JObj(override), 0
  {
    if override[key].JObj? && key in base && base[key].JObj?
    then JObj(Merged(base[key].fields, override[key].fields))
    else override[key]
  }

  /**
   * The deep merge: every key of either table; the override's value wins, except that two nested
   * tables at the same key are merged recursively.
   */
  function Merged(base: Table, override: Table): (r: Table)
    ensures r.Keys == base.Keys + override.Keys
    ensures forall k :: k in base && k !in override ==> r[k] == base[k]
    ensures forall k :: k in override && !(override[k].JObj? && k in base && base[k].JObj?) ==> r[k] == override[k]
    ensures forall k :: k in base && k in override && base[k].JObj? && override[k].JObj? ==>
              r[k] == JObj(Merged(base[k].fields, override[k].fields))
    decreases JObj(override), 1
  {
    map k | k in base.Keys + override.Keys :: if k in override then MergedAt(base, override, k) else base[k]
  }

  /** `_merge_dicts`: copy the base, then overwrite it key by key, recursing where both sides are tables. */
  method MergeDicts(base: Table, override: Table) returns (merged: Table)
    ensures merged == Merged(base, override)
    decreases JObj(override)
  {
    merged := base;
    var todo := override.Keys;
    while todo != {}
      invariant todo <= override.Keys
      invariant merged.Keys == base.Keys + (override.Keys - todo)
      invariant forall k :: k in merged ==>
        merged[k] == if k in override && k !in todo then MergedAt(base, override, k) else base[k]
      decreases todo
    {
      var key :| key in todo;
      var value := override[key];
      if value.JObj? && key in merged && merged[key].JObj? {
        var sub := MergeDicts(merged[key].fields, value.fields);
        merged := merged[key := JObj(sub)];
      } else {
        merged := merged[key := value];
      }
      todo := todo - {key};
    }
  }

  /** Merging in an empty override gives the base back. */
  lemma MergeEmptyOverride(base: Table)
    ensures Merged(base, map[]) == base
  {
  }

  /** A table merged with itself is unchanged. */
  lemma {:induction false} MergeSelf(t: Table)
    ensures Merged(t, t) == t
    decreases JObj(t)
  {
    var r := Merged(t, t);
    forall k | k in t
      ensures r[k] == t[k]
    {
      assert r[k] == MergedAt(t, t, k);
      if t[k].JObj? {
        MergeSelf(t[k].fields);
      }
    }
  }

  /** Applying the same override a second time changes nothing more. */
  lemma {:induction false} MergeIdempotent(base: Table, override: Table)
    ensures Merged(Merged(base, override), override) == Merged(base, override)
    decreases JObj(override)
  {
    var once := Merged(base, override);
    var twice := Merged(once, override);
    forall k | k in override
      ensures twice[k] == once[k]
    {
      assert once[k] == MergedAt(base, override, k);
      assert twice[k] == MergedAt(once, override, k);
      if override[k].JObj? {
        if k in base && base[k].JObj? {
          MergeIdempotent(base[k].fields, override[k].fields);
        } else {
          assert once[k] == override[k];
          MergeSelf(override[k].fields);
        }
      }
    }
    assert twice.Keys == once.Keys;
  }

  /** `DEFAULT_CONFIG`. */
  function DefaultConfig(): Table {
    map[
      "http" := JObj(map["user_agent" := JStr("OpenFootprint/0.1 (+https://example.com)"), "timeout_seconds" := JInt(15)]),
      "rate_limit" := JObj(map["min_interval_seconds" := JReal(1.0)]),
      "sources" := JObj(map["enabled" := JArr([]), "disabled" := JArr([])]),
      "output" := JObj(map["runs_dir" := JStr("runs")])
    ]
  }

  /** What reading a configuration path gives: nothing there, a TOML error, or the parsed table. */
  datatype ConfigFile = Missing | Invalid(message: string) | Parsed(table: Table)

  /**
   * `load_config`: the defaults without a path; otherwise the file must exist and parse, and its table
   * is deep-merged over the defaults. Reading and TOML parsing are the `read` parameter.
   */
  function LoadConfig(path: Option<string>, read: string -> ConfigFile): (r: Result<Table>)
    ensures path.None? ==> r == Success(DefaultConfig())
    ensures path.Some? && read(path.value).Missing? ==> r == Failure("Config not found: " + path.value)
    ensures path.Some? && read(path.value).Invalid? ==> r.Failure?
    ensures path.Some? && read(path.value).Parsed? ==> r == Success(Merged(DefaultConfig(), read(path.value).table))
  {
    match path
    case None => Success(DefaultConfig())
    case Some(p) =>
      match read(p)
      case Missing => Failure("Config not found: " + p)
      case Invalid(m) => Failure(m)
      case Parsed(t) => Success(Merged(DefaultConfig(), t))
  }

  /** The test suite's file `[sources] enabled = ['github']` keeps the default HTTP timeout of 15. */
  lemma SourcesOnlyOverrideKeepsTimeout()
    ensures var cfg := Merged(DefaultConfig(), map["sources" := JObj(map["enabled" := JArr([JStr("github")])])]);
      && cfg["http"].JObj? && cfg["http"].fields["timeout_seconds"] == JInt(15)
      && cfg["sources"].JObj? && cfg["sources"].fields["enabled"] == JArr([JStr("github")])
      && cfg["sources"].fields["disabled"] == JArr([])
  {
    var o := map["sources" := JObj(map["enabled" := JArr([JStr("github")])])];
    var d := DefaultConfig();
    var cfg := Merged(d, o);
    assert "http" !in o;
    assert cfg["http"] == d["http"];
    assert cfg["sources"] == MergedAt(d, o, "sources");
    var inner := Merged(d["sources"].fields, o["sources"].fields);
    assert cfg["sources"] == JObj(inner);
    assert inner["disabled"] == JArr([]);
  }
}
