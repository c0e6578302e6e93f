/**
 * The worksheet library's configuration: a site's configuration object is
 * deep-merged over the built-in defaults, and the merged configuration's
 * feature flags decide which modules start.
 *
 * Configuration values are JSON-like. Objects are maps from property name to
 * value (property order is not modelled).
 */
module WorksheetConfig {
  import opened Wrappers

  datatype Json =
    | JNull
    | JBool(b: bool)
    | JNum(n: real)
    | JStr(s: string)
    | JArr(items: seq<Json>)
    | JObj(fields: map<string, Json>)

  /** JavaScript falsiness: `null`, `false`, `0` and `''`. */
  predicate Falsy(v: Json) {
    v.JNull? || v == JBool(false) || v == JNum(0.0) || v == JStr("")
  }

  /** The values `deepMerge` recurses into: truthy, `typeof 'object'`, not an array. */
  predicate Mergeable(v: Json) {
    v.JObj?
  }

  /** The own enumerable properties a spread or a `for…in` sees on an object. */
  function Props(v: Json): map<string, Json> {
    if v.JObj? then v.fields else map[]
  }

  /** `target[key] || {}`. */
  function BaseFor(target: Json, k: string): (b: Json)
    ensures !Falsy(b)
  {
    if k in Props(target) && !Falsy(Props(target)[k]) then Props(target)[k] else JObj(map[])
  }

  /**
   * `deepMerge(target, source)`: a fresh object with the target's properties,
   * each of the source's properties written over them; a mergeable source
   * value is merged into `target[key] || {}`, anything else replaces the
   * target's value wholesale.
   */
  function DeepMerge(target: Json, source: Json): (r: map<string, Json>)
    ensures forall k :: k in r <==> k in Props(target) || k in Props(source)
    ensures forall k :: k in Props(target) && k !in Props(source) ==> r[k] == Props(target)[k]
    ensures forall k :: k in Props(source) && !Mergeable(Props(source)[k]) ==> r[k] == Props(source)[k]
    ensures forall k :: k in Props(source) && Mergeable(Props(source)[k]) ==> r[k].JObj?
    decreases source
  {
    match source
    case JObj(s) =>
      map k | k in Props(target).Keys + s.Keys ::
        if k in s then
          if s[k].JObj? then JObj(DeepMerge(BaseFor(target, k), s[k])) else s[k]
        else Props(target)[k]
    case _ => Props(target)
  }

  /** A mergeable source property is the merge of the target's value (or `{}`) with it. */
  lemma MergeRecurses(target: Json, source: Json, k: string)
    requires k in Props(source) && Mergeable(Props(source)[k])
    ensures DeepMerge(target, source)[k] == JObj(DeepMerge(BaseFor(target, k), Props(source)[k]))
  {
  }

  /** Merging nothing (an empty or non-object source) copies the target's properties. */
  lemma MergeNothing(target: Json, source: Json)
    requires !source.JObj? || source.fields == map[]
    ensures DeepMerge(target, source) == Props(target)
  {
  }

  /** Merging into an empty object gives back the source's own properties: a deep copy. */
  lemma {:induction false} MergeIntoEmpty(source: Json)
    ensures DeepMerge(JObj(map[]), source) == Props(source)
    decreases source
  {
    if source.JObj? {
      var s := source.fields;
      forall k | k in s && s[k].JObj?
        ensures DeepMerge(JObj(map[]), source)[k] == s[k]
      {
        MergeIntoEmpty(s[k]);
      }
    }
  }

  /** Merging the same source a second time changes nothing. */
  lemma {:induction false} MergeIdempotent(target: Json, source: Json)
    ensures DeepMerge(JObj(DeepMerge(target, source)), source) == DeepMerge(target, source)
    decreases source, 1
  {
    var once := DeepMerge(target, source);
    var twice := DeepMerge(JObj(once), source);
    assert twice.Keys == once.Keys;
    forall k | k in once
      ensures twice[k] == once[k]
    {
      MergeIdempotentAt(target, source, k);
    }
  }

  /** One key of MergeIdempotent. */
  lemma {:induction false} MergeIdempotentAt(target: Json, source: Json, k: string)
    requires k in DeepMerge(target, source)
    ensures DeepMerge(JObj(DeepMerge(target, source)), source)[k] == DeepMerge(target, source)[k]
    decreases source, 0
  {
    if k in Props(source) && Mergeable(Props(source)[k]) {
      var once := DeepMerge(target, source);
      assert BaseFor(JObj(once), k) == once[k];
      MergeIdempotent(BaseFor(target, k), Props(source)[k]);
    }
  }

  // ---------------------------------------------------------------------------
  // Defaults
  // ---------------------------------------------------------------------------

  const DefaultConfig: map<string, Json> := map[
    "fieldMappings" := JObj(map[
      "sampleWeight" := JStr("tests[0].sample.unit_weight"),
      "sampleId" := JStr("tests[0].sample.sample_id"),
      "instrumentResults" := JStr("ws_instrument_results"),
      "finalResults" := JStr("ws_final_results"),
      "liveResults" := JStr("ws_live_results"),
      "deviations" := JStr("ws_deviations")]),
    "selectors" := JObj(map[
      "unitConfig" := JStr("#ws-unit-config"),
      "sampleInfo" := JStr("#ws-sample-info"),
      "isomersMap" := JStr("#ws-isomers-map"),
      "instrumentResults" := JStr("[name=\"ws_instrument_results\"]"),
      "finalResults" := JStr("[name=\"ws_final_results\"]"),
      "liveResults" := JStr("[name=\"ws_live_results\"]")]),
    "features" := JObj(map[
      "uncertaintyCalculations" := JBool(true),
      "multiUnitOutput" := JBool(true),
      "dataIntegrity" := JBool(true),
      "moistureCorrection" := JBool(true),
      "conditionFields" := JBool(true)]),
    "defaults" := JObj(map[
      "sigFigs" := JNum(3.0),
      "rsdWarningLimit" := JNum(15.0),
      "rsdFailLimit" := JNum(25.0),
      "complianceMode" := JBool(true)])]

  /** `validateConfig`: the defaults deep-merged with the site's config (`config || {}`); None is `undefined`. */
  function ValidateConfig(config: Option<Json>): (r: map<string, Json>)
    ensures forall k :: k in DefaultConfig ==> k in r
  {
    var source := if config.None? || Falsy(config.value) then JObj(map[]) else config.value;
    DeepMerge(JObj(DefaultConfig), source)
  }

  /** No configuration at all, or a falsy one, gives exactly the defaults. */
  lemma ValidateMissingConfig(config: Option<Json>)
    requires config.None? || Falsy(config.value)
    ensures ValidateConfig(config) == DefaultConfig
  {
    MergeNothing(JObj(DefaultConfig), JObj(map[]));
  }

  /** Validating an already validated configuration changes nothing. */
  lemma ValidateIdempotent(config: Option<Json>)
    ensures ValidateConfig(Some(JObj(ValidateConfig(config)))) == ValidateConfig(config)
  {
    var source := if config.None? || Falsy(config.value) then JObj(map[]) else config.value;
    var once := ValidateConfig(config);
    assert !Falsy(JObj(once));
    DeepMergeOverItself(JObj(DefaultConfig), source);
  }

  /** Merging a merge result over the original target gives the merge result back. */
  lemma {:induction false} DeepMergeOverItself(target: Json, source: Json)
    ensures DeepMerge(target, JObj(DeepMerge(target, source))) == DeepMerge(target, source)
    decreases source, 1
  {
    var once := DeepMerge(target, source);
    forall k | k in once
      ensures DeepMerge(target, JObj(once))[k] == once[k]
    {
      DeepMergeOverItselfAt(target, source, k);
    }
  }

  /** One key of DeepMergeOverItself. */
  lemma {:induction false} DeepMergeOverItselfAt(target: Json, source: Json, k: string)
    requires k in DeepMerge(target, source)
    ensures DeepMerge(target, JObj(DeepMerge(target, source)))[k] == DeepMerge(target, source)[k]
    decreases source, 0
  {
    var once := DeepMerge(target, source);
    if once[k].JObj? {
      if k in Props(source) {
        DeepMergeOverItself(BaseFor(target, k), Props(source)[k]);
      } else {
        MergeOverSelf(Props(target)[k]);
        assert BaseFor(target, k) == Props(target)[k];
      }
    }
  }

  /** An object merged over itself is itself. */
  lemma {:induction false} MergeOverSelf(v: Json)
    requires v.JObj?
    ensures DeepMerge(v, v) == v.fields
    decreases v
  {
    forall k | k in v.fields && v.fields[k].JObj?
      ensures DeepMerge(v, v)[k] == v.fields[k]
    {
      MergeOverSelf(v.fields[k]);
    }
  }

  // ---------------------------------------------------------------------------
  // Start-up
  // ---------------------------------------------------------------------------

  /** `config.features[name]` is truthy. */
  predicate FeatureOn(config: map<string, Json>, name: string) {
    "features" in config && name in Props(config["features"]) && !Falsy(Props(config["features"])[name])
  }

  /** The modules `doInitialization` can start. */
  datatype Module = MultiUnit | DataIntegrity | UiManager | Calculations | ConditionFields

  /** Every module, in the order `doInitialization` starts them. */
  const ModuleOrder: seq<Module> := [MultiUnit, DataIntegrity, UiManager, Calculations, ConditionFields]

  /** A module's position in `ModuleOrder`. */
  function Rank(m: Module): (i: nat)
    ensures i < |ModuleOrder| && ModuleOrder[i] == m
  {
    match m
    case MultiUnit => 0
    case DataIntegrity => 1
    case UiManager => 2
    case Calculations => 3
    case ConditionFields => 4
  }

  /** The modules appear in `ModuleOrder`'s order, each at most once. */
  predicate InOrder(mods: seq<Module>) {
    forall i, j :: 0 <= i < j < |mods| ==> Rank(mods[i]) < Rank(mods[j])
  }

  /** `config.features.<flag>` can be read: `features` is neither `null` nor absent. */
  predicate FeaturesReadable(config: map<string, Json>) {
    "features" in config && !config["features"].JNull?
  }

  /** Whether a module starts, given the flags of the three optional ones. */
  predicate Enabled(m: Module, multiUnit: bool, dataIntegrity: bool, conditionFields: bool) {
    match m
    case MultiUnit => multiUnit
    case DataIntegrity => dataIntegrity
    case ConditionFields => conditionFields
    case _ => true
  }

  /**
   * The start-up steps from position `k` of `ModuleOrder` on: each module in
   * turn, skipped when it is not enabled.
   */
  function StartFrom(k: nat, multiUnit: bool, dataIntegrity: bool, conditionFields: bool): (mods: seq<Module>)
    requires k <= |ModuleOrder|
    ensures forall m :: m in mods <==> k <= Rank(m) && Enabled(m, multiUnit, dataIntegrity, conditionFields)
    ensures InOrder(mods)
    decreases |ModuleOrder| - k
  {
    if k == |ModuleOrder| then []
    else
      var m := ModuleOrder[k];
      assert Rank(m) == k;
      (if Enabled(m, multiUnit, dataIntegrity, conditionFields) then [m] else [])
      + StartFrom(k + 1, multiUnit, dataIntegrity, conditionFields)
  }

  /** From the first step on, exactly the enabled modules start, in order. */
  lemma StartedModules(multiUnit: bool, dataIntegrity: bool, conditionFields: bool)
    ensures var mods := StartFrom(0, multiUnit, dataIntegrity, conditionFields);
      && UiManager in mods && Calculations in mods
      && (MultiUnit in mods <==> multiUnit)
      && (DataIntegrity in mods <==> dataIntegrity)
      && (ConditionFields in mods <==> conditionFields)
      && InOrder(mods)
  {
    var mods := StartFrom(0, multiUnit, dataIntegrity, conditionFields);
    assert Rank(UiManager) == 2 && Rank(Calculations) == 3;
    assert Rank(MultiUnit) == 0 && Rank(DataIntegrity) == 1 && Rank(ConditionFields) == 4;
  }

  /**
   * The modules `doInitialization` starts, in order; None when reading the
   * first feature flag throws a TypeError.
   */
  function StartOrder(config: map<string, Json>): (r: Option<seq<Module>>)
    ensures r.None? <==> !FeaturesReadable(config)
    ensures r.Some? ==> UiManager in r.value && Calculations in r.value
    ensures r.Some? ==> (MultiUnit in r.value <==> FeatureOn(config, "multiUnitOutput"))
    ensures r.Some? ==> (DataIntegrity in r.value <==> FeatureOn(config, "dataIntegrity"))
    ensures r.Some? ==> (ConditionFields in r.value <==> FeatureOn(config, "conditionFields"))
    ensures r.Some? ==> InOrder(r.value)
  {
    hide FeatureOn;
    if !FeaturesReadable(config) then None
    else
      var multiUnit := FeatureOn(config, "multiUnitOutput");
      var dataIntegrity := FeatureOn(config, "dataIntegrity");
      var conditionFields := FeatureOn(config, "conditionFields");
      StartedModules(multiUnit, dataIntegrity, conditionFields);
      Some(StartFrom(0, multiUnit, dataIntegrity, conditionFields))
  }

  /** With the default configuration every module starts, in `ModuleOrder`'s order. */
  lemma DefaultsStartEverything()
    ensures StartOrder(ValidateConfig(None)).Some?
    ensures forall m :: m in StartOrder(ValidateConfig(None)).value
  {
    ValidateMissingConfig(None);
    DefaultFeaturesOn();
    forall m
      ensures m in StartOrder(DefaultConfig).value
    {
      match m
      case MultiUnit =>
      case DataIntegrity =>
      case UiManager =>
      case Calculations =>
      case ConditionFields =>
    }
  }

  /** The default configuration switches every optional module on. */
  lemma DefaultFeaturesOn()
    ensures FeaturesReadable(DefaultConfig)
    ensures FeatureOn(DefaultConfig, "multiUnitOutput") && FeatureOn(DefaultConfig, "dataIntegrity") && FeatureOn(DefaultConfig, "conditionFields")
  {
    var features := Props(DefaultConfig["features"]);
    assert features["multiUnitOutput"] == JBool(true);
    assert features["dataIntegrity"] == JBool(true);
    assert features["conditionFields"] == JBool(true);
  }

  /** A site configuration with `features: null` makes start-up throw. */
  lemma NullFeaturesThrow()
    ensures StartOrder(ValidateConfig(Some(JObj(map["features" := JNull])))) == None
  {
    var site := JObj(map["features" := JNull]);
    assert !Falsy(site);
    assert "features" in Props(site) && !Mergeable(Props(site)["features"]);
    assert ValidateConfig(Some(site))["features"] == JNull;
  }

  class Worksheet {
    var config: Option<map<string, Json>>
    var initialized: bool

    constructor()
      ensures config.None? && !initialized
    {
      config := None;
      initialized := false;
    }

    /** `init`: the validated configuration is kept and the worksheet is marked initialized. */
    method Init(siteConfig: Option<Json>)
      modifies this
      ensures config == Some(ValidateConfig(siteConfig))
      ensures initialized
    {
      config := Some(ValidateConfig(siteConfig));
      initialized := true;
    }
  }
}
