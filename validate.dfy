/**
 * The datasource rules of the API's shared validation
 * (internal/api/shared/validate/validate.go): a dashboard's embedded datasources
 * must pass plugin validation and hold at most one default per plugin kind, and a
 * stand-alone datasource may not be a second default of its kind.
 *
 * The variable-order builder, the schema set and the HTTP proxy extractor are
 * foreign code; they enter as predicates.
 */
module Validate {
  import opened Wrappers

  /** A plugin reference: its kind and its specification, which only the oracles read. */
  datatype Plugin = Plugin(kind: string, spec: nat)

  /** A datasource specification: the default flag and the plugin. */
  datatype DatasourceSpec = DatasourceSpec(isDefault: bool, plugin: Plugin)

  /** A named datasource entity (global or project scoped). */
  datatype Datasource = Datasource(name: string, spec: DatasourceSpec)

  /**
   * A dashboard as validation sees it: its variables and panels by name, and its
   * embedded datasource specifications in the order the loop visits them.
   */
  datatype Dashboard = Dashboard(variables: seq<string>, panels: seq<string>, datasources: seq<DatasourceSpec>)

  /** The schema set's three checks. */
  datatype Schemas = Schemas(
    validateDashboardVariables: seq<string> -> bool,
    validatePanels: seq<string> -> bool,
    validateDatasource: Plugin -> bool)

  /** The other foreign checks: the variable order can be built, and the HTTP proxy spec extracts. */
  datatype Foreign = Foreign(buildVariableOrder: seq<string> -> bool, validateAndExtract: nat -> bool)

  datatype ValidationError =
    | VariableOrderError
    | VariableSchemaError
    | PanelSchemaError
    | PluginSpecError(kind: string)
    | PluginSchemaError(kind: string)
    /** A second default datasource of this kind inside one dashboard. */
    | DefaultKindTaken(kind: string)
    /** The entity would be a default of `kind` while `existing` already is. */
    | DefaultAlreadyDefined(name: string, kind: string, existing: string)

  /**
   * The result of a validation. `NilSchemasPanic` is a plugin check reached with no
   * schema set, where the call through the nil interface panics.
   */
  datatype Outcome = Valid | Invalid(error: ValidationError) | NilSchemasPanic

  /** `validateDTSPlugin`: the HTTP proxy spec first, then the datasource schema. */
  function ValidateDtsPlugin(plugin: Plugin, foreign: Foreign, sch: Option<Schemas>): (r: Outcome)
    ensures r == Valid <==> foreign.validateAndExtract(plugin.spec) && sch.Some? && sch.value.validateDatasource(plugin)
    ensures r.Invalid? ==> r.error == PluginSpecError(plugin.kind) || r.error == PluginSchemaError(plugin.kind)
    ensures !foreign.validateAndExtract(plugin.spec) ==> r == Invalid(PluginSpecError(plugin.kind))
    ensures foreign.validateAndExtract(plugin.spec) && sch.None? ==> r == NilSchemasPanic
  {
    if !foreign.validateAndExtract(plugin.spec) then Invalid(PluginSpecError(plugin.kind))
    else if sch.None? then NilSchemasPanic
    else if !sch.value.validateDatasource(plugin) then Invalid(PluginSchemaError(plugin.kind))
    else Valid
  }

  /** Some datasource among `dss` is a default of `kind`. */
  predicate HasDefaultOfKind(dss: seq<DatasourceSpec>, kind: string) {
    exists k :: 0 <= k < |dss| && dss[k].isDefault && dss[k].plugin.kind == kind
  }

  /** The outcome of `Dashboard`'s datasource loop after its first `n` iterations. */
  function DatasourcesOutcome(dss: seq<DatasourceSpec>, foreign: Foreign, sch: Option<Schemas>, n: nat): (r: Outcome)
    requires n <= |dss|
    ensures r.Invalid? ==> r.error.PluginSpecError? || r.error.PluginSchemaError? || r.error.DefaultKindTaken?
  {
    if n == 0 then Valid
    else
      var prev := DatasourcesOutcome(dss, foreign, sch, n - 1);
      if prev != Valid then prev
      else
        var spec := dss[n - 1];
        var pluginOutcome := ValidateDtsPlugin(spec.plugin, foreign, sch);
        if pluginOutcome != Valid then pluginOutcome
        else if spec.isDefault && HasDefaultOfKind(dss[..n - 1], spec.plugin.kind) then Invalid(DefaultKindTaken(spec.plugin.kind))
        else Valid
  }

  /** `Dashboard` as a function of the dashboard and the checks it calls. */
  function DashboardOutcome(entity: Dashboard, foreign: Foreign, sch: Option<Schemas>): (r: Outcome)
    ensures !foreign.buildVariableOrder(entity.variables) ==> r == Invalid(VariableOrderError)
    ensures sch.None? && r.Invalid? ==> r.error != VariableSchemaError && r.error != PanelSchemaError
  {
    if !foreign.buildVariableOrder(entity.variables) then Invalid(VariableOrderError)
    else if sch.Some? && !sch.value.validateDashboardVariables(entity.variables) then Invalid(VariableSchemaError)
    else if sch.Some? && !sch.value.validatePanels(entity.panels) then Invalid(PanelSchemaError)
    else DatasourcesOutcome(entity.datasources, foreign, sch, |entity.datasources|)
  }

  /** The kinds marked true in the loop's map are exactly those of the defaults seen. */
  ghost predicate TracksDefaults(defaultDTS: map<string, bool>, seen: seq<DatasourceSpec>) {
    && (forall kind :: kind in defaultDTS ==> defaultDTS[kind])
    && (forall kind :: kind in defaultDTS <==> HasDefaultOfKind(seen, kind))
  }

  lemma SeenOneMore(seen: seq<DatasourceSpec>, spec: DatasourceSpec, kind: string)
    ensures HasDefaultOfKind(seen + [spec], kind) <==> HasDefaultOfKind(seen, kind) || (spec.isDefault && spec.plugin.kind == kind)
  {
    if HasDefaultOfKind(seen + [spec], kind) {
      var k :| 0 <= k < |seen + [spec]| && (seen + [spec])[k].isDefault && (seen + [spec])[k].plugin.kind == kind;
      if k < |seen| {
        assert seen[k] == (seen + [spec])[k];
      }
    }
    if HasDefaultOfKind(seen, kind) {
      var k :| 0 <= k < |seen| && seen[k].isDefault && seen[k].plugin.kind == kind;
      assert (seen + [spec])[k] == seen[k];
    }
    if spec.isDefault && spec.plugin.kind == kind {
      assert (seen + [spec])[|seen|] == spec;
    }
  }

  /** `Dashboard`: the foreign checks, then one pass over the datasources recording default kinds. */
  method ValidateDashboard(entity: Dashboard, foreign: Foreign, sch: Option<Schemas>) returns (r: Outcome)
    ensures r == DashboardOutcome(entity, foreign, sch)
  {
    if !foreign.buildVariableOrder(entity.variables) {
      return Invalid(VariableOrderError);
    }
    if sch.Some? {
      if !sch.value.validateDashboardVariables(entity.variables) {
        return Invalid(VariableSchemaError);
      }
      if !sch.value.validatePanels(entity.panels) {
        return Invalid(PanelSchemaError);
      }
    }
    var dss := entity.datasources;
    if |dss| > 0 {
      var defaultDTS: map<string, bool> := map[];
      var i := 0;
      while i < |dss|
        invariant 0 <= i <= |dss|
        invariant DatasourcesOutcome(dss, foreign, sch, i) == Valid
        invariant TracksDefaults(defaultDTS, dss[..i])
      {
        var spec := dss[i];
        assert dss[..i + 1] == dss[..i] + [spec];
        var pluginOutcome := ValidateDtsPlugin(spec.plugin, foreign, sch);
        if pluginOutcome != Valid {
          DatasourcesStopAtFailure(dss, foreign, sch, i + 1, |dss|);
          return pluginOutcome;
        }
        if spec.isDefault {
          if spec.plugin.kind in defaultDTS && defaultDTS[spec.plugin.kind] {
            DatasourcesStopAtFailure(dss, foreign, sch, i + 1, |dss|);
            return Invalid(DefaultKindTaken(spec.plugin.kind));
          }
          defaultDTS := defaultDTS[spec.plugin.kind := true];
        }
        forall kind ensures kind in defaultDTS <==> HasDefaultOfKind(dss[..i + 1], kind) {
          SeenOneMore(dss[..i], spec, kind);
        }
        i := i + 1;
      }
    }
    return Valid;
  }

  /** Once the loop has failed, later datasources do not change the outcome. */
  lemma {:induction false} DatasourcesStopAtFailure(dss: seq<DatasourceSpec>, foreign: Foreign, sch: Option<Schemas>, i: nat, j: nat)
    requires i <= j <= |dss|
    requires DatasourcesOutcome(dss, foreign, sch, i) != Valid
    ensures DatasourcesOutcome(dss, foreign, sch, j) == DatasourcesOutcome(dss, foreign, sch, i)
  {
    if j > i {
      DatasourcesStopAtFailure(dss, foreign, sch, i, j - 1);
    }
  }

  /** `validateUnicityOfDefaultDTS` as a function: the first listed default of the entity's kind is named. */
  function UnicityOutcome(entity: Datasource, list: seq<Datasource>): (r: Outcome)
    ensures !r.NilSchemasPanic?
    ensures r.Invalid? ==> entity.spec.isDefault && r.error.DefaultAlreadyDefined?
                           && r.error.name == entity.name && r.error.kind == entity.spec.plugin.kind
  {
    if !entity.spec.isDefault then Valid
    else
      match FirstDefaultOfKind(list, entity.spec.plugin.kind)
      case None => Valid
      case Some(k) => Invalid(DefaultAlreadyDefined(entity.name, entity.spec.plugin.kind, list[k].name))
  }

  /** The position of the first default datasource of `kind` in `list`, if any. */
  function FirstDefaultOfKind(list: seq<Datasource>, kind: string): (r: Option<nat>)
    ensures r.Some? ==> r.value < |list| && list[r.value].spec.isDefault && list[r.value].spec.plugin.kind == kind
    ensures r.Some? ==> forall j :: 0 <= j < r.value ==> !(list[j].spec.isDefault && list[j].spec.plugin.kind == kind)
    ensures r.None? ==> forall j :: 0 <= j < |list| ==> !(list[j].spec.isDefault && list[j].spec.plugin.kind == kind)
  {
    if list == [] then None
    else if list[0].spec.isDefault && list[0].spec.plugin.kind == kind then Some(0)
    else
      match FirstDefaultOfKind(list[1..], kind)
      case None => None
      case Some(k) => Some(k + 1)
  }

  /** `validateUnicityOfDefaultDTS`: scans the list and stops at the first default of the entity's kind. */
  method ValidateUnicityOfDefaultDts(entity: Datasource, list: seq<Datasource>) returns (r: Outcome)
    ensures r == UnicityOutcome(entity, list)
  {
    var spec := entity.spec;
    if !spec.isDefault {
      return Valid;
    }
    var entityPluginKind := spec.plugin.kind;
    var i := 0;
    while i < |list|
      invariant 0 <= i <= |list|
      invariant forall j :: 0 <= j < i ==> !(list[j].spec.isDefault && list[j].spec.plugin.kind == entityPluginKind)
    {
      var dtsSpec := list[i].spec;
      if dtsSpec.isDefault && dtsSpec.plugin.kind == entityPluginKind {
        assert FirstDefaultOfKind(list, entityPluginKind) == Some(i);
        return Invalid(DefaultAlreadyDefined(entity.name, entityPluginKind, list[i].name));
      }
      i := i + 1;
    }
    return Valid;
  }

  /** `Datasource` as a function: plugin validation, then uniqueness against a non-nil list. */
  function DatasourceOutcome(entity: Datasource, list: Option<seq<Datasource>>, foreign: Foreign, sch: Option<Schemas>): (r: Outcome)
    ensures r == Valid ==> ValidateDtsPlugin(entity.spec.plugin, foreign, sch) == Valid
    ensures r.NilSchemasPanic? ==> sch.None?
  {
    var pluginOutcome := ValidateDtsPlugin(entity.spec.plugin, foreign, sch);
    if pluginOutcome != Valid then pluginOutcome
    else if list.None? then Valid
    else UnicityOutcome(entity, list.value)
  }

  /** `Datasource`. */
  method ValidateDatasource(entity: Datasource, list: Option<seq<Datasource>>, foreign: Foreign, sch: Option<Schemas>)
    returns (r: Outcome)
    ensures r == DatasourceOutcome(entity, list, foreign, sch)
  {
    var pluginOutcome := ValidateDtsPlugin(entity.spec.plugin, foreign, sch);
    if pluginOutcome != Valid {
      return pluginOutcome;
    }
    if list.Some? {
      r := ValidateUnicityOfDefaultDts(entity, list.value);
      if r != Valid {
        return r;
      }
    }
    return Valid;
  }

  // ---------------------------------------------------------------------------
  // Properties

  /** No two default datasources share a plugin kind. */
  ghost predicate DefaultsUniquePerKind(dss: seq<DatasourceSpec>) {
    forall a, b :: 0 <= a < b < |dss| && dss[a].isDefault && dss[b].isDefault ==> dss[a].plugin.kind != dss[b].plugin.kind
  }

  /** Every datasource's plugin passes both plugin checks. */
  ghost predicate AllPluginsValid(dss: seq<DatasourceSpec>, foreign: Foreign, sch: Option<Schemas>) {
    forall k :: 0 <= k < |dss| ==> ValidateDtsPlugin(dss[k].plugin, foreign, sch) == Valid
  }

  /** The loop succeeds exactly when every plugin passes and the defaults are unique per kind. */
  lemma {:induction false} DatasourcesValidIff(dss: seq<DatasourceSpec>, foreign: Foreign, sch: Option<Schemas>, n: nat)
    requires n <= |dss|
    ensures DatasourcesOutcome(dss, foreign, sch, n) == Valid
            <==> AllPluginsValid(dss[..n], foreign, sch) && DefaultsUniquePerKind(dss[..n])
  {
    if n > 0 {
      DatasourcesValidIff(dss, foreign, sch, n - 1);
      var init, spec := dss[..n - 1], dss[n - 1];
      assert dss[..n] == init + [spec];
      var kind := spec.plugin.kind;
      if DatasourcesOutcome(dss, foreign, sch, n) == Valid {
        forall a, b | 0 <= a < b < n && dss[..n][a].isDefault && dss[..n][b].isDefault
          ensures dss[..n][a].plugin.kind != dss[..n][b].plugin.kind
        {
          if b == n - 1 {
            assert init[a] == dss[..n][a];
          } else {
            assert init[a] == dss[..n][a] && init[b] == dss[..n][b];
          }
        }
        forall k | 0 <= k < n ensures ValidateDtsPlugin(dss[..n][k].plugin, foreign, sch) == Valid {
          if k < n - 1 {
            assert init[k] == dss[..n][k];
          }
        }
      } else if AllPluginsValid(dss[..n], foreign, sch) && DefaultsUniquePerKind(dss[..n]) {
        assert AllPluginsValid(init, foreign, sch) by {
          forall k | 0 <= k < n - 1 ensures ValidateDtsPlugin(init[k].plugin, foreign, sch) == Valid {
            assert init[k] == dss[..n][k];
          }
        }
        assert DefaultsUniquePerKind(init) by {
          forall a, b | 0 <= a < b < n - 1 && init[a].isDefault && init[b].isDefault
            ensures init[a].plugin.kind != init[b].plugin.kind
          {
            assert init[a] == dss[..n][a] && init[b] == dss[..n][b];
          }
        }
      }
    }
  }

  /**
   * Once the foreign checks pass and a schema set is supplied, a dashboard is valid
   * exactly when every datasource plugin passes and no two defaults share a kind.
   */
  lemma DashboardValidIff(entity: Dashboard, foreign: Foreign, sch: Schemas)
    requires foreign.buildVariableOrder(entity.variables)
    requires sch.validateDashboardVariables(entity.variables) && sch.validatePanels(entity.panels)
    ensures DashboardOutcome(entity, foreign, Some(sch)) == Valid
            <==> AllPluginsValid(entity.datasources, foreign, Some(sch)) && DefaultsUniquePerKind(entity.datasources)
  {
    DatasourcesValidIff(entity.datasources, foreign, Some(sch), |entity.datasources|);
    assert entity.datasources[..|entity.datasources|] == entity.datasources;
  }

  /** Two defaults of one kind make a dashboard invalid. */
  lemma DuplicateDefaultFails(entity: Dashboard, foreign: Foreign, sch: Option<Schemas>, a: nat, b: nat)
    requires a < b < |entity.datasources|
    requires entity.datasources[a].isDefault && entity.datasources[b].isDefault
    requires entity.datasources[a].plugin.kind == entity.datasources[b].plugin.kind
    ensures DashboardOutcome(entity, foreign, sch) != Valid
  {
    var dss := entity.datasources;
    DatasourcesValidIff(dss, foreign, sch, |dss|);
    assert dss[..|dss|] == dss;
  }

  /** A datasource whose plugin fails validation makes a dashboard invalid. */
  lemma PluginFailureFails(entity: Dashboard, foreign: Foreign, sch: Option<Schemas>, k: nat)
    requires k < |entity.datasources|
    requires ValidateDtsPlugin(entity.datasources[k].plugin, foreign, sch) != Valid
    ensures DashboardOutcome(entity, foreign, sch) != Valid
  {
    var dss := entity.datasources;
    DatasourcesValidIff(dss, foreign, sch, |dss|);
    assert dss[..|dss|] == dss;
  }

  /** The uniqueness error names a kind that really has two defaults; non-defaults never raise it. */
  lemma {:induction false} DefaultKindTakenIsJustified(dss: seq<DatasourceSpec>, foreign: Foreign, sch: Option<Schemas>,
                                                       n: nat, kind: string)
    requires n <= |dss|
    requires DatasourcesOutcome(dss, foreign, sch, n) == Invalid(DefaultKindTaken(kind))
    ensures exists a, b :: 0 <= a < b < n && dss[a].isDefault && dss[b].isDefault
                           && dss[a].plugin.kind == kind && dss[b].plugin.kind == kind
  {
    var prev := DatasourcesOutcome(dss, foreign, sch, n - 1);
    if prev != Valid {
      DefaultKindTakenIsJustified(dss, foreign, sch, n - 1, kind);
      var a, b :| 0 <= a < b < n - 1 && dss[a].isDefault && dss[b].isDefault
                  && dss[a].plugin.kind == kind && dss[b].plugin.kind == kind;
    } else {
      var init := dss[..n - 1];
      var a :| 0 <= a < |init| && init[a].isDefault && init[a].plugin.kind == kind;
      assert dss[a] == init[a];
      assert dss[n - 1].isDefault && dss[n - 1].plugin.kind == kind;
    }
  }

  /** A non-default entity always passes the uniqueness check. */
  lemma NonDefaultAlwaysUnique(entity: Datasource, list: seq<Datasource>)
    requires !entity.spec.isDefault
    ensures UnicityOutcome(entity, list) == Valid
  {
  }

  /**
   * A default entity fails the uniqueness check exactly when some listed datasource
   * is a default of its kind, and the error names the first one.
   */
  lemma DefaultEntityFailsIff(entity: Datasource, list: seq<Datasource>)
    requires entity.spec.isDefault
    ensures var kind := entity.spec.plugin.kind;
            UnicityOutcome(entity, list) != Valid
            <==> exists k :: 0 <= k < |list| && list[k].spec.isDefault && list[k].spec.plugin.kind == kind
    ensures var kind := entity.spec.plugin.kind;
            var r := UnicityOutcome(entity, list);
            r != Valid ==> exists k :: 0 <= k < |list| && r == Invalid(DefaultAlreadyDefined(entity.name, kind, list[k].name))
                                       && (forall j :: 0 <= j < k ==> !(list[j].spec.isDefault && list[j].spec.plugin.kind == kind))
  {
    var kind := entity.spec.plugin.kind;
    var first := FirstDefaultOfKind(list, kind);
    if first.Some? {
      var k := first.value;
      assert 0 <= k < |list| && list[k].spec.isDefault && list[k].spec.plugin.kind == kind;
    }
  }

  /** With a nil list the uniqueness check is skipped: only the plugin checks decide. */
  lemma NilListSkipsUnicity(entity: Datasource, foreign: Foreign, sch: Option<Schemas>)
    ensures DatasourceOutcome(entity, None, foreign, sch) == ValidateDtsPlugin(entity.spec.plugin, foreign, sch)
  {
  }

  /** A failing plugin is reported before any uniqueness conflict. */
  lemma PluginCheckedFirst(entity: Datasource, list: Option<seq<Datasource>>, foreign: Foreign, sch: Option<Schemas>)
    requires ValidateDtsPlugin(entity.spec.plugin, foreign, sch) != Valid
    ensures DatasourceOutcome(entity, list, foreign, sch) == ValidateDtsPlugin(entity.spec.plugin, foreign, sch)
  {
  }
}
