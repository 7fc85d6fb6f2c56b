/**
 * `AwsSsmSettingsSource`: a pydantic-settings source that reads its values
 * from the AWS SSM Parameter Store, all parameters below one path prefix.
 */
module SsmSource {
  import opened Results
  import opened PosixPath
  import opened CaseFold
  import opened PyRepr
  import opened SsmTypes
  import SsmLoad
  import opened OrderedStore
  import opened SsmLookup
  import opened SsmAssemble

  /** The `ssm_prefix` argument if given, else `model_config.get("ssm_prefix", "/")`. */
  function ResolveSsmPrefix(ssmPrefix: Option<string>, settingsCls: SettingsClass): string
  {
    match ssmPrefix
    case Some(p) => p
    case None => settingsCls.configSsmPrefix.GetOr("/")
  }

  const ReprLead: string := "AwsSsmSettingsSource(ssm_prefix="

  /** `f"AwsSsmSettingsSource(ssm_prefix={prefix!r})"`. */
  function SourceRepr(prefix: string): string
  {
    ReprLead + StrRepr(prefix) + ")"
  }

  /** Reads the prefix back out of the text `__repr__` prints. */
  function ParseSourceRepr(t: string): Option<string>
  {
    if |t| > |ReprLead| && t[..|ReprLead|] == ReprLead && t[|t| - 1] == ')' then ParseStrRepr(t[|ReprLead|..|t| - 1])
    else None
  }

  lemma SourceReprRoundTrip(prefix: string)
    ensures ParseSourceRepr(SourceRepr(prefix)) == Some(prefix)
  {
    var t := SourceRepr(prefix);
    assert t[..|ReprLead|] == ReprLead;
    assert t[|ReprLead|..|t| - 1] == StrRepr(prefix);
    StrReprRoundTrip(prefix);
  }

  class AwsSsmSettingsSource {
    const settingsCls: SettingsClass
    const caseSensitive: bool
    /** The SSM prefix; the inherited name `env_prefix` is kept. */
    const envPrefix: string
    const envNestedDelimiter: string
    /** The normalised parameters, loaded once when the source is built. */
    var envVars: map<string, string>

    /**
     * `__init__` up to the point where the inherited constructor loads the
     * parameters: the prefix resolution and the fields it hands to
     * `EnvSettingsSource`. `caseSensitive` is the value pydantic-settings
     * resolved from the argument or `model_config`.
     */
    constructor (settingsCls: SettingsClass, caseSensitive: bool, ssmPrefix: Option<string>)
      ensures this.settingsCls == settingsCls && this.caseSensitive == caseSensitive
      ensures ssmPrefix.Some? ==> envPrefix == ssmPrefix.value
      ensures ssmPrefix.None? && settingsCls.configSsmPrefix.Some? ==> envPrefix == settingsCls.configSsmPrefix.value
      ensures ssmPrefix.None? && settingsCls.configSsmPrefix.None? ==> envPrefix == "/"
      ensures envNestedDelimiter == "/"
      ensures envVars == map[]
    {
      this.settingsCls := settingsCls;
      this.caseSensitive := caseSensitive;
      this.envPrefix := ResolveSsmPrefix(ssmPrefix, settingsCls);
      this.envNestedDelimiter := "/";
      this.envVars := map[];
    }

    /**
     * `_load_env_vars` over the requests the paginator makes. `requests` counts
     * the page requests issued: none when the prefix is rejected.
     */
    method LoadEnvVars(listing: seq<Fetch>) returns (r: Result<map<string, string>, Exception>, requests: nat)
      ensures r == SsmLoad.LoadEnvVars(envPrefix, caseSensitive, listing)
      ensures !IsAbsolute(envPrefix) ==> r == Err(ValueError(PrefixNotAbsoluteMessage)) && requests == 0
      ensures requests <= |listing|
      ensures r.Ok? ==> requests == SsmLoad.Fetched(listing)
    {
      requests := 0;
      if !IsAbsolute(envPrefix) {
        r := Err(ValueError(PrefixNotAbsoluteMessage));
        return;
      }
      var output: map<string, string> := map[];
      var i := 0;
      while i < |listing|
        invariant 0 <= i <= |listing| && requests == i
        invariant SsmLoad.Fetched(listing) == i + SsmLoad.Fetched(listing[i..])
        invariant SsmLoad.LoadFrom(envPrefix, caseSensitive, listing, map[]) ==
          SsmLoad.LoadFrom(envPrefix, caseSensitive, listing[i..], output)
      {
        requests := requests + 1;
        assert listing[i..][0] == listing[i] && listing[i..][1..] == listing[i + 1..];
        if listing[i].ClientError? {
          // logged, then swallowed: the entries stored so far are returned
          break;
        }
        var stored := StorePage(listing[i].parameters, output);
        if stored.Err? {
          r := Err(stored.error);
          return;
        }
        output := stored.value;
        i := i + 1;
      }
      r := Ok(output);
    }

    /** The inner loop of `_load_env_vars`: one page's parameters stored in order under their keys. */
    method StorePage(page: seq<Parameter>, start: map<string, string>) returns (r: Result<map<string, string>, Exception>)
      ensures r == StoreAll(SsmLoad.KeyedEntries(envPrefix, caseSensitive, page), start)
    {
      ghost var entries := SsmLoad.KeyedEntries(envPrefix, caseSensitive, page);
      var output := start;
      var j := 0;
      while j < |page|
        invariant 0 <= j <= |page|
        invariant StoreAll(entries, start) == StoreAll(entries[j..], output)
      {
        StoreAllStep(entries, j, output);
        // `relative_to` (its ValueError escapes), then the optional lower-casing
        var key := SsmLoad.NormalizedKey(envPrefix, caseSensitive, page[j].name);
        if key.Err? {
          return Err(key.error);
        }
        output := output[key.value := page[j].value];
        j := j + 1;
      }
      return Ok(output);
    }

    /** `__repr__`: the text names the prefix, which can be read back from it. */
    function Repr(): (s: string)
      ensures |s| > |ReprLead| && s[..|ReprLead|] == ReprLead
      ensures ParseSourceRepr(s) == Some(envPrefix)
    {
      SourceReprRoundTrip(envPrefix);
      SourceRepr(envPrefix)
    }

    /**
     * `get_field_value`: tries the candidates of `_extract_field_info` in order
     * and stops at the first `env_name` present in `env_vars`.
     */
    method GetFieldValue(fw: Framework, fieldName: string, field: FieldInfo) returns (r: Result<Lookup, Exception>)
      ensures r == FieldLookup(envVars, fw.extractFieldInfo(fieldName, field))
    {
      var extracted := fw.extractFieldInfo(fieldName, field);
      if extracted.Err? {
        r := Err(extracted.error);
        return;
      }
      var cands := extracted.value;
      var envVal: Option<string> := None;
      var fieldKey, isComplex, bound := "", false, false;
      var i := 0;
      while i < |cands|
        invariant 0 <= i <= |cands|
        invariant envVal == None
        invariant bound <==> i > 0
        invariant i > 0 ==> fieldKey == cands[i - 1].fieldKey && isComplex == cands[i - 1].isComplex
        invariant i < |cands| ==> FirstMatch(envVars, cands) == FirstMatch(envVars, cands[i..])
        invariant 0 < i == |cands| ==> FirstMatch(envVars, cands) == Lookup(None, fieldKey, isComplex)
      {
        assert cands[i..][0] == cands[i] && cands[i..][1..] == cands[i + 1..];
        fieldKey, isComplex, bound := cands[i].fieldKey, cands[i].isComplex, true;
        envVal := if cands[i].envName in envVars then Some(envVars[cands[i].envName]) else None;
        if envVal.Some? {
          break;
        }
        i := i + 1;
      }
      if !bound {
        // `field_key` was never assigned: UnboundLocalError
        r := Err(UnboundField);
        return;
      }
      r := Ok(Lookup(envVal, fieldKey, isComplex));
    }

    /**
     * One turn of the loop in `__call__`: look the field up, prepare its value
     * and say what goes into `data` (`None` when the prepared value is None).
     */
    method FieldOutcome(fw: Framework, fieldName: string, field: FieldInfo) returns (r: Result<Option<(string, Value)>, Exception>)
      ensures r == FieldEntry(caseSensitive, envVars, fw, (fieldName, field))
    {
      var lookup := GetFieldValue(fw, fieldName, field);
      if lookup.Err? {
        return Err(SettingsError(GettingValueMessage(fieldName), lookup.error));
      }
      var prepared := fw.prepareFieldValue(envVars, fieldName, field, lookup.value.value, lookup.value.isComplex);
      if prepared.Err? {
        if prepared.error.IsValueError() {
          return Err(SettingsError(ParsingValueMessage(fieldName), prepared.error));
        }
        return Err(prepared.error);
      }
      var fieldValue := prepared.value;
      if fieldValue.NoneValue? {
        return Ok(None);
      }
      if !caseSensitive && field.isBaseModel && fieldValue.Dict? {
        var rekeyed := fw.replaceFieldNamesCaseInsensitively(field, fieldValue.entries);
        if rekeyed.Err? {
          return Err(rekeyed.error);
        }
        return Ok(Some((lookup.value.fieldKey, Dict(rekeyed.value))));
      }
      return Ok(Some((lookup.value.fieldKey, fieldValue)));
    }

    /**
     * `__call__`: for each model field, look it up, prepare the value and
     * store it under the lookup's key unless it is None; the first exception
     * ends the call.
     */
    method Call(fw: Framework) returns (r: Result<map<string, Value>, Exception>)
      ensures r == Assemble(caseSensitive, envVars, fw, settingsCls.modelFields)
    {
      var fields := settingsCls.modelFields;
      ghost var entries := FieldEntries(caseSensitive, envVars, fw, fields);
      var data: map<string, Value> := map[];
      var i := 0;
      while i < |fields|
        invariant 0 <= i <= |fields|
        invariant Assemble(caseSensitive, envVars, fw, fields) == StoreAll(entries[i..], data)
      {
        StoreAllStep(entries, i, data);
        var outcome := FieldOutcome(fw, fields[i].0, fields[i].1);
        if outcome.Err? {
          return Err(outcome.error);
        }
        if outcome.value.Some? {
          var (fieldKey, fieldValue) := outcome.value.value;
          data := data[fieldKey := fieldValue];
        }
        i := i + 1;
      }
      r := Ok(data);
    }
  }

  /**
   * Building the source: `__init__`, whose inherited constructor runs
   * `_load_env_vars` and keeps its result as `env_vars`; an exception there
   * means no source is built.
   */
  method NewSource(settingsCls: SettingsClass, caseSensitive: bool, ssmPrefix: Option<string>, listing: seq<Fetch>)
    returns (r: Result<AwsSsmSettingsSource, Exception>)
    ensures var prefix := ResolveSsmPrefix(ssmPrefix, settingsCls);
      match SsmLoad.LoadEnvVars(prefix, caseSensitive, listing)
      case Err(e) => r == Err(e)
      case Ok(m) =>
        r.Ok? && fresh(r.value) && r.value.envPrefix == prefix && r.value.caseSensitive == caseSensitive &&
        r.value.settingsCls == settingsCls && r.value.envVars == m
  {
    var source := new AwsSsmSettingsSource(settingsCls, caseSensitive, ssmPrefix);
    var loaded, _ := source.LoadEnvVars(listing);
    match loaded
    case Err(e) =>
      r := Err(e);
    case Ok(m) =>
      source.envVars := m;
      r := Ok(source);
  }
}
