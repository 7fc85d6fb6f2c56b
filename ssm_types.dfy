/** The values the AWS SSM settings source works on and the exceptions it raises. */
module SsmTypes {
  import opened Results

  /** One entry of a `get_parameters_by_path` page: `parameter["Name"]`, `parameter["Value"]`. */
  datatype Parameter = Parameter(name: string, value: string)

  /**
   * One request the paginator makes while it is iterated: either a page of
   * parameters, or a botocore `ClientError` raised instead of that page.
   */
  datatype Fetch = Page(parameters: seq<Parameter>) | ClientError(code: string)

  /** A `(field_key, env_name, value_is_complex)` triple from `_extract_field_info`. */
  datatype Candidate = Candidate(fieldKey: string, envName: string, isComplex: bool)

  /** What `get_field_value` returns: `(env_val, field_key, value_is_complex)`. */
  datatype Lookup = Lookup(value: Option<string>, fieldKey: string, isComplex: bool)

  /** The Python values a prepared field can hold; `Other` is any non-dict, non-str object. */
  datatype Value =
    | NoneValue
    | Str(s: string)
    | Dict(entries: map<string, Value>)
    | Other(repr: string)

  /**
   * A pydantic `FieldInfo`, reduced to what the source inspects: the
   * annotation's name and whether `lenient_issubclass(annotation, BaseModel)`.
   */
  datatype FieldInfo = FieldInfo(annotation: string, isBaseModel: bool)

  /** The settings class: `model_config.get("ssm_prefix")` and `model_fields.items()` in order. */
  datatype SettingsClass = SettingsClass(configSsmPrefix: Option<string>, modelFields: seq<(string, FieldInfo)>)

  datatype Exception =
    | ValueError(msg: string)
      // raised by the prefix check in `_load_env_vars`
    | PathNotRelative(path: string, base: string)
      // the ValueError of `PurePath.relative_to`
    | UnboundField
      // the UnboundLocalError of reading `field_key` when no candidate was produced
    | SettingsError(msg: string, cause: Exception)
      // `raise SettingsError(msg) from cause`
    | HookError(kind: string, msg: string, isValueError: bool)
      // raised inside a pydantic-settings hook
  {
    /** `isinstance(e, ValueError)`; `SettingsError` subclasses `ValueError`. */
    predicate IsValueError() {
      match this
      case ValueError(_) => true
      case PathNotRelative(_, _) => true
      case UnboundField => false
      case SettingsError(_, _) => true
      case HookError(_, _, v) => v
    }
  }

  /**
   * The pydantic-settings members the source calls but does not define:
   * `_extract_field_info(field, field_name)`,
   * `prepare_field_value(field_name, field, value, value_is_complex)` (which
   * also reads `env_vars`, passed here explicitly) and
   * `_replace_field_names_case_insensitively(field, value)`.
   */
  datatype Framework = Framework(
    extractFieldInfo: (string, FieldInfo) -> Result<seq<Candidate>, Exception>,
    prepareFieldValue: (map<string, string>, string, FieldInfo, Option<string>, bool) -> Result<Value, Exception>,
    replaceFieldNamesCaseInsensitively: (FieldInfo, map<string, Value>) -> Result<map<string, Value>, Exception>)

  const SourceClassName: string := "AwsSsmSettingsSource"
  const PrefixNotAbsoluteMessage: string := "SSM prefix must be absolute path"
  const GettingLead: string := "error getting value for field \""
  const ParsingLead: string := "error parsing value for field \""
  const SourceTail: string := "\" from source \"" + SourceClassName + "\""

  function GettingValueMessage(fieldName: string): string {
    GettingLead + fieldName + SourceTail
  }

  function ParsingValueMessage(fieldName: string): string {
    ParsingLead + fieldName + SourceTail
  }

  /**
   * Both wrapping messages name the field at a fixed place and end with the
   * source class, so the field can be read back from the message; and a
   * lookup failure never reads like a parsing failure.
   */
  lemma MessagesNameFieldAndSource(f: string, g: string)
    ensures GettingValueMessage(f)[|GettingLead|..|GettingLead| + |f|] == f
    ensures ParsingValueMessage(f)[|ParsingLead|..|ParsingLead| + |f|] == f
    ensures GettingValueMessage(f)[|GettingLead| + |f|..] == SourceTail
    ensures ParsingValueMessage(f)[|ParsingLead| + |f|..] == SourceTail
    ensures GettingValueMessage(f) == GettingValueMessage(g) ==> f == g
    ensures ParsingValueMessage(f) == ParsingValueMessage(g) ==> f == g
    ensures GettingValueMessage(f) != ParsingValueMessage(g)
  {
    var gf, gg := GettingValueMessage(f), GettingValueMessage(g);
    var pf, pg := ParsingValueMessage(f), ParsingValueMessage(g);
    assert gf[|GettingLead|..|GettingLead| + |f|] == f;
    assert pf[|ParsingLead|..|ParsingLead| + |f|] == f;
    assert gf[|GettingLead| + |f|..] == SourceTail;
    assert pf[|ParsingLead| + |f|..] == SourceTail;
    if gf == gg {
      assert |f| == |g|;
      assert gg[|GettingLead|..|GettingLead| + |g|] == g;
    }
    if pf == pg {
      assert |f| == |g|;
      assert pg[|ParsingLead|..|ParsingLead| + |g|] == g;
    }
    assert gf[6] == 'g' && pg[6] == 'p';
  }
}
