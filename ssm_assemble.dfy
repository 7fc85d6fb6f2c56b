/** What `AwsSsmSettingsSource.__call__` computes: the dict of prepared field values. */
module SsmAssemble {
  import opened Results
  import opened SsmTypes
  import opened SsmLookup
  import opened OrderedStore

  /** True when the prepared value is re-keyed by `_replace_field_names_case_insensitively`. */
  predicate Rekeyed(caseSensitive: bool, info: FieldInfo, v: Value) {
    !caseSensitive && info.isBaseModel && v.Dict?
  }

  /**
   * One turn of the loop over `model_fields`: look the field up, prepare its
   * value, and say what (if anything) goes into `data`; `Ok(None)` means the
   * prepared value is None and nothing is stored.
   */
  function FieldEntry(caseSensitive: bool, env: map<string, string>, fw: Framework, field: (string, FieldInfo))
    : Result<Option<(string, Value)>, Exception>
  {
    var (name, info) := field;
    match FieldLookup(env, fw.extractFieldInfo(name, info))
    case Err(e) => Err(SettingsError(GettingValueMessage(name), e))
    case Ok(lk) =>
      match fw.prepareFieldValue(env, name, info, lk.value, lk.isComplex)
      case Err(e) => if e.IsValueError() then Err(SettingsError(ParsingValueMessage(name), e)) else Err(e)
      case Ok(v) =>
        if v.NoneValue? then Ok(None)
        else if Rekeyed(caseSensitive, info, v) then
          match fw.replaceFieldNamesCaseInsensitively(info, v.entries)
          case Err(e) => Err(e)
          case Ok(d) => Ok(Some((lk.fieldKey, Dict(d))))
        else Ok(Some((lk.fieldKey, v)))
  }

  function FieldEntries(caseSensitive: bool, env: map<string, string>, fw: Framework, fields: seq<(string, FieldInfo)>)
    : (r: seq<Result<Option<(string, Value)>, Exception>>)
    ensures |r| == |fields|
    ensures forall i :: 0 <= i < |fields| ==> r[i] == FieldEntry(caseSensitive, env, fw, fields[i])
  {
    if fields == [] then []
    else [FieldEntry(caseSensitive, env, fw, fields[0])] + FieldEntries(caseSensitive, env, fw, fields[1..])
  }

  /** `__call__`: the loop over `model_fields` from an empty dict. */
  function Assemble(caseSensitive: bool, env: map<string, string>, fw: Framework, fields: seq<(string, FieldInfo)>)
    : Result<map<string, Value>, Exception>
  {
    StoreAll(FieldEntries(caseSensitive, env, fw, fields), map[])
  }

  /** A failed lookup is re-raised as a SettingsError naming the field, with the failure as its cause. */
  lemma LookupErrorWrapped(caseSensitive: bool, env: map<string, string>, fw: Framework, field: (string, FieldInfo))
    requires FieldLookup(env, fw.extractFieldInfo(field.0, field.1)).Err?
    ensures var cause := FieldLookup(env, fw.extractFieldInfo(field.0, field.1)).error;
      FieldEntry(caseSensitive, env, fw, field) == Err(SettingsError(GettingValueMessage(field.0), cause))
  {
  }

  /**
   * A ValueError from `prepare_field_value` is re-raised as a SettingsError
   * naming the field; any other exception passes through unchanged.
   */
  lemma PrepareErrorWrapped(caseSensitive: bool, env: map<string, string>, fw: Framework, field: (string, FieldInfo))
    requires FieldLookup(env, fw.extractFieldInfo(field.0, field.1)).Ok?
    requires var lk := FieldLookup(env, fw.extractFieldInfo(field.0, field.1)).value;
      fw.prepareFieldValue(env, field.0, field.1, lk.value, lk.isComplex).Err?
    ensures var lk := FieldLookup(env, fw.extractFieldInfo(field.0, field.1)).value;
      var cause := fw.prepareFieldValue(env, field.0, field.1, lk.value, lk.isComplex).error;
      FieldEntry(caseSensitive, env, fw, field) ==
        (if cause.IsValueError() then Err(SettingsError(ParsingValueMessage(field.0), cause)) else Err(cause))
  {
  }

  /**
   * What a field stores is never None; it sits under the `field_key` of the
   * lookup; it is the prepared value verbatim unless that value is a dict of a
   * BaseModel field in a case-insensitive source, which is re-keyed.
   */
  lemma StoredValue(caseSensitive: bool, env: map<string, string>, fw: Framework, field: (string, FieldInfo))
    requires FieldEntry(caseSensitive, env, fw, field).Ok? && FieldEntry(caseSensitive, env, fw, field).value.Some?
    ensures var (k, v) := FieldEntry(caseSensitive, env, fw, field).value.value;
      var lk := FieldLookup(env, fw.extractFieldInfo(field.0, field.1)).value;
      var prepared := fw.prepareFieldValue(env, field.0, field.1, lk.value, lk.isComplex).value;
      !v.NoneValue? && k == lk.fieldKey && !prepared.NoneValue? &&
      (Rekeyed(caseSensitive, field.1, prepared) ==>
        v == Dict(fw.replaceFieldNamesCaseInsensitively(field.1, prepared.entries).value)) &&
      (!Rekeyed(caseSensitive, field.1, prepared) ==> v == prepared)
  {
  }

  /**
   * The result of `__call__`: a dict exactly when no field's turn raises, with
   * an entry exactly for the keys some field stores under (so never for a
   * field whose prepared value is None), each holding what the LAST field
   * storing under that key stored, and no None anywhere.
   */
  lemma AssembledDict(caseSensitive: bool, env: map<string, string>, fw: Framework, fields: seq<(string, FieldInfo)>)
    requires Assemble(caseSensitive, env, fw, fields).Ok?
    ensures var d, es := Assemble(caseSensitive, env, fw, fields).value, FieldEntries(caseSensitive, env, fw, fields);
      AllOk(es) &&
      (forall k :: k in d <==> StoresKey(es, k)) &&
      (forall i, k :: LastStore(es, i, k) ==> k in d && d[k] == es[i].value.value.1) &&
      (forall k :: k in d ==> !d[k].NoneValue?)
  {
    var d, es := Assemble(caseSensitive, env, fw, fields).value, FieldEntries(caseSensitive, env, fw, fields);
    StoreAllSucceeds(es, map[]);
    StoreAllEntries(es, map[]);
    forall k | k in d ensures !d[k].NoneValue? {
      LastStoreExists(es, k);
      var i :| LastStore(es, i, k);
      StoredValue(caseSensitive, env, fw, fields[i]);
    }
  }

  /**
   * A failed call raises the exception of the first field whose turn fails;
   * no dict is returned, so nothing gathered from earlier fields escapes.
   */
  lemma AssembleFails(caseSensitive: bool, env: map<string, string>, fw: Framework, fields: seq<(string, FieldInfo)>, e: Exception)
    requires Assemble(caseSensitive, env, fw, fields) == Err(e)
    ensures exists i ::
              0 <= i < |fields| && FieldEntry(caseSensitive, env, fw, fields[i]) == Err(e) &&
              forall j :: 0 <= j < i ==> FieldEntry(caseSensitive, env, fw, fields[j]).Ok?
  {
    var es := FieldEntries(caseSensitive, env, fw, fields);
    StoreAllFails(es, map[], e);
    var i :| FirstError(es, i, e);
    forall j | 0 <= j < i ensures FieldEntry(caseSensitive, env, fw, fields[j]).Ok? {
      assert es[..i][j].Ok?;
    }
  }
}
