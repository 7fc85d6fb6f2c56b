/** What `AwsSsmSettingsSource.get_field_value` computes: the first candidate present in `env_vars`. */
module SsmLookup {
  import opened Results
  import opened SsmTypes

  /**
   * Walks the candidates in order and stops at the first `env_name` present;
   * when none is, the triple reports the last candidate's key and flag.
   */
  function FirstMatch(env: map<string, string>, cands: seq<Candidate>): Lookup
    requires |cands| > 0
  {
    var c := cands[0];
    if c.envName in env then Lookup(Some(env[c.envName]), c.fieldKey, c.isComplex)
    else if |cands| == 1 then Lookup(None, c.fieldKey, c.isComplex)
    else FirstMatch(env, cands[1..])
  }

  /**
   * `get_field_value` given what `_extract_field_info` produced: its exception
   * propagates, and an empty candidate list leaves `field_key` unbound.
   */
  function FieldLookup(env: map<string, string>, extracted: Result<seq<Candidate>, Exception>): Result<Lookup, Exception>
  {
    match extracted
    case Err(e) => Err(e)
    case Ok(cands) => if |cands| == 0 then Err(UnboundField) else Ok(FirstMatch(env, cands))
  }

  ghost predicate IsFirstMatch(env: map<string, string>, cands: seq<Candidate>, i: int) {
    0 <= i < |cands| && cands[i].envName in env &&
    forall j :: 0 <= j < i ==> cands[j].envName !in env
  }

  predicate NoneMatch(env: map<string, string>, cands: seq<Candidate>) {
    forall j :: 0 <= j < |cands| ==> cands[j].envName !in env
  }

  /**
   * The lookup returns the value of the first candidate present, with that
   * candidate's key and flag, ignoring later candidates; with no candidate
   * present the value is None.
   */
  lemma {:induction false} FirstMatchSpec(env: map<string, string>, cands: seq<Candidate>)
    requires |cands| > 0
    ensures var r := FirstMatch(env, cands);
      (r.value.Some? <==> !NoneMatch(env, cands)) &&
      (forall i :: IsFirstMatch(env, cands, i) ==>
        r == Lookup(Some(env[cands[i].envName]), cands[i].fieldKey, cands[i].isComplex)) &&
      (NoneMatch(env, cands) ==>
        r == Lookup(None, cands[|cands| - 1].fieldKey, cands[|cands| - 1].isComplex))
  {
    if cands[0].envName !in env && |cands| > 1 {
      FirstMatchSpec(env, cands[1..]);
      forall i | IsFirstMatch(env, cands, i)
        ensures FirstMatch(env, cands) == Lookup(Some(env[cands[i].envName]), cands[i].fieldKey, cands[i].isComplex)
      {
        assert IsFirstMatch(env, cands[1..], i - 1);
      }
      if !NoneMatch(env, cands[1..]) {
        var j :| 0 <= j < |cands| - 1 && cands[1..][j].envName in env;
        assert cands[j + 1].envName in env;
      }
    } else if cands[0].envName in env {
      forall i | IsFirstMatch(env, cands, i) ensures i == 0 { }
    }
  }

  /** Exactly one of the two outcomes of `FirstMatchSpec` applies. */
  lemma {:induction false} SomeFirstMatch(env: map<string, string>, cands: seq<Candidate>)
    requires !NoneMatch(env, cands)
    ensures exists i :: IsFirstMatch(env, cands, i)
  {
    if cands[0].envName in env {
      assert IsFirstMatch(env, cands, 0);
    } else {
      SomeFirstMatch(env, cands[1..]);
      var i :| IsFirstMatch(env, cands[1..], i);
      assert IsFirstMatch(env, cands, i + 1);
    }
  }
}
