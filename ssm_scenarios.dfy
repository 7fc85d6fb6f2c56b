/** Scenarios of the repository's tests, derived from the general lemmas. */
module SsmScenarios {
  import opened Results
  import opened PosixPath
  import opened CaseFold
  import opened SsmTypes
  import opened SsmLoad
  import opened SsmLookup
  import opened OrderedStore

  lemma SingleParameter(prefix: string, caseSensitive: bool, p: Parameter, k: string)
    requires IsAbsolute(prefix) && NormalizedKey(prefix, caseSensitive, p.name) == Ok(k)
    ensures LoadEnvVars(prefix, caseSensitive, [Page([p])]) == Ok(map[k := p.value])
  {
    var listing := [Page([p])];
    assert [p][1..] == [];
    assert listing[1..] == [];
    assert KeyedEntries(prefix, caseSensitive, [p]) == [Ok(Some((k, p.value)))];
    assert StoreAll(KeyedEntries(prefix, caseSensitive, [p]), map[]) == Ok(map[][k := p.value]);
    assert map[][k := p.value] == map[k := p.value];
    assert LoadFrom(prefix, caseSensitive, listing, map[]) == LoadFrom(prefix, caseSensitive, [], map[k := p.value]);
  }

  lemma ChildKeyOne(prefix: string, caseSensitive: bool, seg: string)
    requires IsAbsolute(prefix) && seg != "" && seg != "." && '/' !in seg
    ensures NormalizedKey(prefix, caseSensitive, ChildPath(prefix, seg)) ==
      Ok(if caseSensitive then prefix + seg else Lower(prefix + seg))
  {
    assert Join([seg]) == seg;
    ChildKey(prefix, caseSensitive, [seg]);
  }

  lemma AsdfFooKey(caseSensitive: bool)
    ensures NormalizedKey("/asdf", caseSensitive, "/asdf/foo") == Ok("/asdffoo")
  {
    var prefix, seg := "/asdf", "foo";
    ChildKeyOne(prefix, caseSensitive, seg);
    AsdfFooPath();
    if !caseSensitive {
      AsdfFooLower();
    }
  }

  lemma AsdfFooPath()
    ensures ChildPath("/asdf", "foo") == "/asdf/foo"
    ensures "/asdf" + "foo" == "/asdffoo"
  {
  }

  lemma AsdfFooLower()
    ensures Lower("/asdffoo") == "/asdffoo"
  {
    var key := "/asdffoo";
    assert IsLower(key) by {
      forall i | 0 <= i < |key| ensures !('A' <= key[i] <= 'Z') {
        assert key[i] in "/asdfo";
      }
    }
    LowerFixesLower(key);
  }

  /**
   * tests/test_main.py:38-41: with prefix "/asdf" the parameter "/asdf/foo"
   * is stored under "/asdffoo", the name pydantic-settings builds for field
   * `foo` (prefix + field name), so the field resolves to "bar". The test runs
   * with pydantic-settings' default, a case-insensitive source; the key is the
   * same either way.
   */
  lemma PrefixWithoutSeparator(caseSensitive: bool)
    ensures LoadEnvVars("/asdf", caseSensitive, [Page([Parameter("/asdf/foo", "bar")])]) == Ok(map["/asdffoo" := "bar"])
  {
    AsdfFooKey(caseSensitive);
    SingleParameter("/asdf", caseSensitive, Parameter("/asdf/foo", "bar"), "/asdffoo");
  }

  /** tests/test_main.py:106-109: in a case-insensitive source "/FOO" is stored under "/foo". */
  lemma CaseInsensitiveName()
    ensures NormalizedKey("/", false, "/FOO") == Ok("/foo")
  {
    var prefix, seg := "/", "FOO";
    ChildKeyOne(prefix, false, seg);
    assert ChildPath(prefix, seg) == "/FOO";
    assert Lower(prefix + seg) == "/foo";
  }

  /** tests/test_main.py:27-29: a relative prefix fails before any page is read. */
  lemma RelativePrefixRejected(listing: seq<Fetch>, caseSensitive: bool)
    ensures LoadEnvVars("asdf", caseSensitive, listing) == Err(ValueError(PrefixNotAbsoluteMessage))
  {
  }

  /** With two candidate names both present, the earlier one supplies the value. */
  lemma EarlierCandidateWins(env: map<string, string>, a: Candidate, b: Candidate)
    requires a.envName in env && b.envName in env
    ensures FirstMatch(env, [a, b]) == Lookup(Some(env[a.envName]), a.fieldKey, a.isComplex)
  {
  }
}
