# pydantic-ssm-settings: the AWS SSM settings source, in Dafny

This project models `AwsSsmSettingsSource` from `pydantic_ssm_settings/source.py`. It is the pydantic-settings source that reads configuration from the AWS SSM Parameter Store. It works in three steps:

1. **Load** (`_load_env_vars`, run once when the source is built). It rejects a prefix that is not an absolute path. It then walks the pages of `get_parameters_by_path` in order. Each parameter goes into a flat dict under `env_prefix + <name relative to the prefix>`; when the source is case-insensitive, both parts are lower-cased. A later parameter overwrites an earlier one with the same key. A botocore `ClientError` ends the walk, and what was stored so far is kept.
2. **Lookup** (`get_field_value`). It tries a field's candidate `(field_key, env_name, value_is_complex)` triples in order and stops at the first `env_name` present in the dict.
3. **Assembly** (`__call__`). For each model field it looks the value up and lets pydantic-settings prepare it. It stores the value under the lookup's `field_key` unless the value is None. Dict values of BaseModel fields are re-keyed when the source is case-insensitive. A lookup failure, or a ValueError during preparation, is re-raised as `SettingsError`, which names the field and the source class.

Layout (one module per file):

- `results.dfy` (`Results`): `Option`, and `Result`, whose `Err` carries a Python exception.
- `posix_path.dfy` (`PosixPath`): the behaviour of `pathlib.Path` on POSIX systems that the source relies on. This covers `is_absolute`, root and segment parsing, and `relative_to(...).as_posix()`.
- `case_fold.dfy` (`CaseFold`): `str.lower()` on ASCII letters.
- `py_repr.dfy` (`PyRepr`): `repr()` of a `str`, and a reader that turns the literal back into the string.
- `ssm_types.dfy` (`SsmTypes`): parameters, page fetches, candidates, values, field info, exceptions, the framework hooks and the `SettingsError` messages.
- `ordered_store.dfy` (`OrderedStore`): storing a sequence of entries into a dict in order, stopping at the first exception. Both loops of the source do this, so its lemmas are proved once here.
- `ssm_load.dfy` (`SsmLoad`): the functions that define what `_load_env_vars` computes, with their lemmas.
- `ssm_lookup.dfy` (`SsmLookup`): the functions that define what `get_field_value` computes, with their lemmas.
- `ssm_assemble.dfy` (`SsmAssemble`): the functions that define what `__call__` computes, with their lemmas.
- `ssm_source.dfy` (`SsmSource`): the class `AwsSsmSettingsSource`. It has the constructor and `LoadEnvVars`, `GetFieldValue`, `Call` and `Repr`, plus `NewSource`, which builds a source and loads its parameters. Each loop method is proved equal to the function that defines its result.
- `ssm_scenarios.dfy` (`SsmScenarios`): scenarios from `tests/test_main.py`, derived from the general lemmas.

The code that the source calls but does not define is passed in as parameters. The `Framework` datatype holds pydantic-settings' `_extract_field_info`, `prepare_field_value` and `_replace_field_names_case_insensitively` as total functions. Their exceptions are `Err` results. `lenient_issubclass(annotation, BaseModel)` is a flag on `FieldInfo`, and `model_fields` is an ordered sequence on `SettingsClass`. The paginator is a sequence of `Fetch` values. Each one is a page, or a `ClientError` raised in place of that page.

Points where the code behaves in a way one might not expect:

- The key is `env_prefix + relative_path`, with no separator in between (`source.py:83-85`). With prefix `/asdf`, the parameter `/asdf/foo` gets the key `/asdffoo`.
- In case-insensitive mode the whole prefix and the whole relative path are lower-cased. This is not done segment by segment.
- After a `ClientError`, the entries collected so far are kept; the result is not emptied.
- A field with no match still goes to `prepare_field_value`, with value None. It uses the key and flag of the LAST candidate.
- A parameter name that is not below the prefix makes `relative_to` raise a ValueError. That error is not a `ClientError`, so it escapes `_load_env_vars`.

## Model

| member | source | states |
|---|---|---|
| `PosixPath.IsAbsolute` | pydantic_ssm_settings/source.py:64 | Defines `Path(prefix).is_absolute()` on POSIX: the text starts with "/". |
| `PosixPath.RelativeTo` | pydantic_ssm_settings/source.py:78-80 | Defines `Path(name).relative_to(prefix).as_posix()`, with `None` for the ValueError. A result has the prefix's root and is not absolute, and parsing it again gives exactly the segments of the name that follow the prefix's segments. |
| `PosixPath.RelativeToChild` | pydantic_ssm_settings/source.py:78-80 | A parameter stored one level or more below an absolute prefix is, relative to that prefix, exactly the part below it, with no leading slash. |
| `PosixPath.RelativeToSelf` | pydantic_ssm_settings/source.py:78-80 | A name equal to the prefix is relative to it as ".". |
| `CaseFold.Lower` | pydantic_ssm_settings/source.py:85 | The result has the input's length, and each character is that character lower-cased. |
| `CaseFold.LowerAppend` | pydantic_ssm_settings/source.py:85 | Lower-casing the prefix and the relative path separately equals lower-casing the whole key. |
| `CaseFold.LowerIsLower` | pydantic_ssm_settings/source.py:85 | A lower-cased string has no upper-case letter, and lower-casing it again changes nothing. |
| `CaseFold.LowerFixesLower` | pydantic_ssm_settings/source.py:85 | Lower-casing a string with no upper-case letter returns it unchanged. |
| `PyRepr.QuoteFor` | pydantic_ssm_settings/source.py:95 | `repr` uses double quotes exactly when the text has a single quote and no double quote. |
| `PyRepr.StrRepr` | pydantic_ssm_settings/source.py:95 | Defines `repr` of a `str`: the quote `QuoteFor` picks, the text with backslash, that quote, tab, newline, carriage return and the `\xhh` characters escaped, and the quote again. |
| `PyRepr.StrReprRoundTrip` | pydantic_ssm_settings/source.py:95 | Reading back the literal that `repr` prints gives the original string. |
| `PyRepr.StrReprInjective` | pydantic_ssm_settings/source.py:95 | Different strings print as different literals. |
| `SsmTypes.MessagesNameFieldAndSource` | pydantic_ssm_settings/source.py:133-145 | Both `SettingsError` messages hold the field name at a fixed offset and end with the source class name. The field can be read back from either message, and a "getting" message never equals a "parsing" message. |
| `OrderedStore.StoreAllEntries` | pydantic_ssm_settings/source.py:82-87 | Storing a sequence of entries into a dict, in order, leaves a key exactly when it was there before or some entry stores under it. Each key holds what the last entry storing under it stored, and keys no entry touches keep their values. The same fold is the inner loop of `_load_env_vars` and the loop of `__call__`. |
| `OrderedStore.LastStoreExists` | pydantic_ssm_settings/source.py:147-157 | Every key some entry stores under has a last entry storing under it. |
| `OrderedStore.StoreAllSucceeds` | pydantic_ssm_settings/source.py:128-157 | The fold returns a dict exactly when no entry is an exception. |
| `OrderedStore.StoreAllFails` | pydantic_ssm_settings/source.py:128-146 | A failed fold raises the first exception among the entries, and every entry before it succeeded. |
| `OrderedStore.StoreAllAppend` | pydantic_ssm_settings/source.py:76-87 | Storing `xs + ys` is storing `xs` and then `ys` from the dict `xs` left, or the exception `xs` raised. This is what lets the pages be walked one after another. |
| `SsmLoad.KeyedEntriesAppend` | pydantic_ssm_settings/source.py:76-87 | The entries of two runs of parameters placed one after the other are the entries of each run, in order. |
| `SsmLoad.KeyedStores` | pydantic_ssm_settings/source.py:78-87 | Parameter i writes key k exactly when its name normalises to k, and it then stores its own value. A run of parameters has no failing entry exactly when every name lies below the prefix, and the first failing entry is the first name outside the prefix. |
| `SsmLoad.NormalizedKey` | pydantic_ssm_settings/source.py:78-86 | The key of a parameter: the prefix followed directly by the name relative to it, both lower-cased when the source is case-insensitive. It fails, with the name and prefix, exactly when the name is not below the prefix. A key starts with the (lower-cased) prefix, and a case-insensitive key has no upper-case letter. |
| `SsmLoad.Fetched` | pydantic_ssm_settings/source.py:76-89 | The number of page requests: every page up to and including the first `ClientError`, never more than the paginator offers. |
| `SsmLoad.LoadFrom` | pydantic_ssm_settings/source.py:76-91 | Defines the walk over the pages: each page's parameters are stored in order, the first name outside the prefix raises, and a `ClientError` ends the walk keeping what was stored. |
| `SsmLoad.LoadEnvVars` | pydantic_ssm_settings/source.py:60-92 | Defines `_load_env_vars`: the "SSM prefix must be absolute path" ValueError for a relative prefix, else the walk from an empty dict. |
| `SsmLoad.LoadFromDelivered` | pydantic_ssm_settings/source.py:76-89 | Walking page by page equals walking, in order, the parameters of every page delivered before the first `ClientError`. |
| `SsmLoad.ClientErrorKeepsEarlierEntries` | pydantic_ssm_settings/source.py:69-92 | When the request for page n raises `ClientError`, the result is the one the first n requests give. Whatever later pages hold is ignored. |
| `SsmLoad.LoadedEntries` | pydantic_ssm_settings/source.py:60-92 | A successful load means the prefix is absolute. The map's keys are exactly the normalised names of the delivered parameters, and each key holds the value of the last parameter with that key. |
| `SsmLoad.LoadFailure` | pydantic_ssm_settings/source.py:64-80 | A failed load is either the "SSM prefix must be absolute path" ValueError for a relative prefix, or the error of the first delivered name outside the prefix. Both are ValueErrors. |
| `SsmLoad.ChildKey` | pydantic_ssm_settings/source.py:78-87 | The parameter at `<prefix>/<rel>` is stored under `prefix + rel`, with nothing in between. When the source is case-insensitive, the key is lower-cased as a whole. |
| `SsmLookup.FirstMatch` | pydantic_ssm_settings/source.py:115-123 | Defines the candidate loop: the first candidate whose env name is present gives the value, key and flag; with none present, the value is None and the key and flag are the last candidate's. |
| `SsmLookup.FieldLookup` | pydantic_ssm_settings/source.py:97-123 | Defines `get_field_value`: an exception from `_extract_field_info` propagates, an empty candidate list leaves `field_key` unbound (an error), and otherwise the candidate loop's triple is returned. |
| `SsmLookup.FirstMatchSpec` | pydantic_ssm_settings/source.py:115-123 | The lookup returns the value, key and flag of the first candidate whose env name is present, and ignores later candidates. With no candidate present, the value is None and the key and flag are the last candidate's. |
| `SsmLookup.SomeFirstMatch` | pydantic_ssm_settings/source.py:116-121 | If any candidate is present, a first present candidate exists, so one of the two cases of `FirstMatchSpec` always applies. |
| `SsmAssemble.FieldEntry` | pydantic_ssm_settings/source.py:128-157 | Defines one turn of the `__call__` loop: the wrapped lookup error, the wrapped ValueError or other exception from preparation, nothing for a None value, or the lookup's key with the prepared value, re-keyed for a BaseModel dict in a case-insensitive source. |
| `SsmAssemble.Assemble` | pydantic_ssm_settings/source.py:125-159 | Defines `__call__`: the fields' turns stored in order into an empty dict, stopping at the first exception. |
| `SsmAssemble.LookupErrorWrapped` | pydantic_ssm_settings/source.py:129-136 | An exception from the lookup, including the unbound `field_key`, becomes a `SettingsError` that carries the "error getting value" message for that field and keeps the exception as its cause. |
| `SsmAssemble.PrepareErrorWrapped` | pydantic_ssm_settings/source.py:138-145 | A ValueError from `prepare_field_value` becomes a `SettingsError` with the "error parsing value" message. Any other exception passes through unchanged. |
| `SsmAssemble.StoredValue` | pydantic_ssm_settings/source.py:147-157 | What a field stores is never None and sits under the lookup's `field_key`. It is re-keyed exactly when the source is case-insensitive, the field is a BaseModel and the value is a dict; otherwise it is the prepared value verbatim. |
| `SsmAssemble.AssembledDict` | pydantic_ssm_settings/source.py:125-159 | The returned dict has an entry exactly for the fields whose prepared value is not None. Each entry is keyed by the lookup's `field_key`, holds no None and holds what the last field with that key stored. |
| `SsmAssemble.AssembleFails` | pydantic_ssm_settings/source.py:128-146 | A failed call raises the exception of the first field whose turn fails, and every earlier field's turn succeeded. No partial dict is returned. |
| `SsmSource.SourceReprRoundTrip` | pydantic_ssm_settings/source.py:94-95 | The prefix can be read back from the text `__repr__` prints. |
| `SsmSource.ResolveSsmPrefix` | pydantic_ssm_settings/source.py:36-40 | Defines the prefix: the `ssm_prefix` argument when given, else `model_config["ssm_prefix"]`, else "/". |
| `SsmSource.AwsSsmSettingsSource.constructor` | pydantic_ssm_settings/source.py:29-52 | `env_prefix` is the `ssm_prefix` argument when given, else `model_config["ssm_prefix"]`, else "/". The nested delimiter is "/". |
| `SsmSource.AwsSsmSettingsSource.LoadEnvVars` | pydantic_ssm_settings/source.py:60-92 | The loop over pages and parameters returns `SsmLoad.LoadEnvVars`. A relative prefix raises the ValueError after zero page requests. A successful load makes exactly the requests `SsmLoad.Fetched` counts: every page up to and including the first `ClientError`. |
| `SsmSource.AwsSsmSettingsSource.StorePage` | pydantic_ssm_settings/source.py:76-87 | The loop over one page's parameters stores them in order under their normalised keys, and stops at the first name outside the prefix with its ValueError. |
| `SsmSource.AwsSsmSettingsSource.Repr` | pydantic_ssm_settings/source.py:94-95 | The text starts with `AwsSsmSettingsSource(ssm_prefix=` and reads back to the source's prefix. |
| `SsmSource.AwsSsmSettingsSource.GetFieldValue` | pydantic_ssm_settings/source.py:97-123 | The loop with `break` returns the first-match lookup. An exception from `_extract_field_info` propagates, and an empty candidate list raises the unbound-`field_key` error. |
| `SsmSource.AwsSsmSettingsSource.FieldOutcome` | pydantic_ssm_settings/source.py:128-157 | One turn of the `__call__` loop gives the field's entry: the wrapped or propagated exception, nothing for a None value, or the lookup's key with the prepared (possibly re-keyed) value. |
| `SsmSource.AwsSsmSettingsSource.Call` | pydantic_ssm_settings/source.py:125-159 | The loop over `model_fields` returns `SsmAssemble.Assemble`: the dict, or the first wrapped or propagated exception. |
| `SsmSource.NewSource` | pydantic_ssm_settings/source.py:29-92 | A failed load means no source is built and the load's exception is raised. Otherwise a fresh source holds the resolved prefix and the loaded dict as `env_vars`. |
| `SsmScenarios.PrefixWithoutSeparator` | tests/test_main.py:38-41 | With prefix "/asdf", the parameter "/asdf/foo" is stored under "/asdffoo", the env name of field `foo`. This holds whether or not the source is case-sensitive; the test runs with the default, which is case-insensitive. |
| `SsmScenarios.CaseInsensitiveName` | tests/test_main.py:106-109 | In a case-insensitive source, "/FOO" is stored under "/foo". |
| `SsmScenarios.RelativePrefixRejected` | tests/test_main.py:27-29 | The prefix "asdf" fails with the ValueError whatever the listing holds. |
| `SsmScenarios.EarlierCandidateWins` | pydantic_ssm_settings/source.py:116-121 | With two candidates both present, the earlier one supplies the value. |

## Left out

- `_build_client` and the choice of `ssm_client` (`source.py:41-45`, `54-58`): these read an environment variable, parse a float timeout and create a boto3 client. The client appears in the model only as the sequence of page fetches it delivers.
- The request itself (`Path=prefix, WithDecryption=True, Recursive=True`): which parameters the store returns, and their decryption, belong to AWS. The listing is an input.
- Logging calls (`source.py:67`, `90`).
- `prepare_field_value` (JSON decoding, exploding nested keys), `_extract_field_info`, `_replace_field_names_case_insensitively`, `lenient_issubclass` and `model_fields`: this code lives in pydantic-settings and pydantic, so it appears only as the `Framework` hook functions and the `FieldInfo` flag.
- `AwsSsmSettingsSource.constructor`: the resolution of `case_sensitive` from the argument or `model_config` happens in pydantic-settings, so the resolved flag is a parameter. `EnvSettingsSource.__init__` is not part of this model; `NewSource` plays its part of running `_load_env_vars` and storing `env_vars`.
- `AwsSsmSettingsSource.constructor`: the `assert ssm_prefix == self.env_prefix` on `source.py:52` always holds here, because the model stores the resolved prefix unchanged. The AssertionError path is not modelled.
- `CaseFold.Lower`: only ASCII letters are lower-cased. Python's Unicode case mapping is not modelled, including mappings that change a string's length.
- `PyRepr.StrReprRoundTrip`: the characters `repr` writes as `\xhh` are covered up to U+00FF (controls, DEL, NBSP, soft hyphen). Non-printable characters above U+00FF, which Python writes as `\u`/`\U` escapes, are treated as printable.
- `SsmLoad.LoadFailure`: the text of `relative_to`'s ValueError varies across Python versions, so the error records the two paths instead of the message.
- `SsmAssemble.LookupErrorWrapped`: the messages use the fixed class name `AwsSsmSettingsSource`. A subclass would put its own `__class__.__name__` there.
- Only POSIX path semantics are modelled. `source.py` uses `Path`, which on Windows is `WindowsPath`: there `"/asdf"` has no drive and is not absolute, so every prefix would be rejected, and `relative_to` compares case-insensitively.
- `SsmAssemble.FieldEntry`: `prepare_field_value` receives `env_vars` as a `map`, which has no order. In Python the dict keeps insertion order (the order of the pages and parameters), and pydantic-settings iterates it in that order when it explodes nested names; the hook cannot see that order here.
- Exceptions that are not modelled: a `KeyError` from a malformed page (a missing `"Parameters"`, `"Name"` or `"Value"`), and exceptions from the paginator other than `ClientError`.
- `pydantic_ssm_settings/ssm.py` (a lazy proxy that fetches one parameter on first use), `pydantic_ssm_settings/settings.py` (source ordering, which pydantic-settings applies) and `pydantic_ssm_settings/scripts/cli.py` (bulk upload): these are I/O and framework wiring and are not part of this model.
