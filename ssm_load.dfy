/**
 * What `AwsSsmSettingsSource._load_env_vars` computes: the flat map from
 * normalised parameter names to parameter values.
 */
module SsmLoad {
  import opened Results
  import opened PosixPath
  import opened CaseFold
  import opened SsmTypes
  import opened OrderedStore

  /**
   * The key a parameter is stored under: the prefix followed, with nothing in
   * between, by the name relative to the prefix; both lower-cased when the
   * source is case-insensitive. The key starts with the prefix (lower-cased
   * when the source is), and a case-insensitive key has no upper-case letter.
   */
  function NormalizedKey(prefix: string, caseSensitive: bool, name: string): (r: Result<string, Exception>)
    ensures r.Err? <==> RelativeTo(name, prefix).None?
    ensures r.Err? ==> r.error == PathNotRelative(name, prefix)
    ensures r.Ok? ==> |prefix| <= |r.value| && r.value[..|prefix|] == (if caseSensitive then prefix else Lower(prefix))
    ensures r.Ok? && !caseSensitive ==> IsLower(r.value)
  {
    match RelativeTo(name, prefix)
    case None => Err(PathNotRelative(name, prefix))
    case Some(rel) =>
      LowerAppend(prefix, rel);
      LowerIsLower(prefix + rel);
      Ok(if caseSensitive then prefix + rel else Lower(prefix) + Lower(rel))
  }

  /** One assignment `output[key] = parameter["Value"]`, or the exception computing `key` raises. */
  function KeyedEntry(prefix: string, caseSensitive: bool, p: Parameter): Result<Option<(string, string)>, Exception>
  {
    match NormalizedKey(prefix, caseSensitive, p.name)
    case Err(e) => Err(e)
    case Ok(k) => Ok(Some((k, p.value)))
  }

  function KeyedEntries(prefix: string, caseSensitive: bool, ps: seq<Parameter>): (r: seq<Result<Option<(string, string)>, Exception>>)
    ensures |r| == |ps|
    ensures forall i :: 0 <= i < |ps| ==> r[i] == KeyedEntry(prefix, caseSensitive, ps[i])
  {
    if ps == [] then [] else [KeyedEntry(prefix, caseSensitive, ps[0])] + KeyedEntries(prefix, caseSensitive, ps[1..])
  }

  /** The parameters of the pages delivered before the first `ClientError`, in order. */
  function Delivered(listing: seq<Fetch>): seq<Parameter>
  {
    if listing == [] then []
    else match listing[0]
      case ClientError(_) => []
      case Page(ps) => ps + Delivered(listing[1..])
  }

  /** The page requests the walk makes: each page up to and including the first that raises `ClientError`. */
  function Fetched(listing: seq<Fetch>): (n: nat)
    ensures n <= |listing|
    ensures listing != [] ==> n > 0
  {
    if listing == [] then 0
    else if listing[0].ClientError? then 1
    else 1 + Fetched(listing[1..])
  }

  /** Walks the pages; a `ClientError` ends the walk and what was stored so far is kept. */
  function LoadFrom(prefix: string, caseSensitive: bool, listing: seq<Fetch>, acc: map<string, string>)
    : Result<map<string, string>, Exception>
  {
    if listing == [] then Ok(acc)
    else match listing[0]
      case ClientError(_) => Ok(acc)
      case Page(ps) =>
        match StoreAll(KeyedEntries(prefix, caseSensitive, ps), acc)
        case Err(e) => Err(e)
        case Ok(m) => LoadFrom(prefix, caseSensitive, listing[1..], m)
  }

  /** `_load_env_vars`: the prefix check comes first, then the walk from an empty dict. */
  function LoadEnvVars(prefix: string, caseSensitive: bool, listing: seq<Fetch>): Result<map<string, string>, Exception>
  {
    if !IsAbsolute(prefix) then Err(ValueError(PrefixNotAbsoluteMessage))
    else LoadFrom(prefix, caseSensitive, listing, map[])
  }

  ghost predicate Writes(prefix: string, caseSensitive: bool, ps: seq<Parameter>, i: int, k: string) {
    0 <= i < |ps| && NormalizedKey(prefix, caseSensitive, ps[i].name) == Ok(k)
  }

  ghost predicate HasKey(prefix: string, caseSensitive: bool, ps: seq<Parameter>, k: string) {
    exists i :: Writes(prefix, caseSensitive, ps, i, k)
  }

  /** `ps[i]` is the last parameter that normalises to `k`. */
  ghost predicate LastWriter(prefix: string, caseSensitive: bool, ps: seq<Parameter>, i: int, k: string) {
    Writes(prefix, caseSensitive, ps, i, k) &&
    forall j :: i < j < |ps| ==> !Writes(prefix, caseSensitive, ps, j, k)
  }

  ghost predicate AllNormalize(prefix: string, caseSensitive: bool, ps: seq<Parameter>) {
    forall i :: 0 <= i < |ps| ==> NormalizedKey(prefix, caseSensitive, ps[i].name).Ok?
  }

  /** `ps[i]` is the first parameter whose name is not below the prefix, and its error is `e`. */
  ghost predicate FirstFailure(prefix: string, caseSensitive: bool, ps: seq<Parameter>, i: int, e: Exception) {
    0 <= i < |ps| && NormalizedKey(prefix, caseSensitive, ps[i].name) == Err(e) &&
    forall j :: 0 <= j < i ==> NormalizedKey(prefix, caseSensitive, ps[j].name).Ok?
  }

  lemma KeyedEntriesAppend(prefix: string, caseSensitive: bool, xs: seq<Parameter>, ys: seq<Parameter>)
    ensures KeyedEntries(prefix, caseSensitive, xs + ys) ==
      KeyedEntries(prefix, caseSensitive, xs) + KeyedEntries(prefix, caseSensitive, ys)
  {
    var l, r := KeyedEntries(prefix, caseSensitive, xs + ys), KeyedEntries(prefix, caseSensitive, xs) + KeyedEntries(prefix, caseSensitive, ys);
    forall i | 0 <= i < |l| ensures l[i] == r[i] {
      if i >= |xs| {
        assert (xs + ys)[i] == ys[i - |xs|];
      }
    }
  }

  /** The entries of the parameters say, pointwise, which key each parameter writes. */
  lemma KeyedStores(prefix: string, caseSensitive: bool, ps: seq<Parameter>)
    ensures var es := KeyedEntries(prefix, caseSensitive, ps);
      (forall i, k :: StoresAt(es, i, k) <==> Writes(prefix, caseSensitive, ps, i, k)) &&
      (forall k :: StoresKey(es, k) <==> HasKey(prefix, caseSensitive, ps, k)) &&
      (forall i, k :: LastStore(es, i, k) <==> LastWriter(prefix, caseSensitive, ps, i, k)) &&
      (forall i, k :: LastStore(es, i, k) ==> es[i].value.value.1 == ps[i].value) &&
      (AllOk(es) <==> AllNormalize(prefix, caseSensitive, ps)) &&
      (forall i, e :: FirstError(es, i, e) ==> FirstFailure(prefix, caseSensitive, ps, i, e))
  {
    var es := KeyedEntries(prefix, caseSensitive, ps);
    forall i, e | FirstError(es, i, e) ensures FirstFailure(prefix, caseSensitive, ps, i, e) {
      forall j | 0 <= j < i ensures NormalizedKey(prefix, caseSensitive, ps[j].name).Ok? {
        assert es[..i][j].Ok?;
      }
    }
  }

  /** The page walk is the parameter walk over everything delivered before the first `ClientError`. */
  lemma {:induction false} LoadFromDelivered(prefix: string, caseSensitive: bool, listing: seq<Fetch>, acc: map<string, string>)
    ensures LoadFrom(prefix, caseSensitive, listing, acc) == StoreAll(KeyedEntries(prefix, caseSensitive, Delivered(listing)), acc)
  {
    if listing != [] {
      match listing[0]
      case ClientError(_) =>
      case Page(ps) =>
        KeyedEntriesAppend(prefix, caseSensitive, ps, Delivered(listing[1..]));
        StoreAllAppend(KeyedEntries(prefix, caseSensitive, ps), KeyedEntries(prefix, caseSensitive, Delivered(listing[1..])), acc);
        match StoreAll(KeyedEntries(prefix, caseSensitive, ps), acc)
        case Err(_) =>
        case Ok(m) => LoadFromDelivered(prefix, caseSensitive, listing[1..], m);
    }
  }

  /**
   * A `ClientError` on request `n` is swallowed: the result is what the
   * requests before it produced, whatever the later pages would have held.
   */
  lemma {:induction false} ClientErrorKeepsEarlierEntries(prefix: string, caseSensitive: bool, listing: seq<Fetch>, n: nat, acc: map<string, string>)
    requires n < |listing| && listing[n].ClientError?
    ensures LoadFrom(prefix, caseSensitive, listing, acc) == LoadFrom(prefix, caseSensitive, listing[..n], acc)
  {
    if n > 0 {
      assert listing[..n][0] == listing[0];
      assert listing[..n][1..] == listing[1..][..n - 1];
      match listing[0]
      case ClientError(_) =>
      case Page(ps) =>
        match StoreAll(KeyedEntries(prefix, caseSensitive, ps), acc)
        case Err(_) =>
        case Ok(m) => ClientErrorKeepsEarlierEntries(prefix, caseSensitive, listing[1..], n - 1, m);
    }
  }

  /**
   * A successful load holds exactly one key per normalised name delivered
   * before the first `ClientError`, mapped to the value of the last parameter
   * with that key.
   */
  lemma LoadedEntries(prefix: string, caseSensitive: bool, listing: seq<Fetch>)
    requires LoadEnvVars(prefix, caseSensitive, listing).Ok?
    ensures IsAbsolute(prefix)
    ensures var m, ps := LoadEnvVars(prefix, caseSensitive, listing).value, Delivered(listing);
      AllNormalize(prefix, caseSensitive, ps) &&
      (forall k :: k in m <==> HasKey(prefix, caseSensitive, ps, k)) &&
      (forall i, k :: LastWriter(prefix, caseSensitive, ps, i, k) ==> k in m && m[k] == ps[i].value)
  {
    var ps := Delivered(listing);
    var es := KeyedEntries(prefix, caseSensitive, ps);
    LoadFromDelivered(prefix, caseSensitive, listing, map[]);
    StoreAllSucceeds(es, map[]);
    StoreAllEntries(es, map[]);
    KeyedStores(prefix, caseSensitive, ps);
  }

  /**
   * A load fails either on the prefix check, which needs no page at all, or
   * on the first delivered parameter whose name is not below the prefix.
   */
  lemma LoadFailure(prefix: string, caseSensitive: bool, listing: seq<Fetch>, e: Exception)
    requires LoadEnvVars(prefix, caseSensitive, listing) == Err(e)
    ensures !IsAbsolute(prefix) ==> e == ValueError(PrefixNotAbsoluteMessage)
    ensures IsAbsolute(prefix) ==> exists i :: FirstFailure(prefix, caseSensitive, Delivered(listing), i, e)
    ensures e.IsValueError()
  {
    if IsAbsolute(prefix) {
      var es := KeyedEntries(prefix, caseSensitive, Delivered(listing));
      LoadFromDelivered(prefix, caseSensitive, listing, map[]);
      StoreAllFails(es, map[], e);
      KeyedStores(prefix, caseSensitive, Delivered(listing));
    }
  }

  /**
   * A parameter stored at `<prefix>/<rel>` gets the key `prefix + rel`, with no
   * separator in between (so prefix "/asdf" and name "/asdf/foo" give
   * "/asdffoo"), lower-cased as a whole when the source is case-insensitive.
   */
  lemma ChildKey(prefix: string, caseSensitive: bool, segs: seq<string>)
    requires IsAbsolute(prefix) && CleanSegments(segs) && segs != []
    ensures NormalizedKey(prefix, caseSensitive, ChildPath(prefix, Join(segs))) ==
      Ok(if caseSensitive then prefix + Join(segs) else Lower(prefix + Join(segs)))
  {
    RelativeToChild(prefix, segs);
    LowerAppend(prefix, Join(segs));
  }
}
