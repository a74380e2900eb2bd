/**
 * lib/config.js: the configuration accessor. `Get` and `Has` are the lookups over
 * the loaded tree; `Loader` is the module-level cache `_config` that is filled from
 * lerret.yaml on first use.
 */
module Config {
  import opened Wrappers
  import opened Errors
  import opened JsonValues

  const ContentDirectoryDefault: string := "./content"
  const PluginDirectoryDefault: string := "./plugins"

  /**
   * `_.defaults(config, {contentDirectory, pluginDirectory})`: each default is added
   * only when its key is absent; a value that is not an object is left alone.
   */
  function WithDefaults(config: Json): (r: Json)
    ensures config.JObj? ==> r.JObj? && r.members.Keys == config.members.Keys + {"contentDirectory", "pluginDirectory"}
    ensures config.JObj? ==> forall k :: k in config.members ==> r.members[k] == config.members[k]
    ensures config.JObj? && "contentDirectory" !in config.members ==> r.members["contentDirectory"] == JStr(ContentDirectoryDefault)
    ensures config.JObj? && "pluginDirectory" !in config.members ==> r.members["pluginDirectory"] == JStr(PluginDirectoryDefault)
    ensures !config.JObj? ==> r == config
  {
    match config
    case JObj(m) =>
      var withContent := if "contentDirectory" in m then m else m["contentDirectory" := JStr(ContentDirectoryDefault)];
      JObj(if "pluginDirectory" in withContent then withContent
           else withContent["pluginDirectory" := JStr(PluginDirectoryDefault)])
    case _ => config
  }

  /** Applying the defaults again changes nothing, so doing it on every call is harmless. */
  lemma DefaultsIdempotent(config: Json)
    ensures WithDefaults(WithDefaults(config)) == WithDefaults(config)
  {
    if config.JObj? {
      var once := WithDefaults(config);
      assert WithDefaults(once).members == once.members;
    }
  }

  /**
   * `get(path, defaultValue)`: the stored value, else the default, else a plain
   * Error. `defaultValue == None` is a call without a default.
   */
  function Get(config: Json, path: string, defaultValue: Option<Json>): (r: Result<Json, Error>)
    ensures r.Success? <==> Has(config, path) || defaultValue.Some?
    ensures Has(config, path) ==> r == Success(Lookup(config, path).value)
    ensures !Has(config, path) && defaultValue.Some? ==> r == Success(defaultValue.value)
    ensures !Has(config, path) && defaultValue.None? ==>
      r == Failure(PlainError("Configuration parameter '" + path + "' does not exist."))
  {
    match Lookup(config, path)
    case Some(v) => Success(v)
    case None =>
      match defaultValue
      case Some(d) => Success(d)
      case None => Failure(PlainError("Configuration parameter '" + path + "' does not exist."))
  }

  /** `has(path)`. */
  predicate Has(config: Json, path: string)
  {
    HasPath(config, path)
  }

  /** The built-in defaults are visible through `get` unless the user set the key. */
  lemma DirectoryDefaults(user: map<string, Json>)
    ensures Get(WithDefaults(JObj(user)), "contentDirectory", None)
         == Success(if "contentDirectory" in user then user["contentDirectory"] else JStr(ContentDirectoryDefault))
    ensures Get(WithDefaults(JObj(user)), "pluginDirectory", None)
         == Success(if "pluginDirectory" in user then user["pluginDirectory"] else JStr(PluginDirectoryDefault))
  {
    assert IsPlainKey("contentDirectory");
    assert IsPlainKey("pluginDirectory");
    assert ["contentDirectory"][1..] == [];
    assert ["pluginDirectory"][1..] == [];
  }

  /** What `_config` holds after one call of `config()`. */
  function Cached(cache: Option<Json>, file: Result<Option<Json>, Error>): Option<Json>
  {
    match cache
    case Some(c) => Some(WithDefaults(c))
    case None => if file.Success? && file.value.Some? then Some(WithDefaults(file.value.value)) else None
  }

  /** What one call of `config()` returns or throws. */
  function Loaded(cache: Option<Json>, file: Result<Option<Json>, Error>): Result<Json, Error>
  {
    match Cached(cache, file)
    case Some(c) => Success(c)
    case None => if file.Failure? && cache.None? then Failure(file.error) else Success(JNull)
  }

  /** Once a value is cached, the file is never consulted again and the cached tree is stable. */
  lemma CacheIsStable(c: Json, file: Result<Option<Json>, Error>, other: Result<Option<Json>, Error>)
    ensures Cached(Cached(Some(c), file), other) == Cached(Some(c), file)
    ensures Loaded(Cached(Some(c), file), other) == Loaded(Some(c), other)
  {
    DefaultsIdempotent(c);
  }

  /**
   * The cached configuration. `file` arguments stand for what reading and parsing
   * ./lerret.yaml would give at that moment: an error, `None` for a document that
   * parses to `undefined` (an empty file), or a value.
   */
  class Loader {
    /** `_config`; `None` while it is still `undefined`. */
    var cache: Option<Json>
    /** How many times lerret.yaml has been read and parsed. */
    var fileReads: nat

    constructor ()
      ensures cache == None && fileReads == 0
    {
      cache := None;
      fileReads := 0;
    }

    /**
     * `config()`: reads the file only while nothing is cached, then applies the
     * defaults to whatever is cached. An `undefined` result is not cached; lookups
     * through it behave as lookups through `null` (the default, or not found).
     */
    method Load(file: Result<Option<Json>, Error>) returns (r: Result<Json, Error>)
      modifies this
      ensures fileReads == old(fileReads) + (if old(cache).None? then 1 else 0)
      ensures cache == Cached(old(cache), file)
      ensures r == Loaded(old(cache), file)
    {
      if cache.None? {
        fileReads := fileReads + 1;
        if file.Failure? {
          return Failure(file.error);
        }
        cache := file.value;
      }
      if cache.None? {
        return Success(JNull);
      }
      cache := Some(WithDefaults(cache.value));
      r := Success(cache.value);
    }

    /** `get(path, defaultValue)` through the cache. */
    method GetValue(file: Result<Option<Json>, Error>, path: string, defaultValue: Option<Json>)
      returns (r: Result<Json, Error>)
      modifies this
      ensures fileReads == old(fileReads) + (if old(cache).None? then 1 else 0)
      ensures cache == Cached(old(cache), file)
      ensures r == (match Loaded(old(cache), file)
                    case Failure(e) => Failure(e)
                    case Success(config) => Get(config, path, defaultValue))
    {
      var loaded := Load(file);
      if loaded.Failure? {
        return Failure(loaded.error);
      }
      r := Get(loaded.value, path, defaultValue);
    }

    /** `has(path)` through the cache. */
    method HasValue(file: Result<Option<Json>, Error>, path: string) returns (r: Result<bool, Error>)
      modifies this
      ensures fileReads == old(fileReads) + (if old(cache).None? then 1 else 0)
      ensures cache == Cached(old(cache), file)
      ensures r == (match Loaded(old(cache), file)
                    case Failure(e) => Failure(e)
                    case Success(config) => Success(Has(config, path)))
    {
      var loaded := Load(file);
      if loaded.Failure? {
        return Failure(loaded.error);
      }
      r := Success(Has(loaded.value, path));
    }
  }

  /**
   * Two lookups on a fresh accessor read the file once when it parses to a value,
   * and the second lookup sees the same (defaulted) tree whatever the file holds by then.
   */
  method TwoLookups(first: Result<Option<Json>, Error>, later: Result<Option<Json>, Error>, p: string, q: string)
    returns (readCount: nat, a: Result<Json, Error>, b: Result<bool, Error>)
    ensures first.Success? && first.value.Some? ==> readCount == 1
    ensures first.Success? && first.value.Some? ==>
      a == Get(WithDefaults(first.value.value), p, None) && b == Success(Has(WithDefaults(first.value.value), q))
    ensures first.Failure? ==> readCount == 2 && a == Failure(first.error)
  {
    var loader := new Loader();
    a := loader.GetValue(first, p, None);
    b := loader.HasValue(later, q);
    readCount := loader.fileReads;
    if first.Success? && first.value.Some? {
      DefaultsIdempotent(first.value.value);
    }
  }
}
