/**
 * lib/plugins/index.js: installing the built-in plugins, then the project's
 * own, and running the configured plugin sequence. The plugin directory's
 * listing (`fs.readdir` plus one `fs.stat` per entry) and `require` of a
 * project module are given to the model as their outcomes.
 */
module PluginFacade {
  import opened Wrappers
  import opened Errors
  import opened JsonValues
  import opened Content
  import opened Config
  import opened Paths
  import opened Plugins
  import Magick
  import Convert

  /** lib/plugins/copy.js: `path.basename(image.filename)` throws when the image has no string filename. */
  function CopyImage(image: Image, index: nat, length: nat, album: Album, site: Site, config: Json): (r: Result<Option<Image>, Error>)
    ensures r.Success? <==> Field(image.fields, "filename").Some? && Field(image.fields, "filename").value.JStr?
    ensures r.Success? ==> r.value.None?
    ensures r.Failure? ==> r.error == Magick.PathTypeError
  {
    match Field(image.fields, "filename")
    case Some(JStr(_)) => Success(None)
    case _ => Failure(Magick.PathTypeError)
  }

  function CopyModule(): PluginModule
  {
    PluginModule(Some("copy"), None, None, Some(CopyImage))
  }

  /** lib/plugins/pug.js: each hook first reads its template setting, which has no default. */
  function PugTemplate(config: Json, page: string): (r: Outcome<Error>)
    ensures r.Pass? <==> Has(config, "pug.templates." + page)
    ensures r.Fail? ==> r.error == PlainError("Configuration parameter '" + ("pug.templates." + page) + "' does not exist.")
  {
    match Get(config, "pug.templates." + page, None)
    case Failure(e) => Fail(e)
    case Success(_) => Pass
  }

  function RenderHome(site: Site, config: Json): Result<Option<Site>, Error>
  {
    match PugTemplate(config, "home")
    case Fail(e) => Failure(e)
    case Pass => Success(None)
  }

  function RenderAlbum(album: Album, index: nat, length: nat, site: Site, config: Json): Result<Option<Album>, Error>
  {
    match PugTemplate(config, "album")
    case Fail(e) => Failure(e)
    case Pass => Success(None)
  }

  function RenderImage(image: Image, index: nat, length: nat, album: Album, site: Site, config: Json): Result<Option<Image>, Error>
  {
    match PugTemplate(config, "image")
    case Fail(e) => Failure(e)
    case Pass => Success(None)
  }

  function PugModule(): PluginModule
  {
    PluginModule(Some("pug"), Some(RenderHome), Some(RenderAlbum), Some(RenderImage))
  }

  /** `builtInPlugins`, in installation order. */
  function BuiltInPlugins(): seq<PluginModule>
  {
    [Convert.Module(), CopyModule(), PugModule()]
  }

  /** The registry once the three built-ins are installed into an empty one. */
  function BuiltInRegistry(): map<string, Plugin>
  {
    map["convert" := ToPlugin(Convert.Module()), "copy" := ToPlugin(CopyModule()), "pug" := ToPlugin(PugModule())]
  }

  /** How installing a list of modules settled, the registry it left, and the project paths it loaded. */
  datatype Installation = Installation(outcome: Outcome<Error>, registered: map<string, Plugin>, loaded: seq<string>)

  /** `Promise.each(modules, installPlugin)`: one module after the other, stopping at the first rejection. */
  function InstallAll(registered: map<string, Plugin>, modules: seq<PluginModule>): (r: Installation)
    ensures r.loaded == []
    ensures forall k :: k in registered ==> k in r.registered && r.registered[k] == registered[k]
    ensures r.outcome.Pass? ==> forall j :: 0 <= j < |modules| ==> modules[j].name.Some? && modules[j].name.value in r.registered
    decreases |modules|
  {
    if modules == [] then Installation(Pass, registered, [])
    else match InstallCheck(registered, modules[0])
      case Fail(e) => Installation(Fail(e), registered, [])
      case Pass =>
        var rest := InstallAll(Installed(registered, modules[0]), modules[1..]);
        assert forall j :: 1 <= j < |modules| ==> modules[j] == modules[1..][j - 1];
        rest
  }

  /** `loadBuiltInPlugins()`: the built-ins go into an empty registry without error, under their own names. */
  lemma BuiltInsInstalled()
    ensures InstallAll(map[], BuiltInPlugins()) == Installation(Pass, BuiltInRegistry(), [])
  {
    var m := BuiltInPlugins();
    assert "copy" != "convert" by { assert "copy"[2] != "convert"[2]; }
    assert "pug" !in {"convert", "copy"} by { assert "pug"[0] != "convert"[0] && "pug"[0] != "copy"[0]; }
    var r1 := map["convert" := ToPlugin(Convert.Module())];
    assert InstallCheck(map[], m[0]) == Pass && Installed(map[], m[0]) == r1;
    var r2 := r1["copy" := ToPlugin(CopyModule())];
    assert InstallCheck(r1, m[1]) == Pass && Installed(r1, m[1]) == r2;
    assert InstallCheck(r2, m[2]) == Pass && Installed(r2, m[2]) == BuiltInRegistry();
    assert m[1..] == [m[1], m[2]] && m[1..][1..] == [m[2]] && m[1..][1..][1..] == [];
  }

  /** A project plugin that reuses a built-in's name is refused, since the built-ins are installed first. */
  lemma BuiltInNamesTaken(m: PluginModule)
    requires m.name == Some("convert") || m.name == Some("copy") || m.name == Some("pug")
    requires m.processSite.Some? || m.processAlbum.Some? || m.processImage.Some?
    ensures InstallCheck(BuiltInRegistry(), m) == Fail(LerretError(TakenMessage(m.name.value)))
  {
    assert m.name.value in BuiltInRegistry();
  }

  /** One entry of the plugin directory: its name and what `fs.stat` says about it (is it a directory?). */
  datatype Entry = Entry(name: string, stat: Result<bool, Error>)

  /**
   * An entry after the `map` step: its resolved path, the two tests the
   * filters apply to that path (`path.basename(f).startsWith(".")` and
   * `path.extname(f) === ".js"`), and what `fs.stat` says about it.
   */
  datatype Listed = Listed(path: string, hidden: bool, js: bool, stat: Result<bool, Error>)

  /** The listed form of a resolved path. */
  function ListedPath(path: string, stat: Result<bool, Error>): Listed
  {
    Listed(path, IsHidden(path), Extname(path) == ".js", stat)
  }

  /** `path.resolve(pluginDirectory, filename)`, for an absolute, normalised directory. */
  function ResolvedPath(directory: string, name: string): string
  {
    directory + "/" + name
  }

  /** `.map(filename => path.resolve(pluginDirectory, filename))`. */
  function Resolved(directory: string, entries: seq<Entry>): (r: seq<Listed>)
    ensures |r| == |entries|
  {
    seq(|entries|, k requires 0 <= k < |entries| => ListedPath(ResolvedPath(directory, entries[k].name), entries[k].stat))
  }

  /** The chain of filters lets this path through: not hidden, and a directory or a ".js" file. */
  predicate Accepted(l: Listed)
  {
    !l.hidden && l.stat.Success? && (l.stat.value || l.js)
  }

  /**
   * The two `filter` steps of `loadProjectPlugins`: hidden paths are
   * dropped without a `stat`; a failing `stat` of any other path rejects.
   */
  function Candidates(listed: seq<Listed>): (r: Result<seq<string>, Error>)
    ensures r.Success? <==> forall k :: 0 <= k < |listed| && !listed[k].hidden ==> listed[k].stat.Success?
    decreases |listed|
  {
    if listed == [] then Success([])
    else
      var rest := Candidates(listed[1..]);
      assert forall k :: 1 <= k < |listed| ==> listed[k] == listed[1..][k - 1];
      if listed[0].hidden then rest
      else if listed[0].stat.Failure? then Failure(listed[0].stat.error)
      else if rest.Failure? then rest
      else if listed[0].stat.value || listed[0].js then Success([listed[0].path] + rest.value)
      else rest
  }

  /** Candidate j is the path of accepted entry k, and k is at least j. */
  lemma {:induction false} CandidateSource(listed: seq<Listed>, j: nat) returns (k: nat)
    requires Candidates(listed).Success? && j < |Candidates(listed).value|
    ensures j <= k < |listed| && Accepted(listed[k]) && Candidates(listed).value[j] == listed[k].path
    decreases |listed|
  {
    var paths := Candidates(listed).value;
    var rest := Candidates(listed[1..]);
    if Accepted(listed[0]) {
      if j == 0 {
        return 0;
      }
      assert paths[j] == rest.value[j - 1];
      k := CandidateSource(listed[1..], j - 1);
    } else {
      k := CandidateSource(listed[1..], j);
    }
    assert listed[1..][k] == listed[k + 1];
    k := k + 1;
  }

  /** Every candidate is the path of an accepted entry. */
  lemma CandidatesSound(listed: seq<Listed>)
    requires Candidates(listed).Success?
    ensures var paths := Candidates(listed).value;
      forall j :: 0 <= j < |paths| ==> exists k :: 0 <= k < |listed| && Accepted(listed[k]) && paths[j] == listed[k].path
  {
    var paths := Candidates(listed).value;
    forall j | 0 <= j < |paths|
      ensures exists k :: 0 <= k < |listed| && Accepted(listed[k]) && paths[j] == listed[k].path
    {
      var k := CandidateSource(listed, j);
    }
  }

  /** Every accepted entry's path is a candidate. */
  lemma {:induction false} CandidatesComplete(listed: seq<Listed>)
    requires Candidates(listed).Success?
    ensures forall k :: 0 <= k < |listed| && Accepted(listed[k]) ==> listed[k].path in Candidates(listed).value
    decreases |listed|
  {
    if listed != [] {
      CandidatesComplete(listed[1..]);
      forall k | 1 <= k < |listed| && Accepted(listed[k])
        ensures listed[k].path in Candidates(listed).value
      {
        assert listed[k] == listed[1..][k - 1];
      }
    }
  }

  /** The filters keep listing order: the candidates of a + b are those of a followed by those of b. */
  lemma {:induction false} CandidatesAppend(a: seq<Listed>, b: seq<Listed>)
    ensures var first := Candidates(a);
      var second := Candidates(b);
      Candidates(a + b) ==
      if first.Failure? then first
      else if second.Failure? then second
      else Success(first.value + second.value)
    decreases |a|
  {
    if a == [] {
      assert a + b == b;
      if Candidates(b).Success? {
        assert [] + Candidates(b).value == Candidates(b).value;
      }
    } else {
      assert (a + b)[1..] == a[1..] + b;
      CandidatesAppend(a[1..], b);
      if Accepted(a[0]) && Candidates(a[1..]).Success? && Candidates(b).Success? {
        assert [a[0].path] + Candidates(a[1..]).value + Candidates(b).value ==
          [a[0].path] + (Candidates(a[1..]).value + Candidates(b).value);
      }
    }
  }

  /** A single entry passes exactly when it is accepted. */
  lemma CandidatesOfOne(l: Listed)
    ensures Candidates([l]) ==
      if l.hidden then Success([])
      else if l.stat.Failure? then Failure(l.stat.error)
      else if Accepted(l) then Success([l.path])
      else Success([])
  {
    assert [l][1..] == [];
    assert [l.path] + [] == [l.path];
  }

  /** A directory entry's name is the basename of its resolved path. */
  lemma BasenameOfResolved(directory: string, name: string)
    requires name != [] && forall k :: 0 <= k < |name| ==> name[k] != '/'
    ensures Basename(ResolvedPath(directory, name)) == name
  {
    var p := ResolvedPath(directory, name);
    assert p[|directory|] == '/' && p[|directory| + 1..] == name;
    assert forall k :: |directory| < k < |p| ==> p[k] == name[k - |directory| - 1];
    var last := LastIndexOf(p, '/');
    assert last == |directory|;
    assert Basename(p) == p[last + 1..];
  }

  /**
   * For a directory entry (a name without "/"), the filters accept it iff
   * the name does not start with ".", its `stat` succeeds, and it is a
   * directory or its name ends in ".js".
   */
  lemma AcceptedByName(directory: string, e: Entry)
    requires e.name != [] && forall k :: 0 <= k < |e.name| ==> e.name[k] != '/'
    ensures Accepted(ListedPath(ResolvedPath(directory, e.name), e.stat)) <==>
      e.name[0] != '.' && e.stat.Success? &&
      (e.stat.value || (|e.name| >= 3 && e.name[|e.name| - 3..] == ".js"))
  {
    BasenameOfResolved(directory, e.name);
    var path := ResolvedPath(directory, e.name);
    if !IsHidden(path) {
      JsExtension(path);
    }
  }

  /** `.catch({ code: "ENOENT" }, ...)`. */
  predicate IsMissingFile(e: Error)
  {
    e.SystemError? && e.code == "ENOENT"
  }

  /**
   * The error a failing `require` becomes: `LerretError` formats its
   * arguments with `util.format`, whose format string has one `%s` and a
   * literal `$s`, so the message is appended after a space.
   */
  function LoadError(path: string, e: Error): Error
  {
    LerretError("Cannot load module " + path + "; $s " + e.message)
  }

  /** `.each(filename => require(filename) then installPlugin)`: sequential, stopping at the first rejection. */
  function LoadEach(registered: map<string, Plugin>, paths: seq<string>, load: string -> Result<PluginModule, Error>): (r: Installation)
    ensures |r.loaded| <= |paths| && r.loaded == paths[..|r.loaded|]
    ensures r.outcome.Pass? ==> r.loaded == paths
    ensures forall k :: k in registered ==> k in r.registered && r.registered[k] == registered[k]
    decreases |paths|
  {
    if paths == [] then Installation(Pass, registered, [])
    else match load(paths[0])
      case Failure(e) => Installation(Fail(LoadError(paths[0], e)), registered, [paths[0]])
      case Success(m) =>
        match InstallCheck(registered, m)
        case Fail(e) => Installation(Fail(e), registered, [paths[0]])
        case Pass =>
          var rest := LoadEach(Installed(registered, m), paths[1..], load);
          Installation(rest.outcome, rest.registered, [paths[0]] + rest.loaded)
  }

  /** What a caught or uncaught error leaves of `loadProjectPlugins`: ENOENT resolves with nothing installed. */
  function Skipped(registered: map<string, Plugin>, e: Error): Installation
  {
    if IsMissingFile(e) then Installation(Pass, registered, []) else Installation(Fail(e), registered, [])
  }

  /** `loadProjectPlugins()`, given the directory listing and `require`. */
  function ProjectPlugins(registered: map<string, Plugin>, config: Json, listing: Result<seq<Entry>, Error>,
                          load: string -> Result<PluginModule, Error>): Installation
  {
    match Get(config, "pluginDirectory", None)
    case Failure(e) => Installation(Fail(e), registered, [])
    case Success(JStr(directory)) =>
      (match listing
       case Failure(e) => Skipped(registered, e)
       case Success(entries) =>
         match Candidates(Resolved(directory, entries))
         case Failure(e) => Skipped(registered, e)
         case Success(paths) => LoadEach(registered, paths, load))
    case Success(_) => Installation(Fail(Magick.PathTypeError), registered, [])
  }

  /** `initPlugins()`: the built-ins first, then the project plugins. */
  function InitPlugins(registered: map<string, Plugin>, config: Json, listing: Result<seq<Entry>, Error>,
                       load: string -> Result<PluginModule, Error>): Installation
  {
    var builtIns := InstallAll(registered, BuiltInPlugins());
    if builtIns.outcome.Fail? then builtIns else ProjectPlugins(builtIns.registered, config, listing, load)
  }

  /** With a listed directory, `loadProjectPlugins` loads the candidates, or settles as the filter error dictates. */
  lemma ProjectPluginsListed(registered: map<string, Plugin>, config: Json, directory: string, entries: seq<Entry>,
                             load: string -> Result<PluginModule, Error>)
    requires Get(config, "pluginDirectory", None) == Success(JStr(directory))
    ensures var candidates := Candidates(Resolved(directory, entries));
      ProjectPlugins(registered, config, Success(entries), load) ==
      if candidates.Failure? then Skipped(registered, candidates.error) else LoadEach(registered, candidates.value, load)
  {
  }

  /**
   * Only accepted entries are ever loaded: everything `require` sees is the
   * path of an accepted entry (and, by `LoadEach`, a prefix of the
   * candidates in listing order, all of them when loading succeeds).
   */
  lemma LoadedAreCandidates(registered: map<string, Plugin>, listed: seq<Listed>, load: string -> Result<PluginModule, Error>)
    requires Candidates(listed).Success?
    ensures var r := LoadEach(registered, Candidates(listed).value, load);
      forall j :: 0 <= j < |r.loaded| ==> exists k :: 0 <= k < |listed| && Accepted(listed[k]) && r.loaded[j] == listed[k].path
  {
    var paths := Candidates(listed).value;
    var r := LoadEach(registered, paths, load);
    CandidatesSound(listed);
    forall j | 0 <= j < |r.loaded|
      ensures exists k :: 0 <= k < |listed| && Accepted(listed[k]) && r.loaded[j] == listed[k].path
    {
      assert r.loaded[j] == paths[j];
    }
  }

  /** A missing plugin directory leaves exactly the built-ins installed, and nothing is loaded. */
  lemma MissingDirectoryLeavesBuiltIns(config: Json, message: string, load: string -> Result<PluginModule, Error>)
    requires Get(config, "pluginDirectory", None).Success? && Get(config, "pluginDirectory", None).value.JStr?
    ensures InitPlugins(map[], config, Failure(SystemError("ENOENT", message)), load) == Installation(Pass, BuiltInRegistry(), [])
  {
    BuiltInsInstalled();
  }

  /** Any other listing error rejects `initPlugins`, after the built-ins are in. */
  lemma ListingErrorRejects(config: Json, e: Error, load: string -> Result<PluginModule, Error>)
    requires Get(config, "pluginDirectory", None).Success? && Get(config, "pluginDirectory", None).value.JStr?
    requires !IsMissingFile(e)
    ensures InitPlugins(map[], config, Failure(e), load) == Installation(Fail(e), BuiltInRegistry(), [])
  {
    BuiltInsInstalled();
  }

  /** A module that cannot be loaded rejects with a `LerretError` naming its resolved path, with the literal "$s". */
  lemma LoadFailureNamesPath(registered: map<string, Plugin>, paths: seq<string>, load: string -> Result<PluginModule, Error>)
    requires paths != [] && load(paths[0]).Failure?
    ensures LoadEach(registered, paths, load) ==
      Installation(Fail(LerretError("Cannot load module " + paths[0] + "; $s " + load(paths[0]).error.message)), registered, [paths[0]])
  {
  }

  /** The message Bluebird rejects `Promise.map` with when the plugin list is neither an array nor iterable. */
  const NotIterable := TypeError("expecting an array or an iterable object but got [object Null]")

  /** The names `Promise.map(names, getPlugin)` iterates over: the items of a list of strings, or the characters of a string. */
  function NamesOf(v: Json): (r: Result<seq<string>, Error>)
    ensures v.JArr? && (forall k :: 0 <= k < |v.items| ==> v.items[k].JStr?) ==>
      r.Success? && |r.value| == |v.items| && forall k :: 0 <= k < |v.items| ==> r.value[k] == v.items[k].s
    ensures v.JStr? ==> r.Success? && |r.value| == |v.s| && forall k :: 0 <= k < |v.s| ==> r.value[k] == [v.s[k]]
    ensures !v.JArr? && !v.JStr? ==> r == Failure(NotIterable)
  {
    match v
    case JArr(items) =>
      if forall k :: 0 <= k < |items| ==> items[k].JStr? then
        Success(seq(|items|, k requires 0 <= k < |items| => items[k].s))
      else Failure(NotIterable)
    case JStr(s) => Success(seq(|s|, k requires 0 <= k < |s| => [s[k]]))
    case _ => Failure(NotIterable)
  }

  /** `callPlugins(content)`: the sequence of the configured names, applied to the content. */
  function CallPlugins(registered: map<string, Plugin>, config: Json, content: Site): (r: Run<Site>)
    ensures !Has(config, "plugins") ==>
      r == Run(Failure(PlainError("Configuration parameter '" + "plugins" + "' does not exist.")), [])
  {
    match Get(config, "plugins", None)
    case Failure(e) => Run(Failure(e), [])
    case Success(v) =>
      match NamesOf(v)
      case Failure(e) => Run(Failure(e), [])
      case Success(names) => CallSequence(ResolveNames(registered, names), content, config)
  }

  /**
   * With a configured list of registered names, `callPlugins` is the left
   * fold of those plugins in list order; an unregistered name runs nothing.
   */
  lemma CallPluginsFolds(registered: map<string, Plugin>, config: Json, content: Site, items: seq<Json>, names: seq<string>)
    requires Get(config, "plugins", None) == Success(JArr(items))
    requires |names| == |items| && forall k :: 0 <= k < |items| ==> items[k] == JStr(names[k])
    ensures (forall k :: 0 <= k < |names| ==> names[k] in registered) ==>
      CallPlugins(registered, config, content) ==
      RunSequence(seq(|names|, k requires 0 <= k < |names| => registered[names[k]]), content, config)
    ensures (exists k :: 0 <= k < |names| && names[k] !in registered) ==>
      CallPlugins(registered, config, content).trace == []
  {
    assert NamesOf(JArr(items)).value == names;
    if forall k :: 0 <= k < |names| ==> names[k] in registered {
      ResolveAll(registered, names, seq(|names|, k requires 0 <= k < |names| => registered[names[k]]));
    } else {
      UnresolvedNameRunsNothing(registered, names, content, config);
    }
  }

  /** `Promise.each(modules, installPlugin)` on the shared registry. */
  method InstallEach(reg: Registry, modules: seq<PluginModule>) returns (outcome: Outcome<Error>)
    modifies reg
    ensures Installation(outcome, reg.registered, []) == InstallAll(old(reg.registered), modules)
  {
    var i := 0;
    while i < |modules|
      invariant 0 <= i <= |modules|
      invariant InstallAll(old(reg.registered), modules) == InstallAll(reg.registered, modules[i..])
    {
      assert modules[i..][1..] == modules[i + 1..];
      outcome := reg.Install(modules[i]);
      if outcome.Fail? {
        return;
      }
      i := i + 1;
    }
    return Pass;
  }

  /** `loadBuiltInPlugins()`. */
  method LoadBuiltInPlugins(reg: Registry) returns (outcome: Outcome<Error>)
    modifies reg
    ensures Installation(outcome, reg.registered, []) == InstallAll(old(reg.registered), BuiltInPlugins())
  {
    outcome := InstallEach(reg, BuiltInPlugins());
  }

  /** The `.each` step of `loadProjectPlugins`: `require`, then install, path after path. */
  method LoadPaths(reg: Registry, paths: seq<string>, load: string -> Result<PluginModule, Error>)
    returns (outcome: Outcome<Error>, loaded: seq<string>)
    modifies reg
    ensures Installation(outcome, reg.registered, loaded) == LoadEach(old(reg.registered), paths, load)
  {
    loaded := [];
    var i := 0;
    while i < |paths|
      invariant 0 <= i <= |paths| && loaded == paths[..i]
      invariant var rest := LoadEach(reg.registered, paths[i..], load);
        LoadEach(old(reg.registered), paths, load) == Installation(rest.outcome, rest.registered, loaded + rest.loaded)
    {
      assert paths[i..][1..] == paths[i + 1..];
      var required := load(paths[i]);
      loaded := loaded + [paths[i]];
      if required.Failure? {
        return Fail(LoadError(paths[i], required.error)), loaded;
      }
      outcome := reg.Install(required.value);
      if outcome.Fail? {
        return;
      }
      assert paths[..i + 1] == paths[..i] + [paths[i]];
      i := i + 1;
    }
    assert paths[i..] == [];
    return Pass, loaded;
  }

  /** `loadProjectPlugins()`. */
  method LoadProjectPlugins(reg: Registry, config: Json, listing: Result<seq<Entry>, Error>,
                            load: string -> Result<PluginModule, Error>)
    returns (outcome: Outcome<Error>, loaded: seq<string>)
    modifies reg
    ensures Installation(outcome, reg.registered, loaded) == ProjectPlugins(old(reg.registered), config, listing, load)
  {
    var directory := Get(config, "pluginDirectory", None);
    if directory.Failure? {
      return Fail(directory.error), [];
    }
    if !directory.value.JStr? {
      return Fail(Magick.PathTypeError), [];
    }
    if listing.Failure? {
      var skipped := Skipped(reg.registered, listing.error);
      return skipped.outcome, [];
    }
    var paths := Candidates(Resolved(directory.value.s, listing.value));
    if paths.Failure? {
      var skipped := Skipped(reg.registered, paths.error);
      return skipped.outcome, [];
    }
    outcome, loaded := LoadPaths(reg, paths.value, load);
  }

  /** `initPlugins()`. */
  method InitPluginsInto(reg: Registry, config: Json, listing: Result<seq<Entry>, Error>,
                         load: string -> Result<PluginModule, Error>)
    returns (outcome: Outcome<Error>, loaded: seq<string>)
    modifies reg
    ensures Installation(outcome, reg.registered, loaded) == InitPlugins(old(reg.registered), config, listing, load)
  {
    outcome := LoadBuiltInPlugins(reg);
    if outcome.Fail? {
      return outcome, [];
    }
    outcome, loaded := LoadProjectPlugins(reg, config, listing, load);
  }

  /** `callPlugins(content)` against the shared registry. */
  method CallPluginsOn(reg: Registry, config: Json, content: Site) returns (run: Run<Site>)
    ensures run == CallPlugins(reg.registered, config, content)
  {
    var names := Get(config, "plugins", None);
    if names.Failure? {
      return Run(Failure(names.error), []);
    }
    var list := NamesOf(names.value);
    if list.Failure? {
      return Run(Failure(list.error), []);
    }
    var resolved := reg.GetPluginSequence(list.value);
    run := CallSequence(resolved, content, config);
  }
}
