/**
 * lib/plugins/plugins.js: the plugin registry and the execution engine that
 * runs a plugin's site, album and image hooks over the content tree.
 */
module Plugins {
  import opened Wrappers
  import opened Errors
  import opened JsonValues
  import opened Content

  /**
   * Hooks receive (copies of) the entity, its position, the enclosing content
   * and the configuration. `Success(None)` is a hook that returns `undefined`;
   * `Failure` is a hook that throws or whose promise rejects.
   */
  type SiteHook = (Site, Json) -> Result<Option<Site>, Error>
  type AlbumHook = (Album, nat, nat, Site, Json) -> Result<Option<Album>, Error>
  type ImageHook = (Image, nat, nat, Album, Site, Json) -> Result<Option<Image>, Error>

  /** A plugin module as `require` returns it; every member may be missing. */
  datatype PluginModule = PluginModule(
    name: Option<string>,
    processSite: Option<SiteHook>,
    processAlbum: Option<AlbumHook>,
    processImage: Option<ImageHook>)

  /** An installed plugin: the function registered under its name closes over these. */
  datatype Plugin = Plugin(
    name: string,
    processSite: Option<SiteHook>,
    processAlbum: Option<AlbumHook>,
    processImage: Option<ImageHook>)

  /** What a run makes observable besides its result: hook invocations and the two info log lines. */
  datatype Event =
    | Calling(plugin: string)
    | SiteHookCalled(plugin: string)
    | AlbumHookCalled(plugin: string, album: nat)
    | ImageHookCalled(plugin: string, album: nat, image: nat)
    | Finished(plugin: string)

  /** The settled promise of a run, with the events it produced, in order. */
  datatype Run<T> = Run(result: Result<T, Error>, trace: seq<Event>)

  /** `returnWithDefault(otherwise)(actual)`. */
  function ReturnWithDefault<T>(otherwise: T, actual: Option<T>): T
  {
    if actual.Some? then actual.value else otherwise
  }

  /** The index of the first failed hook result, or |rs| when all succeeded. */
  function FirstFailure<T>(rs: seq<Result<Option<T>, Error>>): (k: nat)
    ensures k <= |rs|
    ensures forall j :: 0 <= j < k ==> rs[j].Success?
    ensures k < |rs| ==> rs[k].Failure?
  {
    if rs == [] then 0
    else if rs[0].Failure? then 0
    else 1 + FirstFailure(rs[1..])
  }

  /** How many hooks a sequential map calls: up to and including the first failing one. */
  function Invoked<T>(rs: seq<Result<Option<T>, Error>>): (n: nat)
    ensures n <= |rs|
    ensures n == |rs| || n == FirstFailure(rs) + 1
  {
    var k := FirstFailure(rs);
    if k < |rs| then k + 1 else |rs|
  }

  /**
   * `Promise.map(xs, x => Promise.resolve(hook(...)).then(returnWithDefault(x)))`:
   * the error of the first failing hook, else each hook's result with the
   * original element in place of `undefined`.
   */
  function Collect<T>(rs: seq<Result<Option<T>, Error>>, originals: seq<T>): (r: Result<seq<T>, Error>)
    requires |rs| == |originals|
    ensures r.Success? <==> forall j :: 0 <= j < |rs| ==> rs[j].Success?
    ensures r.Success? ==> |r.value| == |originals|
    ensures r.Success? ==>
      (forall j :: 0 <= j < |rs| ==> r.value[j] == ReturnWithDefault(originals[j], rs[j].value))
    ensures r.Failure? ==> FirstFailure(rs) < |rs| && r.error == rs[FirstFailure(rs)].error
  {
    var k := FirstFailure(rs);
    if k < |rs| then Failure(rs[k].error)
    else Success(seq(|rs|, j requires 0 <= j < |rs| => ReturnWithDefault(originals[j], rs[j].value)))
  }

  /** The site stage: the hook's content (or the original one when it returns `undefined`). */
  function SiteStage(p: Plugin, content: Site, config: Json): Run<Site>
  {
    match p.processSite
    case None => Run(Success(content), [])
    case Some(hook) =>
      var trace := [SiteHookCalled(p.name)];
      match hook(content, config)
      case Failure(e) => Run(Failure(e), trace)
      case Success(actual) => Run(Success(ReturnWithDefault(content, actual)), trace)
  }

  /** The results of the album hook for every album of `content`, in order. */
  function AlbumResults(hook: AlbumHook, content: Site, config: Json): (rs: seq<Result<Option<Album>, Error>>)
    ensures |rs| == |content.albums|
    ensures forall i :: 0 <= i < |rs| ==> rs[i] == hook(content.albums[i], i, |content.albums|, content, config)
  {
    seq(|content.albums|, i requires 0 <= i < |content.albums| => hook(content.albums[i], i, |content.albums|, content, config))
  }

  /** The album stage: every album replaced by its hook's result, and `content.albums` written back. */
  function AlbumStage(p: Plugin, content: Site, config: Json): Run<Site>
  {
    match p.processAlbum
    case None => Run(Success(content), [])
    case Some(hook) =>
      var rs := AlbumResults(hook, content, config);
      var trace := seq(Invoked(rs), i requires 0 <= i => AlbumHookCalled(p.name, i));
      match Collect(rs, content.albums)
      case Failure(e) => Run(Failure(e), trace)
      case Success(albums) => Run(Success(content.(albums := albums)), trace)
  }

  /** The results of the image hook for every image of `album`, the album at position `a` of `content`. */
  function ImageResults(hook: ImageHook, album: Album, content: Site, config: Json): (rs: seq<Result<Option<Image>, Error>>)
    ensures |rs| == |album.images|
    ensures forall i :: 0 <= i < |rs| ==> rs[i] == hook(album.images[i], i, |album.images|, album, content, config)
  {
    seq(|album.images|, i requires 0 <= i < |album.images| => hook(album.images[i], i, |album.images|, album, content, config))
  }

  /**
   * The image hooks of the albums of `content` from position `from` on, album
   * by album, each album's `images` written back.
   */
  function ImagesFrom(name: string, hook: ImageHook, content: Site, config: Json, from: nat): (r: Run<seq<Album>>)
    requires from <= |content.albums|
    ensures r.result.Success? <==>
      forall a, i :: from <= a < |content.albums| && 0 <= i < |content.albums[a].images| ==>
        hook(content.albums[a].images[i], i, |content.albums[a].images|, content.albums[a], content, config).Success?
    ensures r.result.Success? ==> |r.result.value| == |content.albums| - from
    ensures r.result.Success? ==>
      (forall a :: from <= a < |content.albums| ==>
        (var album := content.albums[a];
         r.result.value[a - from] ==
           album.(images := Collect(ImageResults(hook, album, content, config), album.images).value)))
    ensures forall k :: 0 <= k < |r.trace| ==> r.trace[k].ImageHookCalled? && r.trace[k].plugin == name
    decreases |content.albums| - from
  {
    if from == |content.albums| then Run(Success([]), [])
    else
      var album := content.albums[from];
      var rs := ImageResults(hook, album, content, config);
      var trace := seq(Invoked(rs), i requires 0 <= i => ImageHookCalled(name, from, i));
      match Collect(rs, album.images)
      case Failure(e) =>
        assert !hook(album.images[FirstFailure(rs)], FirstFailure(rs), |album.images|, album, content, config).Success?;
        Run(Failure(e), trace)
      case Success(images) =>
        var rest := ImagesFrom(name, hook, content, config, from + 1);
        match rest.result
        case Failure(e) => Run(Failure(e), trace + rest.trace)
        case Success(tail) => Run(Success([album.(images := images)] + tail), trace + rest.trace)
  }

  /** The image hook's result for image i of album a of `content`. */
  function ImageCall(hook: ImageHook, content: Site, config: Json, a: nat, i: nat): Result<Option<Image>, Error>
    requires a < |content.albums| && i < |content.albums[a].images|
  {
    var album := content.albums[a];
    hook(album.images[i], i, |album.images|, album, content, config)
  }

  /**
   * A failing run of the image hooks reports the error of image i of album a,
   * the first failing call in album-then-image order: every call before it
   * succeeded.
   */
  lemma {:induction false} ImagesFromFailure(name: string, hook: ImageHook, content: Site, config: Json, from: nat)
    returns (a: nat, i: nat)
    requires from <= |content.albums|
    requires ImagesFrom(name, hook, content, config, from).result.Failure?
    ensures from <= a < |content.albums| && i < |content.albums[a].images|
    ensures forall b, j :: from <= b < a && 0 <= j < |content.albums[b].images| ==> ImageCall(hook, content, config, b, j).Success?
    ensures forall j :: 0 <= j < i ==> ImageCall(hook, content, config, a, j).Success?
    ensures ImageCall(hook, content, config, a, i) == Failure(ImagesFrom(name, hook, content, config, from).result.error)
    decreases |content.albums| - from
  {
    var album := content.albums[from];
    var rs := ImageResults(hook, album, content, config);
    var c := Collect(rs, album.images);
    if c.Failure? {
      a, i := from, FirstFailure(rs);
    } else {
      a, i := ImagesFromFailure(name, hook, content, config, from + 1);
      forall b, j | from <= b < a && 0 <= j < |content.albums[b].images|
        ensures ImageCall(hook, content, config, b, j).Success?
      {
        if b == from { assert rs[j].Success?; }
      }
    }
  }

  /** The image stage: every image replaced by its hook's result, then `content.albums` written back. */
  function ImageStage(p: Plugin, content: Site, config: Json): Run<Site>
  {
    match p.processImage
    case None => Run(Success(content), [])
    case Some(hook) =>
      var run := ImagesFrom(p.name, hook, content, config, 0);
      match run.result
      case Failure(e) => Run(Failure(e), run.trace)
      case Success(albums) => Run(Success(content.(albums := albums)), run.trace)
  }

  /** `new LerretError("Plugin %s threw an error; %s", name, err.message)`. */
  function Wrap(name: string, e: Error): Error
  {
    LerretError("Plugin " + name + " threw an error; " + e.message)
  }

  /** The three stages in turn, each fed the previous stage's content, stopping at the first failure. */
  function Stages(p: Plugin, content: Site, config: Json): Run<Site>
  {
    var site := SiteStage(p, content, config);
    if site.result.Failure? then site
    else
      var album := AlbumStage(p, site.result.value, config);
      if album.result.Failure? then Run(album.result, site.trace + album.trace)
      else
        var image := ImageStage(p, album.result.value, config);
        Run(image.result, site.trace + album.trace + image.trace)
  }

  /**
   * The function `installPlugin` registers (lib/plugins/plugins.js:40-91):
   * the stages, any failure wrapped, and the "finished" line only after success.
   */
  function RunPlugin(p: Plugin, content: Site, config: Json): Run<Site>
  {
    var stages := Stages(p, content, config);
    match stages.result
    case Failure(e) => Run(Failure(Wrap(p.name, e)), [Calling(p.name)] + stages.trace)
    case Success(v) => Run(Success(v), [Calling(p.name)] + stages.trace + [Finished(p.name)])
  }

  /** `sequence.reduce((result, fn) => fn(result, config), content)`: a left fold that stops at the first rejection. */
  function RunSequence(plugins: seq<Plugin>, content: Site, config: Json): Run<Site>
    decreases |plugins|
  {
    if plugins == [] then Run(Success(content), [])
    else
      var first := RunPlugin(plugins[0], content, config);
      if first.result.Failure? then first
      else
        var rest := RunSequence(plugins[1..], first.result.value, config);
        Run(rest.result, first.trace + rest.trace)
  }

  /** Events produced by hooks, as opposed to the engine's own log lines. */
  predicate HookEventsOnly(trace: seq<Event>)
  {
    forall k :: 0 <= k < |trace| ==> !trace[k].Calling? && !trace[k].Finished?
  }

  /**
   * The site hook gets the content; a defined result replaces it, `undefined`
   * keeps the original, a failure is passed on. Without a hook nothing happens.
   */
  lemma SiteStageEffect(p: Plugin, content: Site, config: Json)
    ensures p.processSite.None? ==> SiteStage(p, content, config) == Run(Success(content), [])
    ensures p.processSite.Some? ==>
      var out := p.processSite.value(content, config);
      var r := SiteStage(p, content, config);
      r.trace == [SiteHookCalled(p.name)] &&
      (out.Failure? ==> r.result == Failure(out.error)) &&
      (out == Success(None) ==> r.result == Success(content)) &&
      (out.Success? && out.value.Some? ==> r.result == Success(out.value.value))
  {
  }

  /**
   * Album i is handed to the hook with (album i, i, |albums|, content); the
   * new albums list is positional, `undefined` keeps album i, and only
   * `albums` is written back. The first failing hook ends the stage with its
   * error after hooks 0 .. k were called.
   */
  lemma AlbumStagePositional(p: Plugin, content: Site, config: Json)
    requires p.processAlbum.Some?
    ensures var hook := p.processAlbum.value;
      var n := |content.albums|;
      var r := AlbumStage(p, content, config);
      (r.result.Success? <==> forall i :: 0 <= i < n ==> hook(content.albums[i], i, n, content, config).Success?) &&
      (r.result.Success? ==>
        r.result.value.fields == content.fields && |r.result.value.albums| == n &&
        (forall i :: 0 <= i < n ==>
          r.result.value.albums[i] == ReturnWithDefault(content.albums[i], hook(content.albums[i], i, n, content, config).value)) &&
        r.trace == seq(n, i requires 0 <= i => AlbumHookCalled(p.name, i))) &&
      (r.result.Failure? ==>
        exists k :: 0 <= k < n &&
          (forall j :: 0 <= j < k ==> hook(content.albums[j], j, n, content, config).Success?) &&
          hook(content.albums[k], k, n, content, config) == Failure(r.result.error) &&
          r.trace == seq(k + 1, i requires 0 <= i => AlbumHookCalled(p.name, i)))
  {
    var hook := p.processAlbum.value;
    var rs := AlbumResults(hook, content, config);
    var r := AlbumStage(p, content, config);
    if r.result.Failure? {
      var k := FirstFailure(rs);
      assert hook(content.albums[k], k, |content.albums|, content, config) == Failure(r.result.error);
    }
  }

  /**
   * Image i of album a is handed to the hook with (image i, i, |images of a|,
   * album a, content), all taken after the album stage; each album's images
   * are replaced positionally and nothing but `images` changes.
   */
  lemma ImageStagePositional(p: Plugin, content: Site, config: Json)
    requires p.processImage.Some?
    ensures var hook := p.processImage.value;
      var r := ImageStage(p, content, config);
      (r.result.Success? <==>
        forall a, i :: 0 <= a < |content.albums| && 0 <= i < |content.albums[a].images| ==>
          hook(content.albums[a].images[i], i, |content.albums[a].images|, content.albums[a], content, config).Success?) &&
      (r.result.Success? ==>
        r.result.value.fields == content.fields && |r.result.value.albums| == |content.albums| &&
        forall a :: 0 <= a < |content.albums| ==>
          var album := content.albums[a];
          var updated := r.result.value.albums[a];
          updated.fields == album.fields && |updated.images| == |album.images| &&
          forall i :: 0 <= i < |album.images| ==>
            updated.images[i] == ReturnWithDefault(album.images[i], hook(album.images[i], i, |album.images|, album, content, config).value)) &&
      (r.result.Failure? ==>
        exists a, i :: 0 <= a < |content.albums| && 0 <= i < |content.albums[a].images| &&
          (forall b, j :: 0 <= b < a && 0 <= j < |content.albums[b].images| ==> ImageCall(hook, content, config, b, j).Success?) &&
          (forall j :: 0 <= j < i ==> ImageCall(hook, content, config, a, j).Success?) &&
          ImageCall(hook, content, config, a, i) == Failure(r.result.error))
  {
    var hook := p.processImage.value;
    var run := ImagesFrom(p.name, hook, content, config, 0);
    if run.result.Failure? {
      var a, i := ImagesFromFailure(p.name, hook, content, config, 0);
    }
    if run.result.Success? {
      forall a | 0 <= a < |content.albums|
        ensures var album := content.albums[a];
          var updated := run.result.value[a];
          updated.fields == album.fields && |updated.images| == |album.images| &&
          forall i :: 0 <= i < |album.images| ==>
            updated.images[i] == ReturnWithDefault(album.images[i], hook(album.images[i], i, |album.images|, album, content, config).value)
      {
        var album := content.albums[a];
        var rs := ImageResults(hook, album, content, config);
        assert forall i :: 0 <= i < |rs| ==> rs[i].Success?;
      }
    }
  }

  /** A hook that fails alike on every image ends the image stage with that error once there is an image. */
  lemma UniformImageFailure(p: Plugin, content: Site, config: Json, e: Error, a: nat)
    requires p.processImage.Some?
    requires a < |content.albums| && |content.albums[a].images| > 0
    requires forall b, j :: 0 <= b < |content.albums| && 0 <= j < |content.albums[b].images| ==>
      ImageCall(p.processImage.value, content, config, b, j) == Failure(e)
    ensures ImageStage(p, content, config).result == Failure(e)
  {
    ImageStagePositional(p, content, config);
    assert ImageCall(p.processImage.value, content, config, a, 0).Failure?;
  }

  /** The stages' own events are hook invocations only. */
  lemma StageTraces(p: Plugin, content: Site, config: Json)
    ensures HookEventsOnly(SiteStage(p, content, config).trace)
    ensures HookEventsOnly(AlbumStage(p, content, config).trace)
    ensures HookEventsOnly(ImageStage(p, content, config).trace)
  {
    if p.processImage.Some? {
      var run := ImagesFrom(p.name, p.processImage.value, content, config, 0);
      assert ImageStage(p, content, config).trace == run.trace;
    }
  }

  /**
   * A plugin run is site, then album, then image stage, each fed the previous
   * stage's content; it resolves to the image stage's content, or rejects with
   * "Plugin <name> threw an error; <message>", the message being the error of
   * the first failing stage.
   */
  lemma RunPluginStages(p: Plugin, content: Site, config: Json)
    ensures var site := SiteStage(p, content, config);
      var r := RunPlugin(p, content, config);
      (r.result.Success? <==>
        site.result.Success? && AlbumStage(p, site.result.value, config).result.Success? &&
        ImageStage(p, AlbumStage(p, site.result.value, config).result.value, config).result.Success?) &&
      (r.result.Success? ==>
        r.result == ImageStage(p, AlbumStage(p, site.result.value, config).result.value, config).result) &&
      (r.result.Failure? ==>
        r.result == Failure(Wrap(p.name,
          if site.result.Failure? then site.result.error
          else if AlbumStage(p, site.result.value, config).result.Failure? then AlbumStage(p, site.result.value, config).result.error
          else ImageStage(p, AlbumStage(p, site.result.value, config).result.value, config).result.error)))
  {
  }

  lemma HookEventsConcat(a: seq<Event>, b: seq<Event>)
    requires HookEventsOnly(a) && HookEventsOnly(b)
    ensures HookEventsOnly(a + b)
  {
    forall k | 0 <= k < |a + b| ensures !(a + b)[k].Calling? && !(a + b)[k].Finished? {
      if k >= |a| { assert (a + b)[k] == b[k - |a|]; }
    }
  }

  /** The stages together produce hook invocations only. */
  lemma StagesTrace(p: Plugin, content: Site, config: Json)
    ensures HookEventsOnly(Stages(p, content, config).trace)
  {
    var site := SiteStage(p, content, config);
    StageTraces(p, content, config);
    if site.result.Success? {
      var album := AlbumStage(p, site.result.value, config);
      StageTraces(p, site.result.value, config);
      HookEventsConcat(site.trace, album.trace);
      if album.result.Success? {
        var image := ImageStage(p, album.result.value, config);
        StageTraces(p, album.result.value, config);
        HookEventsConcat(site.trace + album.trace, image.trace);
      }
    }
  }

  /** Every run first logs "Calling plugin", and logs "finished" exactly when it succeeds, as its last event. */
  lemma FinishedOnlyOnSuccess(p: Plugin, content: Site, config: Json)
    ensures var r := RunPlugin(p, content, config);
      |r.trace| > 0 && r.trace[0] == Calling(p.name) &&
      ((exists k :: 0 <= k < |r.trace| && r.trace[k] == Finished(p.name)) <==> r.result.Success?) &&
      (r.result.Success? ==> r.trace[|r.trace| - 1] == Finished(p.name))
  {
    var r := RunPlugin(p, content, config);
    var hooks := Stages(p, content, config).trace;
    StagesTrace(p, content, config);
    if r.result.Failure? {
      assert r.trace == [Calling(p.name)] + hooks;
      forall k | 0 <= k < |r.trace| ensures r.trace[k] != Finished(p.name) {
        if k > 0 { assert r.trace[k] == hooks[k - 1]; }
      }
    } else {
      assert r.trace == [Calling(p.name)] + hooks + [Finished(p.name)];
      assert r.trace[|r.trace| - 1] == Finished(p.name);
    }
  }

  /**
   * Appending a plugin to a sequence runs it on the previous plugins' result:
   * plugin k + 1 receives exactly plugin k's output.
   */
  lemma {:induction false} SequenceSnoc(plugins: seq<Plugin>, p: Plugin, content: Site, config: Json)
    ensures var r := RunSequence(plugins, content, config);
      RunSequence(plugins + [p], content, config) ==
        if r.result.Failure? then r
        else var last := RunPlugin(p, r.result.value, config); Run(last.result, r.trace + last.trace)
    decreases |plugins|
  {
    if plugins == [] {
      assert [] + [p] == [p];
      assert [p][1..] == [];
      var last := RunPlugin(p, content, config);
      assert RunSequence([p], content, config) == Run(last.result, last.trace + []);
      assert last.trace + [] == [] + last.trace;
    } else {
      assert (plugins + [p])[0] == plugins[0];
      assert (plugins + [p])[1..] == plugins[1..] + [p];
      var first := RunPlugin(plugins[0], content, config);
      if first.result.Success? {
        SequenceSnoc(plugins[1..], p, first.result.value, config);
        var rest := RunSequence(plugins[1..], first.result.value, config);
        if rest.result.Success? {
          var last := RunPlugin(p, rest.result.value, config);
          assert first.trace + (rest.trace + last.trace) == (first.trace + rest.trace) + last.trace;
        }
      }
    }
  }

  /** Once a plugin rejects, no later plugin runs: the sequence ends with that rejection and its events. */
  lemma {:induction false} StopsAtFirstFailure(plugins: seq<Plugin>, later: seq<Plugin>, content: Site, config: Json)
    requires RunSequence(plugins, content, config).result.Failure?
    ensures RunSequence(plugins + later, content, config) == RunSequence(plugins, content, config)
    decreases |plugins|
  {
    assert plugins != [];
    assert (plugins + later)[0] == plugins[0];
    assert (plugins + later)[1..] == plugins[1..] + later;
    var first := RunPlugin(plugins[0], content, config);
    if first.result.Success? {
      StopsAtFirstFailure(plugins[1..], later, first.result.value, config);
    }
  }

  /** The messages of the three `LerretError`s `installPlugin` throws. */
  function NoNameMessage(): string { "Plugin does not define a name" }
  function NoHookMessage(name: string): string { "Plugin " + name + " does not define a processSite, processAlbum or processImage function" }
  function TakenMessage(name: string): string { "Plugin " + name + " already registered" }

  /** The three validations of `installPlugin`, in the order the source runs them. */
  function InstallCheck(registered: map<string, Plugin>, m: PluginModule): Outcome<Error>
  {
    if m.name.None? then Fail(LerretError(NoNameMessage()))
    else if m.processSite.None? && m.processAlbum.None? && m.processImage.None? then
      Fail(LerretError(NoHookMessage(m.name.value)))
    else if m.name.value in registered then Fail(LerretError(TakenMessage(m.name.value)))
    else Pass
  }

  /** The plugin `installPlugin` registers for a module that passed the checks. */
  function ToPlugin(m: PluginModule): Plugin
    requires m.name.Some?
  {
    Plugin(m.name.value, m.processSite, m.processAlbum, m.processImage)
  }

  /** The registry after `installPlugin(m)`: one new key when the checks pass, unchanged otherwise. */
  function Installed(registered: map<string, Plugin>, m: PluginModule): (r: map<string, Plugin>)
    ensures InstallCheck(registered, m).Fail? ==> r == registered
    ensures InstallCheck(registered, m).Pass? ==>
      m.name.Some? && m.name.value !in registered && r.Keys == registered.Keys + {m.name.value} &&
      r[m.name.value] == ToPlugin(m) && forall k :: k in registered ==> r[k] == registered[k]
  {
    if InstallCheck(registered, m).Pass? then registered[m.name.value := ToPlugin(m)] else registered
  }

  /** "Plugin does not define a name" is raised exactly when the name is missing, whatever the name is otherwise. */
  lemma InstallNameCheck(registered: map<string, Plugin>, m: PluginModule)
    ensures InstallCheck(registered, m) == Fail(LerretError(NoNameMessage())) <==> m.name.None?
  {
    var nameError := NoNameMessage();
    if m.name.Some? {
      var n := m.name.value;
      var hooksError := NoHookMessage(n);
      var duplicateError := TakenMessage(n);
      assert nameError[|nameError| - 1] == 'e';
      assert hooksError[|hooksError| - 1] == 'n';
      assert duplicateError[|duplicateError| - 1] == 'd';
    }
  }

  /**
   * The checks run in order: a missing name first, then a module without any
   * hook, then a taken name; a module with a name (the empty string included),
   * a hook and a fresh name is accepted.
   */
  lemma InstallCheckOrder(registered: map<string, Plugin>, m: PluginModule)
    ensures (m.name.Some? && (m.processSite.Some? || m.processAlbum.Some? || m.processImage.Some?) &&
             m.name.value !in registered) ==> InstallCheck(registered, m) == Pass
    ensures m.name.Some? && m.processSite.None? && m.processAlbum.None? && m.processImage.None? ==>
      InstallCheck(registered, m) ==
        Fail(LerretError(NoHookMessage(m.name.value)))
    ensures (m.name.Some? && (m.processSite.Some? || m.processAlbum.Some? || m.processImage.Some?) &&
             m.name.value in registered) ==> InstallCheck(registered, m) == Fail(LerretError(TakenMessage(m.name.value)))
    ensures m.name == Some("") && m.processSite.Some? && "" !in registered ==> InstallCheck(registered, m) == Pass
  {
  }

  /** `getPlugin(name)`. */
  function GetPlugin(registered: map<string, Plugin>, name: string): (r: Result<Plugin, Error>)
    ensures r.Success? <==> name in registered
    ensures r.Success? ==> r.value == registered[name]
    ensures r.Failure? ==> r.error == LerretError("Plugin " + name + " could not be found")
  {
    if name in registered then Success(registered[name]) else Failure(LerretError("Plugin " + name + " could not be found"))
  }

  /** The index of the first name that is not registered, or |names|. */
  function FirstMissing(registered: map<string, Plugin>, names: seq<string>): (k: nat)
    ensures k <= |names|
    ensures forall j :: 0 <= j < k ==> names[j] in registered
    ensures k < |names| ==> names[k] !in registered
  {
    if names == [] then 0
    else if names[0] !in registered then 0
    else 1 + FirstMissing(registered, names[1..])
  }

  /**
   * `Promise.map(names, name => getPlugin(name))`: every name resolved, in
   * order, or the error for the first name that is not registered.
   */
  function ResolveNames(registered: map<string, Plugin>, names: seq<string>): (r: Result<seq<Plugin>, Error>)
    ensures r.Success? <==> forall j :: 0 <= j < |names| ==> names[j] in registered
    ensures r.Success? ==> |r.value| == |names| && forall j :: 0 <= j < |names| ==>  r.value[j] == registered[names[j]]
    ensures r.Failure? ==>
      FirstMissing(registered, names) < |names| &&
      r.error == LerretError("Plugin " + names[FirstMissing(registered, names)] + " could not be found")
  {
    if names == [] then Success([])
    else match GetPlugin(registered, names[0])
      case Failure(e) => Failure(e)
      case Success(p) =>
        match ResolveNames(registered, names[1..])
        case Failure(e) => Failure(e)
        case Success(rest) => Success([p] + rest)
  }

  /** `getPluginSequence(names)(content)`: all names are resolved before the first plugin runs. */
  function CallSequence(resolved: Result<seq<Plugin>, Error>, content: Site, config: Json): Run<Site>
  {
    match resolved
    case Failure(e) => Run(Failure(e), [])
    case Success(plugins) => RunSequence(plugins, content, config)
  }

  /** An unregistered name rejects the whole sequence before any hook of any plugin is called. */
  lemma UnresolvedNameRunsNothing(registered: map<string, Plugin>, names: seq<string>, content: Site, config: Json)
    requires exists j :: 0 <= j < |names| && names[j] !in registered
    ensures var r := CallSequence(ResolveNames(registered, names), content, config);
      r.trace == [] &&
      r.result == Failure(LerretError("Plugin " + names[FirstMissing(registered, names)] + " could not be found"))
  {
  }

  /** The registered plugins (the `registered` object of lib/plugins/plugins.js). */
  class Registry {
    var registered: map<string, Plugin>

    constructor ()
      ensures registered == map[]
    {
      registered := map[];
    }

    /** `installPlugin(plugin)`: the checks, then one new entry. */
    method Install(m: PluginModule) returns (outcome: Outcome<Error>)
      modifies this
      ensures outcome == InstallCheck(old(registered), m)
      ensures registered == Installed(old(registered), m)
    {
      outcome := InstallCheck(registered, m);
      if outcome.Pass? {
        registered := registered[m.name.value := ToPlugin(m)];
      }
    }

    /** `getPluginSequence(names)`: resolves the names one by one, stopping at the first unknown one. */
    method GetPluginSequence(names: seq<string>) returns (r: Result<seq<Plugin>, Error>)
      ensures r == ResolveNames(registered, names)
    {
      var resolved: seq<Plugin> := [];
      var i := 0;
      while i < |names|
        invariant 0 <= i <= |names|
        invariant forall j :: 0 <= j < i ==> names[j] in registered
        invariant |resolved| == i && forall j :: 0 <= j < i ==> resolved[j] == registered[names[j]]
      {
        var p := GetPlugin(registered, names[i]);
        if p.Failure? {
          assert FirstMissing(registered, names) == i by {
            FirstMissingAt(registered, names, i);
          }
          return p.PropagateFailure();
        }
        resolved := resolved + [p.value];
        i := i + 1;
      }
      ResolveAll(registered, names, resolved);
      return Success(resolved);
    }

    /** `_uninstallAllPlugins()`: deletes the registered keys one at a time. */
    method UninstallAll()
      modifies this
      ensures registered == map[]
    {
      var keys := registered.Keys;
      while keys != {}
        invariant registered.Keys == keys
        decreases |keys|
      {
        var k :| k in keys;
        registered := registered - {k};
        keys := keys - {k};
      }
    }
  }

  /** The first missing name is the first index at which all earlier names are registered and this one is not. */
  lemma {:induction false} FirstMissingAt(registered: map<string, Plugin>, names: seq<string>, i: nat)
    requires i < |names| && names[i] !in registered
    requires forall j :: 0 <= j < i ==> names[j] in registered
    ensures FirstMissing(registered, names) == i
    decreases i
  {
    if i > 0 {
      FirstMissingAt(registered, names[1..], i - 1);
    }
  }

  /** When every name is registered, resolving yields the registered plugins in name order. */
  lemma ResolveAll(registered: map<string, Plugin>, names: seq<string>, plugins: seq<Plugin>)
    requires |plugins| == |names|
    requires forall j :: 0 <= j < |names| ==> names[j] in registered && plugins[j] == registered[names[j]]
    ensures ResolveNames(registered, names) == Success(plugins)
  {
    var r := ResolveNames(registered, names);
    assert r.Success?;
    assert r.value == plugins;
  }
}
