# lerret plugin engine, in Dafny

lerret is a static-site generator for photo galleries. It loads a content
tree (site → albums → images) and then runs the configured sequence of
plugins over it. This project models the plugin core of lerret and proves
properties about the model:

- The **plugin registry** and its **execution engine** (`lib/plugins/plugins.js`):
  - installing a plugin runs three checks, in order;
  - one plugin runs its site, album and image hooks over the tree;
  - a hook that returns `undefined` keeps the original;
  - results are written back by position;
  - any failure is wrapped in a `LerretError`;
  - the plugin sequence resolves every name first, then folds the plugins left to right.
- The **plugin facade** (`lib/plugins/index.js`):
  - the three built-in plugins (convert, copy, pug) are installed first;
  - next, the plugin directory listing is filtered and each accepted module is loaded and installed;
  - a missing directory (`ENOENT`) is tolerated;
  - `callPlugins` runs the sequence named under `plugins` in the configuration.
- The **configuration accessor** (`lib/config.js`): lodash-path lookups with defaults, the missing-key error, the two directory defaults, and the `_config` cache that reads `lerret.yaml` only while nothing is cached.
- The **extension → format table** (`lib/formats.js`).
- The **image plugins**, as planners of abstract GraphicsMagick chains:
  - `lib/plugins/convert.js` and its resize helper `lib/plugins/convert/resize.js`;
  - `lib/plugins/resize.js`.
- The **match predicate** (`lib/plugins/match.js`), with the regex as an uninterpreted test.
- **Exif stripping and printing** (`lib/print.js`).
- The **log-verbosity state machine** (`lib/log.js`).

How the model is built:

- **Content.** The tree is a set of datatypes. Each entity has an opaque field map plus its `albums` or `images` sequence.
- **Hooks.** Hooks are function values returning `Result<Option<T>, Error>`:
  - `None` is a hook that returns `undefined`;
  - `Failure` is a hook that throws or rejects.
- **Runs.** A plugin run is `Run(result, trace)`. The trace records each hook call and the "Calling plugin" and "finished" log lines, so "no hook was invoked" and "finished is logged only on success" can be stated.
- **Concurrency.** Bluebird's `map`, `each` and `filter` are modelled as sequential and position-preserving. The first failure in list order is the one reported.
- **Classes.** Code that updates state in place is modelled with classes:
  - the registry object is `Plugins.Registry`;
  - the configuration cache is `Config.Loader`;
  - the console transport is `Log.ConsoleTransport`.
- **Loops.** Loops that build step by step are methods proved against the functions that specify them: `ConvertImage`, `ResizeImage`, `GetPluginSequence`, `InstallEach` and `LoadPaths`.
- **Outside world.** Anything the code gets from outside is a parameter of the model:
  - the directory listing, `fs.stat` results and `require` outcomes;
  - the contents of `lerret.yaml`;
  - the regex compiler and the renderer.

Modules: `Wrappers`, `Errors` (wrappers.dfy); `JsonValues` (json.dfy, lodash
paths over configuration values); `Content`; `Config`; `Formats`; `Paths`
(Node's posix `basename`/`extname`); `Magick` (operation chains, entry loops,
stream formats); `ConvertResize`; `Convert`; `Resize`; `Match`; `Print`;
`Log`; `Plugins`; `PluginFacade` (index.js, with the built-in copy and pug
modules reduced to their configuration lookups).

The model follows the code, including where its comments, tests or the
names it chooses suggest otherwise:

- An empty-string plugin name passes the name check. Only `undefined` is refused; see `Plugins.InstallCheckOrder`.
- A missing configuration key throws a plain `Error`, not a `LerretError`.
- Image and album hooks are dispatched through Bluebird's concurrent `map`. The model runs them sequentially, and the results are positional either way.

## Model

| member | source | states |
|---|---|---|
| Config.WithDefaults | lib/config.js:22-26 | On an object: `contentDirectory` and `pluginDirectory` are added, each only when absent, and every user-set key keeps its value. A scalar or `null` is left alone, because `_.defaults` only fills a wrapper object that is thrown away. |
| Config.DefaultsIdempotent | lib/config.js:22-26 | Applying the defaults a second time changes nothing, so doing it on every call is harmless. |
| Config.Get | lib/config.js:32-40 | `get` succeeds iff the path resolves or a default is given. It returns the stored value, else the default (including `null`). Otherwise it fails with the plain Error "Configuration parameter '<path>' does not exist.". |
| Config.DirectoryDefaults | lib/config.js:22-26 | Through `get`, `contentDirectory` reads "./content" and `pluginDirectory` reads "./plugins" unless the user set them, and user values win. |
| Config.CacheIsStable | lib/config.js:9-30 | Once `_config` holds a value, later calls never consult the file again and see the same defaulted tree. |
| Config.Loader.constructor | lib/config.js:9-10 | The cache starts empty and no file has been read. |
| Config.Loader.Load | lib/config.js:11-28 | The file is read exactly when nothing is cached. A read error is rethrown. An `undefined` document is not cached. The defaults are applied to the cached value. |
| Config.Loader.GetValue | lib/config.js:32-40 | `get` through the cache: a load error, or `Get` on the loaded tree. At most one file read. |
| Config.Loader.HasValue | lib/config.js:42-44 | `has` through the cache: a load error, or `Has` on the loaded tree. At most one file read. |
| Config.TwoLookups | lib/config.js:11-20 | Two lookups on a fresh accessor read a parseable file once, and the second lookup sees the first tree whatever the file holds later. A failing first read is retried by the next call. |
| JsonValues.ParsePath | lib/config.js:33 | A lodash path has at least one segment, and a leading '.' yields an empty first segment. |
| JsonValues.DottedPath | lib/config.js:33 | `"a.b"`, for plain keys a and b, is the two-segment path [a, b]. |
| JsonValues.HasDottedPath | lib/config.js:42-44 | `has("a.b")` holds iff member a exists and has member b; `get` then returns that nested member. |
| JsonValues.NatToString | lib/plugins/convert.js:17 | The decimal index written into "convert[i]." is a non-empty digit string with no leading zero. |
| JsonValues.DigitsValueOfNatToString | lib/plugins/convert.js:17 | The digits written for i read back as the number i. |
| JsonValues.IndexRoundTrip | lib/plugins/convert.js:17 | lodash reads the bracketed index written for entry i as array index i. |
| Formats.GetFormatOfPlainKey | lib/formats.js:20-28 | For a key without '.' or '[', `getFormat` is the table entry, or the LerretError "Unsupported file extension <ext>". |
| Formats.ExtensionFormatsBuilt | lib/formats.js:7-14 | The `fromPairs`/`flatMap` construction over `formatExtensions` gives exactly the six-entry table. |
| Formats.GetFormatTable | lib/formats.js:7-14 | gif→gif, jpeg and jpg→jpeg, png→png, tif and tiff→tiff. Every other plain key is rejected with the LerretError. |
| Formats.GetExtensionsValue | lib/formats.js:16-18 | `getExtensions()` is exactly gif, jpeg, jpg, png, tif, tiff. |
| Formats.ExtensionListsDisjoint | lib/formats.js:7-12 | No extension is listed under two formats. |
| Formats.ListedExtensionFormat | lib/formats.js:7-14 | An extension listed under a format is mapped to that format. |
| Formats.EveryExtensionHasItsFormat | lib/formats.js:7-28 | Every extension `getExtensions` returns is accepted by `getFormat`, with the unique format whose list holds it. |
| Formats.ExtensionsArePlainNames | lib/formats.js:14-18 | The listed extensions are non-empty and hold no '.', '[' or '/'. |
| Formats.EmptyExtensionRejected | lib/formats.js:20-28 | The empty extension (a name without a dot) is rejected. |
| Formats.DottedExtensionRejected | lib/formats.js:20-28 | An extension with its leading dot is always rejected, because lodash reads ".jpg" as the path ["", "jpg"]. |
| Paths.Basename | lib/plugins/index.js:30 | `basename` is the suffix after the last '/' and holds no '/'. |
| Paths.Extname | lib/plugins/index.js:34 | `extname` is "" or starts with its only '.', and is a suffix of the basename. |
| Paths.Extension | lib/plugins/index.js:34 | The same, for a basename. |
| Paths.JsExtensionOfBase | lib/plugins/index.js:34 | For a basename not starting with '.', the extension is ".js" iff the name ends in ".js". |
| Paths.JsExtension | lib/plugins/index.js:30-34 | For a path that is not hidden, `extname(f) === ".js"` iff its basename ends in ".js". |
| Magick.ChainOfParts | lib/plugins/convert.js:23-54 | A read, then resize links, then unsharp links, then quality links is in stage order. Each kind of link is present iff its part is non-empty. |
| Magick.EntryCount | lib/plugins/convert.js:17 | `_.range(get(key).length)`: an array counts its elements, `null` throws, any value without a length gives no entries, and a missing key gives the configuration error. |
| Magick.RunEntries | lib/plugins/convert.js:18 | The sequential `each` over entries succeeds iff every entry does. It writes entry k's output at position k, and on failure stops at the first failing entry with that entry's error. |
| Magick.RunEntriesStep | lib/plugins/convert.js:18 | A successful entry extends a successful run by exactly its output. |
| Magick.RunEntriesStop | lib/plugins/convert.js:18 | A failing entry settles every longer run: no later entry runs. |
| Magick.AsWrittenAlwaysFails | lib/plugins/convert.js:56 | As written, `getFormat(path.extname(f))` fails for every target, naming the dotted extension. |
| Magick.AsWrittenRejectsKnownName | lib/plugins/resize.js:46 | For every `stem.ext` with a known extension, such as "output.jpg": as written it fails with "Unsupported file extension .jpg", while the corrected lookup succeeds. |
| Magick.FormatExtension | lib/plugins/convert.js:56 | The extension without its dot: "" when there is none, else `extname` is "." followed by it. |
| Magick.ExtnameOfName | lib/plugins/convert.js:56 | `extname("stem.ext")` is ".ext". |
| Magick.FormatExtensionOfName | lib/plugins/convert.js:56 | The corrected extension of "stem.ext" is "ext". |
| Magick.StreamFormatOfName | lib/plugins/convert.js:56 | The corrected stream format of "stem.ext" is `getFormat("ext")`. |
| Magick.StreamFormatOfKnownName | lib/plugins/convert.js:56 | With the correction, every name with a listed extension streams in that extension's format. |
| ConvertResize.Setting | lib/plugins/convert/resize.js:12-13 | `get(key, d)` is the stored value when present, else `d`; it never throws. |
| ConvertResize.Apply | lib/plugins/convert/resize.js:11-26 | Crop only when `crop === true`. With crop, both dimensions are required and the chain grows by resize(w, h, "^"), gravity("Center"), crop(w, h). Without crop, one dimension suffices and the chain grows by resize(w, h), with nulls kept. The errors are the two LerretErrors, and the input chain is kept as a prefix. |
| ConvertResize.ApplyReadsOnlyResize | lib/plugins/convert/resize.js:11-26 | `apply` depends on the configuration only through the entry's width, height and crop. |
| Convert.AddResize | lib/plugins/convert.js:25-41 | The resize step appends the resize links to the chain, or fails with the resize error. |
| Convert.ConvertOne | lib/plugins/convert.js:19-56 | The per-entry callback, which reassigns `output` link by link, computes exactly `ConvertEntry`, the entry with the corrected format lookup of the Findings table. |
| Convert.ConvertImage | lib/plugins/convert.js:16-60 | The entry loop computes exactly `ConvertPlan`, with the corrected format lookup. |
| Convert.ProcessImage | lib/plugins/convert.js:16-60 | With the corrected lookup, the hook resolves to `undefined` and rejects iff some entry fails. |
| Convert.ProcessImageAsWritten | lib/plugins/convert.js:16-60 | The hook as written, with the dotted lookup: it resolves to `undefined` and rejects iff some entry fails. |
| Convert.EntryAsWritten | lib/plugins/convert.js:19-56 | As written, every entry fails. An entry whose filename, resize and unsharp settings are all readable fails at the format lookup, with "Unsupported file extension .ext" for a string target. An entry that fails earlier fails as the corrected entry does. |
| Convert.AsWrittenHookRejects | lib/plugins/convert.js:16-60 | As written, the hook writes nothing. It resolves iff `convert` has no entries. Otherwise it rejects with the error of reading `convert` or of entry 0. |
| Convert.AsWrittenErrorIgnoresImage | lib/plugins/convert.js:19-56 | As written, an entry's error depends on the configuration only, not on the image. |
| Convert.AsWrittenPlanIgnoresImage | lib/plugins/convert.js:16-60 | As written, the hook's outcome is the same for every image. |
| Convert.AsWrittenPluginRejects | lib/plugins/convert.js:56 | As written, the convert plugin rejects every site holding an image, with "Plugin convert threw an error; " and the hook's error, unless `convert` is configured with no entries. |
| Convert.OneConversionPerEntry | lib/plugins/convert.js:17-18 | One conversion per entry of `convert`, in index order. Success iff every entry succeeds. Outputs are positional. The first failing entry ends the plugin with its error. |
| Convert.ResizeOpsShape | lib/plugins/convert.js:25-41 | The resize part holds only resize-stage links, and holds a resize iff `resize` is configured. |
| Convert.ConvertEntryParts | lib/plugins/convert.js:19-56 | A converted entry is its `filename`, the chain read from `image.path`, and the corrected stream format of the filename. |
| Convert.UnsharpOpsShape | lib/plugins/convert.js:43-50 | The unsharp part is one unsharp link iff `unsharp` is configured. |
| Convert.QualityOpsShape | lib/plugins/convert.js:52-54 | The quality part is one quality link iff `quality` is configured. |
| Convert.ConvertChainOrder | lib/plugins/convert.js:23-56 | A converted chain reads `image.path`, then resizes, unsharpens and sets the quality, in that order. Each link is present iff its key is configured. The output is streamed in the corrected format of its filename. |
| Convert.ResizeAgreesWithApply | lib/plugins/convert.js:25-41 | The resize logic inlined in convert.js agrees with `isConfigured` and `apply` of lib/plugins/convert/resize.js: the same section, the same links and the same errors. |
| Resize.Mode | lib/plugins/resize.js:20 | `mode` defaults to "max". |
| Resize.Flag | lib/plugins/resize.js:26 | The "^" flag is passed iff the mode is "min" or "crop"; otherwise it is undefined. |
| Resize.ResizeOne | lib/plugins/resize.js:19-50 | The per-entry callback, which reassigns `resized` step by step, computes exactly `ResizeEntry`, the entry with the corrected format lookup of the Findings table. |
| Resize.ResizeImage | lib/plugins/resize.js:18-53 | The entry loop computes exactly `ResizePlan`, with the corrected format lookup. |
| Resize.ProcessImage | lib/plugins/resize.js:18-53 | With the corrected lookup, the hook resolves to `undefined` and rejects iff some entry fails. |
| Resize.ProcessImageAsWritten | lib/plugins/resize.js:18-53 | The hook as written, with the dotted lookup: it resolves to `undefined` and rejects iff some entry fails. |
| Resize.EntryAsWritten | lib/plugins/resize.js:19-50 | As written, every entry fails. An entry whose width, height, unsharp and filename settings are all readable fails at the format lookup, with "Unsupported file extension .ext" for a string target. An entry that fails earlier fails as the corrected entry does. |
| Resize.AsWrittenHookRejects | lib/plugins/resize.js:18-53 | As written, the hook writes nothing. It resolves iff `resize` has no entries. Otherwise it rejects with the error of reading `resize` or of entry 0. |
| Resize.AsWrittenErrorIgnoresImage | lib/plugins/resize.js:19-50 | As written, an entry's error depends on the configuration only, not on the image. |
| Resize.AsWrittenPlanIgnoresImage | lib/plugins/resize.js:18-53 | As written, the hook's outcome is the same for every image. |
| Resize.AsWrittenPluginRejects | lib/plugins/resize.js:46 | As written, the resize plugin rejects every site holding an image, with "Plugin resize threw an error; " and the hook's error, unless `resize` is configured with no entries. |
| Resize.OneResizePerEntry | lib/plugins/resize.js:14-19 | One resize per entry of `resize`, with keys "resize[k].…", in index order. Success iff every entry succeeds, with outputs positional. |
| Resize.ResizeEntryParts | lib/plugins/resize.js:20-46 | A resized entry has width and height configured. Its chain reads `image.filename` and holds the mode's links, unsharp and quality. It is written to its `filename` in that name's corrected format. |
| Resize.DimensionsRequired | lib/plugins/resize.js:21-22 | A missing width, then a missing height, fails the entry with that key's configuration error. |
| Resize.ModeRule | lib/plugins/resize.js:26-30 | Mode "crop" gives resize(w, h, "^"), gravity("Center"), crop(w, h). Mode "min" gives resize(w, h, "^"). Any other mode gives one resize without a flag. |
| Resize.LinksRank | lib/plugins/resize.js:26-30 | The mode's links start with the resize and are all resize-stage links. |
| Resize.UnsharpOpsShape | lib/plugins/resize.js:32-39 | One unsharp link iff `unsharp` is configured. |
| Resize.QualityOpsShape | lib/plugins/resize.js:41-43 | One quality link iff `quality` is configured. |
| Resize.ResizeChainOrder | lib/plugins/resize.js:26-43 | A resized chain reads the file, resizes (and crops), then unsharpens, then sets the quality, in stage order. |
| Match.MatchImage | lib/plugins/match.js:6-14 | Without a "<path>.match" section the result is `true` for every image. An error can occur only when the section exists. |
| Match.MissingPropertyNeverMatches | lib/plugins/match.js:10 | An image without the configured property is not selected, whatever the regex. |
| Match.PresentPropertyIsTested | lib/plugins/match.js:10 | An image with the property is selected iff the regex test accepts the property's value. |
| Match.DependsOnPropertyOnly | lib/plugins/match.js:6-14 | Two images that agree on whether the property exists and on its test result are treated alike. |
| Match.PropertyRequired | lib/plugins/match.js:8 | With a match section, a missing `match.property` throws the configuration error first. |
| Match.RegexRequired | lib/plugins/match.js:9 | Next, a missing `match.regex` throws the configuration error. |
| Match.RegexMustCompile | lib/plugins/match.js:9 | Last, a regex that does not compile throws the compiler's error. |
| Print.WithoutExif | lib/print.js:14 | `_.omit(image, "exif")`: no "exif" key, and every other key kept with its value. |
| Print.AlbumWithoutExif | lib/print.js:13-15 | The album keeps its fields and its image count, and image k is image k without exif. |
| Print.RemoveExif | lib/print.js:11-17 | The site keeps its fields and its album count, and album k is album k with its images stripped. |
| Print.RemoveExifEffect | lib/print.js:11-17 | After `removeExif` no image keeps "exif". Every other site, album and image field is kept, and album and image counts and order are unchanged. |
| Print.RemoveExifKeepsExifFree | lib/print.js:11-17 | An exif-free site is left exactly as it is. |
| Print.RemoveExifIdempotent | lib/print.js:11-17 | Stripping twice is stripping once. |
| Print.FormatOptions | lib/print.js:19-29 | With colour: dash white, keys blue, numbers yellow, strings white, and nothing else. Without colour: `{noColor: true}`. |
| Print.Print | lib/print.js:31-40 | Every call first sets the level to "warn". Then exactly one more event follows (the write or the logged error), or the call rejects with no further event. |
| Print.PrintWritesSite | lib/print.js:34-36 | With exif on, the loaded site is rendered unchanged. With exif off, the rendered site is exif-free with its fields and albums kept. |
| Print.PrintLoadErrors | lib/print.js:37-39 | A LerretError from loading logs its message and resolves. Any other error rejects with that error, and nothing is written. |
| Log.Step | lib/log.js:17-26 | Levels sit on the ladder info → debug → verbose. |
| Log.NextLevelTransitions | lib/log.js:17-26 | "info" becomes "debug", "debug" becomes "verbose", and every other level, "verbose" included, is unchanged. |
| Log.AfterClimbs | lib/log.js:17-26 | n calls climb n steps, capped at "verbose", after which nothing changes. |
| Log.FromInfo | lib/log.js:9 | From the initial "info", two or more calls end at "verbose". |
| Log.ConsoleTransport.constructor | lib/log.js:9 | The console transport starts at "info". |
| Log.ConsoleTransport.IncreaseVerbosity | lib/log.js:17-26 | One call moves the level by `NextLevel`. |
| Log.TwoCalls | lib/log.js:9-26 | A fresh transport with two calls is at "verbose". |
| Plugins.FirstFailure | lib/plugins/plugins.js:56-60 | The index of the first failing hook: all before it succeeded. |
| Plugins.Invoked | lib/plugins/plugins.js:56-60 | A sequential map calls hooks up to and including the first failing one. |
| Plugins.Collect | lib/plugins/plugins.js:21-25 | A map with `returnWithDefault`: success iff every hook succeeds. Position j is the hook's defined result, else the original element j. Failure is the first failing hook's error. |
| Plugins.AlbumResults | lib/plugins/plugins.js:57-58 | Album i's hook gets (album i, i, album count, content). |
| Plugins.ImageResults | lib/plugins/plugins.js:73-74 | Image i's hook gets (image i, i, the album's image count, album, content). |
| Plugins.ImagesFrom | lib/plugins/plugins.js:70-79 | The image stage over albums from a position on succeeds iff every image hook does. Each album's images are replaced positionally, and only image-hook events are produced. |
| Plugins.ImagesFromFailure | lib/plugins/plugins.js:70-79 | A failing image stage reports the error of image i of album a, where every earlier call in album-then-image order succeeded. |
| Plugins.SiteStageEffect | lib/plugins/plugins.js:45-53 | Without a site hook nothing happens. Otherwise the hook is called once: a defined result replaces the content, `undefined` keeps the original, and a failure is passed on. |
| Plugins.AlbumStagePositional | lib/plugins/plugins.js:54-67 | Album hooks are called with their positions. Success iff all succeed, giving the same count, album i replaced or kept, only `albums` written back, and one call per album. On failure, hooks 0..k were called and hook k's error is reported. |
| Plugins.ImageStagePositional | lib/plugins/plugins.js:68-84 | Image hooks are called per album with their index and the album's image count. Success iff all succeed, giving each image replaced or kept, and only `images` and `albums` written back. On failure, the error is that of the first failing call in album-then-image order. |
| Plugins.UniformImageFailure | lib/plugins/plugins.js:68-86 | A hook that fails with the same error on every image ends the image stage with that error once any album holds an image. |
| Plugins.StageTraces | lib/plugins/plugins.js:44-84 | The stages themselves emit only hook invocations. |
| Plugins.RunPluginStages | lib/plugins/plugins.js:44-87 | Site, then album on the post-site content, then image on the post-album content. The plugin resolves to the image stage's result, or rejects with "Plugin <name> threw an error; <message>", where the message is that of the first failing stage's error. |
| Plugins.StagesTrace | lib/plugins/plugins.js:44-84 | The three stages together emit only hook invocations. |
| Plugins.FinishedOnlyOnSuccess | lib/plugins/plugins.js:41-90 | A run begins with "Calling plugin". It logs "finished" iff it succeeds, as its last event. |
| Plugins.SequenceSnoc | lib/plugins/plugins.js:98 | Plugin k + 1 receives exactly plugin k's output: the fold of a sequence plus one runs the last plugin on the result of the rest. |
| Plugins.StopsAtFirstFailure | lib/plugins/plugins.js:98 | Once a plugin rejects, no later plugin runs, and the sequence ends with that rejection. |
| Plugins.Installed | lib/plugins/plugins.js:32-40 | A failed install leaves the registry unchanged. A successful one adds exactly the key `name` and keeps every other entry. |
| Plugins.InstallNameCheck | lib/plugins/plugins.js:33 | "Plugin does not define a name" is raised iff the name is `undefined`. |
| Plugins.InstallCheckOrder | lib/plugins/plugins.js:32-38 | The checks run name, then hooks, then duplicate. A named module with a hook and a fresh name (the empty name included) is accepted. |
| Plugins.GetPlugin | lib/plugins/plugins.js:27-30 | Succeeds iff the name is registered, with its plugin. Otherwise "Plugin <name> could not be found". |
| Plugins.FirstMissing | lib/plugins/plugins.js:96 | The first unregistered name: all names before it are registered. |
| Plugins.ResolveNames | lib/plugins/plugins.js:96 | Resolving succeeds iff every name is registered, giving the plugins in name order. Otherwise the error names the first missing one. |
| Plugins.UnresolvedNameRunsNothing | lib/plugins/plugins.js:95-99 | An unregistered name rejects the sequence with "Plugin <n> could not be found" before any hook of any plugin runs. |
| Plugins.Registry.constructor | lib/plugins/plugins.js:13 | The registry starts empty. |
| Plugins.Registry.Install | lib/plugins/plugins.js:102-104 | `installPlugin` reports `InstallCheck` and leaves the registry as `Installed` says. |
| Plugins.Registry.GetPluginSequence | lib/plugins/plugins.js:95-96 | The name-by-name resolution loop computes exactly `ResolveNames`. |
| Plugins.Registry.UninstallAll | lib/plugins/plugins.js:106-108 | Deleting key by key leaves the registry empty. |
| Plugins.FirstMissingAt | lib/plugins/plugins.js:96 | The first index with every earlier name registered and this one not is the first missing name. |
| Plugins.ResolveAll | lib/plugins/plugins.js:96 | With every name registered, resolving yields the registered plugins in name order. |
| PluginFacade.CopyImage | lib/plugins/copy.js:11-16 | The copy hook resolves to `undefined` iff the image has a string `filename`. Otherwise `path.basename` throws. |
| PluginFacade.PugTemplate | lib/plugins/pug.js:25 | Each pug hook needs its `pug.templates.<page>` setting. The read passes iff the setting exists, and otherwise fails with the configuration error. |
| PluginFacade.InstallAll | lib/plugins/index.js:21 | Installing modules one by one keeps earlier entries. On success every module's name is registered. |
| PluginFacade.BuiltInsInstalled | lib/plugins/index.js:13-23 | The built-ins install into an empty registry without error, as convert, copy and pug. |
| PluginFacade.BuiltInNamesTaken | lib/plugins/index.js:49-50 | Because built-ins go first, a project plugin named convert, copy or pug is refused as already registered. |
| PluginFacade.Resolved | lib/plugins/index.js:29 | Every directory entry is resolved against the plugin directory, one path per entry. |
| PluginFacade.Candidates | lib/plugins/index.js:30-37 | The filters succeed iff `stat` succeeds for every entry that is not hidden. Hidden entries are never passed to `stat`. |
| PluginFacade.CandidateSource | lib/plugins/index.js:30-37 | Candidate j is the path of an accepted entry at a position of at least j. |
| PluginFacade.CandidatesSound | lib/plugins/index.js:30-37 | Every candidate is the path of an accepted entry (not hidden, and a directory or ".js"). |
| PluginFacade.CandidatesComplete | lib/plugins/index.js:30-37 | Every accepted entry's path is a candidate. |
| PluginFacade.CandidatesAppend | lib/plugins/index.js:30-37 | The filters keep listing order: the candidates of a + b are those of a, then those of b. |
| PluginFacade.CandidatesOfOne | lib/plugins/index.js:30-37 | A hidden entry is dropped, a failing `stat` rejects, and an accepted entry passes. |
| PluginFacade.BasenameOfResolved | lib/plugins/index.js:29-30 | An entry name is the basename of its resolved path. |
| PluginFacade.AcceptedByName | lib/plugins/index.js:30-37 | An entry is loaded iff its name does not start with ".", its `stat` succeeds, and it is a directory or its name ends in ".js". |
| PluginFacade.LoadEach | lib/plugins/index.js:38-44 | Modules load in candidate order, and the loaded paths are a prefix of the candidates (all of them on success). Earlier registry entries are kept. |
| PluginFacade.ProjectPluginsListed | lib/plugins/index.js:27-46 | With the directory listed, the candidates are loaded, or a filter error is caught when it is ENOENT and rejects otherwise. |
| PluginFacade.LoadedAreCandidates | lib/plugins/index.js:30-44 | Every path passed to `require` is the path of an accepted entry. |
| PluginFacade.MissingDirectoryLeavesBuiltIns | lib/plugins/index.js:46 | A missing plugin directory (ENOENT) leaves exactly the built-ins installed. `initPlugins` resolves and nothing is loaded. |
| PluginFacade.ListingErrorRejects | lib/plugins/index.js:28-46 | Any other listing error rejects `initPlugins` after the built-ins are installed. |
| PluginFacade.LoadFailureNamesPath | lib/plugins/index.js:39-42 | A module that cannot be loaded rejects with "Cannot load module <path>; $s <message>" (the "$s" is literal). |
| PluginFacade.NamesOf | lib/plugins/index.js:54-55 | An array of strings is iterated item by item and a string character by character. Any other value is rejected by `Promise.map` as not iterable. |
| PluginFacade.CallPlugins | lib/plugins/index.js:53-56 | Without `plugins` configured, `callPlugins` rejects with the configuration error and runs nothing. |
| PluginFacade.CallPluginsFolds | lib/plugins/index.js:53-56 | With a configured list of registered names, `callPlugins` is the fold of those plugins in list order. An unregistered name runs nothing. |
| PluginFacade.InstallEach | lib/plugins/index.js:21 | The install loop over the shared registry computes `InstallAll`. |
| PluginFacade.LoadBuiltInPlugins | lib/plugins/index.js:19-23 | `loadBuiltInPlugins` installs the three built-ins, as `InstallAll` says. |
| PluginFacade.LoadPaths | lib/plugins/index.js:38-44 | The `require`-then-install loop computes `LoadEach`. |
| PluginFacade.LoadProjectPlugins | lib/plugins/index.js:25-47 | `loadProjectPlugins` on the shared registry computes `ProjectPlugins`. |
| PluginFacade.InitPluginsInto | lib/plugins/index.js:49-51 | The built-ins are installed first, then the project plugins, as `InitPlugins` says. |
| PluginFacade.CallPluginsOn | lib/plugins/index.js:53-56 | `callPlugins` against the shared registry computes `CallPlugins`. |

## Left out

- File, stream and console I/O:
  - the GraphicsMagick processing itself (a chain is a list of abstract operations);
  - writer streams and the piping in convert.js, resize.js and copy.js;
  - pug compilation and rendering (a hook only reads its template setting);
  - prettyjson rendering (a parameter of `Print.Print`);
  - stdout.
- Reading `lerret.yaml` and YAML parsing: the file's outcome is a parameter of `Config.Loader`, and the `log.error` on a failed read is not modelled.
- The timer and the duration in the "finished" line. Log lines other than "Calling plugin" and "finished" are not modelled, and neither are `log.debug` and `log.verbose` messages.
- Concurrency: Bluebird's `map`/`filter` run sequentially in the model. When several hooks or several `stat` calls fail, the error reported is the first in list order, not the first to reject in time.
- Object identity:
  - deep copies and `_.assign` write-back into the caller's objects are not visible with values;
  - the in-place update of `removeExif` is modelled as returning a new site;
  - `get` returning a deep copy holds trivially.
- lodash path edge cases: the model splits a path on '.', '[' and ']' and drops empty segments, except a leading "".
  - Quoted keys and escapes are not modelled.
  - Registry names and configuration paths are strings.
  - Registry names are read as plain keys, although `_.has(registered, name)` would read "a.b" as a path.
- Match.Selects: a property value that is not a string is treated as naming no path. The regex is an uninterpreted compile function and test.
- PluginFacade.NamesOf: an array holding a non-string element is rejected as a whole. The source would pass it to `getPlugin`.
- Magick.EntryCount: a JavaScript object with its own `length` member is not distinguished from other objects.
- PluginFacade.ResolvedPath: `path.resolve` against the working directory and path normalisation are not modelled. An entry path is the directory, "/", then the entry name.
- Paths.Basename: trailing path separators are not handled.
- `Magick.PathTypeError`, the `path` module's type error, carries a fixed message, without Node's "Received …" suffix.
- lib/plugins/convert/index.js is not part of this model: index.js:14 `require("./convert")` loads lib/plugins/convert.js. The one-line `unsharp.js` and `quality.js` helpers are not modelled either.
- The resize plugin (`Resize.Module`) is modelled, but index.js does not install it as a built-in, so it runs only when a project installs it.
- Convert.ConvertOne: follows the corrected format lookup of the Findings table, not convert.js:56 as written. The as-written entry is `Convert.ConvertEntryAsWritten`, and `Convert.AsWrittenPluginRejects` states what it does.
- Convert.ConvertImage: computes the corrected plan. As written, the plan is `Convert.ConvertPlanAsWritten`, which never writes an image.
- Convert.ProcessImage: the corrected hook, which the built-in `Convert.Module` registers. The hook as written is `Convert.ProcessImageAsWritten`, which rejects whenever `convert` has an entry.
- Convert.ConvertEntryParts: its format clause is the corrected lookup. As written, no entry succeeds (`Convert.EntryAsWritten`).
- Convert.ConvertChainOrder: its stream format is the corrected one. As written, no chain is streamed.
- Resize.ResizeOne: follows the corrected format lookup of the Findings table, not resize.js:46 as written. The as-written entry is `Resize.ResizeEntryAsWritten`, and `Resize.AsWrittenPluginRejects` states what it does.
- Resize.ResizeImage: computes the corrected plan. As written, the plan is `Resize.ResizePlanAsWritten`, which never writes an image.
- Resize.ProcessImage: the corrected hook, which `Resize.Module` exports. The hook as written is `Resize.ProcessImageAsWritten`.
- Resize.ResizeEntryParts: "in that name's format" is the corrected lookup. As written, no entry succeeds (`Resize.EntryAsWritten`).
- Config.WithDefaults: a top-level YAML sequence gets no defaults in the model. In the source, `_.defaults` adds `contentDirectory` and `pluginDirectory` to the array in place, so `get("pluginDirectory")` returns "./plugins".
- Config.Get: only own members of the loaded tree are found. lodash's `_.get` also reads inherited `Object.prototype` members, so `get("constructor")` succeeds in the source and fails in the model.
- Formats.GetFormatOfPlainKey: only the six table keys are found. `getFormat("toString")` or `getFormat("constructor")` returns an inherited member instead of throwing.
- Formats.GetFormatTable: "every other plain key is rejected" holds for own keys only; inherited `Object.prototype` names are not rejected by `_.get`.
- JsonValues.Member: a value's members are its own data keys. A string's own `length` and inherited members are not modelled, so a match property such as "filename.length" never selects in the model (`Match.Selects`), while `_.has` and `_.get` read the string's length in the source.
- Plugins.Collect: a hook result is `undefined` (kept) or an entity of the stage's type. A hook that returns `null` or a non-entity value has it kept by `returnWithDefault`, and the next stage's `content.albums` or `album.images` then throws a TypeError that the engine wraps. This is not modelled.
- Plugins.Wrap: a thrown value that is not an `Error` has no `message`, and the source reports "…; undefined". The model's errors always carry a message.
- Plugins.AlbumStagePositional: "hooks 0..k were called" holds for hooks that throw synchronously. When a hook returns a rejected promise, Bluebird's `map` has already called every other hook of the stage, so the model's traces under-count the calls made before a rejection.
- Plugins.ImagesFrom: the same applies to image hooks, and to the albums whose image hooks Bluebird starts concurrently with the failing one.
- The content loader (lib/content), jade.js, writer.js, timer.js, init.js, generate.js and cli.js are not part of this model.

## Findings

| source | as written | input that shows it | evidently intended | confidence | as-written member | corrected member |
|---|---|---|---|---|---|---|
| lib/plugins/convert.js:56 | `formats.getFormat(path.extname(targetFilename))` passes ".jpg". lodash reads that as the path ["", "jpg"], and the table has no "" key, so every entry fails with "Unsupported file extension .jpg", and the plugin rejects for every site holding an image. | target filename "output.jpg" | look up the extension without its dot ("jpg" → "jpeg"), as the table's keys and `getExtensions()` are written | high; not executed | Convert.AsWrittenPluginRejects | Magick.StreamFormatOfKnownName |
| lib/plugins/resize.js:46 | `formats.getFormat(path.extname(targetFilename))` passes ".jpg". lodash reads that as the path ["", "jpg"], and the table has no "" key, so every entry fails with "Unsupported file extension .jpg", and the plugin rejects for every site holding an image. | target filename "output.jpg" | look up the extension without its dot ("jpg" → "jpeg"), as the table's keys and `getExtensions()` are written | high; not executed | Resize.AsWrittenPluginRejects | Magick.StreamFormatOfKnownName |
