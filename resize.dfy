/** lib/plugins/resize.js: the "resize" plugin, one resized copy per entry of `resize`. */
module Resize {
  import opened Wrappers
  import opened Errors
  import opened JsonValues
  import opened Content
  import opened Config
  import opened Magick
  import opened Plugins

  /** `key(i, path)`. */
  function Key(i: nat, path: string): string
  {
    "resize[" + NatToString(i) + "]." + path
  }

  /** `config.get(key(i, "mode"), "max")`. */
  function Mode(config: Json, i: nat): (r: Json)
    ensures !Has(config, Key(i, "mode")) ==> r == JStr("max")
    ensures Has(config, Key(i, "mode")) ==> r == Lookup(config, Key(i, "mode")).value
  {
    Get(config, Key(i, "mode"), Some(JStr("max"))).value
  }

  /** `_.includes(["min", "crop"], mode) ? "^" : undefined`. */
  function Flag(mode: Json): (r: Option<string>)
    ensures r.Some? <==> mode == JStr("min") || mode == JStr("crop")
    ensures r.Some? ==> r.value == "^"
  {
    if mode == JStr("min") || mode == JStr("crop") then Some("^") else None
  }

  /** The resize link, followed by a centred crop in mode "crop". */
  function ResizeLinks(mode: Json, width: Json, height: Json): seq<Operation>
  {
    [ResizeTo(width, height, Flag(mode))] + (if mode == JStr("crop") then [Gravity("Center"), CropTo(width, height)] else [])
  }

  /** The unsharp link of entry i; its four settings are required once `unsharp` is present. */
  function UnsharpOps(config: Json, i: nat): Result<seq<Operation>, Error>
  {
    if !Has(config, Key(i, "unsharp")) then Success([])
    else
      var radius :- Get(config, Key(i, "unsharp.radius"), None);
      var sigma :- Get(config, Key(i, "unsharp.sigma"), None);
      var amount :- Get(config, Key(i, "unsharp.amount"), None);
      var threshold :- Get(config, Key(i, "unsharp.threshold"), None);
      Success([Unsharp(radius, sigma, amount, threshold)])
  }

  /** The quality link of entry i. */
  function QualityOps(config: Json, i: nat): seq<Operation>
  {
    if Has(config, Key(i, "quality")) then [Quality(Get(config, Key(i, "quality"), None).value)] else []
  }

  /** Entry i: width and height (both required), the chain from `image.filename`, the target and its format. */
  function ResizeEntry(config: Json, image: Image, i: nat): Result<Output, Error>
  {
    var mode := Mode(config, i);
    var width :- Get(config, Key(i, "width"), None);
    var height :- Get(config, Key(i, "height"), None);
    var unsharp :- UnsharpOps(config, i);
    var target :- Get(config, Key(i, "filename"), None);
    var format :- StreamFormat(target);
    Success(Output(target, [Read(Field(image.fields, "filename"))] + ResizeLinks(mode, width, height) + unsharp + QualityOps(config, i), format))
  }

  /** All entries of `resize`, in index order. */
  function ResizePlan(config: Json, image: Image): Plan
  {
    match EntryCount(Get(config, "resize", None))
    case Failure(e) => Plan([], Some(e))
    case Success(n) => RunEntries((k: nat) => ResizeEntry(config, image, k), n)
  }

  /** The `Promise.each` callback for entry i: `resized` is reassigned link by link. */
  method ResizeOne(config: Json, image: Image, i: nat) returns (r: Result<Output, Error>)
    ensures r == ResizeEntry(config, image, i)
  {
    var mode := Get(config, Key(i, "mode"), Some(JStr("max"))).value;
    var width := Get(config, Key(i, "width"), None);
    if width.Failure? {
      return Failure(width.error);
    }
    var height := Get(config, Key(i, "height"), None);
    if height.Failure? {
      return Failure(height.error);
    }
    var flag := if mode == JStr("min") || mode == JStr("crop") then Some("^") else None;
    var resized := [Read(Field(image.fields, "filename")), ResizeTo(width.value, height.value, flag)];
    if mode == JStr("crop") {
      resized := resized + [Gravity("Center"), CropTo(width.value, height.value)];
    }
    assert resized == [Read(Field(image.fields, "filename"))] + ResizeLinks(mode, width.value, height.value);
    var unsharp := UnsharpOps(config, i);
    if unsharp.Failure? {
      return Failure(unsharp.error);
    }
    resized := resized + unsharp.value;
    if Has(config, Key(i, "quality")) {
      resized := resized + [Quality(Get(config, Key(i, "quality"), None).value)];
    } else {
      assert resized + QualityOps(config, i) == resized;
    }
    var target := Get(config, Key(i, "filename"), None);
    if target.Failure? {
      return Failure(target.error);
    }
    var format := StreamFormat(target.value);
    if format.Failure? {
      return Failure(format.error);
    }
    return Success(Output(target.value, resized, format.value));
  }

  /** `resize(image, index, length, album)`: the entries one after the other, stopping at the first error. */
  method ResizeImage(config: Json, image: Image) returns (plan: Plan)
    ensures plan == ResizePlan(config, image)
  {
    var count := EntryCount(Get(config, "resize", None));
    if count.Failure? {
      return Plan([], Some(count.error));
    }
    ghost var entry := (k: nat) => ResizeEntry(config, image, k);
    var written: seq<Output> := [];
    var i := 0;
    while i < count.value
      invariant 0 <= i <= count.value
      invariant RunEntries(entry, i) == Plan(written, None)
    {
      var r := ResizeOne(config, image, i);
      assert r == entry(i);
      if r.Failure? {
        RunEntriesStop(entry, i, count.value);
        return Plan(written, Some(r.error));
      }
      RunEntriesStep(entry, i);
      written := written + [r.value];
      i := i + 1;
    }
    return Plan(written, None);
  }

  /** The hook: rejects with the first entry's error, else resolves to `undefined`. */
  function ProcessImage(image: Image, index: nat, length: nat, album: Album, site: Site, config: Json): (r: Result<Option<Image>, Error>)
    ensures r.Success? ==> r.value.None?
    ensures r.Failure? <==> ResizePlan(config, image).failure.Some?
  {
    var plan := ResizePlan(config, image);
    if plan.failure.Some? then Failure(plan.failure.value) else Success(None)
  }

  /** The module lib/plugins/resize.js exports. */
  function Module(): PluginModule
  {
    PluginModule(Some("resize"), None, None, Some(ProcessImage))
  }

  /**
   * Entry i as resize.js writes it: the same steps as `ResizeEntry`, but the
   * format is looked up under the extension with its leading dot.
   */
  function ResizeEntryAsWritten(config: Json, image: Image, i: nat): Result<Output, Error>
  {
    var mode := Mode(config, i);
    var width :- Get(config, Key(i, "width"), None);
    var height :- Get(config, Key(i, "height"), None);
    var unsharp :- UnsharpOps(config, i);
    var target :- Get(config, Key(i, "filename"), None);
    var format :- AsWrittenStreamFormat(target);
    Success(Output(target, [Read(Field(image.fields, "filename"))] + ResizeLinks(mode, width, height) + unsharp + QualityOps(config, i), format))
  }

  /** All entries of `resize` as written, in index order. */
  function ResizePlanAsWritten(config: Json, image: Image): Plan
  {
    match EntryCount(Get(config, "resize", None))
    case Failure(e) => Plan([], Some(e))
    case Success(n) => RunEntries((k: nat) => ResizeEntryAsWritten(config, image, k), n)
  }

  /** The hook as written: rejects with the first entry's error, else resolves to `undefined`. */
  function ProcessImageAsWritten(image: Image, index: nat, length: nat, album: Album, site: Site, config: Json): (r: Result<Option<Image>, Error>)
    ensures r.Success? ==> r.value.None?
    ensures r.Failure? <==> ResizePlanAsWritten(config, image).failure.Some?
  {
    var plan := ResizePlanAsWritten(config, image);
    if plan.failure.Some? then Failure(plan.failure.value) else Success(None)
  }

  /**
   * As written, an entry that gets past its width, height, unsharp and
   * filename settings is rejected by the format lookup, with "Unsupported
   * file extension .ext" for a string target; an entry that fails earlier
   * fails as the corrected entry does.
   */
  lemma EntryAsWritten(config: Json, image: Image, i: nat)
    ensures var target := Get(config, Key(i, "filename"), None);
      var reaches := Has(config, Key(i, "width")) && Has(config, Key(i, "height")) &&
        UnsharpOps(config, i).Success? && target.Success?;
      var r := ResizeEntryAsWritten(config, image, i);
      r.Failure? &&
      (reaches ==> r == Failure(AsWrittenStreamFormat(target.value).error)) &&
      (reaches && target.value.JStr? ==> r == Failure(LerretError("Unsupported file extension " + Paths.Extname(target.value.s)))) &&
      (!reaches ==> r == ResizeEntry(config, image, i))
  {
    var width := Get(config, Key(i, "width"), None);
    var height := Get(config, Key(i, "height"), None);
    var target := Get(config, Key(i, "filename"), None);
    var r := ResizeEntryAsWritten(config, image, i);
    if width.Failure? {
      assert r == Failure(width.error) == ResizeEntry(config, image, i);
    } else if height.Failure? {
      assert r == Failure(height.error) == ResizeEntry(config, image, i);
    } else if UnsharpOps(config, i).Failure? {
      assert r == Failure(UnsharpOps(config, i).error) == ResizeEntry(config, image, i);
    } else if target.Failure? {
      assert r == Failure(target.error) == ResizeEntry(config, image, i);
    } else {
      AsWrittenAlwaysFails(target.value);
      assert r == Failure(AsWrittenStreamFormat(target.value).error);
    }
  }

  /**
   * As written, the hook never writes an image: it resolves only when
   * `resize` has no entries, and otherwise rejects with the error of entry 0
   * (or of reading `resize`).
   */
  lemma AsWrittenHookRejects(config: Json, image: Image)
    ensures var plan := ResizePlanAsWritten(config, image);
      var count := EntryCount(Get(config, "resize", None));
      plan.written == [] &&
      (plan.failure.None? <==> count == Success(0)) &&
      (count.Failure? ==> plan.failure == Some(count.error)) &&
      (count.Success? && count.value > 0 ==> plan.failure == Some(ResizeEntryAsWritten(config, image, 0).error))
  {
    var count := EntryCount(Get(config, "resize", None));
    if count.Success? && count.value > 0 {
      var entry := (k: nat) => ResizeEntryAsWritten(config, image, k);
      EntryAsWritten(config, image, 0);
      RunEntriesStop(entry, 0, count.value);
    }
  }

  /** The entry errors as written depend on the configuration only. */
  lemma AsWrittenErrorIgnoresImage(config: Json, x: Image, y: Image, i: nat)
    ensures ResizeEntryAsWritten(config, x, i).Failure? && ResizeEntryAsWritten(config, y, i).Failure? &&
      ResizeEntryAsWritten(config, x, i).error == ResizeEntryAsWritten(config, y, i).error
  {
    EntryAsWritten(config, x, i);
    EntryAsWritten(config, y, i);
  }

  /** As written, the hook's outcome is the same for every image. */
  lemma AsWrittenPlanIgnoresImage(config: Json, x: Image, y: Image)
    ensures ResizePlanAsWritten(config, x) == ResizePlanAsWritten(config, y)
  {
    AsWrittenHookRejects(config, x);
    AsWrittenHookRejects(config, y);
    AsWrittenErrorIgnoresImage(config, x, y, 0);
  }

  /** The plugin `installPlugin` registers for the module as written. */
  function PluginAsWritten(): Plugin
  {
    Plugin("resize", None, None, Some(ProcessImageAsWritten))
  }

  /**
   * As written, the resize plugin rejects every site that holds an image
   * unless `resize` is configured with no entries, with "Plugin resize threw
   * an error; " and the hook's error.
   */
  lemma AsWrittenPluginRejects(content: Site, config: Json, a: nat)
    requires a < |content.albums| && |content.albums[a].images| > 0
    requires EntryCount(Get(config, "resize", None)) != Success(0)
    ensures var plan := ResizePlanAsWritten(config, content.albums[a].images[0]);
      plan.failure.Some? &&
      RunPlugin(PluginAsWritten(), content, config).result == Failure(Wrap("resize", plan.failure.value))
  {
    var p := PluginAsWritten();
    var image := content.albums[a].images[0];
    AsWrittenHookRejects(config, image);
    var e := ResizePlanAsWritten(config, image).failure.value;
    forall b, j | 0 <= b < |content.albums| && 0 <= j < |content.albums[b].images|
      ensures ImageCall(p.processImage.value, content, config, b, j) == Failure(e)
    {
      AsWrittenPlanIgnoresImage(config, image, content.albums[b].images[j]);
    }
    UniformImageFailure(p, content, config, e, a);
    RunPluginStages(p, content, config);
  }

  /** One resize per entry of `resize`, entry k read under "resize[k].", in index order. */
  lemma OneResizePerEntry(config: Json, image: Image, items: seq<Json>)
    requires Get(config, "resize", None) == Success(JArr(items))
    ensures var plan := ResizePlan(config, image);
      (plan.failure.None? <==> forall k :: 0 <= k < |items| ==> ResizeEntry(config, image, k).Success?) &&
      (plan.failure.None? ==> |plan.written| == |items|) &&
      (forall k :: 0 <= k < |plan.written| ==> ResizeEntry(config, image, k) == Success(plan.written[k])) &&
      (plan.failure.Some? ==>
        |plan.written| < |items| && ResizeEntry(config, image, |plan.written|) == Failure(plan.failure.value))
  {
    var entry := (k: nat) => ResizeEntry(config, image, k);
    assert EntryCount(Get(config, "resize", None)) == Success(|items|);
    var plan := RunEntries(entry, |items|);
    assert ResizePlan(config, image) == plan;
    assert forall k :: 0 <= k < |plan.written| ==> entry(k) == Success(plan.written[k]);
    assert forall k: nat :: entry(k) == ResizeEntry(config, image, k);
  }

  /** A resized entry is its target, its chain of parts, and its stream format. */
  lemma ResizeEntryParts(config: Json, image: Image, i: nat)
    requires ResizeEntry(config, image, i).Success?
    ensures Has(config, Key(i, "width")) && Has(config, Key(i, "height")) && UnsharpOps(config, i).Success?
    ensures var out := ResizeEntry(config, image, i).value;
      out.operations == [Read(Field(image.fields, "filename"))] +
        ResizeLinks(Mode(config, i), Lookup(config, Key(i, "width")).value, Lookup(config, Key(i, "height")).value) +
        UnsharpOps(config, i).value + QualityOps(config, i) &&
      Has(config, Key(i, "filename")) && out.target == Lookup(config, Key(i, "filename")).value &&
      StreamFormat(out.target) == Success(out.format)
  {
  }

  /** Width and height are both required: a missing one fails the entry with the configuration error. */
  lemma DimensionsRequired(config: Json, image: Image, i: nat)
    ensures !Has(config, Key(i, "width")) ==>
      ResizeEntry(config, image, i) == Failure(PlainError("Configuration parameter '" + Key(i, "width") + "' does not exist."))
    ensures Has(config, Key(i, "width")) && !Has(config, Key(i, "height")) ==>
      ResizeEntry(config, image, i) == Failure(PlainError("Configuration parameter '" + Key(i, "height") + "' does not exist."))
  {
  }

  /**
   * The resize link carries the "^" flag exactly in modes "min" and "crop";
   * a missing mode is "max". Mode "crop" alone adds a centred crop to the
   * requested size.
   */
  lemma ModeRule(mode: Json, width: Json, height: Json)
    ensures var links := ResizeLinks(mode, width, height);
      links[0] == ResizeTo(width, height, if mode in {JStr("min"), JStr("crop")} then Some("^") else None) &&
      (mode == JStr("crop") ==> links[1..] == [Gravity("Center"), CropTo(width, height)]) &&
      (mode != JStr("crop") ==> |links| == 1) &&
      forall k :: 0 <= k < |links| ==> Rank(links[k]) == 1
  {
  }

  /** The resize part starts with the resize link and holds only resize-stage links. */
  lemma LinksRank(mode: Json, width: Json, height: Json)
    ensures |ResizeLinks(mode, width, height)| > 0 && ResizeLinks(mode, width, height)[0].ResizeTo?
    ensures forall k :: 0 <= k < |ResizeLinks(mode, width, height)| ==> Rank(ResizeLinks(mode, width, height)[k]) == 1
  {
  }

  /** The unsharp part is one unsharp link exactly when `unsharp` is configured. */
  lemma UnsharpOpsShape(config: Json, i: nat)
    requires UnsharpOps(config, i).Success?
    ensures |UnsharpOps(config, i).value| > 0 <==> Has(config, Key(i, "unsharp"))
    ensures forall k :: 0 <= k < |UnsharpOps(config, i).value| ==> UnsharpOps(config, i).value[k].Unsharp?
  {
  }

  /** The quality part is one quality link exactly when `quality` is configured. */
  lemma QualityOpsShape(config: Json, i: nat)
    ensures |QualityOps(config, i)| > 0 <==> Has(config, Key(i, "quality"))
    ensures forall k :: 0 <= k < |QualityOps(config, i)| ==> QualityOps(config, i)[k].Quality?
  {
  }

  /**
   * A resized chain reads `image.filename`, resizes (and crops), then
   * unsharpens, then sets the quality, the last two exactly when configured.
   */
  lemma ResizeChainOrder(config: Json, image: Image, i: nat)
    requires ResizeEntry(config, image, i).Success?
    ensures var ops := ResizeEntry(config, image, i).value.operations;
      |ops| > 1 && ops[0] == Read(Field(image.fields, "filename")) && ops[1].ResizeTo? && InStageOrder(ops) &&
      ((exists k :: 0 <= k < |ops| && ops[k].Unsharp?) <==> Has(config, Key(i, "unsharp"))) &&
      ((exists k :: 0 <= k < |ops| && ops[k].Quality?) <==> Has(config, Key(i, "quality")))
  {
    ResizeEntryParts(config, image, i);
    var width := Lookup(config, Key(i, "width")).value;
    var height := Lookup(config, Key(i, "height")).value;
    var links := ResizeLinks(Mode(config, i), width, height);
    var unsharp := UnsharpOps(config, i).value;
    var quality := QualityOps(config, i);
    var ops := [Read(Field(image.fields, "filename"))] + links + unsharp + quality;
    assert ResizeEntry(config, image, i).value.operations == ops;
    LinksRank(Mode(config, i), width, height);
    UnsharpOpsShape(config, i);
    QualityOpsShape(config, i);
    ChainOfParts(Field(image.fields, "filename"), links, unsharp, quality);
  }
}
