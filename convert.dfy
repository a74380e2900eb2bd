/** lib/plugins/convert.js: the built-in "convert" plugin, one output image per entry of `convert`. */
module Convert {
  import opened Wrappers
  import opened Errors
  import opened JsonValues
  import opened Content
  import opened Config
  import opened Magick
  import opened Plugins
  import ConvertResize

  /** `"convert[" + i + "]."`. */
  function Prefix(i: nat): string
  {
    "convert[" + NatToString(i) + "]."
  }

  /** The resize links of entry i, or none when the entry has no `resize` section. */
  function ResizeOps(config: Json, i: nat): Result<seq<Operation>, Error>
  {
    var prefix := Prefix(i);
    if !Has(config, prefix + "resize") then Success([])
    else
      var width := Get(config, prefix + "resize.width", Some(JNull)).value;
      var height := Get(config, prefix + "resize.height", Some(JNull)).value;
      if Get(config, prefix + "resize.crop", Some(JBool(false))).value == JBool(true) then
        if width == JNull || height == JNull then Failure(LerretError("Cropping requires both a width and a height"))
        else Success([ResizeTo(width, height, Some("^")), Gravity("Center"), CropTo(width, height)])
      else
        if width == JNull && height == JNull then Failure(LerretError("Resizing requires at least a width or a height"))
        else Success([ResizeTo(width, height, None)])
  }

  /** The unsharp link of entry i; each of its four settings is required once `unsharp` is present. */
  function UnsharpOps(config: Json, i: nat): Result<seq<Operation>, Error>
  {
    var prefix := Prefix(i);
    if !Has(config, prefix + "unsharp") then Success([])
    else
      var radius :- Get(config, prefix + "unsharp.radius", None);
      var sigma :- Get(config, prefix + "unsharp.sigma", None);
      var amount :- Get(config, prefix + "unsharp.amount", None);
      var threshold :- Get(config, prefix + "unsharp.threshold", None);
      Success([Unsharp(radius, sigma, amount, threshold)])
  }

  /** The quality link of entry i. */
  function QualityOps(config: Json, i: nat): seq<Operation>
  {
    var prefix := Prefix(i);
    if Has(config, prefix + "quality") then [Quality(Get(config, prefix + "quality", None).value)] else []
  }

  /** Entry i: the target name, then the chain read from `image.path`, then the stream format. */
  function ConvertEntry(config: Json, image: Image, i: nat): Result<Output, Error>
  {
    var target :- Get(config, Prefix(i) + "filename", None);
    var resize :- ResizeOps(config, i);
    var unsharp :- UnsharpOps(config, i);
    var format :- StreamFormat(target);
    Success(Output(target, [Read(Field(image.fields, "path"))] + resize + unsharp + QualityOps(config, i), format))
  }

  /** All entries of `convert`, in index order. */
  function ConvertPlan(config: Json, image: Image): Plan
  {
    match EntryCount(Get(config, "convert", None))
    case Failure(e) => Plan([], Some(e))
    case Success(n) => RunEntries((k: nat) => ConvertEntry(config, image, k), n)
  }

  /** `output.resize(...)` and, when cropping, `.gravity("Center").crop(...)` appended to `output`. */
  method AddResize(config: Json, i: nat, output: seq<Operation>) returns (r: Result<seq<Operation>, Error>)
    ensures ResizeOps(config, i).Failure? ==> r == Failure(ResizeOps(config, i).error)
    ensures ResizeOps(config, i).Success? ==> r == Success(output + ResizeOps(config, i).value)
  {
    var prefix := Prefix(i);
    if !Has(config, prefix + "resize") {
      assert output + [] == output;
      return Success(output);
    }
    var width := Get(config, prefix + "resize.width", Some(JNull)).value;
    var height := Get(config, prefix + "resize.height", Some(JNull)).value;
    if Get(config, prefix + "resize.crop", Some(JBool(false))).value == JBool(true) {
      if width == JNull || height == JNull {
        return Failure(LerretError("Cropping requires both a width and a height"));
      }
      return Success(output + [ResizeTo(width, height, Some("^")), Gravity("Center"), CropTo(width, height)]);
    } else {
      if width == JNull && height == JNull {
        return Failure(LerretError("Resizing requires at least a width or a height"));
      }
      return Success(output + [ResizeTo(width, height, None)]);
    }
  }

  /** The `.each` callback for entry i: the chain is built by reassigning `output` link by link. */
  method ConvertOne(config: Json, image: Image, i: nat) returns (r: Result<Output, Error>)
    ensures r == ConvertEntry(config, image, i)
  {
    var prefix := Prefix(i);
    var target := Get(config, prefix + "filename", None);
    if target.Failure? {
      return Failure(target.error);
    }
    var output := [Read(Field(image.fields, "path"))];
    var resized := AddResize(config, i, output);
    if resized.Failure? {
      return Failure(resized.error);
    }
    output := resized.value;
    var unsharp := UnsharpOps(config, i);
    if unsharp.Failure? {
      return Failure(unsharp.error);
    }
    output := output + unsharp.value;
    output := output + QualityOps(config, i);
    var format := StreamFormat(target.value);
    if format.Failure? {
      return Failure(format.error);
    }
    return Success(Output(target.value, output, format.value));
  }

  /** `convert(image, index, length, album)`: the entries one after the other, stopping at the first error. */
  method ConvertImage(config: Json, image: Image) returns (plan: Plan)
    ensures plan == ConvertPlan(config, image)
  {
    var count := EntryCount(Get(config, "convert", None));
    if count.Failure? {
      return Plan([], Some(count.error));
    }
    ghost var entry := (k: nat) => ConvertEntry(config, image, k);
    var written: seq<Output> := [];
    var i := 0;
    while i < count.value
      invariant 0 <= i <= count.value
      invariant RunEntries(entry, i) == Plan(written, None)
    {
      var r := ConvertOne(config, image, i);
      assert r == entry(i);
      if r.Failure? {
        RunEntriesStop(entry, i, count.value);
        return Plan(written, Some(r.error));
      }
      RunEntriesStep(entry, i);
      written := written + [r.value];
      i := i + 1;
    }
    return Plan(written, None);
  }

  /** The hook: rejects with the first entry's error, else resolves to `undefined`. */
  function ProcessImage(image: Image, index: nat, length: nat, album: Album, site: Site, config: Json): (r: Result<Option<Image>, Error>)
    ensures r.Success? ==> r.value.None?
    ensures r.Failure? <==> ConvertPlan(config, image).failure.Some?
  {
    var plan := ConvertPlan(config, image);
    if plan.failure.Some? then Failure(plan.failure.value) else Success(None)
  }

  /** The module lib/plugins/convert.js exports. */
  function Module(): PluginModule
  {
    PluginModule(Some("convert"), None, None, Some(ProcessImage))
  }

  /**
   * Entry i as convert.js writes it: the same steps as `ConvertEntry`, but the
   * format is looked up under the extension with its leading dot.
   */
  function ConvertEntryAsWritten(config: Json, image: Image, i: nat): Result<Output, Error>
  {
    var target :- Get(config, Prefix(i) + "filename", None);
    var resize :- ResizeOps(config, i);
    var unsharp :- UnsharpOps(config, i);
    var format :- AsWrittenStreamFormat(target);
    Success(Output(target, [Read(Field(image.fields, "path"))] + resize + unsharp + QualityOps(config, i), format))
  }

  /** All entries of `convert` as written, in index order. */
  function ConvertPlanAsWritten(config: Json, image: Image): Plan
  {
    match EntryCount(Get(config, "convert", None))
    case Failure(e) => Plan([], Some(e))
    case Success(n) => RunEntries((k: nat) => ConvertEntryAsWritten(config, image, k), n)
  }

  /** The hook as written: rejects with the first entry's error, else resolves to `undefined`. */
  function ProcessImageAsWritten(image: Image, index: nat, length: nat, album: Album, site: Site, config: Json): (r: Result<Option<Image>, Error>)
    ensures r.Success? ==> r.value.None?
    ensures r.Failure? <==> ConvertPlanAsWritten(config, image).failure.Some?
  {
    var plan := ConvertPlanAsWritten(config, image);
    if plan.failure.Some? then Failure(plan.failure.value) else Success(None)
  }

  /**
   * As written, an entry that gets past its filename, resize and unsharp
   * settings is rejected by the format lookup, with "Unsupported file
   * extension .ext" for a string target; an entry that fails earlier fails
   * as the corrected entry does.
   */
  lemma EntryAsWritten(config: Json, image: Image, i: nat)
    ensures var target := Get(config, Prefix(i) + "filename", None);
      var reaches := target.Success? && ResizeOps(config, i).Success? && UnsharpOps(config, i).Success?;
      var r := ConvertEntryAsWritten(config, image, i);
      r.Failure? &&
      (reaches ==> r == Failure(AsWrittenStreamFormat(target.value).error)) &&
      (reaches && target.value.JStr? ==> r == Failure(LerretError("Unsupported file extension " + Paths.Extname(target.value.s)))) &&
      (!reaches ==> r == ConvertEntry(config, image, i))
  {
    var target := Get(config, Prefix(i) + "filename", None);
    var r := ConvertEntryAsWritten(config, image, i);
    if target.Failure? {
      assert r == Failure(target.error) == ConvertEntry(config, image, i);
    } else if ResizeOps(config, i).Failure? {
      assert r == Failure(ResizeOps(config, i).error) == ConvertEntry(config, image, i);
    } else if UnsharpOps(config, i).Failure? {
      assert r == Failure(UnsharpOps(config, i).error) == ConvertEntry(config, image, i);
    } else {
      AsWrittenAlwaysFails(target.value);
      assert r == Failure(AsWrittenStreamFormat(target.value).error);
    }
  }

  /**
   * As written, the hook never writes an image: it resolves only when
   * `convert` has no entries, and otherwise rejects with the error of entry 0
   * (or of reading `convert`), whatever the image.
   */
  lemma AsWrittenHookRejects(config: Json, image: Image)
    ensures var plan := ConvertPlanAsWritten(config, image);
      var count := EntryCount(Get(config, "convert", None));
      plan.written == [] &&
      (plan.failure.None? <==> count == Success(0)) &&
      (count.Failure? ==> plan.failure == Some(count.error)) &&
      (count.Success? && count.value > 0 ==> plan.failure == Some(ConvertEntryAsWritten(config, image, 0).error))
  {
    var count := EntryCount(Get(config, "convert", None));
    if count.Success? && count.value > 0 {
      var entry := (k: nat) => ConvertEntryAsWritten(config, image, k);
      EntryAsWritten(config, image, 0);
      RunEntriesStop(entry, 0, count.value);
    }
  }

  /** The entry errors as written depend on the configuration only. */
  lemma AsWrittenErrorIgnoresImage(config: Json, x: Image, y: Image, i: nat)
    ensures ConvertEntryAsWritten(config, x, i).Failure? && ConvertEntryAsWritten(config, y, i).Failure? &&
      ConvertEntryAsWritten(config, x, i).error == ConvertEntryAsWritten(config, y, i).error
  {
    EntryAsWritten(config, x, i);
    EntryAsWritten(config, y, i);
  }

  /** As written, the hook's outcome is the same for every image. */
  lemma AsWrittenPlanIgnoresImage(config: Json, x: Image, y: Image)
    ensures ConvertPlanAsWritten(config, x) == ConvertPlanAsWritten(config, y)
  {
    AsWrittenHookRejects(config, x);
    AsWrittenHookRejects(config, y);
    AsWrittenErrorIgnoresImage(config, x, y, 0);
  }

  /** The plugin `installPlugin` registers for the module as written. */
  function PluginAsWritten(): Plugin
  {
    Plugin("convert", None, None, Some(ProcessImageAsWritten))
  }

  /**
   * As written, the convert plugin rejects every site that holds an image
   * unless `convert` is configured with no entries, with "Plugin convert threw
   * an error; " and the hook's error: for a target such as "out.jpg" that is
   * "Unsupported file extension .jpg".
   */
  lemma AsWrittenPluginRejects(content: Site, config: Json, a: nat)
    requires a < |content.albums| && |content.albums[a].images| > 0
    requires EntryCount(Get(config, "convert", None)) != Success(0)
    ensures var plan := ConvertPlanAsWritten(config, content.albums[a].images[0]);
      plan.failure.Some? &&
      RunPlugin(PluginAsWritten(), content, config).result == Failure(Wrap("convert", plan.failure.value))
  {
    var p := PluginAsWritten();
    var image := content.albums[a].images[0];
    AsWrittenHookRejects(config, image);
    var e := ConvertPlanAsWritten(config, image).failure.value;
    forall b, j | 0 <= b < |content.albums| && 0 <= j < |content.albums[b].images|
      ensures ImageCall(p.processImage.value, content, config, b, j) == Failure(e)
    {
      AsWrittenPlanIgnoresImage(config, image, content.albums[b].images[j]);
    }
    UniformImageFailure(p, content, config, e, a);
    RunPluginStages(p, content, config);
  }

  /**
   * One conversion per entry of `convert`, entry k read under "convert[k].",
   * in index order; the first failing entry ends the plugin with its error,
   * after the entries before it were written.
   */
  lemma OneConversionPerEntry(config: Json, image: Image, items: seq<Json>)
    requires Get(config, "convert", None) == Success(JArr(items))
    ensures var plan := ConvertPlan(config, image);
      (plan.failure.None? <==> forall k :: 0 <= k < |items| ==> ConvertEntry(config, image, k).Success?) &&
      (plan.failure.None? ==> |plan.written| == |items|) &&
      (forall k :: 0 <= k < |plan.written| ==> ConvertEntry(config, image, k) == Success(plan.written[k])) &&
      (plan.failure.Some? ==>
        |plan.written| < |items| && ConvertEntry(config, image, |plan.written|) == Failure(plan.failure.value))
  {
    var entry := (k: nat) => ConvertEntry(config, image, k);
    assert EntryCount(Get(config, "convert", None)) == Success(|items|);
    var plan := RunEntries(entry, |items|);
    assert ConvertPlan(config, image) == plan;
    assert forall k :: 0 <= k < |plan.written| ==> entry(k) == Success(plan.written[k]);
    assert forall k: nat :: entry(k) == ConvertEntry(config, image, k);
  }

  /** The resize links of a chain are one resize and, when cropping, a gravity and a crop. */
  lemma ResizeOpsShape(config: Json, i: nat)
    requires ResizeOps(config, i).Success?
    ensures var ops := ResizeOps(config, i).value;
      (forall k :: 0 <= k < |ops| ==> Rank(ops[k]) == 1) &&
      ((exists k :: 0 <= k < |ops| && ops[k].ResizeTo?) <==> Has(config, Prefix(i) + "resize"))
  {
    var ops := ResizeOps(config, i).value;
    if Has(config, Prefix(i) + "resize") {
      assert ops[0].ResizeTo?;
    }
  }

  /** A converted entry is its target, its chain of parts, and its stream format. */
  lemma ConvertEntryParts(config: Json, image: Image, i: nat)
    requires ConvertEntry(config, image, i).Success?
    ensures ResizeOps(config, i).Success? && UnsharpOps(config, i).Success?
    ensures var out := ConvertEntry(config, image, i).value;
      out.operations == [Read(Field(image.fields, "path"))] + ResizeOps(config, i).value + UnsharpOps(config, i).value + QualityOps(config, i) &&
      Has(config, Prefix(i) + "filename") && out.target == Lookup(config, Prefix(i) + "filename").value &&
      StreamFormat(out.target) == Success(out.format)
  {
  }

  /** The unsharp part is one unsharp link exactly when `unsharp` is configured. */
  lemma UnsharpOpsShape(config: Json, i: nat)
    requires UnsharpOps(config, i).Success?
    ensures |UnsharpOps(config, i).value| > 0 <==> Has(config, Prefix(i) + "unsharp")
    ensures forall k :: 0 <= k < |UnsharpOps(config, i).value| ==> UnsharpOps(config, i).value[k].Unsharp?
  {
  }

  /** The quality part is one quality link exactly when `quality` is configured. */
  lemma QualityOpsShape(config: Json, i: nat)
    ensures |QualityOps(config, i)| > 0 <==> Has(config, Prefix(i) + "quality")
    ensures forall k :: 0 <= k < |QualityOps(config, i)| ==> QualityOps(config, i)[k].Quality?
  {
  }

  /**
   * A converted chain reads `image.path`, then resizes, then unsharpens, then
   * sets the quality, each link present exactly when its key is configured;
   * the image is streamed in the format of the target name.
   */
  lemma ConvertChainOrder(config: Json, image: Image, i: nat)
    requires ConvertEntry(config, image, i).Success?
    ensures var out := ConvertEntry(config, image, i).value;
      var ops := out.operations;
      var prefix := Prefix(i);
      |ops| > 0 && ops[0] == Read(Field(image.fields, "path")) && InStageOrder(ops) &&
      ((exists k :: 0 <= k < |ops| && ops[k].ResizeTo?) <==> Has(config, prefix + "resize")) &&
      ((exists k :: 0 <= k < |ops| && ops[k].Unsharp?) <==> Has(config, prefix + "unsharp")) &&
      ((exists k :: 0 <= k < |ops| && ops[k].Quality?) <==> Has(config, prefix + "quality")) &&
      Has(config, prefix + "filename") && out.target == Lookup(config, prefix + "filename").value &&
      StreamFormat(out.target) == Success(out.format)
  {
    ConvertEntryParts(config, image, i);
    ResizeOpsShape(config, i);
    UnsharpOpsShape(config, i);
    QualityOpsShape(config, i);
    ChainOfParts(Field(image.fields, "path"), ResizeOps(config, i).value, UnsharpOps(config, i).value, QualityOps(config, i));
  }

  /**
   * convert.js repeats the logic of lib/plugins/convert/resize.js: the resize
   * section is the one `isConfigured` looks for, and the links it appends are
   * those `apply` appends, with the same errors.
   */
  lemma ResizeAgreesWithApply(config: Json, i: nat, input: seq<Operation>)
    ensures Has(config, Prefix(i) + "resize") == ConvertResize.IsConfigured(config, NatToString(i))
    ensures ConvertResize.IsConfigured(config, NatToString(i)) ==>
      match ResizeOps(config, i)
      case Success(ops) => ConvertResize.Apply(config, NatToString(i), input) == Success(input + ops)
      case Failure(e) => ConvertResize.Apply(config, NatToString(i), input) == Failure(e)
  {
    var c := NatToString(i);
    assert Prefix(i) + "resize" == ConvertResize.ResizeKey(c, "");
    assert Prefix(i) + "resize.width" == ConvertResize.ResizeKey(c, ".width");
    assert Prefix(i) + "resize.height" == ConvertResize.ResizeKey(c, ".height");
    assert Prefix(i) + "resize.crop" == ConvertResize.ResizeKey(c, ".crop");
    if ConvertResize.IsConfigured(config, c) {
      var w := ConvertResize.Setting(config, ConvertResize.ResizeKey(c, ".width"), JNull);
      var h := ConvertResize.Setting(config, ConvertResize.ResizeKey(c, ".height"), JNull);
      var crop := ConvertResize.CropRequested(config, c);
      assert ResizeOps(config, i) ==
        if crop then
          (if w == JNull || h == JNull then Failure(LerretError("Cropping requires both a width and a height"))
           else Success([ResizeTo(w, h, Some("^")), Gravity("Center"), CropTo(w, h)]))
        else
          (if w == JNull && h == JNull then Failure(LerretError("Resizing requires at least a width or a height"))
           else Success([ResizeTo(w, h, None)]));
    }
  }
}
