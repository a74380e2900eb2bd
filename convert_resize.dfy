/** lib/plugins/convert/resize.js: the resize step of one conversion entry. */
module ConvertResize {
  import opened Wrappers
  import opened Errors
  import opened JsonValues
  import opened Config
  import opened Magick

  /** The configuration path of a resize setting of conversion `conversion`. */
  function ResizeKey(conversion: string, name: string): string
  {
    "convert[" + conversion + "].resize" + name
  }

  /** `config.get(key, d)`: with a default the lookup never fails. */
  function Setting(config: Json, key: string, d: Json): (r: Json)
    ensures Has(config, key) ==> r == Lookup(config, key).value
    ensures !Has(config, key) ==> r == d
  {
    Get(config, key, Some(d)).value
  }

  /** `isConfigured(conversion)`: the entry has a `resize` section. */
  predicate IsConfigured(config: Json, conversion: string)
  {
    Has(config, ResizeKey(conversion, ""))
  }

  /** The crop switch is on only when `resize.crop` is exactly `true`. */
  predicate CropRequested(config: Json, conversion: string)
  {
    Setting(config, ResizeKey(conversion, ".crop"), JBool(false)) == JBool(true)
  }

  /**
   * `apply(conversion, input)`: with crop on, both dimensions are required
   * and the chain grows by a covering resize, a centred gravity and a crop;
   * otherwise at least one dimension is required and the chain grows by a
   * plain resize. Absent dimensions are `null`.
   */
  function Apply(config: Json, conversion: string, input: seq<Operation>): (r: Result<seq<Operation>, Error>)
    ensures var w := Setting(config, ResizeKey(conversion, ".width"), JNull);
            var h := Setting(config, ResizeKey(conversion, ".height"), JNull);
            var crop := CropRequested(config, conversion);
            (r.Success? <==> if crop then w != JNull && h != JNull else w != JNull || h != JNull) &&
            (r.Failure? ==> r.error == LerretError(if crop then "Cropping requires both a width and a height"
                                                   else "Resizing requires at least a width or a height")) &&
            (r.Success? ==> |r.value| > |input| && r.value[..|input|] == input &&
                            r.value[|input|] == ResizeTo(w, h, if crop then Some("^") else None) &&
                            (crop <==> |r.value| == |input| + 3) &&
                            (crop ==> r.value[|input| + 1..] == [Gravity("Center"), CropTo(w, h)]) &&
                            (!crop ==> |r.value| == |input| + 1))
  {
    var width := Setting(config, ResizeKey(conversion, ".width"), JNull);
    var height := Setting(config, ResizeKey(conversion, ".height"), JNull);
    if CropRequested(config, conversion) then
      if width == JNull || height == JNull then Failure(LerretError("Cropping requires both a width and a height"))
      else Success(input + [ResizeTo(width, height, Some("^")), Gravity("Center"), CropTo(width, height)])
    else
      if width == JNull && height == JNull then Failure(LerretError("Resizing requires at least a width or a height"))
      else Success(input + [ResizeTo(width, height, None)])
  }

  /** The resize step depends on the configuration only through the entry's resize settings. */
  lemma ApplyReadsOnlyResize(a: Json, b: Json, conversion: string, input: seq<Operation>)
    requires Lookup(a, ResizeKey(conversion, ".width")) == Lookup(b, ResizeKey(conversion, ".width"))
    requires Lookup(a, ResizeKey(conversion, ".height")) == Lookup(b, ResizeKey(conversion, ".height"))
    requires Lookup(a, ResizeKey(conversion, ".crop")) == Lookup(b, ResizeKey(conversion, ".crop"))
    ensures Apply(a, conversion, input) == Apply(b, conversion, input)
  {
  }
}
