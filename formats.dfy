/** lib/formats.js: the image formats GraphicsMagick is asked to write, keyed by file extension. */
module Formats {
  import opened Wrappers
  import opened Errors
  import opened JsonValues

  /** `formatExtensions`: each format with the extensions that denote it, in declaration order. */
  const FormatExtensions: seq<(string, seq<string>)> :=
    [("gif", ["gif"]), ("jpeg", ["jpeg", "jpg"]), ("png", ["png"]), ("tiff", ["tif", "tiff"])]

  /** The (extension, format) pairs one entry of the table contributes, in list order. */
  function PairsOf(extensions: seq<string>, format: string): (r: seq<(string, string)>)
    ensures |r| == |extensions|
    ensures forall k :: 0 <= k < |r| ==> r[k] == (extensions[k], format)
  {
    if extensions == [] then [] else [(extensions[0], format)] + PairsOf(extensions[1..], format)
  }

  /** `_.flatMap(_.toPairs(formatExtensions), ...)`: one (extension, format) pair per listed extension. */
  function ExtensionPairs(table: seq<(string, seq<string>)>): seq<(string, string)>
  {
    if table == [] then [] else PairsOf(table[0].1, table[0].0) + ExtensionPairs(table[1..])
  }

  /** `_.fromPairs`: a later pair overrides an earlier one with the same key. */
  function FromPairs(pairs: seq<(string, string)>): map<string, string>
  {
    if pairs == [] then map[]
    else FromPairs(pairs[..|pairs| - 1])[pairs[|pairs| - 1].0 := pairs[|pairs| - 1].1]
  }

  /** `_.keys` of the object `_.fromPairs` builds: first occurrences, in order. */
  function KeysInOrder(pairs: seq<(string, string)>, seen: set<string>): seq<string>
  {
    if pairs == [] then []
    else if pairs[0].0 in seen then KeysInOrder(pairs[1..], seen)
    else [pairs[0].0] + KeysInOrder(pairs[1..], seen + {pairs[0].0})
  }

  /** `extensionFormats`, written out; `ExtensionFormatsBuilt` shows it is what the `fromPairs`/`flatMap` construction yields. */
  function ExtensionFormats(): map<string, string>
  {
    map["gif" := "gif", "jpeg" := "jpeg", "jpg" := "jpeg", "png" := "png", "tif" := "tiff", "tiff" := "tiff"]
  }

  /** `getExtensions()`. */
  function GetExtensions(): seq<string>
  {
    KeysInOrder(ExtensionPairs(FormatExtensions), {})
  }

  /** `extensionFormats` as the JavaScript object `_.get` walks. */
  function FormatsObject(): Json
  {
    JObj(map["gif" := JStr("gif"), "jpeg" := JStr("jpeg"), "jpg" := JStr("jpeg"),
             "png" := JStr("png"), "tif" := JStr("tiff"), "tiff" := JStr("tiff")])
  }

  /**
   * `getFormat(extension)`: `_.get(extensionFormats, extension)`, which reads
   * `extension` as a lodash path, else a LerretError.
   */
  function GetFormat(extension: string): Result<string, Error>
  {
    match Lookup(FormatsObject(), extension)
    case Some(JStr(format)) => Success(format)
    case _ => Failure(LerretError("Unsupported file extension " + extension))
  }

  /** A plain key (no '.' or '[') is looked up directly in the table. */
  lemma GetFormatOfPlainKey(extension: string)
    requires IsPlainKey(extension)
    ensures GetFormat(extension)
         == if extension in ExtensionFormats() then Success(ExtensionFormats()[extension])
            else Failure(LerretError("Unsupported file extension " + extension))
  {
    var path := ParsePath(extension);
    assert path == [extension];
    assert path[1..] == [];
    var m := FormatsObject().members;
    assert Lookup(FormatsObject(), extension) == Resolve(FormatsObject(), path);
    match Member(FormatsObject(), extension)
    case None =>
    case Some(c) => assert Resolve(c, path[1..]) == Some(c);
    assert Member(FormatsObject(), extension) == if extension in m then Some(m[extension]) else None;
  }

  lemma ExtensionPairsValue()
    ensures ExtensionPairs(FormatExtensions)
         == [("gif", "gif"), ("jpeg", "jpeg"), ("jpg", "jpeg"), ("png", "png"), ("tif", "tiff"), ("tiff", "tiff")]
  {
    var t := FormatExtensions;
    assert t[1..][1..][1..][1..] == [];
    assert t[1..][1..][1..] == [("tiff", ["tif", "tiff"])];
    assert t[1..][1..] == [("png", ["png"]), ("tiff", ["tif", "tiff"])];
    assert t[1..] == [("jpeg", ["jpeg", "jpg"]), ("png", ["png"]), ("tiff", ["tif", "tiff"])];
  }

  /** `_.fromPairs(_.flatMap(_.toPairs(formatExtensions), ...))` is the table written out above. */
  lemma ExtensionFormatsBuilt()
    ensures FromPairs(ExtensionPairs(FormatExtensions)) == ExtensionFormats()
    ensures forall e :: e in ExtensionFormats() ==> FormatsObject().members[e] == JStr(ExtensionFormats()[e])
    ensures FormatsObject().members.Keys == ExtensionFormats().Keys
  {
    ExtensionPairsValue();
    var ps := ExtensionPairs(FormatExtensions);
    assert ps[..0] == [];
    assert FromPairs(ps[..1]) == map["gif" := "gif"] by { assert ps[..1][..0] == ps[..0]; }
    assert FromPairs(ps[..2]) == map["gif" := "gif", "jpeg" := "jpeg"] by { assert ps[..2][..1] == ps[..1]; }
    assert FromPairs(ps[..3]) == map["gif" := "gif", "jpeg" := "jpeg", "jpg" := "jpeg"] by { assert ps[..3][..2] == ps[..2]; }
    assert FromPairs(ps[..4]) == map["gif" := "gif", "jpeg" := "jpeg", "jpg" := "jpeg", "png" := "png"] by { assert ps[..4][..3] == ps[..3]; }
    assert FromPairs(ps[..5]) == map["gif" := "gif", "jpeg" := "jpeg", "jpg" := "jpeg", "png" := "png", "tif" := "tiff"] by { assert ps[..5][..4] == ps[..4]; }
    assert ps[..6] == ps;
    assert ps[..5] == ps[..|ps| - 1];
  }

  /** The table maps gif to gif, jpeg and jpg to jpeg, png to png, tif and tiff to tiff, and rejects every other key. */
  lemma GetFormatTable(extension: string)
    ensures GetFormat("gif") == Success("gif")
    ensures GetFormat("jpeg") == Success("jpeg") && GetFormat("jpg") == Success("jpeg")
    ensures GetFormat("png") == Success("png")
    ensures GetFormat("tif") == Success("tiff") && GetFormat("tiff") == Success("tiff")
    ensures IsPlainKey(extension) && extension !in {"gif", "jpeg", "jpg", "png", "tif", "tiff"} ==>
      GetFormat(extension) == Failure(LerretError("Unsupported file extension " + extension))
  {
    GetFormatOfPlainKey("gif");
    GetFormatOfPlainKey("jpeg");
    GetFormatOfPlainKey("jpg");
    GetFormatOfPlainKey("png");
    GetFormatOfPlainKey("tif");
    GetFormatOfPlainKey("tiff");
    if IsPlainKey(extension) {
      GetFormatOfPlainKey(extension);
    }
  }

  /** `getExtensions()` lists exactly the six dot-less extensions, each once. */
  lemma GetExtensionsValue()
    ensures GetExtensions() == ["gif", "jpeg", "jpg", "png", "tif", "tiff"]
  {
    ExtensionPairsValue();
    var ps := ExtensionPairs(FormatExtensions);
    assert KeysInOrder(ps[5..], {"gif", "jpeg", "jpg", "png", "tif"}) == ["tiff"] by { assert ps[5..][1..] == []; }
    assert KeysInOrder(ps[4..], {"gif", "jpeg", "jpg", "png"}) == ["tif", "tiff"] by { assert ps[4..][1..] == ps[5..]; assert {"gif", "jpeg", "jpg", "png"} + {"tif"} == {"gif", "jpeg", "jpg", "png", "tif"}; }
    assert KeysInOrder(ps[3..], {"gif", "jpeg", "jpg"}) == ["png", "tif", "tiff"] by { assert ps[3..][1..] == ps[4..]; assert {"gif", "jpeg", "jpg"} + {"png"} == {"gif", "jpeg", "jpg", "png"}; }
    assert KeysInOrder(ps[2..], {"gif", "jpeg"}) == ["jpg", "png", "tif", "tiff"] by { assert ps[2..][1..] == ps[3..]; assert {"gif", "jpeg"} + {"jpg"} == {"gif", "jpeg", "jpg"}; }
    assert KeysInOrder(ps[1..], {"gif"}) == ["jpeg", "jpg", "png", "tif", "tiff"] by { assert ps[1..][1..] == ps[2..]; assert {"gif"} + {"jpeg"} == {"gif", "jpeg"}; }
    assert {} + {"gif"} == {"gif"};
  }

  /** The extension lists of different formats share no extension. */
  lemma ExtensionListsDisjoint()
    ensures forall i, j :: 0 <= i < j < |FormatExtensions| ==>
      forall e :: e in FormatExtensions[i].1 ==> e !in FormatExtensions[j].1
  {
  }

  /** An extension listed under format `i` is mapped to that format. */
  lemma ListedExtensionFormat(i: nat, e: string)
    requires i < |FormatExtensions| && e in FormatExtensions[i].1
    ensures GetFormat(e) == Success(FormatExtensions[i].0)
  {
    GetFormatOfPlainKey(e);
  }

  /**
   * Every extension `getExtensions()` returns is accepted by `getFormat`, which
   * answers the one format whose list contains it.
   */
  lemma EveryExtensionHasItsFormat(e: string)
    requires e in GetExtensions()
    ensures GetFormat(e).Success?
    ensures exists i :: 0 <= i < |FormatExtensions| && e in FormatExtensions[i].1 && GetFormat(e).value == FormatExtensions[i].0
    ensures forall i :: 0 <= i < |FormatExtensions| && e in FormatExtensions[i].1 ==> GetFormat(e).value == FormatExtensions[i].0
  {
    GetExtensionsValue();
    var t := FormatExtensions;
    var i := if e == "gif" then 0 else if e == "jpeg" || e == "jpg" then 1 else if e == "png" then 2 else 3;
    assert e in t[i].1;
    ListedExtensionFormat(i, e);
    forall k | 0 <= k < |t| && e in t[k].1
      ensures GetFormat(e).value == t[k].0
    {
      ListedExtensionFormat(k, e);
    }
  }

  /** The listed extensions are non-empty names without '.', '[' or '/'. */
  lemma ExtensionsArePlainNames(e: string)
    requires e in GetExtensions()
    ensures e != [] && forall k :: 0 <= k < |e| ==> e[k] != '.' && e[k] != '[' && e[k] != '/'
  {
    GetExtensionsValue();
    assert e == ['g', 'i', 'f'] || e == ['j', 'p', 'e', 'g'] || e == ['j', 'p', 'g'] ||
      e == ['p', 'n', 'g'] || e == ['t', 'i', 'f'] || e == ['t', 'i', 'f', 'f'];
    forall k | 0 <= k < |e| ensures e[k] != '.' && e[k] != '[' && e[k] != '/' {
      assert e[k] in {'e', 'f', 'g', 'i', 'j', 'n', 'p', 't'};
    }
  }

  /** The empty extension of a name without a dot is refused. */
  lemma EmptyExtensionRejected()
    ensures GetFormat("") == Failure(LerretError("Unsupported file extension "))
  {
    GetFormatOfPlainKey("");
    assert "Unsupported file extension " + "" == "Unsupported file extension ";
  }

  /**
   * An extension written with its leading '.', as `path.extname` returns it,
   * is always rejected: lodash reads ".jpg" as the path ["", "jpg"] and the
   * table has no "" key.
   */
  lemma DottedExtensionRejected(extension: string)
    requires |extension| > 0 && extension[0] == '.'
    ensures GetFormat(extension) == Failure(LerretError("Unsupported file extension " + extension))
  {
    assert "" !in FormatsObject().members;
  }
}
