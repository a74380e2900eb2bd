/**
 * The GraphicsMagick call chain the image plugins build, as a list of
 * abstract operations, and the output format the chain is streamed in.
 */
module Magick {
  import opened Wrappers
  import opened Errors
  import opened JsonValues
  import opened Formats
  import opened Paths

  /** One link of a `gm(...)` chain; arguments are configuration values, passed on unchanged. */
  datatype Operation =
    | Read(source: Option<Json>)
    | ResizeTo(width: Json, height: Json, flag: Option<string>)
    | Gravity(direction: string)
    | CropTo(width: Json, height: Json)
    | Unsharp(radius: Json, sigma: Json, amount: Json, threshold: Json)
    | Quality(level: Json)

  /** The stage of the chain an operation belongs to: read, resize/crop, unsharp, quality. */
  function Rank(op: Operation): nat
  {
    match op
    case Read(_) => 0
    case ResizeTo(_, _, _) => 1
    case Gravity(_) => 1
    case CropTo(_, _) => 1
    case Unsharp(_, _, _, _) => 2
    case Quality(_) => 3
  }

  /** The operations come in stage order. */
  predicate InStageOrder(ops: seq<Operation>)
  {
    forall a, b :: 0 <= a < b < |ops| ==> Rank(ops[a]) <= Rank(ops[b])
  }

  /**
   * A chain made of a read, resize links, unsharp links and quality links, in
   * that order, is in stage order, and holds each kind of link iff its part does.
   */
  lemma ChainOfParts(source: Option<Json>, resize: seq<Operation>, unsharp: seq<Operation>, quality: seq<Operation>)
    requires forall k :: 0 <= k < |resize| ==> Rank(resize[k]) == 1
    requires forall k :: 0 <= k < |unsharp| ==> unsharp[k].Unsharp?
    requires forall k :: 0 <= k < |quality| ==> quality[k].Quality?
    ensures var ops := [Read(source)] + resize + unsharp + quality;
      ops[0] == Read(source) && (|resize| > 0 ==> ops[1] == resize[0]) && InStageOrder(ops) &&
      ((exists k :: 0 <= k < |ops| && ops[k].ResizeTo?) <==> (exists k :: 0 <= k < |resize| && resize[k].ResizeTo?)) &&
      ((exists k :: 0 <= k < |ops| && ops[k].Unsharp?) <==> |unsharp| > 0) &&
      ((exists k :: 0 <= k < |ops| && ops[k].Quality?) <==> |quality| > 0)
  {
    var ops := [Read(source)] + resize + unsharp + quality;
    var r := |resize|;
    var u := |unsharp|;
    forall k | 0 <= k < |ops|
      ensures Rank(ops[k]) == if k == 0 then 0 else if k <= r then 1 else if k <= r + u then 2 else 3
      ensures 0 < k <= r ==> ops[k] == resize[k - 1]
    {
      if 0 < k <= r { assert ops[k] == resize[k - 1]; }
      else if r < k <= r + u { assert ops[k] == unsharp[k - 1 - r]; }
      else if k > r + u { assert ops[k] == quality[k - 1 - r - u]; }
    }
    if exists k :: 0 <= k < |resize| && resize[k].ResizeTo? {
      var k :| 0 <= k < |resize| && resize[k].ResizeTo?;
      assert ops[k + 1].ResizeTo?;
    }
    if u > 0 { assert ops[1 + r].Unsharp?; }
    if |quality| > 0 { assert ops[1 + r + u].Quality?; }
  }

  /** One image written by a plugin: the target file name, the chain, and the stream format. */
  datatype Output = Output(target: Json, operations: seq<Operation>, format: string)

  /** What a plugin that writes images leaves behind: the images written, in order, and the error it rejects with. */
  datatype Plan = Plan(written: seq<Output>, failure: Option<Error>)

  /**
   * `_.range(config.get(key).length)`: the number of configured entries. An
   * array counts its elements and a string its characters; `null` has no
   * `length` and throws; any other value has none and yields no entries.
   */
  function EntryCount(value: Result<Json, Error>): (r: Result<nat, Error>)
    ensures value.Failure? ==> r == Failure(value.error)
    ensures value.Success? && value.value.JArr? ==> r == Success(|value.value.items|)
    ensures value.Success? && value.value.JNull? ==> r.Failure?
    ensures value.Success? && !value.value.JArr? && !value.value.JStr? && !value.value.JNull? ==> r == Success(0)
  {
    match value
    case Failure(e) => Failure(e)
    case Success(JArr(items)) => Success(|items|)
    case Success(JStr(s)) => Success(|s|)
    case Success(JNull) => Result<nat, Error>.Failure(TypeError("Cannot read properties of null (reading 'length')"))
    case Success(_) => Success(0)
  }

  /**
   * `Promise.each` over the entries 0 .. n-1: entry k runs only after entries
   * 0 .. k-1 succeeded, and the first failing entry ends the run.
   */
  function RunEntries(entry: nat -> Result<Output, Error>, n: nat): (r: Plan)
    ensures r.failure.None? <==> forall k :: 0 <= k < n ==> entry(k).Success?
    ensures r.failure.None? ==> |r.written| == n
    ensures r.failure.Some? ==> |r.written| < n && entry(|r.written|) == Failure(r.failure.value)
    ensures forall k :: 0 <= k < |r.written| ==> entry(k) == Success(r.written[k])
  {
    if n == 0 then Plan([], None)
    else
      var before := RunEntries(entry, n - 1);
      if before.failure.Some? then before
      else match entry(n - 1)
        case Success(o) => Plan(before.written + [o], None)
        case Failure(e) => Plan(before.written, Some(e))
  }

  /** A successful entry extends a successful run by its output. */
  lemma RunEntriesStep(entry: nat -> Result<Output, Error>, i: nat)
    requires RunEntries(entry, i).failure.None? && entry(i).Success?
    ensures RunEntries(entry, i + 1) == Plan(RunEntries(entry, i).written + [entry(i).value], None)
  {
  }

  /** A failing entry settles every longer run: later entries never run. */
  lemma {:induction false} RunEntriesStop(entry: nat -> Result<Output, Error>, i: nat, n: nat)
    requires i < n && RunEntries(entry, i).failure.None? && entry(i).Failure?
    ensures RunEntries(entry, n) == Plan(RunEntries(entry, i).written, Some(entry(i).error))
    decreases n - i
  {
    if n == i + 1 {
    } else {
      RunEntriesStop(entry, i, n - 1);
    }
  }

  /** Node's `path.extname` refuses a value that is not a string. */
  const PathTypeError := SystemError("ERR_INVALID_ARG_TYPE", "The \"path\" argument must be of type string")

  /**
   * `formats.getFormat(path.extname(targetFilename))` as convert.js and
   * resize.js write it: the extension is passed with its leading dot.
   */
  function AsWrittenStreamFormat(target: Json): Result<string, Error>
  {
    match target
    case JStr(name) => GetFormat(Extname(name))
    case _ => Failure(PathTypeError)
  }

  /** As written, no target file name ever yields a format. */
  lemma AsWrittenAlwaysFails(target: Json)
    ensures AsWrittenStreamFormat(target).Failure?
    ensures target.JStr? ==>
      AsWrittenStreamFormat(target) == Failure(LerretError("Unsupported file extension " + Extname(target.s)))
  {
    if target.JStr? {
      var e := Extname(target.s);
      assert AsWrittenStreamFormat(target) == GetFormat(e);
      if e == "" {
        EmptyExtensionRejected();
      } else {
        DottedExtensionRejected(e);
      }
    }
  }

  /** The extension of a file name without its leading dot, as the format table keys it. */
  function FormatExtension(name: string): (r: string)
    ensures Extname(name) == "" ==> r == ""
    ensures Extname(name) != "" ==> Extname(name) == "." + r
  {
    Dotless(Extname(name))
  }

  /** An extension without its leading dot. */
  function Dotless(e: string): (r: string)
    requires e == "" || e[0] == '.'
    ensures e == "" ==> r == ""
    ensures e != "" ==> e == "." + r
  {
    if e == "" then "" else
      assert e == [e[0]] + e[1..];
      e[1..]
  }

  /** The intended stream format: the table's format for the file name's dot-less extension. */
  function StreamFormat(target: Json): Result<string, Error>
  {
    match target
    case JStr(name) => GetFormat(FormatExtension(name))
    case _ => Failure(PathTypeError)
  }

  /** `path.extname` of `stem.ext` is ".ext" when neither part holds a '/' and the extension no '.'. */
  lemma ExtnameOfName(stem: string, ext: string)
    requires stem != [] && forall k :: 0 <= k < |stem| ==> stem[k] != '/'
    requires ext != [] && forall k :: 0 <= k < |ext| ==> ext[k] != '/' && ext[k] != '.'
    ensures Extname(stem + "." + ext) == "." + ext
  {
    var name := stem + "." + ext;
    assert forall k :: 0 <= k < |name| ==> name[k] != '/' by {
      forall k | 0 <= k < |name| ensures name[k] != '/' {
        if k < |stem| { assert name[k] == stem[k]; }
        else if k > |stem| { assert name[k] == ext[k - |stem| - 1]; }
      }
    }
    assert LastIndexOf(name, '/') == -1;
    assert Basename(name) == name;
    var j := LastIndexOf(name, '.');
    assert name[|stem|] == '.';
    assert j == |stem|;
    assert name[j..] == "." + ext;
    assert |name| > 2;
    assert Extension(name) == "." + ext;
  }

  /**
   * The counterexample, for every name the table knows: "output.jpg" (stem
   * "output", extension "jpg") is refused as written with the message naming
   * ".jpg", while the intended lookup finds its format.
   */
  lemma AsWrittenRejectsKnownName(stem: string, ext: string)
    requires stem != [] && forall k :: 0 <= k < |stem| ==> stem[k] != '/'
    requires ext in GetExtensions()
    ensures AsWrittenStreamFormat(JStr(stem + "." + ext)) == Failure(LerretError("Unsupported file extension " + ("." + ext)))
    ensures StreamFormat(JStr(stem + "." + ext)).Success?
  {
    ExtensionsArePlainNames(ext);
    ExtnameOfName(stem, ext);
    AsWrittenAlwaysFails(JStr(stem + "." + ext));
    StreamFormatOfKnownName(stem, ext);
  }

  /**
   * A file named `stem.ext`, with a non-empty stem and an extension without
   * '.' or '/', is looked up in the table under `ext`.
   */
  lemma StreamFormatOfName(stem: string, ext: string)
    requires stem != [] && forall k :: 0 <= k < |stem| ==> stem[k] != '/'
    requires ext != [] && forall k :: 0 <= k < |ext| ==> ext[k] != '/' && ext[k] != '.'
    ensures StreamFormat(JStr(stem + "." + ext)) == GetFormat(ext)
  {
    FormatExtensionOfName(stem, ext);
  }

  lemma FormatExtensionOfName(stem: string, ext: string)
    requires stem != [] && forall k :: 0 <= k < |stem| ==> stem[k] != '/'
    requires ext != [] && forall k :: 0 <= k < |ext| ==> ext[k] != '/' && ext[k] != '.'
    ensures FormatExtension(stem + "." + ext) == ext
  {
    ExtnameOfName(stem, ext);
    assert ("." + ext)[1..] == ext;
  }

  /** Every extension `getExtensions()` lists, e.g. "photo.jpg", is written in its format. */
  lemma StreamFormatOfKnownName(stem: string, ext: string)
    requires stem != [] && forall k :: 0 <= k < |stem| ==> stem[k] != '/'
    requires ext in GetExtensions()
    ensures StreamFormat(JStr(stem + "." + ext)) == GetFormat(ext) && GetFormat(ext).Success?
  {
    EveryExtensionHasItsFormat(ext);
    ExtensionsArePlainNames(ext);
    StreamFormatOfName(stem, ext);
  }
}
