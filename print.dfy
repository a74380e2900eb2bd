/**
 * lib/print.js: `lerret print`, which renders the loaded content tree.
 * Rendering (prettyjson) is the uninterpreted `render`; loading the content
 * is given as its outcome `loaded`.
 */
module Print {
  import opened Wrappers
  import opened Errors
  import opened JsonValues
  import opened Content

  /** An image without its "exif" key (`_.omit(image, "exif")`). */
  function WithoutExif(image: Image): (r: Image)
    ensures "exif" !in r.fields
    ensures forall key :: key != "exif" ==> (key in r.fields <==> key in image.fields)
    ensures forall key :: key in r.fields ==> r.fields[key] == image.fields[key]
  {
    Image(image.fields - {"exif"})
  }

  /** An album whose images are rebuilt without exif. */
  function AlbumWithoutExif(album: Album): (r: Album)
    ensures r.fields == album.fields && |r.images| == |album.images|
    ensures forall k :: 0 <= k < |r.images| ==> r.images[k] == WithoutExif(album.images[k])
  {
    album.(images := seq(|album.images|, k requires 0 <= k < |album.images| => WithoutExif(album.images[k])))
  }

  /** `removeExif(site)`. */
  function RemoveExif(site: Site): (r: Site)
    ensures r.fields == site.fields && |r.albums| == |site.albums|
    ensures forall k :: 0 <= k < |r.albums| ==> r.albums[k] == AlbumWithoutExif(site.albums[k])
  {
    site.(albums := seq(|site.albums|, k requires 0 <= k < |site.albums| => AlbumWithoutExif(site.albums[k])))
  }

  /** No image of any album carries an "exif" key. */
  predicate ExifFree(site: Site)
  {
    forall a, i :: 0 <= a < |site.albums| && 0 <= i < |site.albums[a].images| ==>
      "exif" !in site.albums[a].images[i].fields
  }

  /**
   * After `removeExif` no image keeps exif, while every other field of the
   * site, of each album and of each image is kept, with album and image
   * counts and order unchanged.
   */
  lemma RemoveExifEffect(site: Site)
    ensures ExifFree(RemoveExif(site))
    ensures RemoveExif(site).fields == site.fields && |RemoveExif(site).albums| == |site.albums|
    ensures forall a :: 0 <= a < |site.albums| ==>
      RemoveExif(site).albums[a].fields == site.albums[a].fields &&
      |RemoveExif(site).albums[a].images| == |site.albums[a].images|
    ensures forall a, i, key :: 0 <= a < |site.albums| && 0 <= i < |site.albums[a].images| && key != "exif" ==>
      (key in RemoveExif(site).albums[a].images[i].fields <==> key in site.albums[a].images[i].fields)
    ensures forall a, i, key ::
      (0 <= a < |site.albums| && 0 <= i < |site.albums[a].images| &&
       key in RemoveExif(site).albums[a].images[i].fields) ==>
      RemoveExif(site).albums[a].images[i].fields[key] == site.albums[a].images[i].fields[key]
  {
  }

  /** A site that is already exif-free is left as it is; in particular `removeExif` is idempotent. */
  lemma {:induction false} RemoveExifKeepsExifFree(site: Site)
    requires ExifFree(site)
    ensures RemoveExif(site) == site
  {
    var r := RemoveExif(site);
    forall a | 0 <= a < |site.albums|
      ensures r.albums[a] == site.albums[a]
    {
      var album := site.albums[a];
      forall i | 0 <= i < |album.images|
        ensures r.albums[a].images[i] == album.images[i]
      {
        assert "exif" !in album.images[i].fields;
        assert album.images[i].fields - {"exif"} == album.images[i].fields;
      }
      assert r.albums[a].images == album.images;
    }
    assert r.albums == site.albums;
  }

  /** Stripping twice is stripping once. */
  lemma RemoveExifIdempotent(site: Site)
    ensures RemoveExif(RemoveExif(site)) == RemoveExif(site)
  {
    RemoveExifEffect(site);
    RemoveExifKeepsExifFree(RemoveExif(site));
  }

  /** The prettyjson options `format` selects. */
  function FormatOptions(color: bool): (r: Json)
    ensures r.JObj?
    ensures color ==> r.members.Keys == {"dashColor", "keysColor", "numberColor", "stringColor"}
    ensures color ==> r.members["keysColor"] == JStr("blue") && r.members["numberColor"] == JStr("yellow")
    ensures color ==> r.members["dashColor"] == JStr("white") && r.members["stringColor"] == JStr("white")
    ensures !color ==> r.members == map["noColor" := JBool(true)]
  {
    if color then
      JObj(map["dashColor" := JStr("white"), "keysColor" := JStr("blue"),
               "numberColor" := JStr("yellow"), "stringColor" := JStr("white")])
    else JObj(map["noColor" := JBool(true)])
  }

  /** What `print` does, in order. */
  datatype Event = SetLevel(level: string) | Written(text: string) | LoggedError(message: string)

  /** The events of one `print` call and how its promise settles. */
  datatype PrintRun = PrintRun(events: seq<Event>, outcome: Outcome<Error>)

  /** The site `print` renders. */
  function Shown(site: Site, exif: bool): Site
  {
    if exif then site else RemoveExif(site)
  }

  /**
   * `print({exif, color})`: the level is set to "warn", then the loaded site
   * is rendered and written; a `LerretError` from loading is logged and the
   * call resolves, any other error rejects.
   */
  function Print(exif: bool, color: bool, loaded: Result<Site, Error>, render: (Site, Json) -> string): (r: PrintRun)
    ensures |r.events| == 2 || (|r.events| == 1 && r.outcome.Fail?)
    ensures r.events[0] == SetLevel("warn")
  {
    match loaded
    case Success(site) => PrintRun([SetLevel("warn"), Written(render(Shown(site, exif), FormatOptions(color)))], Pass)
    case Failure(LerretError(message)) => PrintRun([SetLevel("warn"), LoggedError(message)], Pass)
    case Failure(e) => PrintRun([SetLevel("warn")], Fail(e))
  }

  /**
   * A loaded site is written as rendered: unchanged with exif enabled,
   * exif-free but otherwise intact without it, and with the options `color` selects.
   */
  lemma PrintWritesSite(exif: bool, color: bool, site: Site, render: (Site, Json) -> string)
    ensures var run := Print(exif, color, Success(site), render);
      run.outcome == Pass && run.events[1] == Written(render(Shown(site, exif), FormatOptions(color)))
    ensures exif ==> Shown(site, exif) == site
    ensures !exif ==> ExifFree(Shown(site, exif))
    ensures Shown(site, exif).fields == site.fields && |Shown(site, exif).albums| == |site.albums|
  {
    RemoveExifEffect(site);
  }

  /**
   * Loading errors: a `LerretError` is logged by its message only and the
   * call resolves without writing; any other error rejects, unchanged.
   */
  lemma PrintLoadErrors(exif: bool, color: bool, e: Error, render: (Site, Json) -> string)
    ensures var run := Print(exif, color, Failure(e), render);
      (forall k :: 0 <= k < |run.events| ==> !run.events[k].Written?) &&
      (e.LerretError? ==> run.outcome == Pass && run.events == [SetLevel("warn"), LoggedError(e.message)]) &&
      (!e.LerretError? ==> run.outcome == Fail(e))
  {
  }
}
