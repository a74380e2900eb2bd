/**
 * The content tree the plugins transform: a site holding albums, each holding
 * images. Every entity carries its other fields as an opaque key-value map.
 */
module Content {
  import opened Wrappers
  import opened JsonValues

  datatype Image = Image(fields: map<string, Json>)

  datatype Album = Album(fields: map<string, Json>, images: seq<Image>)

  datatype Site = Site(fields: map<string, Json>, albums: seq<Album>)

  /** `entity.key`, with `None` for `undefined`. */
  function Field(fields: map<string, Json>, key: string): Option<Json>
  {
    if key in fields then Some(fields[key]) else None
  }
}
