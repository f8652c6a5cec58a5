/** JSON values as Go's `encoding/json` builds and reads them for the header.
    The text layer (writing a value out as bytes and scanning bytes back into
    a value) belongs to the Go standard library and enters the model as the
    two functions of a `JsonText`. */
module Json {
  import opened Bytes

  /** The object keys the header's structs declare in their `json` tags
      (header.go:15-40); every other key is `Other`. */
  datatype Key =
    | Version | Nodes | Resources
    | Id | BbMin | BbMax | MaxScreenDiameter | Children
    | Type | Format | Size | Texture | PointSize | File
    | Other(name: string)

  /** The `json` tag each key stands for. */
  function KeyName(k: Key): string
  {
    match k
    case Version => "version"
    case Nodes => "nodes"
    case Resources => "resources"
    case Id => "id"
    case BbMin => "bbMin"
    case BbMax => "bbMax"
    case MaxScreenDiameter => "maxScreenDiameter"
    case Children => "children"
    case Type => "type"
    case Format => "format"
    case Size => "size"
    case Texture => "texture"
    case PointSize => "pointSize"
    case File => "file"
    case Other(name) => name
  }

  /** The struct tags are pairwise distinct, so each tagged key names one
      field. */
  lemma {:induction false} TagNamesDistinct(k1: Key, k2: Key)
    requires !k1.Other? && !k2.Other? && k1 != k2
    ensures KeyName(k1) != KeyName(k2)
  {
  }

  /** A JSON value. An object is held as one value per key; how a text
      with a repeated key becomes such a value is up to the text layer. */
  datatype Json =
    | JNull
    | JBool(b: bool)
    | JNum(n: real)
    | JStr(s: string)
    | JArr(items: seq<Json>)
    | JObj(members: map<Key, Json>)

  /** `render` is `json.Marshal`'s byte output for a value, which writes an
      object's members in the order of the struct's fields; `parse` is the
      first value a `json.Decoder` reads from a stream, or None on a syntax
      error or an empty stream. */
  datatype JsonText = JsonText(render: Json -> seq<byte>, parse: seq<byte> -> Option<Json>)

  /** The text layer gives back the value `j` after writing it. This is a
      hypothesis about one value, not about every value: `JNum` holds any
      real, and no text of finite length spells out every real. */
  ghost predicate ReadsBack(text: JsonText, j: Json)
  {
    text.parse(text.render(j)) == Some(j)
  }

  /** What decoding a struct field reads for `key`: the member's value, or
      null when the member is absent (or the value is not an object). */
  function Field(j: Json, key: Key): (v: Json)
    ensures j.JObj? && key in j.members ==> v == j.members[key]
    ensures !(j.JObj? && key in j.members) ==> v == JNull
  {
    if j.JObj? && key in j.members then j.members[key] else JNull
  }
}
