/** The header of a 3MXB archive (header.go): the resource type tags, the
    scene-graph `Node`, the payload descriptor `Resource` and the `Header`
    that lists both, with the JSON form their struct tags give them. */
module Descriptors {
  import opened Bytes
  import opened Json

  // The four values of `Resource.Type` (header.go:8-13).
  const TextureBufferType := "textureBuffer"
  const GeometryBufferType := "geometryBuffer"
  const TextureFileType := "textureFile"
  const GeometryFileType := "geometryFile"

  /** A `[3]float64`. Coordinates are taken as exact reals. */
  datatype Triple = Triple(x: real, y: real, z: real)

  const ZeroTriple := Triple(0.0, 0.0, 0.0)

  datatype Node = Node(
    id: string,
    bbMin: Triple,
    bbMax: Triple,
    maxScreenDiameter: real,
    children: seq<string>,
    resources: seq<string>)

  /** A payload descriptor. The five pointer fields of the Go struct are
      Options: None is the nil pointer that `omitempty` leaves out. */
  datatype Resource = Resource(
    resourceType: string,
    id: string,
    format: string,
    size: uint32,
    bbMin: Option<Triple>,
    bbMax: Option<Triple>,
    texture: Option<string>,
    pointSize: Option<uint32>,
    file: Option<string>)

  datatype Header = Header(version: uint32, nodes: seq<Node>, resources: seq<Resource>)

  /** The four type tags are pairwise distinct, so `Type` alone says whether
      a resource is an inline buffer or a file and whether it is a texture
      or a geometry. */
  lemma TypeTagsDistinct()
    ensures |{TextureBufferType, GeometryBufferType, TextureFileType, GeometryFileType}| == 4
  {
  }

  // ---------------------------------------------------------------------
  // Encoding: what `json.Marshal` builds from the struct tags.

  function TripleJson(t: Triple): Json
  {
    JArr([JNum(t.x), JNum(t.y), JNum(t.z)])
  }

  function StringsJson(ss: seq<string>): Json
  {
    JArr(seq(|ss|, i requires 0 <= i < |ss| => JStr(ss[i])))
  }

  function NodeJson(n: Node): Json
  {
    JObj(map[Id := JStr(n.id), BbMin := TripleJson(n.bbMin), BbMax := TripleJson(n.bbMax),
             MaxScreenDiameter := JNum(n.maxScreenDiameter),
             Children := StringsJson(n.children), Resources := StringsJson(n.resources)])
  }

  function OptionalTriple(t: Option<Triple>): Option<Json>
  {
    if t.Some? then Some(TripleJson(t.value)) else None
  }

  function OptionalString(s: Option<string>): Option<Json>
  {
    if s.Some? then Some(JStr(s.value)) else None
  }

  function OptionalUint32(n: Option<uint32>): Option<Json>
  {
    if n.Some? then Some(JNum(n.value as real)) else None
  }

  /** The keys of the `Resource` struct's fields. */
  const ResourceKeys: set<Key> := {Type, Id, Format, Size, BbMin, BbMax, Texture, PointSize, File}

  /** The member a resource's field contributes, if any: the four plain
      fields always, each `omitempty` pointer only when it is not nil. */
  function ResourceMember(r: Resource, k: Key): Option<Json>
  {
    match k
    case Type => Some(JStr(r.resourceType))
    case Id => Some(JStr(r.id))
    case Format => Some(JStr(r.format))
    case Size => Some(JNum(r.size as real))
    case BbMin => OptionalTriple(r.bbMin)
    case BbMax => OptionalTriple(r.bbMax)
    case Texture => OptionalString(r.texture)
    case PointSize => OptionalUint32(r.pointSize)
    case File => OptionalString(r.file)
    case _ => None
  }

  function ResourceJson(r: Resource): Json
  {
    JObj(map k | k in ResourceKeys && ResourceMember(r, k).Some? :: ResourceMember(r, k).value)
  }

  function HeaderJson(h: Header): Json
  {
    JObj(map[Version := JNum(h.version as real),
             Nodes := JArr(seq(|h.nodes|, i requires 0 <= i < |h.nodes| => NodeJson(h.nodes[i]))),
             Resources := JArr(seq(|h.resources|, i requires 0 <= i < |h.resources| => ResourceJson(h.resources[i])))])
  }

  /** The value `json.Marshal` is given: the header, or `null` for a nil
      header pointer. */
  function HeaderValue(h: Option<Header>): Json
  {
    if h.Some? then HeaderJson(h.value) else JNull
  }

  /** `Header.ToJson` (header.go:42-45): the marshalled bytes of the header,
      `null` for a nil header. A marshal error is discarded, so there is no
      error result. */
  function ToJson(h: Option<Header>, text: JsonText): (b: seq<byte>)
    ensures h.None? ==> b == text.render(JNull)
    ensures h.Some? ==> b == text.render(HeaderJson(h.value))
  {
    text.render(HeaderValue(h))
  }

  // ---------------------------------------------------------------------
  // Decoding: what `json.Decoder.Decode` stores into a zero-valued struct.
  // An absent key, a JSON null and a value of the wrong JSON type all leave
  // the field at its zero value (the type error is reported, and ignored by
  // the caller); a pointer field is allocated for any non-null value.

  function AsString(j: Json): string
  {
    if j.JStr? then j.s else ""
  }

  function AsFloat(j: Json): real
  {
    if j.JNum? then j.n else 0.0
  }

  /** A number Go accepts for a `uint32` field: integral and in range. */
  predicate IsUint32Value(n: real)
  {
    n.Floor as real == n && 0 <= n.Floor < 0x1_0000_0000
  }

  function AsUint32(j: Json): uint32
  {
    if j.JNum? && IsUint32Value(j.n) then j.n.Floor as uint32 else 0
  }

  /** A JSON array into a Go array of three: extra elements are dropped,
      missing ones stay zero. */
  function AsTriple(j: Json): Triple
  {
    if j.JArr? then
      Triple(if |j.items| > 0 then AsFloat(j.items[0]) else 0.0,
             if |j.items| > 1 then AsFloat(j.items[1]) else 0.0,
             if |j.items| > 2 then AsFloat(j.items[2]) else 0.0)
    else ZeroTriple
  }

  function AsStrings(j: Json): seq<string>
  {
    if j.JArr? then seq(|j.items|, i requires 0 <= i < |j.items| => AsString(j.items[i])) else []
  }

  function AsNode(j: Json): Node
  {
    Node(AsString(Field(j, Id)), AsTriple(Field(j, BbMin)), AsTriple(Field(j, BbMax)),
         AsFloat(Field(j, MaxScreenDiameter)), AsStrings(Field(j, Children)),
         AsStrings(Field(j, Resources)))
  }

  // A pointer field: nil for null (or absent), otherwise allocated and decoded.

  function PointerTriple(j: Json): Option<Triple>
  {
    if j.JNull? then None else Some(AsTriple(j))
  }

  function PointerString(j: Json): Option<string>
  {
    if j.JNull? then None else Some(AsString(j))
  }

  function PointerUint32(j: Json): Option<uint32>
  {
    if j.JNull? then None else Some(AsUint32(j))
  }

  function AsResource(j: Json): Resource
  {
    Resource(AsString(Field(j, Type)), AsString(Field(j, Id)), AsString(Field(j, Format)),
             AsUint32(Field(j, Size)),
             PointerTriple(Field(j, BbMin)), PointerTriple(Field(j, BbMax)),
             PointerString(Field(j, Texture)), PointerUint32(Field(j, PointSize)),
             PointerString(Field(j, File)))
  }

  function AsHeader(j: Json): Header
  {
    var nodes, resources := Field(j, Nodes), Field(j, Resources);
    Header(AsUint32(Field(j, Version)),
           if nodes.JArr? then seq(|nodes.items|, i requires 0 <= i < |nodes.items| => AsNode(nodes.items[i])) else [],
           if resources.JArr? then seq(|resources.items|, i requires 0 <= i < |resources.items| => AsResource(resources.items[i])) else [])
  }

  /** `HeaderFromJson` (header.go:47-51): decoding into a nil `*Header`. It
      reports no error: input that does not parse, and a JSON null, leave the
      header nil; any other value allocates a header and fills what it can. */
  function HeaderFromJson(data: seq<byte>, text: JsonText): (h: Option<Header>)
    ensures h.None? <==> (text.parse(data).None? || text.parse(data) == Some(JNull))
    ensures h.Some? ==> h.value == AsHeader(text.parse(data).value)
  {
    match text.parse(data)
    case None => None
    case Some(j) => if j.JNull? then None else Some(AsHeader(j))
  }

  // ---------------------------------------------------------------------
  // Properties of the JSON form.

  /** A `uint32` is written as a number Go reads back as the same value. */
  lemma Uint32NumberRoundTrip(n: uint32)
    ensures AsUint32(JNum(n as real)) == n
  {
    assert (n as real).Floor == n as int;
  }

  /** `type`, `id`, `format` and `size` are always written. */
  lemma ResourcePlainFields(r: Resource)
    ensures Field(ResourceJson(r), Type) == JStr(r.resourceType)
    ensures Field(ResourceJson(r), Id) == JStr(r.id)
    ensures Field(ResourceJson(r), Format) == JStr(r.format)
    ensures Field(ResourceJson(r), Size) == JNum(r.size as real)
  {
  }

  /** Each pointer field is written exactly when it is not nil, and never
      as null: a nil pointer leaves its key out of the object. */
  lemma ResourcePointerFields(r: Resource)
    ensures BbMin in ResourceJson(r).members <==> r.bbMin.Some?
    ensures BbMax in ResourceJson(r).members <==> r.bbMax.Some?
    ensures Texture in ResourceJson(r).members <==> r.texture.Some?
    ensures PointSize in ResourceJson(r).members <==> r.pointSize.Some?
    ensures File in ResourceJson(r).members <==> r.file.Some?
    ensures ResourceJson(r).members.Keys <= ResourceKeys
    ensures forall k :: k in ResourceJson(r).members ==> ResourceJson(r).members[k] != JNull
    ensures Field(ResourceJson(r), BbMin) == (if r.bbMin.Some? then TripleJson(r.bbMin.value) else JNull)
    ensures Field(ResourceJson(r), BbMax) == (if r.bbMax.Some? then TripleJson(r.bbMax.value) else JNull)
    ensures Field(ResourceJson(r), Texture) == (if r.texture.Some? then JStr(r.texture.value) else JNull)
    ensures Field(ResourceJson(r), PointSize) == (if r.pointSize.Some? then JNum(r.pointSize.value as real) else JNull)
    ensures Field(ResourceJson(r), File) == (if r.file.Some? then JStr(r.file.value) else JNull)
  {
  }

  lemma {:induction false} ResourceRoundTrip(r: Resource)
    ensures AsResource(ResourceJson(r)) == r
  {
    ResourcePlainFields(r);
    ResourcePointerFields(r);
    Uint32NumberRoundTrip(r.size);
    if r.pointSize.Some? {
      Uint32NumberRoundTrip(r.pointSize.value);
    }
  }

  lemma NodeRoundTrip(n: Node)
    ensures AsNode(NodeJson(n)) == n
  {
  }

  /** The header's JSON form decodes to the same header: every node and
      every resource comes back, in list order. */
  lemma {:induction false} HeaderRoundTrip(h: Header)
    ensures AsHeader(HeaderJson(h)) == h
  {
    Uint32NumberRoundTrip(h.version);
    forall i | 0 <= i < |h.nodes| ensures AsNode(NodeJson(h.nodes[i])) == h.nodes[i] {
      NodeRoundTrip(h.nodes[i]);
    }
    forall i | 0 <= i < |h.resources| ensures AsResource(ResourceJson(h.resources[i])) == h.resources[i] {
      ResourceRoundTrip(h.resources[i]);
    }
  }

  /** What `ToJson` writes, `HeaderFromJson` reads back: the same header,
      or nil for a nil header (written as `null`). */
  lemma {:induction false} HeaderTextRoundTrip(h: Option<Header>, text: JsonText)
    requires ReadsBack(text, HeaderValue(h))
    ensures HeaderFromJson(ToJson(h, text), text) == h
  {
    var j := HeaderValue(h);
    assert text.parse(text.render(j)) == Some(j);
    if h.Some? {
      HeaderRoundTrip(h.value);
    }
  }
}
