/** The in-memory 3MXB archive (archive.go): the magic number, the header,
    and the ordered list of payload buffers that resources are appended to. */
module Container {
  import opened Bytes
  import opened Json
  import opened Descriptors
  import opened GeometryCodec
  import opened TextureCodec

  /** `MAGIC_NUMBER` (archive.go:3-5). */
  const MagicNumber := "3MXBO"

  /** Its bytes: '3', 'M', 'X', 'B', 'O'. */
  const Magic: seq<byte> := [0x33, 0x4D, 0x58, 0x42, 0x4F]

  lemma MagicSpellsMagicNumber()
    ensures IsAscii(MagicNumber) && Magic == Ascii(MagicNumber)
  {
  }

  /** What an append returns (archive.go:25 and 30) when the list held
      `before` buffers: the new buffer's index as an `int`, and the new
      length converted to `uint32`. */
  function Positions(before: nat): (p: (int, uint32))
  {
    (before, WrapUint32(before + 1))
  }

  /** The index addresses the buffer just appended, and as long as the
      count fits in 32 bits it is the count less one. */
  lemma PositionsAddressNewBuffer(before: nat)
    ensures Positions(before).0 == before
    ensures before + 1 < 0x1_0000_0000 ==> Positions(before).0 == Positions(before).1 as int - 1
    ensures before + 1 >= 0x1_0000_0000 ==> Positions(before).1 as int == (before + 1) % 0x1_0000_0000
  {
  }

  /** The bytes `Marshalling()` gives for a geometry: the CTM encoding of a
      mesh, the point layout of a cloud. */
  function GeometryBytes(g: Geometry, save: CtmSave): seq<byte>
    reads if g.MeshGeometry? then {g.mesh as object} else {g.cloud as object}
    requires g.CloudGeometry? ==> CountFits(|g.cloud.vertices|)
  {
    match g
    case MeshGeometry(mesh) => mesh.Marshal(save)
    case CloudGeometry(cloud) => IntendedLayout(cloud.vertices, cloud.colors)
  }

  class Archive {
    var magic: seq<byte>
    var size: uint32
    var header: Option<Header>
    var buffers: seq<seq<byte>>

    /** `NewArchive` (archive.go:14-16): the magic bytes, no header, no
        buffers. */
    constructor ()
      ensures magic == Magic && size == 0 && header.None? && buffers == []
    {
      magic := Magic;
      size := 0;
      header := None;
      buffers := [];
    }

    /** `getHeader` (archive.go:18-21): the header's JSON bytes (`null`
        for a nil header) and their length as a `uint32`. */
    function GetHeader(text: JsonText): (r: (seq<byte>, uint32))
      reads this
      ensures r.1 as int == |r.0| % 0x1_0000_0000
    {
      var data := ToJson(header, text);
      (data, WrapUint32(|data|))
    }

    /** `appendGeometry` (archive.go:23-26): one buffer more at the end,
        every earlier buffer where it was. */
    method AppendGeometry(g: Geometry, save: CtmSave) returns (index: int, count: uint32)
      requires g.CloudGeometry? ==> CountFits(|g.cloud.vertices|)
      modifies this
      ensures buffers == old(buffers) + [GeometryBytes(g, save)]
      ensures (index, count) == Positions(|old(buffers)|)
      ensures forall i :: 0 <= i < |old(buffers)| ==> buffers[i] == old(buffers)[i]
      ensures 0 <= index < |buffers| && buffers[index] == GeometryBytes(g, save)
      ensures magic == old(magic) && size == old(size) && header == old(header)
    {
      var buf: seq<byte>;
      match g {
        case MeshGeometry(mesh) =>
          buf := mesh.Marshal(save);
        case CloudGeometry(cloud) =>
          buf := cloud.MarshalIntended();
      }
      buffers := buffers + [buf];
      index, count := |buffers| - 1, WrapUint32(|buffers|);
    }

    /** `appendTexture` (archive.go:28-31): as `AppendGeometry`, with the
        texture's bytes; marshalling may fill in the texture's format. */
    method AppendTexture(t: Texture, codecs: ImageCodecs) returns (index: int, count: uint32)
      requires CanEncode(DefaultFormat(t.format), t.image)
      modifies this, t
      ensures t.format == DefaultFormat(old(t.format)) && t.image == old(t.image) && t.id == old(t.id)
      ensures buffers == old(buffers) + [EncodeImage(t.format, t.image, codecs)]
      ensures (index, count) == Positions(|old(buffers)|)
      ensures forall i :: 0 <= i < |old(buffers)| ==> buffers[i] == old(buffers)[i]
      ensures 0 <= index < |buffers| && buffers[index] == EncodeImage(t.format, t.image, codecs)
      ensures magic == old(magic) && size == old(size) && header == old(header)
    {
      var buf := t.Marshal(codecs);
      buffers := buffers + [buf];
      index, count := |buffers| - 1, WrapUint32(|buffers|);
    }
  }

  /** The header bytes `getHeader` gives decode to the archive's header. */
  lemma {:induction false} GetHeaderRoundTrip(a: Archive, text: JsonText)
    requires ReadsBack(text, HeaderValue(a.header))
    ensures HeaderFromJson(a.GetHeader(text).0, text) == a.header
  {
    HeaderTextRoundTrip(a.header, text);
  }
}
