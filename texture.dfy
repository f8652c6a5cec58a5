/** The texture payloads of a 3MXB archive (texture.go): sniffing an image
    format from its first bytes, choosing a codec by the format's suffix, and
    the `Texture` that is marshalled into and out of a buffer. */
module TextureCodec {
  import opened Bytes
  import opened Descriptors

  /** The JPEG quality `encodeImage` asks for (texture.go:12). */
  const DefaultQuality := 80

  /** `stringIn` (texture.go:14-21): a linear search that stops at the first
      element equal to `str`. */
  method StringIn(str: string, slice: seq<string>) returns (found: bool)
    ensures found <==> str in slice
  {
    for i := 0 to |slice|
      invariant str !in slice[..i]
    {
      if slice[i] == str {
        return true;
      }
    }
    assert slice[..|slice|] == slice;
    return false;
  }

  // ---------------------------------------------------------------------
  // Format sniffing.

  /** The identifier "JFIF" of a JPEG APP0 segment. */
  const JfifTag: seq<byte> := [0x4A, 0x46, 0x49, 0x46]

  /** The eight-byte PNG file signature (section 5.2 of the PNG
      specification, ISO/IEC 15948). */
  const PngSignature: seq<byte> := [0x89, 0x50, 0x4E, 0x47, 0x0D, 0x0A, 0x1A, 0x0A]

  /** `isJpeg` (texture.go:23-25): bytes 6 to 9 spell "JFIF". Slicing
      `h[6:10]` panics on a shorter string. */
  predicate IsJpeg(h: seq<byte>)
    requires |h| >= 10
    ensures IsJpeg(h) <==> h[6] == 'J' as byte && h[7] == 'F' as byte && h[8] == 'I' as byte && h[9] == 'F' as byte
  {
    h[6..10] == JfifTag
  }

  /** `isPng` (texture.go:27-29): the first eight bytes are the PNG
      signature. Slicing `h[:8]` panics on a shorter string. */
  predicate IsPng(h: seq<byte>)
    requires |h| >= 8
    ensures IsPng(h) <==> h[0] == 0x89 && h[1] == 'P' as byte && h[2] == 'N' as byte && h[3] == 'G' as byte &&
                          h[4] == 0x0D && h[5] == 0x0A && h[6] == 0x1A && h[7] == 0x0A
  {
    h[..8] == PngSignature
  }

  /** `peekImageFormat` (texture.go:31-38): "jpeg" when the JFIF tag is
      there (checked first), else "png" when the PNG signature is there,
      else the empty string. */
  function PeekImageFormat(buf: seq<byte>): (f: string)
    requires |buf| >= 10
    ensures f == "jpeg" <==> IsJpeg(buf)
    ensures f == "png" <==> !IsJpeg(buf) && IsPng(buf)
    ensures f == "" <==> !IsJpeg(buf) && !IsPng(buf)
  {
    if IsJpeg(buf) then "jpeg" else if IsPng(buf) then "png" else ""
  }

  /** A stream that starts with the PNG signature is never taken for JFIF:
      its bytes 6 and 7 are 0x1A 0x0A, not "JF". */
  lemma PngIsNotJpeg(buf: seq<byte>)
    requires |buf| >= 10 && IsPng(buf)
    ensures PeekImageFormat(buf) == "png"
  {
    assert buf[6] == PngSignature[6];
  }

  // ---------------------------------------------------------------------
  // Codec choice by suffix.

  predicate HasSuffix(s: string, suffix: string)
  {
    |suffix| <= |s| && s[|s| - |suffix|..] == suffix
  }

  datatype Codec = JpegCodec | PngCodec | NoCodec

  /** The branch `encodeImage` and `decodeImage` take (texture.go:74-78 and
      82-95): JPEG for a name ending in "jpg" or "jpeg", else PNG for one
      ending in "png", else none. */
  function CodecFor(name: string): (c: Codec)
    ensures c == JpegCodec <==> HasSuffix(name, "jpg") || HasSuffix(name, "jpeg")
    ensures c == PngCodec <==> !HasSuffix(name, "jpg") && !HasSuffix(name, "jpeg") && HasSuffix(name, "png")
  {
    if HasSuffix(name, "jpg") || HasSuffix(name, "jpeg") then JpegCodec
    else if HasSuffix(name, "png") then PngCodec
    else NoCodec
  }

  /** Every name the sniffer gives selects the codec for its own format,
      and the empty name selects none. */
  lemma {:induction false} PeekedFormatSelectsCodec(buf: seq<byte>)
    requires |buf| >= 10
    ensures CodecFor(PeekImageFormat(buf)) ==
            (if IsJpeg(buf) then JpegCodec else if IsPng(buf) then PngCodec else NoCodec)
  {
    var f := PeekImageFormat(buf);
    if IsJpeg(buf) {
      assert HasSuffix(f, "jpeg");
    } else if IsPng(buf) {
      assert f[|f| - 3..] == "png";
      assert !HasSuffix(f, "jpg") && !HasSuffix(f, "jpeg");
    } else {
      assert f == "";
    }
  }

  /** An image as `image.Image` holds it. */
  datatype Image = Image(width: nat, height: nat, pixels: seq<byte>)

  /** The `image/jpeg` and `image/png` codecs: what an encoder writes (an
      encoder that fails part way leaves what it wrote), and what a decoder
      reads, None on an error. */
  datatype ImageCodecs = ImageCodecs(
    encodeJpeg: (Image, int) -> seq<byte>,
    encodePng: Image -> seq<byte>,
    decodeJpeg: seq<byte> -> Option<Image>,
    decodePng: seq<byte> -> Option<Image>)

  /** The codecs may use a nil image only when there is no codec to call:
      both encoders would call a method of the nil interface and panic. */
  predicate CanEncode(name: string, img: Option<Image>)
  {
    img.Some? || CodecFor(name) == NoCodec
  }

  /** `encodeImage` (texture.go:73-79): the bytes written for `img` under
      `name`; nothing for a name with no codec. */
  function EncodeImage(name: string, img: Option<Image>, codecs: ImageCodecs): (b: seq<byte>)
    requires CanEncode(name, img)
    ensures CodecFor(name) == NoCodec ==> b == []
    ensures CodecFor(name) == JpegCodec ==> b == codecs.encodeJpeg(img.value, DefaultQuality)
    ensures CodecFor(name) == PngCodec ==> b == codecs.encodePng(img.value)
  {
    match CodecFor(name)
    case JpegCodec => codecs.encodeJpeg(img.value, DefaultQuality)
    case PngCodec => codecs.encodePng(img.value)
    case NoCodec => []
  }

  /** `decodeImage` (texture.go:81-96): the decoded image, or nil for a
      name with no codec or a decoding error. */
  function DecodeImage(name: string, buf: seq<byte>, codecs: ImageCodecs): (img: Option<Image>)
    ensures CodecFor(name) == NoCodec ==> img.None?
    ensures CodecFor(name) == JpegCodec ==> img == codecs.decodeJpeg(buf)
    ensures CodecFor(name) == PngCodec ==> img == codecs.decodePng(buf)
  {
    match CodecFor(name)
    case JpegCodec => codecs.decodeJpeg(buf)
    case PngCodec => codecs.decodePng(buf)
    case NoCodec => None
  }

  /** The format `Marshal` writes under: "jpg" for an empty one. */
  function DefaultFormat(format: string): (f: string)
    ensures format == "" ==> f == "jpg"
    ensures format != "" ==> f == format
  {
    if format == "" then "jpg" else format
  }

  /** Defaulting twice is defaulting once, and never leaves the format
      empty. */
  lemma DefaultFormatIdempotent(format: string)
    ensures DefaultFormat(DefaultFormat(format)) == DefaultFormat(format)
    ensures DefaultFormat(format) != ""
  {
  }

  /** A PNG encoder that writes the signature and at least ten bytes, and a
      decoder that reads back what it writes. */
  ghost predicate PngFaithful(codecs: ImageCodecs)
  {
    forall img :: |codecs.encodePng(img)| >= 10 && codecs.encodePng(img)[..8] == PngSignature &&
                  codecs.decodePng(codecs.encodePng(img)) == Some(img)
  }

  /** A texture written as PNG is sniffed as "png" and decoded to the same
      image. */
  lemma {:induction false} PngTextureRoundTrip(name: string, img: Image, codecs: ImageCodecs)
    requires PngFaithful(codecs) && CodecFor(name) == PngCodec
    ensures var buf := EncodeImage(name, Some(img), codecs);
            |buf| >= 10 && PeekImageFormat(buf[..10]) == "png" &&
            DecodeImage(PeekImageFormat(buf[..10]), buf, codecs) == Some(img)
  {
    var buf := EncodeImage(name, Some(img), codecs);
    assert buf == codecs.encodePng(img);
    assert buf[..10][..8] == buf[..8];
    PngIsNotJpeg(buf[..10]);
    PeekedFormatSelectsCodec(buf[..10]);
  }

  class Texture {
    var image: Option<Image>
    var id: string
    var format: string

    /** `NewTexture` (texture.go:46-48). */
    constructor (img: Option<Image>, id: string, format: string)
      ensures image == img && this.id == id && this.format == format
    {
      image := img;
      this.id := id;
      this.format := format;
    }

    /** `Texture.GetID` (texture.go:54-56). */
    function GetId(): (s: string)
      reads this
      ensures s == id
    {
      id
    }

    /** `Texture.Resource` (texture.go:50-52): an inline texture buffer
        with the texture's id and format and nothing optional. */
    function Resource(): (r: Resource)
      reads this
      ensures r.resourceType == TextureBufferType && r.id == GetId() && r.format == format
      ensures r.size == 0 && r.bbMin.None? && r.bbMax.None?
      ensures r.texture.None? && r.pointSize.None? && r.file.None?
    {
      Descriptors.Resource.Resource(TextureBufferType, id, format, 0, None, None, None, None, None)
    }

    /** `Texture.Marshal` (texture.go:58-65): an empty format becomes
        "jpg", then the image is encoded under the format. */
    method Marshal(codecs: ImageCodecs) returns (buf: seq<byte>)
      requires CanEncode(DefaultFormat(format), image)
      modifies this
      ensures format == DefaultFormat(old(format))
      ensures image == old(image) && id == old(id)
      ensures buf == EncodeImage(format, image, codecs)
    {
      if format == "" {
        format := "jpg";
      }
      buf := EncodeImage(format, image, codecs);
    }

    /** `Texture.Unmarshal` (texture.go:67-71): the format is sniffed from
        the first ten bytes, then the whole buffer is decoded under it.
        `buf[:10]` panics only when the capacity is below ten; a shorter
        slice with spare capacity would be sniffed on stale bytes, which a
        sequence cannot express, so ten bytes are required. */
    method Unmarshal(buf: seq<byte>, codecs: ImageCodecs)
      requires |buf| >= 10
      modifies this
      ensures format == PeekImageFormat(buf[..10])
      ensures image == DecodeImage(format, buf, codecs)
      ensures id == old(id)
    {
      format := PeekImageFormat(buf[..10]);
      image := DecodeImage(format, buf, codecs);
    }
  }
}
