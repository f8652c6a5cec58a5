# go-3mx: the 3MXB container, modelled in Dafny

3MXB is the binary container of the 3MX mesh format. An archive holds:

- a magic number;
- a JSON header, which lists the scene-graph nodes and the resources they use;
- an ordered list of payload buffers: geometry (CTM meshes, "xyz" point clouds) and textures (JPEG or PNG images).

The model covers these parts of the Go package:

- the header's descriptors and their JSON form (`header.go`), in module `Descriptors` over `Json`;
- the geometry payloads: descriptors, bounding boxes and the point-cloud binary layout (`geometry.go`), in module `GeometryCodec`;
- texture format sniffing, codec dispatch and the texture payload (`texture.go`), in module `TextureCodec`;
- the archive's buffer list (`archive.go`), in module `Container`.

`Bytes` holds the fixed-width integers and the little-endian words they share.

The modelling choices:

- **Values and state.** Header records are datatypes. `Mesh`, `PointCloud`, `Texture` and `Archive` are classes, because their Go methods update their fields in place.
- **Floats.** A `float32` is kept as its IEEE 754 bit pattern. Go's `<` on float32 is modelled exactly, including NaN and the two zeros. Header coordinates (`float64`) are exact reals.
- **JSON.** The struct-tag layer is modelled: which members `json.Marshal` writes, and how `json.Decoder.Decode` fills a zero struct. The text layer is a parameter `JsonText(render, parse)`. A JSON object is held as one value per key.
- **External libraries.** The image codecs, the CTM encoder and process memory are parameters.
- **Go panics.** A slice out of range, or encoding a nil image, becomes a `requires`. A Go slice has a capacity that a Dafny sequence lacks: `buf[:10]` panics only when the capacity is below 10, and within the capacity it reads bytes past the length. The model requires the length itself.

## Model

| member | source | states |
|---|---|---|
| `Descriptors.TypeTagsDistinct` | header.go:8-13 | the four resource type tags are pairwise distinct, so `Type` alone names the kind of resource |
| `Descriptors.Uint32NumberRoundTrip` | header.go:28 | a `uint32` written as a JSON number decodes to the same `uint32` |
| `Descriptors.ResourcePlainFields` | header.go:25-28 | `type`, `id`, `format` and `size` are always present in a resource's JSON object, with the field values |
| `Json.TagNamesDistinct` | header.go:15-40 | the `json` tags of the header's structs are pairwise distinct, so each tagged key names one field |
| `Descriptors.ResourcePointerFields` | header.go:29-33 | each of `bbMin`, `bbMax`, `texture`, `pointSize`, `file` is a key of the object exactly when the pointer is not nil, with the pointed-to value; the object has no other keys than the nine tags, and no member is null |
| `Descriptors.ResourceRoundTrip` | header.go:24-34 | decoding a resource's JSON object gives back the same resource, nil pointers included |
| `Descriptors.NodeRoundTrip` | header.go:15-22 | decoding a node's JSON object gives back the same node |
| `Descriptors.HeaderRoundTrip` | header.go:36-40 | decoding a header's JSON object gives back the same version and the same nodes and resources, in list order |
| `Descriptors.HeaderFromJson` | header.go:47-51 | no error is reported: bytes that do not parse, or a JSON null, give a nil header; any other value gives a header decoded from it |
| `Descriptors.ToJson` | header.go:42-45 | a nil header is written as the text of JSON `null`, any other header as the text of its JSON object; there is no error result |
| `Descriptors.HeaderTextRoundTrip` | header.go:42-51 | whenever the text layer reads back the one value `ToJson(h)` writes, `HeaderFromJson` of `ToJson(h)` is `h`, including a nil header, which is written as `null` |
| `Bytes.Int32LeRoundTrip` | geometry.go:139-153 | the little-endian `int32` count prefix reads back as the same count |
| `GeometryCodec.ExtendContains` | geometry.go:101-104 | extending a box by a point makes it contain that point, keeps every point it contained, and keeps NaN out of the box |
| `GeometryCodec.ExtentContains` | geometry.go:100-106 | the box folded from `vec3.MaxVal`/`vec3.MinVal` over all vertices contains every vertex |
| `GeometryCodec.ExtentTight` | geometry.go:100-106 | the fold's box is no larger than needed: each bound is a coordinate of some vertex, or still `math.MaxFloat32` (for a minimum) or its negation (for a maximum) |
| `GeometryCodec.FoldExtent` | geometry.go:101-104 | the running `Extend` loop computes the fold `Extent` of the vertices |
| `GeometryCodec.ZeroBoxMissesVertex` | geometry.go:105 | the box `BoundBox` returns does not contain the vertex (1, 1, 1), which the discarded fold does contain |
| `GeometryCodec.Mesh.constructor` | geometry.go:41-43 | `NewMesh` stores each argument in its field |
| `GeometryCodec.Mesh.Format` | geometry.go:59-61 | a mesh's format tag is "ctm", never the point-cloud tag |
| `GeometryCodec.Mesh.GetId` | geometry.go:108-110 | the mesh's id field |
| `GeometryCodec.Mesh.Marshal` | geometry.go:45-66 | the bytes are what the CTM encoder writes for the UV map and texture name that `toCTM` builds |
| `GeometryCodec.Mesh.Resource` | geometry.go:51-57 | an inline geometry buffer with the mesh's id, format `Format()`, texture set to the mesh's texture, the zero box as bbMin/bbMax, and no point size or file |
| `GeometryCodec.Mesh.BoundBox` | geometry.go:100-106 | the result is the zero box, whatever the vertices |
| `GeometryCodec.MeshBytesIgnoreShape` | geometry.go:45-66 | a mesh's bytes depend only on its UV coordinates and texture name, the only data `toCTM` gives the encoder |
| `GeometryCodec.PointCloud.constructor` | geometry.go:120-122 | `NewPointCloud` stores each argument in its field |
| `GeometryCodec.PointCloud.Format` | geometry.go:132-134 | a cloud's format tag is "xyz", never the mesh tag |
| `GeometryCodec.PointCloud.GetId` | geometry.go:210-212 | the cloud's id field |
| `GeometryCodec.PointCloud.Resource` | geometry.go:124-130 | an inline geometry buffer with the cloud's id, format `Format()`, point size set to the cloud's, the zero box as bbMin/bbMax, and no texture or file |
| `GeometryCodec.PointCloud.BoundBox` | geometry.go:202-208 | the result is the zero box, whatever the vertices |
| `GeometryCodec.PointCloud.Marshal` | geometry.go:136-166 | the bytes are the `int32` count N, then 12N bytes read at the `Vertices` slice header, then 3N bytes read at the `Colors` slice header |
| `GeometryCodec.LayoutFraming` | geometry.go:139-161 | both the written and the intended layout are 4 + 15N bytes long and begin with the count N |
| `GeometryCodec.RawLayoutWritesSliceHeader` | geometry.go:141-157 | as written, when memory at `&m.Vertices` is a slice header of length N, bytes 12-15 carry N where the intended layout has the first point's `z`; so a cloud whose first `z` is not N (the point (1, 1, 1), say) is written wrongly |
| `GeometryCodec.PointCloud.MarshalIntended` | geometry.go:136-166 | the bytes are the count, then each point's three little-endian float words, then the first 3N bytes of the colours' backing array (four bytes per colour) |
| `GeometryCodec.ColorsRoundTrip` | geometry.go:147-199 | reading the 3N-byte colour view into fresh colours restores the first 3N bytes of the colour storage and leaves the last N bytes zero |
| `GeometryCodec.ColorsLoseLastQuarter` | geometry.go:147-194 | the colours (1,2,3,4), (5,6,7,8) come back as (1,2,3,4), (5,6,0,0): the 3N-byte views cover only three quarters of the colours |
| `GeometryCodec.VerticesRoundTrip` | geometry.go:141-186 | the float words of the points read back as the same points |
| `GeometryCodec.IntendedRoundTrip` | geometry.go:136-200 | the intended layout is readable, and reading it gives back the points, and the colours `ColorsRoundTrip` describes, whatever the cloud held before |
| `GeometryCodec.ReadShape` | geometry.go:168-200 | once a count N is read, the cloud holds N points; the colours are replaced only if the points were read whole |
| `GeometryCodec.PointCloud.Unmarshal` | geometry.go:168-174 | as written, the count read fails, so the method returns with `Vertices` and `Colors` unchanged |
| `GeometryCodec.PointCloud.UnmarshalIntended` | geometry.go:168-200 | step by step as the code runs, with the count read through `&si`: a buffer shorter than 4 bytes changes nothing; then `Vertices` becomes N zero points, filled only if 12N bytes follow; only then `Colors` becomes N zero colours, filled only if 3N more bytes follow; each early return keeps what was assigned before it |
| `GeometryCodec.UnmarshalDropsPoints` | geometry.go:168-174 | as written, unmarshalling a one-point cloud's bytes leaves an empty cloud empty; the intended reader recovers the point |
| `TextureCodec.StringIn` | texture.go:14-21 | true exactly when some element of the slice equals the string |
| `TextureCodec.IsJpeg` | texture.go:23-25 | true exactly when bytes 6 to 9 are 'J', 'F', 'I', 'F' |
| `TextureCodec.IsPng` | texture.go:27-29 | true exactly when bytes 0 to 7 are 0x89, 'P', 'N', 'G', CR, LF, 0x1A, LF |
| `TextureCodec.PeekImageFormat` | texture.go:23-38 | "jpeg" exactly when bytes 6 to 9 are "JFIF"; "png" exactly when they are not and the first 8 bytes are the PNG signature; "" exactly when neither holds |
| `TextureCodec.PngIsNotJpeg` | texture.go:23-38 | a stream that starts with the PNG signature is sniffed as "png" |
| `TextureCodec.CodecFor` | texture.go:73-96 | JPEG exactly for names ending in "jpg" or "jpeg"; PNG exactly for names that end in "png" and not in those |
| `TextureCodec.PeekedFormatSelectsCodec` | texture.go:67-71 | the sniffed name selects the JPEG codec for JFIF data, the PNG codec for PNG data, and no codec otherwise |
| `TextureCodec.EncodeImage` | texture.go:73-79 | JPEG names are encoded with quality 80, PNG names with the PNG encoder, and any other name writes nothing |
| `TextureCodec.DecodeImage` | texture.go:81-96 | JPEG and PNG names give the matching decoder's result (nil on error); any other name gives nil |
| `TextureCodec.DefaultFormat` | texture.go:60-62 | an empty format becomes "jpg", any other is kept |
| `TextureCodec.DefaultFormatIdempotent` | texture.go:58-65 | defaulting is idempotent and never leaves the format empty, so a second `Marshal` keeps the format |
| `TextureCodec.PngTextureRoundTrip` | texture.go:58-96 | with a PNG codec that writes the signature and decodes what it writes, a texture encoded under a PNG name is sniffed as "png" and decodes to the same image |
| `TextureCodec.Texture.constructor` | texture.go:46-48 | `NewTexture` stores each argument in its field |
| `TextureCodec.Texture.GetId` | texture.go:54-56 | the texture's id field |
| `TextureCodec.Texture.Resource` | texture.go:50-52 | an inline texture buffer with the texture's id and format and no optional field |
| `TextureCodec.Texture.Marshal` | texture.go:58-65 | the format becomes its default, the image and id are kept, and the bytes are the image encoded under the new format |
| `TextureCodec.Texture.Unmarshal` | texture.go:67-71 | the format is sniffed from the first ten bytes and the image is the whole buffer decoded under it |
| `Container.MagicSpellsMagicNumber` | archive.go:3-5 | the magic bytes are the ASCII bytes of "3MXBO" |
| `Container.Archive.constructor` | archive.go:14-16 | a new archive has the magic bytes, no header and no buffers |
| `Container.Archive.GetHeader` | archive.go:18-21 | the second result is the length of the header bytes converted to `uint32` |
| `Container.GetHeaderRoundTrip` | archive.go:18-21 | whenever the text layer reads back the header's JSON value, the header bytes decode to the archive's header |
| `Container.PositionsAddressNewBuffer` | archive.go:25 | the index returned is the old length; while the count fits in 32 bits it is the count less one |
| `Container.Archive.AppendGeometry` | archive.go:23-26 | exactly one buffer, the geometry's bytes, is appended; every earlier buffer keeps its index; the returned index finds the new buffer and the count is the new length as `uint32`; nothing else changes |
| `Container.Archive.AppendTexture` | archive.go:28-31 | as `AppendGeometry`, with the texture's bytes; the texture's format gets its default |

## Left out

- The CTM codec (`Mesh.Unmarshal`, and the inside of `Mesh.Marshal`, geometry.go:63-98) belongs to the go-ctm library. That library is not part of this model. `Mesh.Marshal` hands the UV map and texture name, which `toCTM` builds, to an encoder parameter.
- The go3d `vec3.Box.Extend`, `vec3.Min` and `vec3.Max` are not part of this model. They are modelled as a componentwise compare-and-replace using Go's `<`.
- `GeometryCodec.Mesh.Resource`, `GeometryCodec.PointCloud.Resource`: bbMin/bbMax are the zero triple, the box `BoundBox` returns. geometry.go:53-56 and 126-129 store `[3]float32` arrays in `*[3]float64` fields, which does not type-check. Converting a float32 bit pattern to a float64 is not modelled.
- Float arithmetic: coordinates are bit patterns, and JSON numbers are exact reals. float64 rounding, and `json.Marshal`'s error on NaN or infinity, are not modelled.
- The JSON text layer is a parameter. The following all belong to it and are not modelled:
  - the order in which `json.Marshal` writes members;
  - case-insensitive key matching;
  - number literal forms;
  - the difference between a nil and an empty slice (a nil slice is written as `null`).
- `ToJson` returns a Go string; the model returns its bytes. `HeaderFromJson` reads from an `io.Reader`; the model takes the bytes in it.
- `byteorder` is not declared in any file. The model takes it to be little-endian.
- Writes to a `bytes.Buffer` never fail. So the three `return nil` branches of `PointCloud.Marshal` (geometry.go:153-164) cannot be reached, and the model has none.
- `GeometryCodec.PointCloud.Marshal` requires 3N < 2^31. For larger counts, `si * 3` overflows `int32` into a negative slice length.
- The image codecs (image/jpeg, image/png) are parameters. Go's JPEG encoder writes no JFIF segment, so a texture marshalled as JPEG is sniffed as "". The model proves no JPEG round trip.
- The `Archive.Size` field is never written by the code shown. `Save`/`Load`, scene.go, node.go and archive_test.go are not part of this model.
- `Marshalling()` (archive.go:24, 29) is taken to be `Marshal()`. `appendGeometry` takes a `*Geometry`; the model takes the geometry.
- `AppendGeometry` writes point clouds in the intended layout (see Findings).
- Strings are sequences of Unicode characters. Go strings are bytes: an id, format, texture name or file path that is not valid UTF-8 is rewritten by `json.Marshal` (each bad byte becomes U+FFFD). `Descriptors.ResourceRoundTrip` and `Descriptors.HeaderRoundTrip` therefore do not cover such strings.
- `Descriptors.HeaderTextRoundTrip`, `Container.GetHeaderRoundTrip`: the text layer is assumed to read back the one value written, not every value. No finite text spells out every real number, so an assumption about every value could not hold.
- `GeometryCodec.ColorBytes`: where a cloud has fewer than 3N/4 colours, Go's view reads on past the colours' backing array into unrelated memory. The model reads zero bytes there.
- `GeometryCodec.PointCloud.UnmarshalIntended` requires a count that is not negative, since `make` panics on one, and 3N < 2^31, since `si * 3` would wrap. It does not model running out of memory in `make`.
- `GeometryCodec.PointCloud.Marshal`, `GeometryCodec.LayoutFraming`: memory is a total function, so the as-written bytes are always 4 + 15N long. In Go, `&m.Vertices` lies 40 bytes into an 88-byte `PointCloud`. For N >= 5 the 12N-byte view runs past the object into whatever follows it, and the 3N-byte colour view does the same once it passes the `Colors` header. A fault on such a read is not modelled.
- `Descriptors.HeaderFromJson`: a text with a repeated key is left to `parse`. Go does not simply keep the last value there. A second array is decoded into the elements the first array left behind, so repeated `resources` arrays merge their objects. With `{"resources":[{"type":"geometryBuffer","id":"a"}],"resources":[{"id":"b"}]}`, Go gives one resource with type "geometryBuffer" and id "b". A `parse` that keeps only the last member would give type "".
- `GeometryCodec.RawLayoutWritesSliceHeader` assumes a 64-bit little-endian target, where a slice header is a pointer, a length and a capacity, 8 bytes each. Only the length word is pinned down; the pointer bytes and anything past the header stay unknown.

## Findings

| source | as written | input that shows it | evidently intended | confidence | as-written member | corrected member |
|---|---|---|---|---|---|---|
| geometry.go:100-106, 202-208 | `BoundBox` folds the vertices into `ret`, then returns `vec3.Box{}` | a cloud whose only vertex is (1, 1, 1): the returned zero box does not contain it | return `ret` | high, not executed | `GeometryCodec.PointCloud.BoundBox`, `GeometryCodec.ZeroBoxMissesVertex` | `GeometryCodec.FoldExtent`, `GeometryCodec.ExtentContains`, `GeometryCodec.ExtentTight` |
| geometry.go:141-151 | the byte views of `Marshal` start at `&m.Vertices` and `&m.Colors`, the slice headers, not at the elements | a one-point cloud at (1, 1, 1): bytes 12-15 hold the header's length word 1, not the float 1.0 (0x3f800000) | view the backing arrays, with the 3N lengths unchanged | high, not executed | `GeometryCodec.PointCloud.Marshal`, `GeometryCodec.RawLayoutWritesSliceHeader` | `GeometryCodec.PointCloud.MarshalIntended`, `GeometryCodec.IntendedRoundTrip` |
| geometry.go:170-174 | `binary.Read(reader, byteorder, si)` is given the `int32` by value, which it rejects, so `Unmarshal` always returns at once | the bytes of a one-point cloud, read into an empty cloud, leave it empty | pass `&si`, and view the backing arrays | high, not executed | `GeometryCodec.PointCloud.Unmarshal`, `GeometryCodec.UnmarshalDropsPoints` | `GeometryCodec.PointCloud.UnmarshalIntended`, `GeometryCodec.IntendedRoundTrip` |
