/** The geometry payloads of a 3MXB archive (geometry.go): triangle meshes
    and point clouds, their resource descriptors, their bounding boxes and
    the binary layout of a point cloud. */
module GeometryCodec {
  import opened Bytes
  import opened Descriptors

  // The two geometry formats (geometry.go:15-18).
  const FormatCtm := "ctm"
  const FormatXyz := "xyz"

  /** A `float32`, held as its IEEE 754 bit pattern. */
  type Float32 = uint32

  datatype Vec3 = Vec3(x: Float32, y: Float32, z: Float32)
  datatype Vec2 = Vec2(u: Float32, v: Float32)

  /** `Color` is `[4]uint8` (geometry.go:20). */
  datatype Color = Color(r: byte, g: byte, b: byte, a: byte)

  datatype Face = Face(a: uint32, b: uint32, c: uint32)

  /** `vec3.Box`. */
  datatype Box = Box(min: Vec3, max: Vec3)

  /** The zero value `vec3.Box{}`. */
  const ZeroBox := Box(Vec3(0, 0, 0), Vec3(0, 0, 0))

  /** `math.MaxFloat32` and its negation. */
  const MaxFloat32: Float32 := 0x7f7f_ffff
  const NegMaxFloat32: Float32 := 0xff7f_ffff

  /** `vec3.Box{Min: vec3.MaxVal, Max: vec3.MinVal}`, the box every fold
      starts from: it contains no point. */
  const EmptyBox := Box(Vec3(MaxFloat32, MaxFloat32, MaxFloat32),
                        Vec3(NegMaxFloat32, NegMaxFloat32, NegMaxFloat32))

  // ---------------------------------------------------------------------
  // Go's `<` on float32 values.

  predicate IsNaN(f: Float32)
  {
    f % 0x8000_0000 > 0x7f80_0000
  }

  /** The position of a non-NaN float on the number line: the magnitude
      bits, negated when the sign bit is set (so both zeros are 0). */
  function OrderKey(f: Float32): int
  {
    if f < 0x8000_0000 then f as int else -(f as int - 0x8000_0000)
  }

  /** `a < b`: false whenever either side is NaN. */
  predicate Less(a: Float32, b: Float32)
  {
    !IsNaN(a) && !IsNaN(b) && OrderKey(a) < OrderKey(b)
  }

  // ---------------------------------------------------------------------
  // The bounding-box fold (`vec3.Box.Extend`, go3d).

  /** Componentwise `vec3.Min` / `vec3.Max`: a component is replaced only
      when the point's component compares below (above) it. */
  function MinVec(m: Vec3, p: Vec3): Vec3
  {
    Vec3(if Less(p.x, m.x) then p.x else m.x,
         if Less(p.y, m.y) then p.y else m.y,
         if Less(p.z, m.z) then p.z else m.z)
  }

  function MaxVec(m: Vec3, p: Vec3): Vec3
  {
    Vec3(if Less(m.x, p.x) then p.x else m.x,
         if Less(m.y, p.y) then p.y else m.y,
         if Less(m.z, p.z) then p.z else m.z)
  }

  function Extend(box: Box, p: Vec3): Box
  {
    Box(MinVec(box.min, p), MaxVec(box.max, p))
  }

  /** The box the loop in `BoundBox` builds: `EmptyBox` extended by every
      vertex in order. */
  function Extent(vs: seq<Vec3>): Box
  {
    if vs == [] then EmptyBox else Extend(Extent(vs[..|vs| - 1]), vs[|vs| - 1])
  }

  /** No coordinate of `p` lies outside `box` by Go's `<`. */
  predicate Contains(box: Box, p: Vec3)
  {
    !Less(p.x, box.min.x) && !Less(box.max.x, p.x) &&
    !Less(p.y, box.min.y) && !Less(box.max.y, p.y) &&
    !Less(p.z, box.min.z) && !Less(box.max.z, p.z)
  }

  predicate NoNaN(box: Box)
  {
    !IsNaN(box.min.x) && !IsNaN(box.min.y) && !IsNaN(box.min.z) &&
    !IsNaN(box.max.x) && !IsNaN(box.max.y) && !IsNaN(box.max.z)
  }

  /** Extending a box makes it contain the new point and keeps every point
      it contained. */
  lemma ExtendContains(box: Box, p: Vec3, q: Vec3)
    requires NoNaN(box)
    ensures NoNaN(Extend(box, p))
    ensures Contains(Extend(box, p), p)
    ensures Contains(box, q) ==> Contains(Extend(box, p), q)
  {
  }

  /** The fold's box contains every vertex. */
  lemma {:induction false} ExtentContains(vs: seq<Vec3>)
    ensures NoNaN(Extent(vs))
    ensures forall i :: 0 <= i < |vs| ==> Contains(Extent(vs), vs[i])
  {
    if vs != [] {
      var init, last := vs[..|vs| - 1], vs[|vs| - 1];
      ExtentContains(init);
      forall i | 0 <= i < |vs|
        ensures Contains(Extent(vs), vs[i])
      {
        ExtendContains(Extent(init), last, vs[i]);
        if i < |vs| - 1 {
          assert vs[i] == init[i];
        }
      }
      ExtendContains(Extent(init), last, last);
    }
  }

  /** Component `axis` (0, 1 or 2) of a vector. */
  function Coord(v: Vec3, axis: nat): Float32
    requires axis < 3
  {
    if axis == 0 then v.x else if axis == 1 then v.y else v.z
  }

  /** `f` is the fold's starting value `start`, or component `axis` of one
      of the vertices. */
  ghost predicate Attained(f: Float32, start: Float32, vs: seq<Vec3>, axis: nat)
    requires axis < 3
  {
    f == start || exists i :: 0 <= i < |vs| && Coord(vs[i], axis) == f
  }

  lemma ExtendCoord(box: Box, p: Vec3, axis: nat)
    requires axis < 3
    ensures Coord(Extend(box, p).min, axis) ==
            if Less(Coord(p, axis), Coord(box.min, axis)) then Coord(p, axis) else Coord(box.min, axis)
    ensures Coord(Extend(box, p).max, axis) ==
            if Less(Coord(box.max, axis), Coord(p, axis)) then Coord(p, axis) else Coord(box.max, axis)
  {
  }

  /** The fold's box is no larger than it must be: each bound is a
      coordinate of some vertex, or still the value the fold started
      from. */
  lemma {:induction false} ExtentTight(vs: seq<Vec3>, axis: nat)
    requires axis < 3
    ensures Attained(Coord(Extent(vs).min, axis), MaxFloat32, vs, axis)
    ensures Attained(Coord(Extent(vs).max, axis), NegMaxFloat32, vs, axis)
  {
    if vs != [] {
      var init, last := vs[..|vs| - 1], vs[|vs| - 1];
      ExtentTight(init, axis);
      ExtendCoord(Extent(init), last, axis);
      assert Coord(vs[|vs| - 1], axis) == Coord(last, axis);
      var lo, hi := Coord(Extent(init).min, axis), Coord(Extent(init).max, axis);
      if lo != MaxFloat32 {
        var i :| 0 <= i < |init| && Coord(init[i], axis) == lo;
        assert vs[i] == init[i];
      }
      if hi != NegMaxFloat32 {
        var i :| 0 <= i < |init| && Coord(init[i], axis) == hi;
        assert vs[i] == init[i];
      }
    }
  }

  /** The running min/max loop of `BoundBox` (geometry.go:101-104 and
      203-206). */
  method FoldExtent(vs: seq<Vec3>) returns (box: Box)
    ensures box == Extent(vs)
  {
    box := EmptyBox;
    for i := 0 to |vs|
      invariant box == Extent(vs[..i])
    {
      assert vs[..i + 1][..i] == vs[..i];
      box := Extend(box, vs[i]);
    }
    assert vs[..|vs|] == vs;
  }

  /** The unit point (1, 1, 1). */
  const UnitPoint := Vec3(0x3f80_0000, 0x3f80_0000, 0x3f80_0000)

  /** The box `BoundBox` returns misses a vertex that the fold it discards
      contains. */
  lemma ZeroBoxMissesVertex()
    ensures !Contains(ZeroBox, UnitPoint)
    ensures Contains(Extent([UnitPoint]), UnitPoint)
  {
    ExtentContains([UnitPoint]);
  }

  // ---------------------------------------------------------------------
  // Meshes (geometry.go:31-110).

  class Mesh {
    var vertices: seq<Vec3>
    var normals: seq<Vec3>
    var uvCoords: seq<Vec2>
    var indices: seq<Face>
    var id: string
    var texture: string

    /** `NewMesh` (geometry.go:41-43). */
    constructor (id: string, vertices: seq<Vec3>, indices: seq<Face>, normals: seq<Vec3>,
                 uvs: seq<Vec2>, texture: string)
      ensures this.vertices == vertices && this.normals == normals && this.uvCoords == uvs
      ensures this.indices == indices && this.id == id && this.texture == texture
    {
      this.vertices := vertices;
      this.normals := normals;
      this.uvCoords := uvs;
      this.indices := indices;
      this.id := id;
      this.texture := texture;
    }

    /** `Mesh.Format` (geometry.go:59-61): the CTM tag, never the
        point-cloud tag. */
    function Format(): (f: string)
      ensures f == FormatCtm && f != FormatXyz
    {
      FormatCtm
    }

    /** `Mesh.GetID` (geometry.go:108-110). */
    function GetId(): (s: string)
      reads this
      ensures s == id
    {
      id
    }

    /** `Mesh.Resource` (geometry.go:51-57): an inline geometry buffer in
        the mesh's format, naming the mesh and its texture, with the box
        `BoundBox` gives (the zero box), no point size and no file. */
    function Resource(): (r: Resource)
      reads this
      ensures r.resourceType == GeometryBufferType && r.id == GetId() && r.format == Format()
      ensures r.texture == Some(texture) && r.pointSize.None? && r.file.None?
      ensures r.bbMin == Some(ZeroTriple) && r.bbMax == Some(ZeroTriple) && r.size == 0
    {
      Descriptors.Resource.Resource(GeometryBufferType, id, FormatCtm, 0, Some(ZeroTriple), Some(ZeroTriple),
               Some(texture), None, None)
    }

    /** `Mesh.BoundBox` (geometry.go:100-106): the vertices are folded into
        a box, which is then dropped; the zero box is returned. */
    method BoundBox() returns (box: Box)
      ensures box == ZeroBox
    {
      var folded := FoldExtent(vertices);
      box := ZeroBox;
    }

    /** `Mesh.Marshal` (geometry.go:63-66): the mesh `toCTM` builds holds
        only the UV map and the texture name, and the CTM library saves it. */
    function Marshal(save: CtmSave): (buf: seq<byte>)
      reads this
      ensures buf == save(uvCoords, texture)
    {
      save(uvCoords, texture)
    }
  }

  /** The go-ctm encoder, given the UV coordinates and the texture name of
      the one UV map `toCTM` adds. */
  type CtmSave = (seq<Vec2>, string) -> seq<byte>

  /** The bytes of a mesh do not depend on its vertices, normals or faces,
      which `toCTM` never hands to the encoder. */
  lemma MeshBytesIgnoreShape(m1: Mesh, m2: Mesh, save: CtmSave)
    requires m1.uvCoords == m2.uvCoords && m1.texture == m2.texture
    ensures m1.Marshal(save) == m2.Marshal(save)
  {
  }

  // ---------------------------------------------------------------------
  // Point clouds (geometry.go:112-212).

  /** Where `PointCloud.Marshal` points its byte views (geometry.go:141-151):
      at the slice header of the `Vertices` field and at that of `Colors`. */
  datatype Region = VerticesField | ColorsField

  /** The process memory seen from a region: the byte at an offset. */
  type Memory = (Region, nat) -> byte

  function MemoryBytes(mem: Memory, region: Region, n: nat): (b: seq<byte>)
    ensures |b| == n
  {
    seq(n, i requires 0 <= i < n => mem(region, i))
  }

  /** The counts `int32(len)` and `si * 3` stay in range. */
  predicate CountFits(n: nat)
  {
    3 * n < 0x8000_0000
  }

  /** A slice header on a 64-bit little-endian target is three words: the
      data pointer, the length and the capacity. This says the length word
      of the header at `region` holds `len`. */
  predicate HoldsSliceLength(mem: Memory, region: Region, len: nat)
    requires len < 0x1_0000_0000
  {
    MemoryBytes(mem, region, 16)[8..16] == Le32(len as uint32) + [0, 0, 0, 0]
  }

  /** What `PointCloud.Marshal` writes as the code stands: the count, then
      `3N` float words and `3N` bytes read from memory at the two slice
      headers, whatever the points and colours are. */
  function RawLayout(n: nat, mem: Memory): (b: seq<byte>)
    requires CountFits(n)
  {
    Int32Le(n as int32) + MemoryBytes(mem, VerticesField, 12 * n) + MemoryBytes(mem, ColorsField, 3 * n)
  }

  /** The little-endian words of each point's three coordinates: the backing
      array of `[]vec3.T` seen as `3N` float words. */
  function VertexBytes(vs: seq<Vec3>): (b: seq<byte>)
    ensures |b| == 12 * |vs|
  {
    if vs == [] then [] else Le32(vs[0].x) + Le32(vs[0].y) + Le32(vs[0].z) + VertexBytes(vs[1..])
  }

  /** Channel `k` (0 to 3: red, green, blue, alpha) of a colour. */
  function Channel(c: Color, k: nat): byte
    requires k < 4
  {
    if k == 0 then c.r else if k == 1 then c.g else if k == 2 then c.b else c.a
  }

  /** Byte `k` of the backing array of a `[]Color`, four bytes per colour,
      and zero past its end. */
  function StorageByte(cs: seq<Color>, k: nat): byte
  {
    if k / 4 < |cs| then Channel(cs[k / 4], k % 4) else 0
  }

  /** The colour view of a cloud of `n` points: the first `3N` bytes of the
      colours' backing array, which is only three quarters of the `4N`
      bytes that `n` colours occupy. */
  function ColorBytes(cs: seq<Color>, n: nat): (b: seq<byte>)
    ensures |b| == 3 * n
    ensures forall k :: 0 <= k < 3 * n ==> b[k] == StorageByte(cs, k)
  {
    seq(3 * n, k requires 0 <= k < 3 * n => StorageByte(cs, k))
  }

  /** The layout the code evidently means, with the views aimed at the
      backing arrays instead of the slice headers: the count, every
      coordinate as a little-endian float word, then the colour view. */
  function IntendedLayout(vs: seq<Vec3>, cs: seq<Color>): (b: seq<byte>)
    requires CountFits(|vs|)
  {
    Int32Le(|vs| as int32) + VertexBytes(vs) + ColorBytes(cs, |vs|)
  }

  /** Both layouts are `4 + 15N` bytes long and start with the count. */
  lemma LayoutFraming(vs: seq<Vec3>, cs: seq<Color>, mem: Memory)
    requires CountFits(|vs|)
    ensures |RawLayout(|vs|, mem)| == |IntendedLayout(vs, cs)| == 4 + 15 * |vs|
    ensures Int32FromLe(RawLayout(|vs|, mem)[..4]) as int == |vs|
    ensures Int32FromLe(IntendedLayout(vs, cs)[..4]) as int == |vs|
  {
    Int32LeRoundTrip(|vs| as int32);
    assert RawLayout(|vs|, mem)[..4] == Int32Le(|vs| as int32);
    assert IntendedLayout(vs, cs)[..4] == Int32Le(|vs| as int32);
  }

  lemma {:induction false} VertexBytesAt(vs: seq<Vec3>, i: nat)
    requires i < |vs|
    ensures VertexBytes(vs)[12 * i..12 * i + 12] == Le32(vs[i].x) + Le32(vs[i].y) + Le32(vs[i].z)
  {
    if i > 0 {
      VertexBytesAt(vs[1..], i - 1);
      var head := Le32(vs[0].x) + Le32(vs[0].y) + Le32(vs[0].z);
      assert VertexBytes(vs) == head + VertexBytes(vs[1..]);
      assert VertexBytes(vs)[12 * i..12 * i + 12] == VertexBytes(vs[1..])[12 * (i - 1)..12 * (i - 1) + 12];
    }
  }

  /** As written, the word where the first point's `z` belongs is the
      length word of the `Vertices` slice header: the bytes carry the point
      count there, so any cloud whose first `z` is not that count as a bit
      pattern (the point (1, 1, 1), say) is written wrongly. */
  lemma {:induction false} RawLayoutWritesSliceHeader(vs: seq<Vec3>, cs: seq<Color>, mem: Memory)
    requires CountFits(|vs|) && |vs| >= 1 && HoldsSliceLength(mem, VerticesField, |vs|)
    ensures RawLayout(|vs|, mem)[12..16] == Le32(|vs| as uint32)
    ensures IntendedLayout(vs, cs)[12..16] == Le32(vs[0].z)
    ensures vs[0].z as int != |vs| ==> RawLayout(|vs|, mem) != IntendedLayout(vs, cs)
  {
    var n := |vs|;
    var raw := RawLayout(n, mem);
    var header := MemoryBytes(mem, VerticesField, 16);
    assert raw[12..16] == header[8..12] == header[8..16][..4];
    assert |Le32(n as uint32)| == 4;
    assert (Le32(n as uint32) + [0, 0, 0, 0])[..4] == Le32(n as uint32);
    VertexBytesAt(vs, 0);
    var intended := IntendedLayout(vs, cs);
    assert intended[12..16] == VertexBytes(vs)[8..12];
    if vs[0].z as int != n {
      Le32RoundTrip(vs[0].z);
      Le32RoundTrip(n as uint32);
      assert Le32Value(raw[12..16]) != Le32Value(intended[12..16]);
    }
  }

  function DecodeVec3(b: seq<byte>): Vec3
    requires |b| == 12
  {
    Vec3(Le32Value(b[0..4]), Le32Value(b[4..8]), Le32Value(b[8..12]))
  }

  function DecodeVertices(b: seq<byte>, n: nat): (vs: seq<Vec3>)
    requires |b| == 12 * n
    ensures |vs| == n
  {
    seq(n, i requires 0 <= i < n => DecodeVec3(b[12 * i..12 * i + 12]))
  }

  /** The colours after `3N` bytes are read into the first `3N` bytes of a
      freshly made `[]Color` of length `n`: the rest of its backing array
      stays zero. */
  function DecodeColors(b: seq<byte>, n: nat): (cs: seq<Color>)
    requires |b| == 3 * n
    ensures |cs| == n
  {
    seq(n, i requires 0 <= i < n =>
      Color(ByteOrZero(b, 4 * i), ByteOrZero(b, 4 * i + 1), ByteOrZero(b, 4 * i + 2), ByteOrZero(b, 4 * i + 3)))
  }

  function ByteOrZero(b: seq<byte>, k: nat): byte
  {
    if k < |b| then b[k] else 0
  }

  lemma {:induction false} VerticesRoundTrip(vs: seq<Vec3>)
    ensures DecodeVertices(VertexBytes(vs), |vs|) == vs
  {
    var d := DecodeVertices(VertexBytes(vs), |vs|);
    forall i | 0 <= i < |vs|
      ensures d[i] == vs[i]
    {
      VertexBytesAt(vs, i);
      var w := VertexBytes(vs)[12 * i..12 * i + 12];
      assert w[0..4] == Le32(vs[i].x) && w[4..8] == Le32(vs[i].y) && w[8..12] == Le32(vs[i].z);
      Le32RoundTrip(vs[i].x);
      Le32RoundTrip(vs[i].y);
      Le32RoundTrip(vs[i].z);
    }
  }

  /** Reading the colour view back restores the first `3N` bytes of the
      colours' backing array and leaves the last `N` zero. */
  lemma ColorsRoundTrip(cs: seq<Color>, n: nat)
    ensures forall k :: 0 <= k < 4 * n ==>
      StorageByte(DecodeColors(ColorBytes(cs, n), n), k) == if k < 3 * n then StorageByte(cs, k) else 0
  {
    var d := DecodeColors(ColorBytes(cs, n), n);
    forall k | 0 <= k < 4 * n
      ensures StorageByte(d, k) == if k < 3 * n then StorageByte(cs, k) else 0
    {
      var i, c := k / 4, k % 4;
      assert k == 4 * i + c;
      assert Channel(d[i], c) == ByteOrZero(ColorBytes(cs, n), 4 * i + c);
    }
  }

  /** Two colours come back with the first point's colour whole and the
      second's blue and alpha zeroed. */
  lemma ColorsLoseLastQuarter()
    ensures DecodeColors(ColorBytes([Color(1, 2, 3, 4), Color(5, 6, 7, 8)], 2), 2) ==
            [Color(1, 2, 3, 4), Color(5, 6, 0, 0)]
  {
    var b := ColorBytes([Color(1, 2, 3, 4), Color(5, 6, 7, 8)], 2);
    assert b[0] == 1 && b[1] == 2 && b[2] == 3 && b[3] == 4 && b[4] == 5 && b[5] == 6;
  }

  /** `Unmarshal` demands a count it can make slices for: `make` panics on
      a negative count, and `si * 3` must not wrap. */
  predicate CountReadable(buf: seq<byte>)
  {
    |buf| < 4 || (Int32FromLe(buf[..4]) >= 0 && CountFits(Int32FromLe(buf[..4]) as nat))
  }

  /** The points and colours after `Unmarshal` reads `buf` into a cloud
      holding `vs0` and `cs0`, step by step: a buffer too short for the
      count changes nothing; otherwise `Vertices` becomes `n` zero points and
      is filled only when `12N` bytes follow; only then `Colors` becomes `n`
      zero colours, filled only when `3N` more bytes follow. `binary.Read`
      reads nothing into a view it cannot fill. */
  function IntendedRead(buf: seq<byte>, vs0: seq<Vec3>, cs0: seq<Color>): (r: (seq<Vec3>, seq<Color>))
    requires CountReadable(buf)
  {
    if |buf| < 4 then (vs0, cs0)
    else
      var n := Int32FromLe(buf[..4]) as nat;
      if |buf| < 4 + 12 * n then (seq(n, _ => Vec3(0, 0, 0)), cs0)
      else
        var vs := DecodeVertices(buf[4..4 + 12 * n], n);
        if |buf| < 4 + 15 * n then (vs, seq(n, _ => Color(0, 0, 0, 0)))
        else (vs, DecodeColors(buf[4 + 12 * n..4 + 15 * n], n))
  }

  /** Once the count is there, the points always number `n`, and the
      colours are replaced only when the points were read whole. */
  lemma ReadShape(buf: seq<byte>, vs0: seq<Vec3>, cs0: seq<Color>)
    requires CountReadable(buf) && |buf| >= 4
    ensures var n := Int32FromLe(buf[..4]) as int;
            |IntendedRead(buf, vs0, cs0).0| == n &&
            (IntendedRead(buf, vs0, cs0).1 == cs0 || |IntendedRead(buf, vs0, cs0).1| == n) &&
            (|buf| < 4 + 12 * n ==> IntendedRead(buf, vs0, cs0).1 == cs0)
  {
  }

  /** The intended layout reads back as the same points, and as the colours
      `ColorsRoundTrip` describes, whatever the cloud held before. */
  lemma {:induction false} IntendedRoundTrip(vs: seq<Vec3>, cs: seq<Color>, vs0: seq<Vec3>, cs0: seq<Color>)
    requires CountFits(|vs|)
    ensures CountReadable(IntendedLayout(vs, cs))
    ensures IntendedRead(IntendedLayout(vs, cs), vs0, cs0) ==
            (vs, DecodeColors(ColorBytes(cs, |vs|), |vs|))
  {
    var buf := IntendedLayout(vs, cs);
    var n := |vs|;
    LayoutFraming(vs, cs, (r, i) => 0);
    var head, body, tail := Int32Le(n as int32), VertexBytes(vs), ColorBytes(cs, n);
    assert |head| == 4 && |body| == 12 * n && |tail| == 3 * n;
    assert buf == head + body + tail;
    assert buf[4..4 + 12 * n] == body;
    assert buf[4 + 12 * n..] == tail;
    assert buf[4 + 12 * n..4 + 15 * n] == tail;
    VerticesRoundTrip(vs);
  }

  class PointCloud {
    var id: string
    var pointSize: uint32
    var vertices: seq<Vec3>
    var colors: seq<Color>

    /** `NewPointCloud` (geometry.go:120-122). */
    constructor (id: string, vertices: seq<Vec3>, colors: seq<Color>, pointSize: uint32)
      ensures this.id == id && this.vertices == vertices && this.colors == colors
      ensures this.pointSize == pointSize
    {
      this.id := id;
      this.vertices := vertices;
      this.colors := colors;
      this.pointSize := pointSize;
    }

    /** `PointCloud.Format` (geometry.go:132-134): the XYZ tag, never the
        mesh tag. */
    function Format(): (f: string)
      ensures f == FormatXyz && f != FormatCtm
    {
      FormatXyz
    }

    /** `PointCloud.GetID` (geometry.go:210-212). */
    function GetId(): (s: string)
      reads this
      ensures s == id
    {
      id
    }

    /** `PointCloud.Resource` (geometry.go:124-130): an inline geometry
        buffer in the cloud's format with its point size, the zero box, and
        no texture or file. */
    function Resource(): (r: Resource)
      reads this
      ensures r.resourceType == GeometryBufferType && r.id == GetId() && r.format == Format()
      ensures r.pointSize == Some(pointSize) && r.texture.None? && r.file.None?
      ensures r.bbMin == Some(ZeroTriple) && r.bbMax == Some(ZeroTriple) && r.size == 0
    {
      Descriptors.Resource.Resource(GeometryBufferType, id, FormatXyz, 0, Some(ZeroTriple), Some(ZeroTriple),
               None, Some(pointSize), None)
    }

    /** `PointCloud.BoundBox` (geometry.go:202-208), as for meshes. */
    method BoundBox() returns (box: Box)
      ensures box == ZeroBox
    {
      var folded := FoldExtent(vertices);
      box := ZeroBox;
    }

    /** `PointCloud.Marshal` as written (geometry.go:136-166): the count,
        then the bytes at the two slice headers. Writing to a
        `bytes.Buffer` does not fail, so the three `return nil` branches are
        never taken. */
    method Marshal(mem: Memory) returns (buf: seq<byte>)
      requires CountFits(|vertices|)
      ensures buf == RawLayout(|vertices|, mem)
    {
      var si := |vertices| as int32;
      buf := Int32Le(si);
      buf := buf + MemoryBytes(mem, VerticesField, 12 * si as nat);
      buf := buf + MemoryBytes(mem, ColorsField, 3 * si as nat);
    }

    /** `Marshal` with the views aimed at the backing arrays of
        `Vertices` and `Colors`. */
    method MarshalIntended() returns (buf: seq<byte>)
      requires CountFits(|vertices|)
      ensures buf == IntendedLayout(vertices, colors)
    {
      buf := Int32Le(|vertices| as int32);
      buf := buf + VertexBytes(vertices);
      buf := buf + ColorBytes(colors, |vertices|);
    }

    /** `PointCloud.Unmarshal` as written (geometry.go:168-200): the count
        is read into a copy of `si` passed by value, which `binary.Read`
        refuses, so the method returns at once and the cloud is unchanged. */
    method Unmarshal(buf: seq<byte>)
      ensures vertices == old(vertices) && colors == old(colors)
    {
    }

    /** `Unmarshal` with the count read through `&si` and the views aimed at
        the backing arrays: each early return leaves what was assigned
        before it. */
    method UnmarshalIntended(buf: seq<byte>)
      requires CountReadable(buf)
      modifies this
      ensures (vertices, colors) == IntendedRead(buf, old(vertices), old(colors))
      ensures id == old(id) && pointSize == old(pointSize)
    {
      if |buf| < 4 {
        return;
      }
      var n := Int32FromLe(buf[..4]) as nat;
      var rest := buf[4..];
      vertices := seq(n, _ => Vec3(0, 0, 0));
      if |rest| < 12 * n {
        return;
      }
      assert rest[..12 * n] == buf[4..4 + 12 * n];
      vertices := DecodeVertices(rest[..12 * n], n);
      rest := rest[12 * n..];
      colors := seq(n, _ => Color(0, 0, 0, 0));
      if |rest| < 3 * n {
        return;
      }
      assert rest[..3 * n] == buf[4 + 12 * n..4 + 15 * n];
      colors := DecodeColors(rest[..3 * n], n);
    }
  }

  /** As written, unmarshalling a one-point cloud's bytes into an empty
      cloud leaves it empty; the intended reader recovers the point. */
  method UnmarshalDropsPoints() returns (asWritten: nat, intended: nat)
    ensures asWritten == 0 && intended == 1
  {
    var source := new PointCloud("cloud", [UnitPoint], [Color(255, 0, 0, 255)], 1);
    var buf := source.MarshalIntended();
    IntendedRoundTrip(source.vertices, source.colors, [], []);
    var target := new PointCloud("cloud", [], [], 1);
    target.Unmarshal(buf);
    asWritten := |target.vertices|;
    var repaired := new PointCloud("cloud", [], [], 1);
    repaired.UnmarshalIntended(buf);
    intended := |repaired.vertices|;
  }

  /** The `Geometry` interface (geometry.go:22-29) over its two variants. */
  datatype Geometry = MeshGeometry(mesh: Mesh) | CloudGeometry(cloud: PointCloud)
}
