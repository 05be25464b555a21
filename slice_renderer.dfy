// The slice renderer's per-frame cache and its resampling pass
// (lib/render/SliceRenderer.cpp).  The parameter object, the data manager,
// the grid and the transfer function are external collaborators and appear
// here as values and functions passed in; OpenGL state is not modelled.
// Coordinates and sampled values are `real`: float and double rounding is
// not modelled.
module SliceRendering {

  /** Largest texture edge the renderer allocates (MAXTEXTURESIZE). */
  const MaxTextureSize: int := 8000

  // Orientation codes reported by the box.
  const XY: int := 0
  const XZ: int := 1
  const YZ: int := 2

  /** Index of a coordinate axis. */
  type Axis = a: int | 0 <= a < 3

  const X: Axis := 0
  const Y: Axis := 1
  const Z: Axis := 2

  datatype Vec3 = Vec3(x: real, y: real, z: real) {
    function At(a: Axis): real
    {
      if a == X then x else if a == Y then y else z
    }

    function With(a: Axis, v: real): Vec3
    {
      if a == X then this.(x := v) else if a == Y then this.(y := v) else this.(z := v)
    }
  }

  /** What the renderer asks of a transfer function: its entry count, its lookup table and its value range. */
  datatype MapperFunction = MapperFunction(numEntries: nat, lut: seq<real>, minMaxMapValue: (real, real))

  /** The live slice parameters; `mapperFunc` gives the transfer function of a variable. */
  datatype SliceParams = SliceParams(
    variableName: string,
    heightVariableName: string,
    currentTimestep: nat,
    refinementLevel: int,
    compressionLevel: int,
    sampleRate: int,
    orientation: int,
    boxMin: Vec3,
    boxMax: Vec3,
    constantOpacity: real,
    mapperFunc: string -> MapperFunction)

  /** The parameters the cached texture was built from. */
  datatype CacheParams = CacheParams(
    varName: string,
    heightVarName: string,
    ts: nat,
    refinementLevel: int,
    compressionLevel: int,
    textureSampleRate: int,
    orientation: int,
    boxMin: Vec3,
    boxMax: Vec3,
    tfLut: seq<real>,
    tfMinMax: (real, real))

  /** A grid: its (first-order interpolated) value at a point, and its missing-value sentinel. */
  datatype Grid = Grid(valueAt: Vec3 -> real, missingValue: real)

  datatype GridRequest = GridRequest(
    ts: nat, varName: string, boxMin: Vec3, boxMax: Vec3,
    refinementLevel: int, compressionLevel: int)

  /**
   * What the data manager's GetGrids hands back: a status code, the grid,
   * and the refinement and compression levels it settled on (it receives
   * them by pointer and may adjust them).
   */
  datatype GridFetch = GridFetch(rc: int, grid: Grid, refinementLevel: int, compressionLevel: int)

  /* ---------------------------------------------------------------------
   * The cache key
   * --------------------------------------------------------------------- */

  /** The record _saveCacheParams builds from the live parameters. */
  function Snapshot(p: SliceParams): CacheParams
  {
    var tf := p.mapperFunc(p.variableName);
    CacheParams(
      p.variableName, p.heightVariableName, p.currentTimestep,
      p.refinementLevel, p.compressionLevel, p.sampleRate, p.orientation,
      p.boxMin, p.boxMax, tf.lut, tf.minMaxMapValue)
  }

  /**
   * _isCacheDirty: the field-by-field comparison chain.  It is dirty exactly
   * when the cached record differs from the one the live parameters give.
   */
  function IsCacheDirty(cached: CacheParams, p: SliceParams): (dirty: bool)
    ensures dirty <==> cached != Snapshot(p)
  {
    if cached.varName != p.variableName then true
    else if cached.heightVarName != p.heightVariableName then true
    else if cached.ts != p.currentTimestep then true
    else if cached.refinementLevel != p.refinementLevel then true
    else if cached.compressionLevel != p.compressionLevel then true
    else if cached.textureSampleRate != p.sampleRate then true
    else
      var tf := p.mapperFunc(cached.varName);
      if cached.tfLut != tf.lut then true
      else if cached.tfMinMax != tf.minMaxMapValue then true
      else if cached.orientation != p.orientation then true
      else if cached.boxMin != p.boxMin then true
      else if cached.boxMax != p.boxMax then true
      else false
  }

  /** The opacity is read at draw time and is not part of the cache key. */
  lemma OpacityDoesNotDirty(cached: CacheParams, p: SliceParams, opacity: real)
    ensures IsCacheDirty(cached, p.(constantOpacity := opacity)) == IsCacheDirty(cached, p)
  {
  }

  /**
   * Right after a refresh the cache is clean exactly when the data manager
   * kept the requested refinement and compression levels.
   */
  lemma CleanAfterSave(p: SliceParams, f: GridFetch)
    ensures var saved := Snapshot(p).(refinementLevel := f.refinementLevel, compressionLevel := f.compressionLevel);
            !IsCacheDirty(saved, p) <==>
              f.refinementLevel == p.refinementLevel && f.compressionLevel == p.compressionLevel
  {
  }

  function RequestFor(c: CacheParams): GridRequest
  {
    GridRequest(c.ts, c.varName, c.boxMin, c.boxMax, c.refinementLevel, c.compressionLevel)
  }

  /* ---------------------------------------------------------------------
   * Texture size and the sample lattice
   * --------------------------------------------------------------------- */

  /** Texture edge for a sample rate: the rate, cut down to MaxTextureSize. */
  function ClampTextureSize(sampleRate: int): int
  {
    if sampleRate > MaxTextureSize then MaxTextureSize else sampleRate
  }

  lemma ClampTextureSizeBounds(sampleRate: int)
    ensures ClampTextureSize(sampleRate) <= MaxTextureSize
    ensures ClampTextureSize(sampleRate) <= sampleRate
    ensures ClampTextureSize(sampleRate) == sampleRate || ClampTextureSize(sampleRate) == MaxTextureSize
  {
  }

  /** Spacing of the lattice on an axis from lo to hi. */
  function LatticeStep(lo: real, hi: real, sampleRate: int): real
    requires sampleRate >= 0
  {
    (hi - lo) / (1 + sampleRate) as real
  }

  /** Coordinate of lattice index idx: a half step past idx whole steps. */
  function LatticeCoord(lo: real, hi: real, sampleRate: int, idx: int): real
    requires sampleRate >= 0
  {
    var d := LatticeStep(lo, hi, sampleRate);
    lo + d * idx as real + d / 2.0
  }

  /** Every index below the sample rate lands strictly inside a non-empty interval. */
  lemma LatticeStrictlyInside(lo: real, hi: real, sampleRate: int, idx: int)
    requires lo < hi && 0 <= idx < sampleRate
    ensures lo < LatticeCoord(lo, hi, sampleRate, idx) < hi
  {
    var n := (1 + sampleRate) as real;
    var d := LatticeStep(lo, hi, sampleRate);
    assert d * n == hi - lo;
    assert d > 0.0;
    var offset := d * (idx as real + 0.5);
    assert LatticeCoord(lo, hi, sampleRate, idx) == lo + offset;
    assert offset > 0.0;
    assert idx as real + 0.5 < n;
    assert offset < d * n;
  }

  /**
   * The lattice is not centred: the first sample sits half a step above lo,
   * the last (index sampleRate - 1) one and a half steps below hi.
   */
  lemma LatticeEnds(lo: real, hi: real, sampleRate: int)
    requires sampleRate >= 1
    ensures var d := LatticeStep(lo, hi, sampleRate);
            LatticeCoord(lo, hi, sampleRate, 0) == lo + d / 2.0
            && LatticeCoord(lo, hi, sampleRate, sampleRate - 1) == hi - 3.0 * d / 2.0
  {
    var d := LatticeStep(lo, hi, sampleRate);
    assert d * (1 + sampleRate) as real == hi - lo;
  }

  /** The two axes a slice orientation spans, i first and j second. */
  function InPlaneAxes(orientation: int): (Axis, Axis)
  {
    if orientation == XY then (X, Y) else if orientation == XZ then (X, Z) else (Y, Z)
  }

  /** The axis a slice orientation holds at the box minimum. */
  function FixedAxis(orientation: int): Axis
  {
    if orientation == XY then Z else if orientation == XZ then Y else X
  }

  /** _getSampleCoordinates: the point sampled for texel (i, j). */
  function SampleCoordinates(c: CacheParams, i: int, j: int): Vec3
    requires c.textureSampleRate >= 0
  {
    var rate := c.textureSampleRate;
    var lo, hi := c.boxMin, c.boxMax;
    if c.orientation == XY then
      Vec3(LatticeCoord(lo.x, hi.x, rate, i), LatticeCoord(lo.y, hi.y, rate, j), lo.z)
    else if c.orientation == XZ then
      Vec3(LatticeCoord(lo.x, hi.x, rate, i), lo.y, LatticeCoord(lo.z, hi.z, rate, j))
    else
      Vec3(lo.x, LatticeCoord(lo.y, hi.y, rate, i), LatticeCoord(lo.z, hi.z, rate, j))
  }

  /**
   * Texel (i, j) is sampled on the lattice of the orientation's first axis at
   * i and of its second axis at j, on the plane through the box minimum; it
   * lies strictly inside the box on every in-plane axis the box does not
   * collapse.
   */
  lemma SampleCoordinatesOnPlane(c: CacheParams, i: int, j: int)
    requires c.textureSampleRate >= 0
    ensures var (u, v) := InPlaneAxes(c.orientation);
            var w := FixedAxis(c.orientation);
            var pt := SampleCoordinates(c, i, j);
            && u != v && u != w && v != w
            && pt.At(u) == LatticeCoord(c.boxMin.At(u), c.boxMax.At(u), c.textureSampleRate, i)
            && pt.At(v) == LatticeCoord(c.boxMin.At(v), c.boxMax.At(v), c.textureSampleRate, j)
            && pt.At(w) == c.boxMin.At(w)
            && (0 <= i < c.textureSampleRate && c.boxMin.At(u) < c.boxMax.At(u) ==>
                  c.boxMin.At(u) < pt.At(u) < c.boxMax.At(u))
            && (0 <= j < c.textureSampleRate && c.boxMin.At(v) < c.boxMax.At(v) ==>
                  c.boxMin.At(v) < pt.At(v) < c.boxMax.At(v))
  {
    var (u, v) := InPlaneAxes(c.orientation);
    if 0 <= i < c.textureSampleRate && c.boxMin.At(u) < c.boxMax.At(u) {
      LatticeStrictlyInside(c.boxMin.At(u), c.boxMax.At(u), c.textureSampleRate, i);
    }
    if 0 <= j < c.textureSampleRate && c.boxMin.At(v) < c.boxMax.At(v) {
      LatticeStrictlyInside(c.boxMin.At(v), c.boxMax.At(v), c.textureSampleRate, j);
    }
  }

  /**
   * The step is taken from the unclamped sample rate while the texture has
   * at most MaxTextureSize texels per edge, so above the clamp the samples
   * stop short of the box: the last one is more than (rate - MaxTextureSize)
   * steps below hi.
   */
  lemma ClampedLatticeStopsShort(lo: real, hi: real, sampleRate: int)
    requires lo < hi && sampleRate > MaxTextureSize
    ensures var last := LatticeCoord(lo, hi, sampleRate, ClampTextureSize(sampleRate) - 1);
            last < hi - (sampleRate - MaxTextureSize) as real * LatticeStep(lo, hi, sampleRate)
  {
    var d := LatticeStep(lo, hi, sampleRate);
    assert d * (1 + sampleRate) as real == hi - lo;
    assert d > 0.0;
  }

  /* ---------------------------------------------------------------------
   * The texture buffer
   * --------------------------------------------------------------------- */

  /** The (value, missing flag) pair stored for a sampled value. */
  function TexelPair(grid: Grid, c: CacheParams, i: int, j: int): (real, real)
    requires c.textureSampleRate >= 0
  {
    var v := grid.valueAt(SampleCoordinates(c, i, j));
    if v == grid.missingValue then (1.0, 1.0) else (v, 0.0)
  }

  /** The flag is set exactly for missing samples, and other samples are stored as read. */
  lemma MissingValueRule(grid: Grid, c: CacheParams, i: int, j: int)
    requires c.textureSampleRate >= 0
    ensures var v := grid.valueAt(SampleCoordinates(c, i, j));
            var pr := TexelPair(grid, c, i, j);
            (pr.1 != 0.0 <==> v == grid.missingValue)
            && (v == grid.missingValue ==> pr == (1.0, 1.0))
            && (v != grid.missingValue ==> pr == (v, 0.0))
  {
  }

  /**
   * The whole buffer as _saveTextureData leaves it: texel (i, j) owns the
   * two slots starting at (j * width + i) * 2.
   */
  function TextureData(grid: Grid, c: CacheParams): (data: seq<real>)
    requires c.textureSampleRate >= 0
  {
    var w := ClampTextureSize(c.textureSampleRate);
    if w == 0 then []
    else
      seq(w * w * 2, k requires 0 <= k < w * w * 2 =>
        var pr := TexelPair(grid, c, (k / 2) % w, (k / 2) / w);
        if k % 2 == 0 then pr.0 else pr.1)
  }

  /** a < b gives a * w + w <= b * w for a non-negative w. */
  lemma MulStep(a: int, b: int, w: int)
    requires a < b && 0 <= w
    ensures a * w + w <= b * w
  {
    assert b * w - a * w - w == (b - a - 1) * w;
  }

  /** Row-major cell index j * w + i splits back into row j and column i. */
  lemma CellDivMod(w: int, i: int, j: int)
    requires 0 <= i < w && 0 <= j
    ensures (j * w + i) / w == j && (j * w + i) % w == i
  {
    var n := j * w + i;
    var q, r := n / w, n % w;
    assert q * w + r == n && 0 <= r < w;
    if q < j {
      MulStep(q, j, w);
    } else if q > j {
      MulStep(j, q, w);
    }
  }

  /** The two slots of texel (i, j) lie inside a w x w buffer and halve back to its cell. */
  lemma CellInBuffer(w: int, i: int, j: int)
    requires 0 <= i < w && 0 <= j < w
    ensures var cell := j * w + i;
            0 <= cell < w * w
            && (cell * 2) / 2 == cell && (cell * 2 + 1) / 2 == cell
            && (cell * 2) % 2 == 0 && (cell * 2 + 1) % 2 == 1
  {
    MulStep(j, w, w);
    assert 0 <= j * w by {
      MulStep(-1, j, w);
    }
  }

  /** Texel (i, j) of a width-w texture occupies slots (j*w+i)*2 and (j*w+i)*2 + 1, both in the buffer. */
  lemma TextureSlots(grid: Grid, c: CacheParams, i: int, j: int)
    requires c.textureSampleRate >= 0
    requires var w := ClampTextureSize(c.textureSampleRate); 0 <= i < w && 0 <= j < w
    ensures var w := ClampTextureSize(c.textureSampleRate);
            var data := TextureData(grid, c);
            var k := (j * w + i) * 2;
            var pr := TexelPair(grid, c, i, j);
            |data| == w * w * 2 && 0 <= k && k + 1 < |data|
            && data[k] == pr.0 && data[k + 1] == pr.1
  {
    var w := ClampTextureSize(c.textureSampleRate);
    var cell := j * w + i;
    CellDivMod(w, i, j);
    CellInBuffer(w, i, j);
    var data := TextureData(grid, c);
    assert |data| == w * w * 2;
    var pr := TexelPair(grid, c, cell % w, cell / w);
    assert data[cell * 2] == pr.0;
    assert data[cell * 2 + 1] == pr.1;
  }

  /** Every slot of a width-w buffer belongs to the texel (i, j) its index names. */
  lemma SlotOwner(w: int, k: int)
    requires 0 < w && 0 <= k < w * w * 2
    ensures var i, j := (k / 2) % w, (k / 2) / w;
            0 <= i < w && 0 <= j < w && k == (j * w + i) * 2 + k % 2
  {
    var cell := k / 2;
    var i, j := cell % w, cell / w;
    assert cell == j * w + i && cell < w * w;
    if j >= w {
      MulStep(w - 1, j, w);
    }
  }

  /** Distinct texels own distinct cells, so their slot pairs do not overlap. */
  lemma SlotsDisjoint(w: int, i: int, j: int, i2: int, j2: int)
    requires 0 <= i < w && 0 <= j && 0 <= i2 < w && 0 <= j2
    ensures j * w + i == j2 * w + i2 <==> i == i2 && j == j2
  {
    CellDivMod(w, i, j);
    CellDivMod(w, i2, j2);
  }

  /* ---------------------------------------------------------------------
   * Quad geometry
   * --------------------------------------------------------------------- */

  /** Corner of the box face spanned by u and v; the third axis stays at the box minimum. */
  function Corner(lo: Vec3, hi: Vec3, u: Axis, v: Axis, highU: bool, highV: bool): Vec3
  {
    lo.With(u, if highU then hi.At(u) else lo.At(u)).With(v, if highV then hi.At(v) else lo.At(v))
  }

  /** The face quad, corners in the order (lo,lo), (hi,lo), (hi,hi), (lo,hi) of (u, v). */
  function FaceQuad(lo: Vec3, hi: Vec3, u: Axis, v: Axis): seq<Vec3>
  {
    [Corner(lo, hi, u, v, false, false), Corner(lo, hi, u, v, true, false),
     Corner(lo, hi, u, v, true, true), Corner(lo, hi, u, v, false, true)]
  }

  /** Vertices laid out as x, y, z triples. */
  function Flatten(vs: seq<Vec3>): (flat: seq<real>)
  {
    seq(3 * |vs|, k requires 0 <= k < 3 * |vs| => vs[k / 3].At(k % 3))
  }

  /**
   * Vertex positions after _setVertexPositions for an orientation code:
   * XY and XZ build their own faces, YZ builds the XZ face (the source calls
   * the XZ builder for it), and any other code leaves `current` in place.
   */
  function VertexPositionsFor(orientation: int, lo: Vec3, hi: Vec3, current: seq<real>): seq<real>
  {
    if orientation == XY then Flatten(FaceQuad(lo, hi, X, Y))
    else if orientation == XZ || orientation == YZ then Flatten(FaceQuad(lo, hi, X, Z))
    else current
  }

  /**
   * For each valid orientation the quad has 4 vertices (12 values), all on
   * the plane that holds Z (for XY) or Y (for XZ and YZ) at the box minimum.
   */
  lemma VertexPositionsOnFace(orientation: int, lo: Vec3, hi: Vec3, current: seq<real>)
    requires orientation == XY || orientation == XZ || orientation == YZ
    ensures var flat := VertexPositionsFor(orientation, lo, hi, current);
            var held := if orientation == XY then Z else Y;
            |flat| == 12 && forall n :: 0 <= n < 4 ==> flat[3 * n + held] == lo.At(held)
  {
    var flat := VertexPositionsFor(orientation, lo, hi, current);
    var held: Axis := if orientation == XY then Z else Y;
    forall n | 0 <= n < 4
      ensures flat[3 * n + held] == lo.At(held)
    {
      assert (3 * n + held) / 3 == n && (3 * n + held) % 3 == held;
    }
  }

  /**
   * The YZ orientation does not draw a YZ face: on a box with some extent in
   * X, its second vertex sits at the box maximum in X.
   */
  lemma YZOrientationLeavesYZPlane(lo: Vec3, hi: Vec3, current: seq<real>)
    requires lo.x < hi.x
    ensures var flat := VertexPositionsFor(YZ, lo, hi, current);
            flat[3] == hi.x && flat[3] != lo.x
            && flat != Flatten(FaceQuad(lo, hi, Y, Z))
  {
    var flat := VertexPositionsFor(YZ, lo, hi, current);
    assert flat[3] == hi.x;
    assert Flatten(FaceQuad(lo, hi, Y, Z))[3] == lo.x;
  }

  /** The worked example of an XY slice of the box (0,0,0)-(2,4,6). */
  lemma XYQuadExample()
    ensures VertexPositionsFor(XY, Vec3(0.0, 0.0, 0.0), Vec3(2.0, 4.0, 6.0), [])
            == [0.0, 0.0, 0.0, 2.0, 0.0, 0.0, 2.0, 4.0, 0.0, 0.0, 4.0, 0.0]
  {
    var flat := VertexPositionsFor(XY, Vec3(0.0, 0.0, 0.0), Vec3(2.0, 4.0, 6.0), []);
    assert |flat| == 12;
    forall k | 0 <= k < 12
      ensures flat[k] == [0.0, 0.0, 0.0, 2.0, 0.0, 0.0, 2.0, 4.0, 0.0, 0.0, 4.0, 0.0][k]
    {
    }
  }

  /* ---------------------------------------------------------------------
   * _render
   * --------------------------------------------------------------------- */

  /** A vertex of the legacy immediate-mode triangles with its texture coordinate. */
  datatype TexVertex = TexVertex(s: real, t: real, position: Vec3)

  /**
   * The plane code _render picks for an orientation axis (Z -> XY, Y -> XZ,
   * otherwise YZ); _render then uses that code as an axis index.
   */
  function RenderPlane(orientation: int): Axis
  {
    if orientation == Z then XY else if orientation == Y then XZ else YZ
  }

  /** The two triangles _render emits after overwriting min[plane] with max[plane]. */
  function RenderTriangles(orientation: int, lo: Vec3, hi: Vec3): seq<TexVertex>
  {
    var plane := RenderPlane(orientation);
    var m := lo.With(plane, hi.At(plane));
    [TexVertex(0.0, 0.0, Vec3(m.x, m.y, m.z)),
     TexVertex(1.0, 0.0, Vec3(hi.x, m.y, m.z)),
     TexVertex(1.0, 1.0, Vec3(hi.x, hi.y, hi.z)),
     TexVertex(0.0, 0.0, Vec3(m.x, m.y, m.z)),
     TexVertex(1.0, 1.0, Vec3(hi.x, hi.y, hi.z)),
     TexVertex(0.0, 1.0, Vec3(m.x, hi.y, hi.z))]
  }

  /**
   * All six vertices lie on the face where the axis numbered by the plane
   * code is at the box maximum; the second triangle reuses the first one's
   * diagonal.
   */
  lemma RenderOnMaxFace(orientation: int, lo: Vec3, hi: Vec3)
    ensures var tris := RenderTriangles(orientation, lo, hi);
            var a := RenderPlane(orientation);
            |tris| == 6
            && (forall n :: 0 <= n < 6 ==> tris[n].position.At(a) == hi.At(a))
            && tris[3] == tris[0] && tris[4] == tris[2]
  {
  }

  /* ---------------------------------------------------------------------
   * The gray ramp the constructor puts in the color map
   * --------------------------------------------------------------------- */

  /** Entry k of an n-entry RGBA gray ramp: gray level k/4 / (n - 1), alpha 1. */
  function RampValue(n: nat, k: nat): real
    requires n != 1
  {
    if k % 4 == 3 then 1.0 else (k / 4) as real / (n - 1) as real
  }

  method GrayRamp(colorMapSize: nat) returns (colorMap: seq<real>)
    requires colorMapSize != 1
    ensures |colorMap| == 4 * colorMapSize
    ensures forall k :: 0 <= k < |colorMap| ==> colorMap[k] == RampValue(colorMapSize, k)
    ensures forall k :: 0 <= k < |colorMap| ==> 0.0 <= colorMap[k] <= 1.0
    ensures colorMapSize >= 2 ==> colorMap[0] == 0.0 && colorMap[4 * colorMapSize - 2] == 1.0
  {
    colorMap := [];
    var i := 0;
    while i < colorMapSize
      invariant 0 <= i <= colorMapSize
      invariant |colorMap| == 4 * i
      invariant forall k :: 0 <= k < |colorMap| ==> colorMap[k] == RampValue(colorMapSize, k)
      invariant forall k :: 0 <= k < |colorMap| ==> 0.0 <= colorMap[k] <= 1.0
    {
      var level := i as real / (colorMapSize - 1) as real;
      assert 0.0 <= level <= 1.0 by {
        assert i <= colorMapSize - 1;
      }
      forall k | 4 * i <= k < 4 * i + 4
        ensures k / 4 == i
      {
      }
      colorMap := colorMap + [level, level, level, 1.0];
      i := i + 1;
    }
    if colorMapSize >= 2 {
      assert (4 * colorMapSize - 2) / 4 == colorMapSize - 1;
    }
  }

  /* ---------------------------------------------------------------------
   * The renderer
   * --------------------------------------------------------------------- */

  class SliceRenderer {
    var cacheParams: CacheParams
    var textureWidth: int
    var textureHeight: int
    /** (value, missing flag) pairs, texel by texel, rows of textureWidth texels. */
    var dataValues: array<real>
    /** The quad as 4 x, y, z triples. */
    var vertexPositions: seq<real>
    var colorMap: seq<real>
    var initialized: bool

    /** The texture edges follow the cached sample rate and the buffer has two slots per texel. */
    ghost predicate Valid()
      reads this
    {
      && textureWidth == ClampTextureSize(cacheParams.textureSampleRate)
      && textureHeight == textureWidth
      && dataValues.Length == textureWidth * textureHeight * 2
    }

    /**
     * Starts with a 250 x 250 buffer and a gray ramp sized by the transfer
     * function of the (still empty) cached variable name, then refreshes.
     */
    constructor (p: SliceParams, dataMgr: GridRequest -> GridFetch)
      requires p.mapperFunc("").numEntries != 1
      ensures Valid() && initialized
      ensures fresh(dataValues)
      ensures var f := dataMgr(RequestFor(Snapshot(p)));
              var n := p.mapperFunc("").numEntries;
              && cacheParams == Snapshot(p).(refinementLevel := f.refinementLevel,
                                             compressionLevel := f.compressionLevel)
              && textureWidth == ClampTextureSize(p.sampleRate)
              && textureHeight == textureWidth
              && (f.rc < 0 ==>
                    && vertexPositions == []
                    && |colorMap| == 4 * n
                    && forall k :: 0 <= k < |colorMap| ==> colorMap[k] == RampValue(n, k))
              && (f.rc >= 0 ==>
                    && vertexPositions == VertexPositionsFor(p.orientation, p.boxMin, p.boxMax, [])
                    && colorMap == p.mapperFunc(p.variableName).lut
                    && (p.sampleRate >= 0 ==> dataValues[..] == TextureData(f.grid, cacheParams)))
    {
      initialized := false;
      textureWidth := 250;
      textureHeight := 250;
      var emptyName := "";
      cacheParams := CacheParams(emptyName, "", 0, 0, 0, 250, XY,
                                 Vec3(0.0, 0.0, 0.0), Vec3(0.0, 0.0, 0.0), [], (0.0, 0.0));
      var tf := p.mapperFunc(emptyName);
      var ramp := GrayRamp(tf.numEntries);
      colorMap := ramp;
      dataValues := new real[250 * 250 * 2];
      vertexPositions := [];
      new;
      var rc := SaveCacheParams(p, dataMgr);
      initialized := true;
    }

    /**
     * _saveCacheParams: record the live parameters, size the texture, make
     * a new buffer, and fill it.  The record and the buffer are replaced
     * before the grid is fetched, so they are replaced even when that fails.
     */
    method SaveCacheParams(p: SliceParams, dataMgr: GridRequest -> GridFetch) returns (rc: int)
      modifies this
      ensures Valid() && fresh(dataValues) && initialized == old(initialized)
      ensures var f := dataMgr(RequestFor(Snapshot(p)));
              && cacheParams == Snapshot(p).(refinementLevel := f.refinementLevel,
                                             compressionLevel := f.compressionLevel)
              && textureWidth == ClampTextureSize(p.sampleRate)
              && textureHeight == textureWidth
              && rc == f.rc
              && (f.rc < 0 ==> vertexPositions == old(vertexPositions) && colorMap == old(colorMap))
              && (f.rc >= 0 ==>
                    && vertexPositions == VertexPositionsFor(p.orientation, p.boxMin, p.boxMax, old(vertexPositions))
                    && colorMap == p.mapperFunc(p.variableName).lut
                    && (p.sampleRate >= 0 ==> dataValues[..] == TextureData(f.grid, cacheParams)))
    {
      cacheParams := Snapshot(p);
      textureWidth := cacheParams.textureSampleRate;
      textureHeight := cacheParams.textureSampleRate;
      if textureWidth > MaxTextureSize {
        textureWidth := MaxTextureSize;
      }
      if textureHeight > MaxTextureSize {
        textureHeight := MaxTextureSize;
      }
      assert textureWidth * textureHeight >= 0 by {
        assert textureWidth == textureHeight;
      }
      dataValues := new real[textureWidth * textureHeight * 2];
      rc := SaveTextureData(p, dataMgr);
    }

    /** _getSampleCoordinates for the cached parameters. */
    method GetSampleCoordinates(i: int, j: int) returns (coords: Vec3)
      requires cacheParams.textureSampleRate >= 0
      ensures coords == SampleCoordinates(cacheParams, i, j)
    {
      var sampleRate := cacheParams.textureSampleRate;
      var lo, hi := cacheParams.boxMin, cacheParams.boxMax;
      var dx := (hi.x - lo.x) / (1 + sampleRate) as real;
      var dy := (hi.y - lo.y) / (1 + sampleRate) as real;
      var dz := (hi.z - lo.z) / (1 + sampleRate) as real;
      coords := Vec3(0.0, 0.0, 0.0);
      if cacheParams.orientation == XY {
        coords := coords.(x := lo.x + dx * i as real + dx / 2.0);
        coords := coords.(y := lo.y + dy * j as real + dy / 2.0);
        coords := coords.(z := lo.z);
      } else if cacheParams.orientation == XZ {
        coords := coords.(x := lo.x + dx * i as real + dx / 2.0);
        coords := coords.(y := lo.y);
        coords := coords.(z := lo.z + dz * j as real + dz / 2.0);
      } else {
        coords := coords.(z := lo.z + dz * j as real + dz / 2.0);
        coords := coords.(y := lo.y + dy * i as real + dy / 2.0);
        coords := coords.(x := lo.x);
      }
    }

    /**
     * _saveTextureData: fetch the grid; on failure stop with its code, else
     * build the quad, take the transfer function's table as the color map,
     * and write every texel's pair.
     */
    method SaveTextureData(p: SliceParams, dataMgr: GridRequest -> GridFetch) returns (rc: int)
      requires Valid()
      modifies this, dataValues
      ensures Valid() && dataValues == old(dataValues) && initialized == old(initialized)
      ensures var f := dataMgr(RequestFor(old(cacheParams)));
              && cacheParams == old(cacheParams).(refinementLevel := f.refinementLevel,
                                                  compressionLevel := f.compressionLevel)
              && textureWidth == old(textureWidth) && textureHeight == old(textureHeight)
              && rc == f.rc
              && (f.rc < 0 ==>
                    && vertexPositions == old(vertexPositions) && colorMap == old(colorMap)
                    && dataValues[..] == old(dataValues[..]))
              && (f.rc >= 0 ==>
                    && vertexPositions == VertexPositionsFor(cacheParams.orientation, cacheParams.boxMin,
                                                             cacheParams.boxMax, old(vertexPositions))
                    && colorMap == p.mapperFunc(cacheParams.varName).lut
                    && (cacheParams.textureSampleRate >= 0 ==>
                          dataValues[..] == TextureData(f.grid, cacheParams))
                    && (cacheParams.textureSampleRate < 0 ==> dataValues[..] == old(dataValues[..])))
    {
      var f := dataMgr(RequestFor(cacheParams));
      cacheParams := cacheParams.(refinementLevel := f.refinementLevel,
                                  compressionLevel := f.compressionLevel);
      var grid := f.grid;
      if f.rc < 0 {
        return f.rc;
      }
      SetVertexPositions();
      colorMap := p.mapperFunc(cacheParams.varName).lut;

      var j := 0;
      while j < textureHeight
        modifies dataValues
        invariant 0 <= j && (j <= textureHeight || j == 0)
        invariant j == 0 ==> dataValues[..] == old(dataValues[..])
        invariant j > 0 ==> cacheParams.textureSampleRate >= 0
        invariant j > 0 ==> TexturePrefix(grid, j * textureWidth * 2)
      {
        assert j == 0 ==> j * textureWidth * 2 == 0;
        FillRow(grid, j);
        j := j + 1;
      }
      if cacheParams.textureSampleRate >= 0 && j > 0 {
        assert dataValues[..] == TextureData(grid, cacheParams);
      }
      rc := f.rc;
    }

    /** The first n slots of the buffer already hold the texture of `grid`. */
    ghost predicate TexturePrefix(grid: Grid, n: int)
      reads this, dataValues
      requires Valid() && cacheParams.textureSampleRate >= 0
    {
      0 <= n <= dataValues.Length
      && forall k :: 0 <= k < n ==> dataValues[k] == TextureData(grid, cacheParams)[k]
    }

    /** One pass of the inner loop of _saveTextureData: row j of the texture. */
    method FillRow(grid: Grid, j: int)
      requires Valid() && 0 <= j < textureHeight
      requires cacheParams.textureSampleRate >= 0
      requires TexturePrefix(grid, j * textureWidth * 2)
      modifies dataValues
      ensures TexturePrefix(grid, (j + 1) * textureWidth * 2)
    {
      ghost var data := TextureData(grid, cacheParams);
      var w := textureWidth;
      ghost var base := j * w * 2;
      var i := 0;
      while i < w
        modifies dataValues
        invariant 0 <= i <= w
        invariant base + 2 * i <= dataValues.Length
        invariant forall k :: 0 <= k < base + 2 * i ==> dataValues[k] == data[k]
      {
        var coords := GetSampleCoordinates(i, j);
        var index := (j * w + i) * 2;
        TextureSlots(grid, cacheParams, i, j);
        assert index == base + 2 * i;
        var varValue := grid.valueAt(coords);
        var missingValue := grid.missingValue;
        if varValue == missingValue {
          dataValues[index] := 1.0;
          dataValues[index + 1] := 1.0;
        } else {
          dataValues[index] := varValue;
          dataValues[index + 1] := 0.0;
        }
        i := i + 1;
      }
      assert base + 2 * w == (j + 1) * w * 2;
    }

    /** _setVertexPositions: dispatch on the cached orientation; YZ goes to the XZ builder. */
    method SetVertexPositions()
      modifies this`vertexPositions
      ensures vertexPositions == VertexPositionsFor(cacheParams.orientation, cacheParams.boxMin,
                                                    cacheParams.boxMax, old(vertexPositions))
    {
      var lo := cacheParams.boxMin;
      var hi := cacheParams.boxMax;
      var orientation := cacheParams.orientation;
      if orientation == XY {
        SetXYVertexPositions(lo, hi);
      } else if orientation == XZ {
        SetXZVertexPositions(lo, hi);
      } else if orientation == YZ {
        SetXZVertexPositions(lo, hi);
      }
    }

    method SetXYVertexPositions(lo: Vec3, hi: Vec3)
      modifies this`vertexPositions
      ensures vertexPositions == Flatten(FaceQuad(lo, hi, X, Y))
    {
      var zCoord := lo.z;
      vertexPositions := [
        lo.x, lo.y, zCoord,
        hi.x, lo.y, zCoord,
        hi.x, hi.y, zCoord,
        lo.x, hi.y, zCoord];
    }

    method SetXZVertexPositions(lo: Vec3, hi: Vec3)
      modifies this`vertexPositions
      ensures vertexPositions == Flatten(FaceQuad(lo, hi, X, Z))
    {
      var yCoord := lo.y;
      vertexPositions := [
        lo.x, yCoord, lo.z,
        hi.x, yCoord, lo.z,
        hi.x, yCoord, hi.z,
        lo.x, yCoord, hi.z];
    }

    /** Builds the YZ face; nothing calls it. */
    method SetYZVertexPositions(lo: Vec3, hi: Vec3)
      modifies this`vertexPositions
      ensures vertexPositions == Flatten(FaceQuad(lo, hi, Y, Z))
    {
      var xCoord := lo.x;
      vertexPositions := [
        xCoord, lo.y, lo.z,
        xCoord, hi.y, lo.z,
        xCoord, hi.y, hi.z,
        xCoord, lo.y, hi.z];
    }

    /**
     * The cache step of _paintGL: refresh only when dirty.  `glErrorReported`
     * stands for either OpenGL error check failing, which makes the result -1.
     */
    method PaintGL(p: SliceParams, dataMgr: GridRequest -> GridFetch, glErrorReported: bool) returns (rc: int)
      requires Valid()
      modifies this
      ensures Valid() && initialized == old(initialized)
      ensures !IsCacheDirty(old(cacheParams), p) ==>
                && cacheParams == old(cacheParams) && dataValues == old(dataValues)
                && textureWidth == old(textureWidth) && textureHeight == old(textureHeight)
                && vertexPositions == old(vertexPositions) && colorMap == old(colorMap)
                && rc == (if glErrorReported then -1 else 0)
      ensures IsCacheDirty(old(cacheParams), p) ==>
                var f := dataMgr(RequestFor(Snapshot(p)));
                && fresh(dataValues)
                && cacheParams == Snapshot(p).(refinementLevel := f.refinementLevel,
                                               compressionLevel := f.compressionLevel)
                && textureWidth == ClampTextureSize(p.sampleRate)
                && textureHeight == textureWidth
                && rc == (if glErrorReported then -1 else f.rc)
                && (f.rc < 0 ==> vertexPositions == old(vertexPositions) && colorMap == old(colorMap))
                && (f.rc >= 0 ==>
                      && vertexPositions == VertexPositionsFor(p.orientation, p.boxMin, p.boxMax,
                                                               old(vertexPositions))
                      && colorMap == p.mapperFunc(p.variableName).lut
                      && (p.sampleRate >= 0 ==> dataValues[..] == TextureData(f.grid, cacheParams)))
    {
      rc := 0;
      if IsCacheDirty(cacheParams, p) {
        rc := SaveCacheParams(p, dataMgr);
      }
      if glErrorReported {
        return -1;
      }
    }
  }
}
