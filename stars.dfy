/**
 * The star field of src/rendering/stars.js: layers of stars scattered in a
 * cube around the ship's start (scaled by the layer's parallax), and the
 * wrap-around that keeps each star inside the cube around the camera.
 */
module Stars {
  import opened Elementary
  import opened Vectors
  import opened Random

  /** One entry of `config.stars.layers`. */
  datatype LayerConfig = LayerConfig(count: int, parallax: real, halfSize: real, sizeMin: real, sizeMax: real)

  /** A star `{ p, s }`: a `Vec3` position, which the wrap-around moves in place, and a size. */
  datatype Star = Star(p: Vec3, s: real)

  /**
   * `wrapStar(p, center, halfSize)`: on each axis, an offset above h moves
   * the point back by 2h, and then an offset below −h moves it forward by 2h.
   */
  method WrapStar(p: Vec3, center: Vector, halfSize: real)
    modifies p
    ensures p.Value() == WrapPoint(old(p.Value()), center, halfSize)
  {
    if p.x - center.x > halfSize { p.x := p.x - 2.0 * halfSize; }
    if p.x - center.x < -halfSize { p.x := p.x + 2.0 * halfSize; }
    if p.y - center.y > halfSize { p.y := p.y - 2.0 * halfSize; }
    if p.y - center.y < -halfSize { p.y := p.y + 2.0 * halfSize; }
    if p.z - center.z > halfSize { p.z := p.z - 2.0 * halfSize; }
    if p.z - center.z < -halfSize { p.z := p.z + 2.0 * halfSize; }
  }

  /** `{ ...L, stars }`: the layer's configuration together with its stars. */
  datatype Layer = Layer(config: LayerConfig, stars: seq<Star>)

  // ---------------------------------------------------------------
  // Wrap-around
  // ---------------------------------------------------------------

  /** The offset d lies within h of the centre. */
  predicate Within(d: real, h: real) {
    -h <= d <= h
  }

  /**
   * The two checks of one axis in order. The coordinate moves by 0 or ±2h,
   * and only when its offset is outside [−h, h]; an offset within 3h of
   * the centre ends within h of it.
   */
  function WrapAxis(v: real, c: real, h: real): (r: real)
    ensures r == v || r == v - 2.0 * h || r == v + 2.0 * h
    ensures Within(v - c, h) ==> r == v
    ensures h > 0.0 && !Within(v - c, h) ==> r != v
    ensures h >= 0.0 && Within(v - c, 3.0 * h) ==> Within(r - c, h)
  {
    var v1 := if v - c > h then v - 2.0 * h else v;
    if v1 - c < -h then v1 + 2.0 * h else v1
  }

  /** A point lies within h of the centre on every axis. */
  predicate InCube(p: Vector, c: Vector, h: real) {
    Within(p.x - c.x, h) && Within(p.y - c.y, h) && Within(p.z - c.z, h)
  }

  /** `wrapStar` applied to a position: each axis wrapped on its own. */
  function WrapPoint(p: Vector, c: Vector, h: real): (r: Vector)
    ensures InCube(p, c, h) ==> r == p
    ensures h >= 0.0 && InCube(p, c, 3.0 * h) ==> InCube(r, c, h)
  {
    Vector(WrapAxis(p.x, c.x, h), WrapAxis(p.y, c.y, h), WrapAxis(p.z, c.z, h))
  }

  /** With h > 0 a star is left where it is exactly when it is already within h on every axis. */
  lemma WrapFixesExactlyTheCube(p: Vector, c: Vector, h: real)
    requires h > 0.0
    ensures WrapPoint(p, c, h) == p <==> InCube(p, c, h)
  {
    if WrapPoint(p, c, h) == p {
      assert WrapAxis(p.x, c.x, h) == p.x && WrapAxis(p.y, c.y, h) == p.y && WrapAxis(p.z, c.z, h) == p.z;
    }
  }

  /** Wrapping twice is wrapping once, for a star within 3h of the centre. */
  lemma WrapIdempotent(p: Vector, c: Vector, h: real)
    requires h >= 0.0 && InCube(p, c, 3.0 * h)
    ensures WrapPoint(WrapPoint(p, c, h), c, h) == WrapPoint(p, c, h)
  {
    var q := WrapPoint(p, c, h);
    assert InCube(q, c, h);
  }

  // ---------------------------------------------------------------
  // Creation
  // ---------------------------------------------------------------

  /** `effCenter`: the start position scaled by the layer's parallax. */
  function EffCenter(startPos: Vector, L: LayerConfig): Vector {
    Scale(startPos, L.parallax)
  }

  /**
   * Where `createStarLayers` puts a star of layer L when its draws lie in
   * [0, 1): within |halfSize| of the layer's centre on every axis, and its
   * size between the two size bounds.
   */
  ghost predicate Placed(st: Star, L: LayerConfig, startPos: Vector)
    reads st.p
  {
    var ec := EffCenter(startPos, L);
    && Abs(st.p.x - ec.x) <= Abs(L.halfSize)
    && Abs(st.p.y - ec.y) <= Abs(L.halfSize)
    && Abs(st.p.z - ec.z) <= Abs(L.halfSize)
    && Min(L.sizeMin, L.sizeMax) <= st.s <= Max(L.sizeMin, L.sizeMax)
  }

  /** A draw in [0, 1) puts `randRange(−h, h)` within |h| of 0. */
  lemma SymmetricRange(h: real, u: real)
    requires 0.0 <= u < 1.0
    ensures Abs(RandRange(-h, h, u)) <= Abs(h)
  {
    RandRangeBounds(-h, h, u);
  }

  /** A draw in [0, 1) puts `randRange(a, b)` between a and b. */
  lemma SizeRange(a: real, b: real, u: real)
    requires 0.0 <= u < 1.0
    ensures Min(a, b) <= RandRange(a, b, u) <= Max(a, b)
  {
    RandRangeBounds(a, b, u);
  }

  /** How many stars the layers ask for in all: `L.count` each, none for a negative count. */
  function StarTotal(layers: seq<LayerConfig>): nat {
    if |layers| == 0 then 0 else StarTotal(layers[..|layers| - 1]) + CountOf(layers[|layers| - 1])
  }

  /** How many times `for (let i = 0; i < L.count; i++)` runs. */
  function CountOf(L: LayerConfig): nat {
    if L.count < 0 then 0 else L.count
  }

  /**
   * One star of layer L: three draws for its position around `ec` and one
   * for its size.
   */
  method NewStar(L: LayerConfig, ec: Vector, rng: Rng) returns (st: Star)
    modifies rng`cursor
    ensures fresh(st.p) && rng.cursor == old(rng.cursor) + 4
    ensures rng.Uniform() ==> Abs(st.p.x - ec.x) <= Abs(L.halfSize) && Abs(st.p.y - ec.y) <= Abs(L.halfSize)
    ensures rng.Uniform() ==> Abs(st.p.z - ec.z) <= Abs(L.halfSize)
    ensures rng.Uniform() ==> Min(L.sizeMin, L.sizeMax) <= st.s <= Max(L.sizeMin, L.sizeMax)
  {
    var ux := rng.Next();
    var uy := rng.Next();
    var uz := rng.Next();
    var us := rng.Next();
    var h := L.halfSize;
    var p := new Vec3(ec.x + RandRange(-h, h, ux), ec.y + RandRange(-h, h, uy), ec.z + RandRange(-h, h, uz));
    st := Star(p, RandRange(L.sizeMin, L.sizeMax, us));
    if rng.Uniform() {
      SymmetricRange(h, ux);
      SymmetricRange(h, uy);
      SymmetricRange(h, uz);
      SizeRange(L.sizeMin, L.sizeMax, us);
    }
  }

  /**
   * `createStarLayers(config)`: one layer per configured layer, in order,
   * each with `L.count` fresh stars, four draws apiece; with draws in
   * [0, 1) every star is placed within its layer's cube.
   */
  method CreateStarLayers(startPos: Vector, layers: seq<LayerConfig>, rng: Rng) returns (out: seq<Layer>)
    modifies rng`cursor
    ensures |out| == |layers| && rng.cursor == old(rng.cursor) + 4 * StarTotal(layers)
    ensures forall j :: 0 <= j < |out| ==> out[j].config == layers[j] && |out[j].stars| == CountOf(layers[j])
    ensures forall j, st :: 0 <= j < |out| && st in out[j].stars ==> fresh(st.p)
    ensures rng.Uniform() ==> forall j, st :: 0 <= j < |out| && st in out[j].stars ==> Placed(st, layers[j], startPos)
  {
    out := [];
    var n := 0;
    while n < |layers|
      invariant 0 <= n <= |layers| && |out| == n
      invariant rng.cursor == old(rng.cursor) + 4 * StarTotal(layers[..n])
      invariant forall j :: 0 <= j < n ==> out[j].config == layers[j] && |out[j].stars| == CountOf(layers[j])
      invariant forall j, st :: 0 <= j < n && st in out[j].stars ==> fresh(st.p)
      invariant rng.Uniform() ==> forall j, st :: 0 <= j < n && st in out[j].stars ==> Placed(st, layers[j], startPos)
    {
      var L := layers[n];
      var stars := FillLayer(L, startPos, rng);
      assert layers[..n + 1][..n] == layers[..n];
      out := out + [Layer(L, stars)];
      n := n + 1;
    }
    assert layers[..|layers|] == layers;
  }

  /** The inner loop of `createStarLayers`: the stars of one layer. */
  method FillLayer(L: LayerConfig, startPos: Vector, rng: Rng) returns (stars: seq<Star>)
    modifies rng`cursor
    ensures |stars| == CountOf(L) && rng.cursor == old(rng.cursor) + 4 * |stars|
    ensures forall st :: st in stars ==> fresh(st.p)
    ensures rng.Uniform() ==> forall st :: st in stars ==> Placed(st, L, startPos)
  {
    var ec := EffCenter(startPos, L);
    stars := [];
    var i := 0;
    while i < L.count
      invariant 0 <= i <= CountOf(L) && |stars| == i
      invariant rng.cursor == old(rng.cursor) + 4 * i
      invariant forall st :: st in stars ==> fresh(st.p)
      invariant rng.Uniform() ==> forall st :: st in stars ==> Placed(st, L, startPos)
    {
      var st := NewStar(L, ec, rng);
      stars := stars + [st];
      i := i + 1;
    }
  }
}
