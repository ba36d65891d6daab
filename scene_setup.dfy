/** What the scene builds once, before the first frame: the full-screen quad it presents
    the kernel's image on (`setupScreenQuad`), the scene's record collections
    (`setupSceneObjects`) and the uniform buffers they are uploaded to
    (`setupComputeShaderData`). */
module SceneSetup {
  import opened Glm
  import opened Objects
  import opened Marshal

  // ---------------------------------------------------------------------------------
  // The screen quad

  const FLOAT_BYTES: nat := 4
  const UINT_BYTES: nat := 4

  /** Interleaved vertices: position x, y, z then texture coordinate s, t. */
  const QUAD_VERTEX_STRIDE: nat := 5
  const QUAD_VERTICES: seq<real> := [
    -1.0, -1.0, 0.0, 0.0, 0.0,
    -1.0,  1.0, 0.0, 0.0, 1.0,
     1.0,  1.0, 0.0, 1.0, 1.0,
     1.0, -1.0, 0.0, 1.0, 0.0
  ]
  const QUAD_INDICES: seq<nat> := [0, 2, 1, 0, 3, 2]

  /** One glVertexAttribPointer call: location, component count, offset in floats. */
  datatype VertexAttrib = VertexAttrib(location: nat, components: nat, offset: nat)
  const QUAD_ATTRIBS: seq<VertexAttrib> := [VertexAttrib(0, 3, 0), VertexAttrib(1, 2, 3)]

  datatype QuadVertex = QuadVertex(x: real, y: real, z: real, s: real, t: real)

  function Vertex(v: nat): QuadVertex
    requires v < 4
  {
    var b := QUAD_VERTEX_STRIDE * v;
    QuadVertex(QUAD_VERTICES[b], QUAD_VERTICES[b + 1], QUAD_VERTICES[b + 2],
               QUAD_VERTICES[b + 3], QUAD_VERTICES[b + 4])
  }

  /** Twice the signed area of triangle t of the index list, from the vertex positions. */
  function TriangleArea2(t: nat): real
    requires t < 2
  {
    var a := Vertex(QUAD_INDICES[3 * t]);
    var b := Vertex(QUAD_INDICES[3 * t + 1]);
    var c := Vertex(QUAD_INDICES[3 * t + 2]);
    (b.x - a.x) * (c.y - a.y) - (b.y - a.y) * (c.x - a.x)
  }

  /** Four vertices at stride 5, six in-range indices, texture coordinates that map the
      corner (x, y) to ((x + 1) / 2, (y + 1) / 2), and attribute ranges that tile the stride. */
  lemma ScreenQuadLayout()
    ensures |QUAD_VERTICES| == 4 * QUAD_VERTEX_STRIDE
    ensures |QUAD_VERTICES| * FLOAT_BYTES == 80 && |QUAD_INDICES| * UINT_BYTES == 24
    ensures |QUAD_INDICES| == 2 * 3
    ensures forall i :: 0 <= i < |QUAD_INDICES| ==> QUAD_INDICES[i] < 4
    ensures forall v :: 0 <= v < 4 ==>
              && Vertex(v).s == (Vertex(v).x + 1.0) / 2.0
              && Vertex(v).t == (Vertex(v).y + 1.0) / 2.0
              && Vertex(v).z == 0.0
    ensures QUAD_ATTRIBS[0].offset == 0
    ensures QUAD_ATTRIBS[0].offset + QUAD_ATTRIBS[0].components == QUAD_ATTRIBS[1].offset
    ensures QUAD_ATTRIBS[1].offset + QUAD_ATTRIBS[1].components == QUAD_VERTEX_STRIDE
  {
    forall v | 0 <= v < 4
      ensures Vertex(v).s == (Vertex(v).x + 1.0) / 2.0
      ensures Vertex(v).t == (Vertex(v).y + 1.0) / 2.0
      ensures Vertex(v).z == 0.0
    {
      if v == 0 {} else if v == 1 {} else if v == 2 {} else {}
    }
  }

  /** The two triangles have the same (counter-clockwise) winding, share only the
      diagonal from vertex 0 to vertex 2, use all four corners, and their areas add up to
      the area 4 of the whole normalised-device square: they cover the viewport. */
  lemma ScreenQuadCoversViewport()
    ensures TriangleArea2(0) > 0.0 && TriangleArea2(1) > 0.0
    ensures TriangleArea2(0) / 2.0 + TriangleArea2(1) / 2.0 == 4.0
    ensures {QUAD_INDICES[0], QUAD_INDICES[1], QUAD_INDICES[2]} * {QUAD_INDICES[3], QUAD_INDICES[4], QUAD_INDICES[5]} == {0, 2}
    ensures {QUAD_INDICES[0], QUAD_INDICES[1], QUAD_INDICES[2]} + {QUAD_INDICES[3], QUAD_INDICES[4], QUAD_INDICES[5]} == {0, 1, 2, 3}
  {
    assert Vertex(0) == QuadVertex(-1.0, -1.0, 0.0, 0.0, 0.0);
    assert Vertex(1) == QuadVertex(-1.0, 1.0, 0.0, 0.0, 1.0);
    assert Vertex(2) == QuadVertex(1.0, 1.0, 0.0, 1.0, 1.0);
    assert Vertex(3) == QuadVertex(1.0, -1.0, 0.0, 1.0, 0.0);
  }

  // ---------------------------------------------------------------------------------
  // The scene's records

  /** The random-balls grid is numX by numY. */
  const NUM_X: int := 4
  const NUM_Y: int := 4

  /** rand() calls made for one ball. */
  const DRAWS_PER_BALL: nat := 16

  /** The j-th uniform draw, rand() / RAND_MAX, made for ball k. */
  function RandDraw(rand: nat -> real, k: nat, j: nat): real {
    rand(DRAWS_PER_BALL * k + j)
  }

  /** Ball k of the grid, from its sixteen draws u0 .. u15 taken in the order the
      arguments are written: centre 10·u - 5 on each axis, radius u + 0.2, smoothness u,
      index of refraction u + 1 when another draw exceeds 0.6 and 0 otherwise, three
      colours with alpha 1, and no emission. */
  function RandomBall(rand: nat -> real, k: nat): (r: Sphere)
    ensures !r.material.IsEmitter() && r.material.FollowsEmitterConvention()
    ensures r.material.RefractiveIndex() == 0.0 || r.material.RefractiveIndex() == RandDraw(rand, k, 5) + 1.0
  {
    var u := (j: nat) => RandDraw(rand, k, j);
    NewSphere(
      Vec4(u(0) * 10.0 - 5.0, u(1) * 10.0 - 5.0, u(2) * 10.0 - 5.0, u(3) + 0.2),
      NewMaterial(
        Vec4(u(4), 0.0, (u(5) + 1.0) * (if u(6) > 0.6 then 1.0 else 0.0), 0.0),
        Vec4(u(7), u(8), u(9), 1.0),
        Vec4(u(10), u(11), u(12), 1.0),
        Vec4(u(13), u(14), u(15), 1.0),
        ZERO4))
  }

  /** The first n balls, in push order. */
  function RandomBalls(rand: nat -> real, n: nat): (r: seq<Sphere>)
    ensures |r| == n && forall k :: 0 <= k < n ==> r[k] == RandomBall(rand, k)
  {
    seq(n, k requires 0 <= k < n => RandomBall(rand, k))
  }

  lemma RandomBallsSnoc(rand: nat -> real, n: nat)
    ensures RandomBalls(rand, n + 1) == RandomBalls(rand, n) + [RandomBall(rand, n)]
  {
  }

  /** With every draw in [0, 1], a ball lies in the cube [-5, 5]³, has a radius in
      [0.2, 1.2], is not an emitter and keeps the emitter convention, and has index of
      refraction 0 or one in [1, 2]. */
  lemma RandomBallShape(rand: nat -> real, k: nat)
    requires forall i :: 0.0 <= rand(i) <= 1.0
    ensures var b := RandomBall(rand, k);
            && -5.0 <= b.Centre().x <= 5.0 && -5.0 <= b.Centre().y <= 5.0 && -5.0 <= b.Centre().z <= 5.0
            && 0.2 <= b.Radius() <= 1.2
            && !b.material.IsEmitter() && b.material.FollowsEmitterConvention()
            && (b.material.RefractiveIndex() == 0.0 || 1.0 <= b.material.RefractiveIndex() <= 2.0)
  {
    var u := (j: nat) => RandDraw(rand, k, j);
    assert 0.0 <= u(0) <= 1.0 && 0.0 <= u(1) <= 1.0 && 0.0 <= u(2) <= 1.0;
    assert 0.0 <= u(3) <= 1.0 && 0.0 <= u(5) <= 1.0;
  }

  /** The one real light of the scene: an emissive sphere of power 100. */
  const SUNSET_MATERIAL: Material :=
    NewMaterial(Vec4(0.0, 0.0, 0.0, 100.0), ZERO4, ZERO4, ZERO4, Vec4(1.0, 0.5, 0.5, 1.0))
  const SUNSET_SPHERE: Sphere := NewSphere(Vec4(40.0, 5.0, 50.0, 10.0), SUNSET_MATERIAL)

  lemma SunsetIsEmitter()
    ensures SUNSET_SPHERE.material.IsEmitter() && SUNSET_SPHERE.material.LightPower() == 100.0
    ensures SUNSET_SPHERE.material.FollowsEmitterConvention()
    ensures SUNSET_SPHERE.Centre() == Vec3(40.0, 5.0, 50.0) && SUNSET_SPHERE.Radius() == 10.0
  {
  }

  // ---------------------------------------------------------------------------------
  // Uniform buffers

  /** A buffer registered with the kernel: its block name, its binding index, its byte
      size as passed to glBufferData, and the vec4 words it holds. */
  datatype UniformBuffer = UniformBuffer(blockName: string, binding: nat, byteSize: nat, contents: seq<Vec4>)

  const POINT_LIGHT_BINDING: nat := 5
  const SPHERE_BINDING: nat := 6
  const QUAD_BINDING: nat := 7

  /** sizeof of each record: 16 bytes per vec4 field. */
  const MATERIAL_BYTES: nat := VEC4_BYTES * MATERIAL_WORDS
  const POINT_LIGHT_BYTES: nat := VEC4_BYTES * POINT_LIGHT_WORDS
  const SPHERE_BYTES: nat := VEC4_BYTES * SPHERE_WORDS
  const TRIANGLE_BYTES: nat := VEC4_BYTES * TRIANGLE_WORDS
  const QUAD_BYTES: nat := VEC4_BYTES * QUAD_WORDS

  /** Every record is a whole number of vec4s, so the std140 16-byte rule holds. */
  lemma RecordSizes()
    ensures MATERIAL_BYTES == 80 && POINT_LIGHT_BYTES == 96 && SPHERE_BYTES == 96
    ensures TRIANGLE_BYTES == 128 && QUAD_BYTES == 144
    ensures MATERIAL_BYTES % 16 == 0 && POINT_LIGHT_BYTES % 16 == 0 && SPHERE_BYTES % 16 == 0
    ensures TRIANGLE_BYTES % 16 == 0 && QUAD_BYTES % 16 == 0
  {
  }

  /** One buffer per category, each sized count × sizeof(record), at bindings 5, 6, 7. */
  function UniformBuffers(pointLights: seq<PointLight>, spheres: seq<Sphere>, quads: seq<Quad>): (r: seq<UniformBuffer>)
    ensures |r| == 3
    ensures r[0].binding == POINT_LIGHT_BINDING && r[1].binding == SPHERE_BINDING && r[2].binding == QUAD_BINDING
    ensures r[0].byteSize == |pointLights| * POINT_LIGHT_BYTES
    ensures r[1].byteSize == |spheres| * SPHERE_BYTES
    ensures r[2].byteSize == |quads| * QUAD_BYTES
    ensures forall i :: 0 <= i < |r| ==> r[i].byteSize == VEC4_BYTES * |r[i].contents| && r[i].byteSize % 16 == 0
    ensures pointLights != [] && spheres != [] && quads != [] ==> forall i :: 0 <= i < |r| ==> r[i].byteSize > 0
  {
    PackLength(pointLights, PointLightWords, POINT_LIGHT_WORDS);
    PackLength(spheres, SphereWords, SPHERE_WORDS);
    PackLength(quads, QuadWords, QUAD_WORDS);
    [UniformBuffer("pointLightData", POINT_LIGHT_BINDING, |pointLights| * POINT_LIGHT_BYTES, Pack(pointLights, PointLightWords)),
     UniformBuffer("sphereData", SPHERE_BINDING, |spheres| * SPHERE_BYTES, Pack(spheres, SphereWords)),
     UniformBuffer("quadData", QUAD_BINDING, |quads| * QUAD_BYTES, Pack(quads, QuadWords))]
  }

  /** The binding indices are pairwise distinct, so no two categories collide. */
  lemma BindingsDistinct(pointLights: seq<PointLight>, spheres: seq<Sphere>, quads: seq<Quad>)
    ensures var r := UniformBuffers(pointLights, spheres, quads);
            forall i, j :: 0 <= i < j < |r| ==> r[i].binding != r[j].binding
  {
  }

  /** Index correspondence: record i of a category is words n·i .. n·i + n - 1 of its
      buffer, and reading the buffer back gives the collection in order. */
  lemma UniformBuffersRoundTrip(pointLights: seq<PointLight>, spheres: seq<Sphere>, quads: seq<Quad>)
    ensures var r := UniformBuffers(pointLights, spheres, quads);
            && Unpack(r[0].contents, PointLightFromWords, POINT_LIGHT_WORDS) == pointLights
            && Unpack(r[1].contents, SphereFromWords, SPHERE_WORDS) == spheres
            && Unpack(r[2].contents, QuadFromWords, QUAD_WORDS) == quads
    ensures var r := UniformBuffers(pointLights, spheres, quads);
            forall i :: 0 <= i < |spheres| ==>
              SPHERE_WORDS * i + SPHERE_WORDS <= |r[1].contents| &&
              r[1].contents[SPHERE_WORDS * i .. SPHERE_WORDS * i + SPHERE_WORDS] == SphereWords(spheres[i])
  {
    forall x: PointLight ensures PointLightFromWords(PointLightWords(x)) == x {
      DecodeEncode(x.material, x, DefaultSphere(), DefaultTriangle(), DefaultQuad());
    }
    forall x: Sphere ensures SphereFromWords(SphereWords(x)) == x {
      DecodeEncode(x.material, DefaultPointLight(), x, DefaultTriangle(), DefaultQuad());
    }
    forall x: Quad ensures QuadFromWords(QuadWords(x)) == x {
      DecodeEncode(x.material, DefaultPointLight(), DefaultSphere(), DefaultTriangle(), x);
    }
    UnpackPack(pointLights, PointLightWords, PointLightFromWords, POINT_LIGHT_WORDS);
    UnpackPack(spheres, SphereWords, SphereFromWords, SPHERE_WORDS);
    UnpackPack(quads, QuadWords, QuadFromWords, QUAD_WORDS);
    forall i | 0 <= i < |spheres|
      ensures SPHERE_WORDS * i + SPHERE_WORDS <= |Pack(spheres, SphereWords)|
      ensures Pack(spheres, SphereWords)[SPHERE_WORDS * i .. SPHERE_WORDS * i + SPHERE_WORDS] == SphereWords(spheres[i])
    {
      PackSlice(spheres, SphereWords, SPHERE_WORDS, i);
    }
  }

  /** The collections `setupSceneObjects` leaves, from empty ones: the sixteen grid balls
      and the sunset sphere, and one all-zero sentinel each for lights and quads. */
  function SceneSpheres(rand: nat -> real): seq<Sphere> {
    RandomBalls(rand, NUM_X * NUM_Y) + [SUNSET_SPHERE]
  }

  /** Every collection is non-empty, the sentinels are inert (no light power) and all
      zero, and there are seventeen spheres. */
  lemma SceneCollections(rand: nat -> real)
    ensures |SceneSpheres(rand)| == 17
    ensures AllZero(PointLightWords(DefaultPointLight())) && DefaultPointLight().material.LightPower() == 0.0
    ensures AllZero(QuadWords(DefaultQuad())) && DefaultQuad().material.LightPower() == 0.0
    ensures forall i :: 0 <= i < 3 ==>
              UniformBuffers([DefaultPointLight()], SceneSpheres(rand), [DefaultQuad()])[i].byteSize > 0
  {
  }
}
