/** The scene records the ray-tracing kernel reads from its uniform blocks (object.h) and
    their constructors (object.cpp). Every field is a vec4, so a record is a fixed
    sequence of vec4 words; `...Words` gives that sequence in declaration order, which is
    the order the bytes have in the uploaded buffer, and `...FromWords` reads it back. */
module Objects {
  import opened Glm

  /** Number of vec4 words in each record. */
  const MATERIAL_WORDS: nat := 5
  const POINT_LIGHT_WORDS: nat := 1 + MATERIAL_WORDS
  const SPHERE_WORDS: nat := 1 + MATERIAL_WORDS
  const TRIANGLE_WORDS: nat := 3 + MATERIAL_WORDS
  const QUAD_WORDS: nat := 4 + MATERIAL_WORDS

  /** A surface description. `data` packs four scalars: x smoothness, y glossiness,
      z index of refraction, w light power (0 unless the material is a light). */
  datatype Material = Material(
    data: Vec4,
    diffuseColor: Vec4,     // zero for an emitter
    glossColor: Vec4,       // zero for an emitter
    refractionColor: Vec4,
    emissionColor: Vec4     // zero for a non-emitter
  ) {
    function Smoothness(): real { data.x }
    function Glossiness(): real { data.y }
    function RefractiveIndex(): real { data.z }
    function LightPower(): real { data.w }

    predicate IsEmitter() { LightPower() != 0.0 }

    /** The convention the declaration's comments state for the colour channels. */
    predicate FollowsEmitterConvention() {
      if IsEmitter() then diffuseColor == ZERO4 && glossColor == ZERO4
      else emissionColor == ZERO4
    }
  }

  datatype PointLight = PointLight(pos: Vec4, material: Material)

  /** `posRad` holds the centre in x, y, z and the radius in w. */
  datatype Sphere = Sphere(posRad: Vec4, material: Material) {
    function Centre(): Vec3 { Vec3(posRad.x, posRad.y, posRad.z) }
    function Radius(): real { posRad.w }
  }

  datatype Triangle = Triangle(p0: Vec4, p1: Vec4, p2: Vec4, material: Material)

  /** A bilinear patch; the corners are stored c00, c10, c01, c11. */
  datatype Quad = Quad(c00: Vec4, c10: Vec4, c01: Vec4, c11: Vec4, material: Material)

  predicate AllZero(ws: seq<Vec4>) {
    forall i :: 0 <= i < |ws| ==> ws[i] == ZERO4
  }

  // ---------------------------------------------------------------------------------
  // Layout: records as sequences of vec4 words, in declaration order

  function MaterialWords(m: Material): (ws: seq<Vec4>)
    ensures |ws| == MATERIAL_WORDS
    ensures ws[0] == Vec4(m.Smoothness(), m.Glossiness(), m.RefractiveIndex(), m.LightPower())
  {
    [m.data, m.diffuseColor, m.glossColor, m.refractionColor, m.emissionColor]
  }

  /** The embedded material comes after the geometry fields in every primitive. */
  function PointLightWords(p: PointLight): (ws: seq<Vec4>)
    ensures |ws| == POINT_LIGHT_WORDS
    ensures ws[1..] == MaterialWords(p.material)
  {
    [p.pos] + MaterialWords(p.material)
  }

  function SphereWords(s: Sphere): (ws: seq<Vec4>)
    ensures |ws| == SPHERE_WORDS
    ensures ws[1..] == MaterialWords(s.material)
  {
    [s.posRad] + MaterialWords(s.material)
  }

  function TriangleWords(t: Triangle): (ws: seq<Vec4>)
    ensures |ws| == TRIANGLE_WORDS
    ensures ws[3..] == MaterialWords(t.material)
  {
    [t.p0, t.p1, t.p2] + MaterialWords(t.material)
  }

  function QuadWords(q: Quad): (ws: seq<Vec4>)
    ensures |ws| == QUAD_WORDS
    ensures ws[4..] == MaterialWords(q.material)
  {
    [q.c00, q.c10, q.c01, q.c11] + MaterialWords(q.material)
  }

  /** The i-th word of a buffer slice, zero past its end. */
  function Word(ws: seq<Vec4>, i: nat): Vec4 {
    if i < |ws| then ws[i] else ZERO4
  }

  /** The decoders read a slice of the record's length back into the record it lays out. */
  function MaterialFromWords(ws: seq<Vec4>): (m: Material)
    ensures |ws| == MATERIAL_WORDS ==> MaterialWords(m) == ws
  {
    Material(Word(ws, 0), Word(ws, 1), Word(ws, 2), Word(ws, 3), Word(ws, 4))
  }

  function PointLightFromWords(ws: seq<Vec4>): (p: PointLight)
    ensures |ws| == POINT_LIGHT_WORDS ==> PointLightWords(p) == ws
  {
    PointLight(Word(ws, 0), MaterialFromWords(if |ws| < 1 then [] else ws[1..]))
  }

  function SphereFromWords(ws: seq<Vec4>): (s: Sphere)
    ensures |ws| == SPHERE_WORDS ==> SphereWords(s) == ws
  {
    Sphere(Word(ws, 0), MaterialFromWords(if |ws| < 1 then [] else ws[1..]))
  }

  function TriangleFromWords(ws: seq<Vec4>): (t: Triangle)
    ensures |ws| == TRIANGLE_WORDS ==> TriangleWords(t) == ws
  {
    Triangle(Word(ws, 0), Word(ws, 1), Word(ws, 2), MaterialFromWords(if |ws| < 3 then [] else ws[3..]))
  }

  function QuadFromWords(ws: seq<Vec4>): (q: Quad)
    ensures |ws| == QUAD_WORDS ==> QuadWords(q) == ws
  {
    Quad(Word(ws, 0), Word(ws, 1), Word(ws, 2), Word(ws, 3), MaterialFromWords(if |ws| < 4 then [] else ws[4..]))
  }

  /** Reading a record back from its words gives the record. */
  lemma DecodeEncode(m: Material, p: PointLight, s: Sphere, t: Triangle, q: Quad)
    ensures MaterialFromWords(MaterialWords(m)) == m
    ensures PointLightFromWords(PointLightWords(p)) == p
    ensures SphereFromWords(SphereWords(s)) == s
    ensures TriangleFromWords(TriangleWords(t)) == t
    ensures QuadFromWords(QuadWords(q)) == q
  {
  }

  /** Every slice of the right length is the layout of exactly one record. */
  lemma EncodeDecode(ws: seq<Vec4>)
    ensures |ws| == MATERIAL_WORDS ==> MaterialWords(MaterialFromWords(ws)) == ws
    ensures |ws| == POINT_LIGHT_WORDS ==> PointLightWords(PointLightFromWords(ws)) == ws
    ensures |ws| == SPHERE_WORDS ==> SphereWords(SphereFromWords(ws)) == ws
    ensures |ws| == TRIANGLE_WORDS ==> TriangleWords(TriangleFromWords(ws)) == ws
    ensures |ws| == QUAD_WORDS ==> QuadWords(QuadFromWords(ws)) == ws
  {
    if |ws| == MATERIAL_WORDS {
      assert MaterialWords(MaterialFromWords(ws)) == ws;
    }
    if |ws| == POINT_LIGHT_WORDS {
      assert MaterialWords(MaterialFromWords(ws[1..])) == ws[1..];
      assert ws == [ws[0]] + ws[1..];
    }
    if |ws| == TRIANGLE_WORDS {
      assert MaterialWords(MaterialFromWords(ws[3..])) == ws[3..];
      assert ws == [ws[0], ws[1], ws[2]] + ws[3..];
    }
    if |ws| == QUAD_WORDS {
      assert MaterialWords(MaterialFromWords(ws[4..])) == ws[4..];
      assert ws == [ws[0], ws[1], ws[2], ws[3]] + ws[4..];
    }
  }

  // ---------------------------------------------------------------------------------
  // Constructors (object.cpp)

  /** Material(): every field zero, so it is a non-emitter with no light power. */
  function DefaultMaterial(): (m: Material)
    ensures AllZero(MaterialWords(m))
    ensures !m.IsEmitter() && m.FollowsEmitterConvention()
  {
    Material(ZERO4, ZERO4, ZERO4, ZERO4, ZERO4)
  }

  /** Material(data, diffuse, gloss, refraction, emission): each argument lands in the
      word of the same position. */
  function NewMaterial(data: Vec4, diffuseColor: Vec4, glossColor: Vec4, refractionColor: Vec4,
                       emissionColor: Vec4): (m: Material)
    ensures MaterialWords(m) == [data, diffuseColor, glossColor, refractionColor, emissionColor]
    ensures m.LightPower() == data.w
  {
    Material(data, diffuseColor, glossColor, refractionColor, emissionColor)
  }

  function DefaultPointLight(): (p: PointLight)
    ensures AllZero(PointLightWords(p))
    ensures p.material.LightPower() == 0.0
  {
    PointLight(ZERO4, DefaultMaterial())
  }

  function NewPointLight(pos: Vec4, material: Material): (p: PointLight)
    ensures PointLightWords(p) == [pos] + MaterialWords(material)
  {
    PointLight(pos, material)
  }

  function DefaultSphere(): (s: Sphere)
    ensures AllZero(SphereWords(s))
    ensures s.Radius() == 0.0 && s.material.LightPower() == 0.0
  {
    Sphere(ZERO4, DefaultMaterial())
  }

  function NewSphere(posRad: Vec4, material: Material): (s: Sphere)
    ensures SphereWords(s) == [posRad] + MaterialWords(material)
    ensures s.Centre() == Vec3(posRad.x, posRad.y, posRad.z) && s.Radius() == posRad.w
  {
    Sphere(posRad, material)
  }

  function DefaultTriangle(): (t: Triangle)
    ensures AllZero(TriangleWords(t))
  {
    Triangle(ZERO4, ZERO4, ZERO4, DefaultMaterial())
  }

  /** Triangle(p0, p1, p2, material) as object.cpp writes it: the vertices are stored and
      the material argument is ignored in favour of the zero material. */
  function NewTriangle(p0: Vec4, p1: Vec4, p2: Vec4, material: Material): (t: Triangle)
    ensures TriangleWords(t) == [p0, p1, p2] + MaterialWords(DefaultMaterial())
  {
    Triangle(p0, p1, p2, DefaultMaterial())
  }

  /** The discrepancy: an emissive material passed to the value constructor is lost, so
      the triangle has no light power. */
  lemma NewTriangleDropsMaterial(p0: Vec4, p1: Vec4, p2: Vec4, material: Material)
    requires material != DefaultMaterial()
    ensures NewTriangle(p0, p1, p2, material).material != material
    ensures TriangleFromWords(TriangleWords(NewTriangle(p0, p1, p2, material))).material != material
  {
    DecodeEncode(material, DefaultPointLight(), DefaultSphere(), NewTriangle(p0, p1, p2, material), DefaultQuad());
  }

  /** The value constructor as the other four records have it: every argument stored. */
  function NewTriangleWithMaterial(p0: Vec4, p1: Vec4, p2: Vec4, material: Material): (t: Triangle)
    ensures TriangleWords(t) == [p0, p1, p2] + MaterialWords(material)
    ensures TriangleFromWords(TriangleWords(t)).material == material
  {
    Triangle(p0, p1, p2, material)
  }

  function DefaultQuad(): (q: Quad)
    ensures AllZero(QuadWords(q))
    ensures q.material.LightPower() == 0.0
  {
    Quad(ZERO4, ZERO4, ZERO4, ZERO4, DefaultMaterial())
  }

  function NewQuad(c00: Vec4, c10: Vec4, c01: Vec4, c11: Vec4, material: Material): (q: Quad)
    ensures QuadWords(q) == [c00, c10, c01, c11] + MaterialWords(material)
  {
    Quad(c00, c10, c01, c11, material)
  }
}
