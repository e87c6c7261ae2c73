/**
 The values the text batcher works on: text-draw requests, the font they
 reference, the vertices it emits and the batch descriptors it builds.

 Geometry is kept symbolic. A position or UV is a pair of reals (the
 source's floats, without rounding); a model matrix is an opaque value; the
 product `model * vec4(p, 0, 1)` is never evaluated but recorded as the pair
 (model, p), so two vertices are equal exactly when they were produced from
 the same inputs.
 */
module TextTypes {

  datatype Option<+T> = None | Some(value: T)

  /** A 2D vector (glm::vec2). */
  datatype Vec2 = Vec2(x: real, y: real)

  /** One 8-bit colour channel. */
  type Channel = x: nat | x < 256

  /** A packed RGBA colour, four 8-bit channels. */
  datatype Color = Color(r: Channel, g: Channel, b: Channel, a: Channel)

  /** A 4x4 model matrix, kept opaque: only its identity matters here. */
  datatype Mat4 = Mat4(entries: seq<real>)

  /** One corner of a glyph quad as the font reports it: screen position and atlas UV. */
  datatype Corner = Corner(position: Vec2, uvs: Vec2)

  /** The font's answer for one character: the quad's top-left and bottom-right corners. */
  datatype GlyphQuad = GlyphQuad(min: Corner, max: Corner)

  /**
   The font collaborator. `getGlyph(c, cursor)` is the font's own glyph
   query: it returns the quad for `c` drawn at `cursor` and the cursor moved
   past `c` (the advance rule belongs to the font, not to the batcher).
   */
  datatype Font = Font(
    atlasId: nat,
    fontSize: real,
    getGlyph: (char, Vec2) -> (GlyphQuad, Vec2))

  /**
   One recorded text-draw request (TextGlyph). Each `char` of `text` stands
   for one byte of the source's `std::string`: the batcher counts and draws
   bytes, not decoded characters.
   */
  datatype TextGlyph = TextGlyph(
    text: string,
    position: Vec2,
    color: Color,
    model: Mat4,
    font: Font,
    wrap: real,
    padding: int)

  /** `model * vec4(local.x, local.y, 0, 1)`, left unevaluated. */
  datatype Transformed = Transformed(model: Mat4, local: Vec2)

  /** One vertex of the uploaded buffer. */
  datatype Vertex = Vertex(position: Transformed, uvs: Vec2, color: Color)

  /** A value-initialised vertex: what a slot holds before anything is written to it. */
  const ZeroVertex: Vertex :=
    Vertex(Transformed(Mat4([]), Vec2(0.0, 0.0)), Vec2(0.0, 0.0), Color(0, 0, 0, 0))

  /** A batch descriptor: one draw call over `numVertices` vertices from `offset`, with one atlas bound. */
  datatype Batch = Batch(offset: nat, numVertices: nat, fontAtlasId: nat)

  /** `n` copies of `id`. */
  function Repeat(id: nat, n: nat): (r: seq<nat>)
    ensures |r| == n
  {
    if n == 0 then [] else Repeat(id, n - 1) + [id]
  }

  lemma {:induction false} RepeatAppend(id: nat, m: nat, n: nat)
    ensures Repeat(id, m) + Repeat(id, n) == Repeat(id, m + n)
  {
    if n > 0 {
      RepeatAppend(id, m, n - 1);
    }
  }

  /** The GL calls Render issues, in order. */
  datatype GlCall =
    | EnableVao
    | ActiveTexture0
    | BindTexture(texture: nat)
    | DrawTriangles(first: nat, count: nat)
    | DisableVao
}
