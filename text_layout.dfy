/**
 The vertices GenerateBatches emits for the recorded text requests
 (TextBatchRenderer.cpp), as functions of the requests.

 A request is cut into chunks (lines). Width-based wrapping is not
 implemented: a request with `wrap > 1` gets no chunk at all, any other
 request gets its whole text as one chunk. Every character of every chunk
 becomes one quad of six vertices from the font's glyph at the current
 cursor; after a chunk the cursor returns to the request's x and moves
 down by the font size plus the padding.

 The functions are defined from the end of their sequence (`s[..|s|-1]`
 and then the last element) so that they follow the order in which the
 batcher's loops produce the output.
 */
module TextLayout {
  import opened TextTypes

  /** The two triangles for one glyph: (min,min) (max,min) (max,max), then (min,min) (max,max) (min,max). */
  function QuadVertices(q: GlyphQuad, model: Mat4, color: Color): (vs: seq<Vertex>)
    ensures |vs| == 6
    ensures IsQuad(vs)
    ensures vs[0] == Vertex(Transformed(model, q.min.position), q.min.uvs, color)
    ensures vs[2] == Vertex(Transformed(model, q.max.position), q.max.uvs, color)
  {
    var lo, hi := q.min, q.max;
    [ Vertex(Transformed(model, Vec2(lo.position.x, lo.position.y)), Vec2(lo.uvs.x, lo.uvs.y), color),
      Vertex(Transformed(model, Vec2(hi.position.x, lo.position.y)), Vec2(hi.uvs.x, lo.uvs.y), color),
      Vertex(Transformed(model, Vec2(hi.position.x, hi.position.y)), Vec2(hi.uvs.x, hi.uvs.y), color),
      Vertex(Transformed(model, Vec2(lo.position.x, lo.position.y)), Vec2(lo.uvs.x, lo.uvs.y), color),
      Vertex(Transformed(model, Vec2(hi.position.x, hi.position.y)), Vec2(hi.uvs.x, hi.uvs.y), color),
      Vertex(Transformed(model, Vec2(lo.position.x, hi.position.y)), Vec2(lo.uvs.x, hi.uvs.y), color) ]
  }

  /**
   Six vertices forming two triangles over one axis-aligned rectangle: the
   triangles share the diagonal from the first to the third vertex, the
   other two vertices are the remaining corners, and every vertex has the
   same model matrix and colour.
   */
  ghost predicate IsQuad(vs: seq<Vertex>)
  {
    |vs| == 6 &&
    vs[3] == vs[0] && vs[4] == vs[2] &&
    (forall k :: 0 <= k < 6 ==>
       vs[k].position.model == vs[0].position.model && vs[k].color == vs[0].color) &&
    vs[1].position.local == Vec2(vs[2].position.local.x, vs[0].position.local.y) &&
    vs[1].uvs == Vec2(vs[2].uvs.x, vs[0].uvs.y) &&
    vs[5].position.local == Vec2(vs[0].position.local.x, vs[2].position.local.y) &&
    vs[5].uvs == Vec2(vs[0].uvs.x, vs[2].uvs.y)
  }

  /** The k-th group of six vertices. */
  function Block(vs: seq<Vertex>, k: nat): seq<Vertex>
    requires 6 * k + 6 <= |vs|
  {
    vs[6 * k .. 6 * k + 6]
  }

  /** `vs` is a whole number of quads, one after the other. */
  ghost predicate AllQuads(vs: seq<Vertex>)
  {
    |vs| % 6 == 0 && forall k: nat :: k < |vs| / 6 ==> IsQuad(Block(vs, k))
  }

  /** The chunks a request is laid out in: none when `wrap > 1` (wrapping is unimplemented), else its whole text. */
  function Chunks(g: TextGlyph): seq<string>
  {
    if g.wrap > 1.0 then [] else [g.text]
  }

  /** Number of characters in `chunks`. */
  function CharCount(chunks: seq<string>): nat
  {
    if chunks == [] then 0 else CharCount(chunks[..|chunks| - 1]) + |chunks[|chunks| - 1]|
  }

  /** Cursor after the font has placed the characters of `s`, starting at `cursor`. */
  function LineCursor(g: TextGlyph, cursor: Vec2, s: string): Vec2
  {
    if s == [] then cursor
    else g.font.getGlyph(s[|s| - 1], LineCursor(g, cursor, s[..|s| - 1])).1
  }

  /** Vertices of the characters of `s` laid out from `cursor`. */
  function LineVertices(g: TextGlyph, cursor: Vec2, s: string): seq<Vertex>
  {
    if s == [] then []
    else
      var glyph := g.font.getGlyph(s[|s| - 1], LineCursor(g, cursor, s[..|s| - 1])).0;
      LineVertices(g, cursor, s[..|s| - 1]) + QuadVertices(glyph, g.model, g.color)
  }

  /** Cursor at the start of the next line: back to the request's x, down by font size plus padding. */
  function NextLine(g: TextGlyph, cursor: Vec2): Vec2
  {
    Vec2(g.position.x, cursor.y + g.font.fontSize + g.padding as real)
  }

  /** Cursor once the lines `chunks` are laid out, starting at the request's position. */
  function ChunksCursor(g: TextGlyph, chunks: seq<string>): Vec2
  {
    if chunks == [] then g.position
    else
      var init := chunks[..|chunks| - 1];
      NextLine(g, LineCursor(g, ChunksCursor(g, init), chunks[|chunks| - 1]))
  }

  /** Vertices of the lines `chunks`, each line starting where the previous one left the cursor. */
  function ChunksVertices(g: TextGlyph, chunks: seq<string>): seq<Vertex>
  {
    if chunks == [] then []
    else
      var init := chunks[..|chunks| - 1];
      ChunksVertices(g, init) + LineVertices(g, ChunksCursor(g, init), chunks[|chunks| - 1])
  }

  /** All vertices of one request. */
  function GlyphVertices(g: TextGlyph): seq<Vertex>
  {
    ChunksVertices(g, Chunks(g))
  }

  /** All vertices of the requests `gs`, in order. */
  function Layout(gs: seq<TextGlyph>): seq<Vertex>
  {
    if gs == [] then [] else Layout(gs[..|gs| - 1]) + GlyphVertices(gs[|gs| - 1])
  }

  /** The font atlas id of every character that is laid out, in order. */
  function EmittedIds(gs: seq<TextGlyph>): seq<nat>
  {
    if gs == [] then []
    else
      var g := gs[|gs| - 1];
      EmittedIds(gs[..|gs| - 1]) + Repeat(g.font.atlasId, CharCount(Chunks(g)))
  }

  /** Number of characters in all requests: the vertex buffer is sized for six vertices each. */
  function TotalChars(gs: seq<TextGlyph>): nat
  {
    if gs == [] then 0 else TotalChars(gs[..|gs| - 1]) + |gs[|gs| - 1].text|
  }

  /** The buffer GenerateBatches uploads: the laid-out vertices, then value-initialised slots up to the pre-sized length. */
  function UploadedBuffer(gs: seq<TextGlyph>): (vs: seq<Vertex>)
    ensures |vs| == 6 * TotalChars(gs)
  {
    EmittedBound(gs);
    LayoutLength(gs);
    Layout(gs) + Zeros(6 * TotalChars(gs) - |Layout(gs)|)
  }

  /** `n` value-initialised vertices. */
  function Zeros(n: nat): (vs: seq<Vertex>)
    ensures |vs| == n
    ensures forall k :: 0 <= k < n ==> vs[k] == ZeroVertex
  {
    if n == 0 then [] else Zeros(n - 1) + [ZeroVertex]
  }

  /**
   A buffer of the uploaded length that starts with the laid-out vertices
   and holds value-initialised slots after them is the uploaded buffer.
   */
  lemma UploadedBufferFrom(gs: seq<TextGlyph>, buffer: array<Vertex>, written: nat)
    requires buffer.Length == 6 * TotalChars(gs) && written <= buffer.Length
    requires buffer[..written] == Layout(gs)
    requires forall k :: written <= k < buffer.Length ==> buffer[k] == ZeroVertex
    ensures buffer[..] == UploadedBuffer(gs)
  {
    var vs, u := buffer[..], UploadedBuffer(gs);
    forall k | 0 <= k < |vs| ensures vs[k] == u[k] {
      if k < written {
        assert vs[k] == vs[..written][k];
      }
    }
  }

  // ---------------------------------------------------------------------------
  // Counting

  /** A request emits its whole text, or nothing when it asks for wrapping. */
  lemma ChunksCount(g: TextGlyph)
    ensures CharCount(Chunks(g)) == if g.wrap > 1.0 then 0 else |g.text|
  {
    if g.wrap <= 1.0 {
      assert Chunks(g)[..0] == [];
    }
  }

  lemma {:induction false} LineVerticesLength(g: TextGlyph, cursor: Vec2, s: string)
    ensures |LineVertices(g, cursor, s)| == 6 * |s|
  {
    if s != [] {
      LineVerticesLength(g, cursor, s[..|s| - 1]);
    }
  }

  lemma {:induction false} ChunksVerticesLength(g: TextGlyph, chunks: seq<string>)
    ensures |ChunksVertices(g, chunks)| == 6 * CharCount(chunks)
  {
    if chunks != [] {
      var init := chunks[..|chunks| - 1];
      ChunksVerticesLength(g, init);
      LineVerticesLength(g, ChunksCursor(g, init), chunks[|chunks| - 1]);
    }
  }

  /** Six vertices per emitted character. */
  lemma {:induction false} LayoutLength(gs: seq<TextGlyph>)
    ensures |Layout(gs)| == 6 * |EmittedIds(gs)|
  {
    if gs != [] {
      LayoutLength(gs[..|gs| - 1]);
      ChunksVerticesLength(gs[|gs| - 1], Chunks(gs[|gs| - 1]));
    }
  }

  /**
   At most every character is emitted; all of them are exactly when every
   request that asks for wrapping has empty text.
   */
  lemma {:induction false} EmittedBound(gs: seq<TextGlyph>)
    ensures |EmittedIds(gs)| <= TotalChars(gs)
    ensures |EmittedIds(gs)| == TotalChars(gs) <==>
              forall i :: 0 <= i < |gs| && gs[i].wrap > 1.0 ==> gs[i].text == []
  {
    if gs != [] {
      var init, g := gs[..|gs| - 1], gs[|gs| - 1];
      EmittedBound(init);
      ChunksCount(g);
      forall i | 0 <= i < |init| ensures init[i] == gs[i] { }
      if |EmittedIds(gs)| == TotalChars(gs) {
        assert |EmittedIds(init)| == TotalChars(init);
        assert g.wrap > 1.0 ==> g.text == [];
      }
    }
  }

  /** A request that asks for wrapping adds neither vertices nor emitted characters. */
  lemma WrappedEmitsNothing(gs: seq<TextGlyph>, g: TextGlyph)
    requires g.wrap > 1.0
    ensures Layout(gs + [g]) == Layout(gs)
    ensures EmittedIds(gs + [g]) == EmittedIds(gs)
  {
    assert (gs + [g])[..|gs|] == gs;
  }

  // ---------------------------------------------------------------------------
  // Quad structure

  lemma AllQuadsConcat(a: seq<Vertex>, b: seq<Vertex>)
    requires AllQuads(a) && AllQuads(b)
    ensures AllQuads(a + b)
  {
    var n := |a| / 6;
    forall k: nat | k < |a + b| / 6 ensures IsQuad(Block(a + b, k)) {
      if k < n {
        assert Block(a + b, k) == Block(a, k);
      } else {
        assert Block(a + b, k) == Block(b, k - n);
      }
    }
  }

  lemma {:induction false} LineAllQuads(g: TextGlyph, cursor: Vec2, s: string)
    ensures AllQuads(LineVertices(g, cursor, s))
  {
    if s != [] {
      LineAllQuads(g, cursor, s[..|s| - 1]);
      var q := QuadVertices(g.font.getGlyph(s[|s| - 1], LineCursor(g, cursor, s[..|s| - 1])).0, g.model, g.color);
      assert Block(q, 0) == q;
      AllQuadsConcat(LineVertices(g, cursor, s[..|s| - 1]), q);
    }
  }

  lemma {:induction false} ChunksAllQuads(g: TextGlyph, chunks: seq<string>)
    ensures AllQuads(ChunksVertices(g, chunks))
  {
    if chunks != [] {
      var init := chunks[..|chunks| - 1];
      ChunksAllQuads(g, init);
      LineAllQuads(g, ChunksCursor(g, init), chunks[|chunks| - 1]);
      AllQuadsConcat(ChunksVertices(g, init), LineVertices(g, ChunksCursor(g, init), chunks[|chunks| - 1]));
    }
  }

  /** Every emitted character is exactly six consecutive vertices forming two triangles over its glyph's rectangle. */
  lemma {:induction false} LayoutAllQuads(gs: seq<TextGlyph>)
    ensures AllQuads(Layout(gs))
  {
    if gs != [] {
      LayoutAllQuads(gs[..|gs| - 1]);
      ChunksAllQuads(gs[|gs| - 1], Chunks(gs[|gs| - 1]));
      AllQuadsConcat(Layout(gs[..|gs| - 1]), GlyphVertices(gs[|gs| - 1]));
    }
  }
}
