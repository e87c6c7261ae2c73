/**
 The text batcher (TextBatchRenderer.cpp): records text-draw requests,
 turns them into one vertex buffer and a list of batch descriptors, and
 replays the descriptors as draw calls.

 The GPU is modelled by what the batcher hands it: `uploads` is the
 sequence of vertex buffers sent with glBufferData/glBufferSubData, and
 Render returns the GL calls it issues.
 */
module TextBatchRenderer {
  import opened TextTypes
  import opened TextLayout
  import opened BatchGrouping

  /** For each descriptor, in order: select texture unit 0, bind its atlas, draw its vertex range. */
  function DrawCalls(bs: seq<Batch>): seq<GlCall>
  {
    if bs == [] then []
    else
      var b := bs[|bs| - 1];
      DrawCalls(bs[..|bs| - 1]) + [ActiveTexture0, BindTexture(b.fontAtlasId), DrawTriangles(b.offset, b.numVertices)]
  }

  /** What Render issues: nothing without descriptors, else the draw calls between enabling and disabling the vertex array. */
  function RenderCalls(bs: seq<Batch>): seq<GlCall>
  {
    if bs == [] then [] else [EnableVao] + DrawCalls(bs) + [DisableVao]
  }

  /** The k-th descriptor gives the k-th draw: three calls, binding its atlas and drawing exactly its range. */
  lemma {:induction false} DrawCallsAt(bs: seq<Batch>, k: nat)
    requires k < |bs|
    ensures |DrawCalls(bs)| == 3 * |bs|
    ensures DrawCalls(bs)[3 * k] == ActiveTexture0
    ensures DrawCalls(bs)[3 * k + 1] == BindTexture(bs[k].fontAtlasId)
    ensures DrawCalls(bs)[3 * k + 2] == DrawTriangles(bs[k].offset, bs[k].numVertices)
  {
    var init := bs[..|bs| - 1];
    if k < |init| {
      DrawCallsAt(init, k);
    } else if init != [] {
      DrawCallsAt(init, 0);
    }
  }

  /** The grouping step as it reads on descriptors that follow earlier, untouched ones. */
  lemma ExtendAfter(pre: seq<Batch>, bs: seq<Batch>, id: nat, offset: nat)
    ensures bs == [] || bs[|bs| - 1].fontAtlasId != id ==>
              pre + Extend(bs, id, offset) == pre + bs + [Batch(offset, 6, id)]
    ensures bs != [] && bs[|bs| - 1].fontAtlasId == id ==>
              var all := pre + bs;
              pre + Extend(bs, id, offset) ==
                all[..|all| - 1] + [all[|all| - 1].(numVertices := all[|all| - 1].numVertices + 6)]
  {
    if bs != [] && bs[|bs| - 1].fontAtlasId == id {
      var all := pre + bs;
      assert all[..|all| - 1] == pre + bs[..|bs| - 1];
    }
  }

  /** Characters of one atlas emitted in two runs are one run. */
  lemma RepeatStep(ids0: seq<nat>, id: nat, m: nat, n: nat, total: nat, ids: seq<nat>, next: seq<nat>)
    requires total == m + n
    requires ids == ids0 + Repeat(id, m) && next == ids + Repeat(id, n)
    ensures next == ids0 + Repeat(id, total)
  {
    RepeatAppend(id, m, n);
    assert next == ids0 + (Repeat(id, m) + Repeat(id, n));
  }

  lemma TotalCharsStep(gs: seq<TextGlyph>, i: nat)
    requires i < |gs|
    ensures TotalChars(gs[..i + 1]) == TotalChars(gs[..i]) + |gs[i].text|
  {
    assert gs[..i + 1][..i] == gs[..i];
  }

  lemma {:induction false} TotalCharsPrefix(gs: seq<TextGlyph>, i: nat)
    requires i <= |gs|
    ensures TotalChars(gs[..i]) <= TotalChars(gs)
    decreases |gs| - i
  {
    if i < |gs| {
      TotalCharsStep(gs, i);
      TotalCharsPrefix(gs, i + 1);
    } else {
      assert gs[..i] == gs;
    }
  }

  lemma LayoutSnoc(done: seq<TextGlyph>, g: TextGlyph)
    ensures EmittedIds(done + [g]) == EmittedIds(done) + Repeat(g.font.atlasId, CharCount(Chunks(g)))
    ensures Layout(done + [g]) == Layout(done) + GlyphVertices(g)
  {
    assert (done + [g])[..|done|] == done;
  }

  lemma ChunkStep(g: TextGlyph, chunks: seq<string>, c: nat, prefix: seq<Vertex>)
    requires c < |chunks|
    ensures CharCount(chunks[..c + 1]) == CharCount(chunks[..c]) + |chunks[c]|
    ensures prefix + ChunksVertices(g, chunks[..c + 1]) ==
              (prefix + ChunksVertices(g, chunks[..c])) + LineVertices(g, ChunksCursor(g, chunks[..c]), chunks[c])
    ensures ChunksCursor(g, chunks[..c + 1]) == NextLine(g, LineCursor(g, ChunksCursor(g, chunks[..c]), chunks[c]))
  {
    assert chunks[..c + 1][..c] == chunks[..c];
  }

  lemma CharStep(g: TextGlyph, cursor: Vec2, s: string, j: nat, prefix: seq<Vertex>)
    requires j < |s|
    ensures LineCursor(g, cursor, s[..j + 1]) == g.font.getGlyph(s[j], LineCursor(g, cursor, s[..j])).1
    ensures prefix + LineVertices(g, cursor, s[..j + 1]) ==
              (prefix + LineVertices(g, cursor, s[..j])) +
              QuadVertices(g.font.getGlyph(s[j], LineCursor(g, cursor, s[..j])).0, g.model, g.color)
  {
    assert s[..j + 1][..j] == s[..j];
  }

  /** After the requests before `i` are laid out, the buffer has room for every character of request `i`. */
  lemma RoomFor(gs: seq<TextGlyph>, i: nat)
    requires i < |gs|
    ensures 6 * |EmittedIds(gs[..i])| + 6 * |gs[i].text| <= 6 * TotalChars(gs)
    ensures gs[..i] + [gs[i]] == gs[..i + 1]
  {
    EmittedBound(gs[..i]);
    TotalCharsStep(gs, i);
    TotalCharsPrefix(gs, i + 1);
  }

  /** The first loop of GenerateBatches: add up the characters of all requests. */
  method CountCharacters(gs: seq<TextGlyph>) returns (total: nat)
    ensures total == TotalChars(gs)
  {
    total := 0;
    for i := 0 to |gs|
      invariant total == TotalChars(gs[..i])
    {
      TotalCharsStep(gs, i);
      total := total + |gs[i].text|;
    }
    assert gs[..|gs|] == gs;
  }

  /**
   Writes the two triangles of one glyph at `at`, advancing the write index
   by one per vertex; nothing else in the array changes.
   */
  method WriteQuad(vertices: array<Vertex>, at: nat, glyph: GlyphQuad, model: Mat4, color: Color,
                   ghost prefix: seq<Vertex>)
    returns (next: nat)
    requires at + 6 <= vertices.Length && vertices[..at] == prefix
    modifies vertices
    ensures next == at + 6
    ensures vertices[..next] == prefix + QuadVertices(glyph, model, color)
    ensures forall k :: next <= k < vertices.Length ==> vertices[k] == old(vertices[k])
  {
    next := at;
    // first triangle
    vertices[next] := Vertex(Transformed(model, Vec2(glyph.min.position.x, glyph.min.position.y)),
                             Vec2(glyph.min.uvs.x, glyph.min.uvs.y), color);
    next := next + 1;
    vertices[next] := Vertex(Transformed(model, Vec2(glyph.max.position.x, glyph.min.position.y)),
                             Vec2(glyph.max.uvs.x, glyph.min.uvs.y), color);
    next := next + 1;
    vertices[next] := Vertex(Transformed(model, Vec2(glyph.max.position.x, glyph.max.position.y)),
                             Vec2(glyph.max.uvs.x, glyph.max.uvs.y), color);
    next := next + 1;
    // second triangle
    vertices[next] := Vertex(Transformed(model, Vec2(glyph.min.position.x, glyph.min.position.y)),
                             Vec2(glyph.min.uvs.x, glyph.min.uvs.y), color);
    next := next + 1;
    vertices[next] := Vertex(Transformed(model, Vec2(glyph.max.position.x, glyph.max.position.y)),
                             Vec2(glyph.max.uvs.x, glyph.max.uvs.y), color);
    next := next + 1;
    vertices[next] := Vertex(Transformed(model, Vec2(glyph.min.position.x, glyph.max.position.y)),
                             Vec2(glyph.min.uvs.x, glyph.max.uvs.y), color);
    next := next + 1;
    assert vertices[..next] == vertices[..at] + vertices[at..next];
  }

  /**
   The bookkeeping of GenerateBatches after the characters `ids` were
   emitted: the write index and the offset both stand at six vertices per
   character, `currentFont` counts the characters, and `prevFontId` is the
   last character's atlas.
   */
  ghost predicate Counters(currentVertex: nat, currentFont: nat, prevFontId: nat, offset: nat, ids: seq<nat>)
  {
    currentVertex == offset == 6 * |ids| && currentFont == |ids| &&
    (ids != [] ==> prevFontId == ids[|ids| - 1])
  }

  class TextBatcher {
    /** The recorded requests (m_Glyphs). */
    var glyphs: seq<TextGlyph>
    /** The batch descriptors (m_Batches). */
    var batches: seq<Batch>
    /** Every vertex buffer uploaded to the GPU, oldest first. */
    var uploads: seq<seq<Vertex>>

    constructor ()
      ensures glyphs == [] && batches == [] && uploads == []
    {
      glyphs, batches, uploads := [], [], [];
    }

    /**
     Records one request. A missing font drops it silently; otherwise the
     request is appended with exactly the given fields.
     */
    method AddText(text: string, font: Option<Font>, position: Vec2, padding: int, wrap: real,
                   color: Color, model: Mat4)
      modifies this
      ensures font.None? ==> glyphs == old(glyphs)
      ensures font.Some? ==>
                glyphs == old(glyphs) + [TextGlyph(text, position, color, model, font.value, wrap, padding)]
      ensures batches == old(batches) && uploads == old(uploads)
    {
      if font.None? {
        return;
      }
      var newTextGlyph := TextGlyph(text, position, color, model, font.value, wrap, padding);
      glyphs := glyphs + [newTextGlyph];
    }

    /** Builds the batches and uploads the vertices, unless nothing was recorded. */
    method End()
      modifies this
      ensures glyphs == old(glyphs)
      ensures old(glyphs) == [] ==> batches == old(batches) && uploads == old(uploads)
      ensures old(glyphs) != [] ==>
                batches == old(batches) + Grouping(EmittedIds(glyphs)) &&
                uploads == old(uploads) + [UploadedBuffer(glyphs)]
    {
      if glyphs == [] {
        return;
      }
      GenerateBatches();
    }

    /**
     Lays out every request into a buffer pre-sized for six vertices per
     character, appends the greedy grouping of the emitted characters to
     the descriptors (earlier descriptors untouched) and uploads the buffer.
     */
    method GenerateBatches()
      modifies this`batches, this`uploads
      ensures batches == old(batches) + Grouping(EmittedIds(glyphs))
      ensures uploads == old(uploads) + [UploadedBuffer(glyphs)]
    {
      var vertices := BuildVertices(glyphs);
      uploads := uploads + [vertices[..]];
    }

    /**
     The part of GenerateBatches before the upload: counts the characters,
     allocates the buffer with value-initialised slots, and runs the loop
     over requests. The loop over a request's chunks and the loop over a
     chunk's characters are EmitGlyph, EmitLine and EmitCharacter.
     */
    method BuildVertices(requests: seq<TextGlyph>) returns (vertices: array<Vertex>)
      modifies this`batches
      ensures fresh(vertices)
      ensures batches == old(batches) + Grouping(EmittedIds(requests))
      ensures vertices[..] == UploadedBuffer(requests)
    {
      var offset: nat, prevFontId: nat := 0, 0;
      var currentFont: nat := 0;
      var total := CountCharacters(requests);
      var currentVertex: nat := 0;
      vertices := new Vertex[total * 6](_ => ZeroVertex);
      ghost var ids: seq<nat> := [];

      for i := 0 to |requests|
        invariant vertices.Length == 6 * TotalChars(requests)
        invariant ids == EmittedIds(requests[..i])
        invariant Counters(currentVertex, currentFont, prevFontId, offset, ids)
        invariant batches == old(batches) + Grouping(ids)
        invariant currentVertex <= vertices.Length
        invariant vertices[..currentVertex] == Layout(requests[..i])
        invariant forall k :: currentVertex <= k < vertices.Length ==> vertices[k] == ZeroVertex
      {
        RoomFor(requests, i);
        LayoutSnoc(requests[..i], requests[i]);
        currentVertex, currentFont, prevFontId, offset, ids :=
          EmitGlyph(vertices, requests[i], Layout(requests[..i]),
                    currentVertex, currentFont, prevFontId, offset, old(batches), ids);
      }

      assert requests[..|requests|] == requests;
      UploadedBufferFrom(requests, vertices, currentVertex);
    }

    /**
     One request: its chunks are none when it asks for wrapping (wrapping
     is not implemented) and its whole text otherwise; each chunk is laid
     out as a line from the cursor, which afterwards returns to the
     request's x and moves down by font size plus padding.
     */
    method EmitGlyph(vertices: array<Vertex>, g: TextGlyph, ghost prefix: seq<Vertex>,
                     vertex0: nat, font0: nat, prev0: nat, offset0: nat,
                     ghost base: seq<Batch>, ghost ids0: seq<nat>)
      returns (currentVertex: nat, currentFont: nat, prevFontId: nat, offset: nat, ghost ids: seq<nat>)
      requires Counters(vertex0, font0, prev0, offset0, ids0) && batches == base + Grouping(ids0)
      requires vertex0 + 6 * |g.text| <= vertices.Length
      requires vertices[..vertex0] == prefix
      requires forall k :: vertex0 <= k < vertices.Length ==> vertices[k] == ZeroVertex
      modifies this`batches, vertices
      ensures ids == ids0 + Repeat(g.font.atlasId, CharCount(Chunks(g)))
      ensures Counters(currentVertex, currentFont, prevFontId, offset, ids) && batches == base + Grouping(ids)
      ensures currentVertex <= vertices.Length
      ensures vertices[..currentVertex] == prefix + GlyphVertices(g)
      ensures forall k :: currentVertex <= k < vertices.Length ==> vertices[k] == ZeroVertex
    {
      currentVertex, currentFont, prevFontId, offset, ids := vertex0, font0, prev0, offset0, ids0;
      var textChunks: seq<string> := [];
      var tempPos := g.position;
      if g.wrap > 1.0 {
        // Width-based wrapping is not implemented: the request gets no chunk.
      } else {
        textChunks := textChunks + [g.text];
      }
      assert textChunks == Chunks(g);
      tempPos := g.position;

      ghost var atlas := g.font.atlasId;
      assert textChunks[..0] == [];
      for c := 0 to |textChunks|
        invariant ids == ids0 + Repeat(atlas, CharCount(textChunks[..c]))
        invariant Counters(currentVertex, currentFont, prevFontId, offset, ids) && batches == base + Grouping(ids)
        invariant tempPos == ChunksCursor(g, textChunks[..c])
        invariant currentVertex <= vertices.Length
        invariant vertices[..currentVertex] == prefix + ChunksVertices(g, textChunks[..c])
        invariant forall k :: currentVertex <= k < vertices.Length ==> vertices[k] == ZeroVertex
        invariant c < |textChunks| ==> currentVertex + 6 * |textChunks[c]| <= vertices.Length
      {
        tempPos, currentVertex, currentFont, prevFontId, offset, ids :=
          EmitChunk(vertices, g, textChunks, c, tempPos, prefix,
                    currentVertex, currentFont, prevFontId, offset, base, ids0, ids);
      }
      assert textChunks[..|textChunks|] == textChunks;
    }

    /**
     The `c`-th chunk of a request: its characters are laid out as one line
     from the cursor (EmitLine), then the cursor moves to the start of the
     next line: back to the request's x, down by font size plus padding.
     */
    method EmitChunk(vertices: array<Vertex>, g: TextGlyph, chunks: seq<string>, c: nat, tempPos: Vec2,
                     ghost prefix: seq<Vertex>,
                     currentVertex: nat, currentFont: nat, prevFontId: nat, offset: nat,
                     ghost base: seq<Batch>, ghost ids0: seq<nat>, ghost ids: seq<nat>)
      returns (nextPos: Vec2, nextVertex: nat, nextFont: nat, nextPrev: nat, nextOffset: nat,
               ghost nextIds: seq<nat>)
      requires c < |chunks|
      requires ids == ids0 + Repeat(g.font.atlasId, CharCount(chunks[..c]))
      requires Counters(currentVertex, currentFont, prevFontId, offset, ids) && batches == base + Grouping(ids)
      requires tempPos == ChunksCursor(g, chunks[..c])
      requires currentVertex + 6 * |chunks[c]| <= vertices.Length
      requires vertices[..currentVertex] == prefix + ChunksVertices(g, chunks[..c])
      modifies this`batches, vertices
      ensures nextVertex == currentVertex + 6 * |chunks[c]|
      ensures nextIds == ids0 + Repeat(g.font.atlasId, CharCount(chunks[..c + 1]))
      ensures Counters(nextVertex, nextFont, nextPrev, nextOffset, nextIds) && batches == base + Grouping(nextIds)
      ensures nextPos == ChunksCursor(g, chunks[..c + 1])
      ensures vertices[..nextVertex] == prefix + ChunksVertices(g, chunks[..c + 1])
      ensures forall k :: nextVertex <= k < vertices.Length ==> vertices[k] == old(vertices[k])
    {
      ChunkStep(g, chunks, c, prefix);
      var lineEnd;
      lineEnd, nextVertex, nextFont, nextPrev, nextOffset, nextIds :=
        EmitLine(vertices, g, chunks[c], tempPos, prefix + ChunksVertices(g, chunks[..c]),
                 currentVertex, currentFont, prevFontId, offset, base, ids);
      RepeatStep(ids0, g.font.atlasId, CharCount(chunks[..c]), |chunks[c]|, CharCount(chunks[..c + 1]), ids, nextIds);
      // Move to the next line.
      nextPos := Vec2(g.position.x, lineEnd.y + g.font.fontSize + g.padding as real);
    }

    /**
     Lays out one line (chunk) from `cursor`: each character, in order,
     is emitted by EmitCharacter. Returns the write state and leaves the
     cursor where the font put it after the last character.
     */
    method EmitLine(vertices: array<Vertex>, g: TextGlyph, textStr: string, cursor: Vec2,
                    ghost prefix: seq<Vertex>,
                    vertex0: nat, font0: nat, prev0: nat, offset0: nat,
                    ghost base: seq<Batch>, ghost ids0: seq<nat>)
      returns (tempPos: Vec2, currentVertex: nat, currentFont: nat, prevFontId: nat, offset: nat, ghost ids: seq<nat>)
      requires Counters(vertex0, font0, prev0, offset0, ids0) && batches == base + Grouping(ids0)
      requires vertex0 + 6 * |textStr| <= vertices.Length && vertices[..vertex0] == prefix
      modifies this`batches, vertices
      ensures tempPos == LineCursor(g, cursor, textStr)
      ensures ids == ids0 + Repeat(g.font.atlasId, |textStr|)
      ensures Counters(currentVertex, currentFont, prevFontId, offset, ids) && batches == base + Grouping(ids)
      ensures vertices[..currentVertex] == prefix + LineVertices(g, cursor, textStr)
      ensures forall k :: currentVertex <= k < vertices.Length ==> vertices[k] == old(vertices[k])
    {
      tempPos := cursor;
      currentVertex, currentFont, prevFontId, offset, ids := vertex0, font0, prev0, offset0, ids0;
      assert textStr[..0] == [];
      for j := 0 to |textStr|
        invariant currentVertex == vertex0 + 6 * j
        invariant ids == ids0 + Repeat(g.font.atlasId, j)
        invariant Counters(currentVertex, currentFont, prevFontId, offset, ids) && batches == base + Grouping(ids)
        invariant tempPos == LineCursor(g, cursor, textStr[..j])
        invariant vertices[..currentVertex] == prefix + LineVertices(g, cursor, textStr[..j])
        invariant forall k :: currentVertex <= k < vertices.Length ==> vertices[k] == old(vertices[k])
      {
        tempPos, currentVertex, currentFont, prevFontId, offset, ids :=
          EmitCharacter(vertices, g, textStr, j, cursor, prefix, tempPos,
                        currentVertex, currentFont, prevFontId, offset, base, ids0, ids);
      }
      assert textStr[..|textStr|] == textStr;
    }

    /**
     The `j`-th character of a line: asks the font for its glyph at the
     cursor, writes the glyph's six vertices at the write index, and adds
     the character to the batches; the vertex offset advances by six.
     */
    method EmitCharacter(vertices: array<Vertex>, g: TextGlyph, textStr: string, j: nat, cursor: Vec2,
                         ghost prefix: seq<Vertex>, tempPos: Vec2,
                         currentVertex: nat, currentFont: nat, prevFontId: nat, offset: nat,
                         ghost base: seq<Batch>, ghost ids0: seq<nat>, ghost ids: seq<nat>)
      returns (advanced: Vec2, nextVertex: nat, nextFont: nat, nextPrev: nat, nextOffset: nat,
               ghost nextIds: seq<nat>)
      requires j < |textStr|
      requires ids == ids0 + Repeat(g.font.atlasId, j)
      requires Counters(currentVertex, currentFont, prevFontId, offset, ids) && batches == base + Grouping(ids)
      requires tempPos == LineCursor(g, cursor, textStr[..j])
      requires currentVertex + 6 <= vertices.Length
      requires vertices[..currentVertex] == prefix + LineVertices(g, cursor, textStr[..j])
      modifies this`batches, vertices
      ensures nextVertex == currentVertex + 6
      ensures nextIds == ids0 + Repeat(g.font.atlasId, j + 1)
      ensures Counters(nextVertex, nextFont, nextPrev, nextOffset, nextIds) && batches == base + Grouping(nextIds)
      ensures advanced == LineCursor(g, cursor, textStr[..j + 1])
      ensures vertices[..nextVertex] == prefix + LineVertices(g, cursor, textStr[..j + 1])
      ensures forall k :: nextVertex <= k < vertices.Length ==> vertices[k] == old(vertices[k])
    {
      CharStep(g, cursor, textStr, j, prefix);
      var (glyph, moved) := g.font.getGlyph(textStr[j], tempPos);
      advanced := moved;
      nextVertex := WriteQuad(vertices, currentVertex, glyph, g.model, g.color,
                              prefix + LineVertices(g, cursor, textStr[..j]));

      var atlasId := g.font.atlasId;
      AddToBatches(offset, currentFont, prevFontId, atlasId, base, ids);
      nextFont := currentFont + 1;
      nextPrev := atlasId;
      nextOffset := offset + 6;
      nextIds := ids + [atlasId];
    }

    /**
     The grouping step for one character at `offset`: the first character
     (`currentFont == 0`) or one on a different atlas than the previous
     character opens a descriptor of six vertices; any other grows the
     last descriptor by six.
     */
    method AddToBatches(offset: nat, currentFont: nat, prevFontId: nat, atlasId: nat,
                        ghost base: seq<Batch>, ghost ids: seq<nat>)
      requires offset == 6 * |ids| && currentFont == |ids|
      requires ids != [] ==> prevFontId == ids[|ids| - 1]
      requires batches == base + Grouping(ids)
      modifies this`batches
      ensures batches == base + Grouping(ids + [atlasId])
    {
      GroupingSnoc(ids, atlasId);
      GroupingChained(ids);
      ExtendAfter(base, Grouping(ids), atlasId, offset);
      if currentFont == 0 {
        batches := batches + [Batch(offset, 6, atlasId)];
      } else if atlasId != prevFontId {
        batches := batches + [Batch(offset, 6, atlasId)];
      } else {
        var last := batches[|batches| - 1];
        batches := batches[..|batches| - 1] + [last.(numVertices := last.numVertices + 6)];
      }
    }

    /** Issues one draw per descriptor, in list order; nothing at all when there are none. */
    method Render() returns (calls: seq<GlCall>)
      ensures calls == RenderCalls(batches)
    {
      if batches == [] {
        return [];
      }
      calls := [EnableVao];
      for i := 0 to |batches|
        invariant calls == [EnableVao] + DrawCalls(batches[..i])
      {
        var batch := batches[i];
        assert batches[..i + 1][..i] == batches[..i];
        calls := calls + [ActiveTexture0, BindTexture(batch.fontAtlasId), DrawTriangles(batch.offset, batch.numVertices)];
      }
      assert batches[..|batches|] == batches;
      calls := calls + [DisableVao];
    }
  }
}
