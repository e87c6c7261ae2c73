# Scion2D text batcher, modelled in Dafny

This project models `TextBatchRenderer` from Scion2D's rendering core
(`SCION_RENDERING/Rendering/Core/TextBatchRenderer.cpp`). The batcher has
three phases:

- **`AddText`** records a text-draw request. A request without a font is
  dropped silently.
- **`End` / `GenerateBatches`** lays out all recorded requests:
  - It counts the characters and pre-sizes a vertex buffer to six
    vertices per character.
  - It cuts each request into chunks (lines). Width-based wrapping is an
    unimplemented stub: a request with `wrap > 1` gets no chunk, any other
    request gets its whole text as one chunk.
  - It writes the two triangles of each character's glyph quad, one after
    the other.
  - It groups the characters into batch descriptors
    `{offset, numVertices, fontAtlasId}` with a greedy, order-preserving
    rule. The first character, or one whose atlas differs from the
    previous character's, opens a descriptor of six vertices. Any other
    character grows the last descriptor by six.
  - Finally it uploads the whole buffer.
- **`Render`** issues one draw per descriptor, in list order.

Files:

- `text_types.dfy` (module `TextTypes`) holds the values: requests, the
  font, vertices, descriptors and GL calls.
- `text_layout.dfy` (module `TextLayout`) holds the layout as functions of
  the requests (`Layout`, `EmittedIds`, `UploadedBuffer`) and the lemmas
  about them: sizes, wrapping and quad shape.
- `batch_grouping.dfy` (module `BatchGrouping`) holds the grouping rule as
  a function `Grouping` of the stream of atlas ids. Its lemmas show that
  the result is the run-length encoding of that stream: well-formed,
  order-preserving and unique.
- `text_batcher.dfy` (module `TextBatchRenderer`) holds the class
  `TextBatcher`, with the fields `glyphs`, `batches` and `uploads`.
  - `GenerateBatches` fills an `array<Vertex>` in place with the source's
    nested loops over requests, chunks and characters. Each loop level is
    its own method with its own loop invariants.
  - Each method is proved against the layout and grouping functions.

The font is a value carrying its atlas id, its size and its glyph query
`getGlyph(c, cursor)`. The query returns the glyph quad and the advanced
cursor, so cursor advance is the font's business. A vertex position is
kept as the unevaluated pair (model matrix, local point) instead of the
float product `model * vec4(p, 0, 1)`.

Three consequences of the code are worth stating:

- The code never splits the text: a request with `wrap <= 1` is one chunk
  and a request with `wrap > 1` gets none.
- One could expect the write index to reach the buffer's length exactly
  when no request asks for wrapping. That is not quite so. A request with
  `wrap > 1` and empty text loses nothing. `TextLayout.EmittedBound` states
  the exact condition: every request with `wrap > 1` has empty text.
- The slots a `wrap > 1` request reserved stay value-initialised, and they
  are uploaded with the rest (`TextLayout.UploadedBuffer`).

## Model

All source cells refer to `SCION_RENDERING/Rendering/Core/TextBatchRenderer.cpp`.

| member | source | states |
|---|---|---|
| TextBatchRenderer.TextBatcher.constructor | SCION_RENDERING/Rendering/Core/TextBatchRenderer.cpp:118-122 | a new batcher has no requests, no descriptors and has uploaded nothing |
| TextBatchRenderer.TextBatcher.AddText | SCION_RENDERING/Rendering/Core/TextBatchRenderer.cpp:147-165 | a missing font leaves the request list unchanged; otherwise exactly one request carrying the given text, position, colour, model, font, wrap and padding is appended after the unchanged earlier ones; descriptors and uploads are untouched |
| TextBatchRenderer.TextBatcher.End | SCION_RENDERING/Rendering/Core/TextBatchRenderer.cpp:124-130 | with no requests nothing changes (no descriptors, no upload); otherwise the grouping of the emitted characters is appended to the descriptors and the laid-out buffer is uploaded once |
| TextBatchRenderer.TextBatcher.GenerateBatches | SCION_RENDERING/Rendering/Core/TextBatchRenderer.cpp:12-116 | earlier descriptors stay as they were and the greedy grouping of the emitted atlas ids is appended; exactly one buffer, the laid-out vertices padded to six per character, is uploaded |
| TextBatchRenderer.TextBatcher.BuildVertices | SCION_RENDERING/Rendering/Core/TextBatchRenderer.cpp:14-110 | the buffer is freshly allocated at six vertices per character of all requests; after the loop over requests its contents are the layout followed by value-initialised slots, and the descriptors gained exactly the grouping of the emitted characters |
| TextBatchRenderer.TextBatcher.EmitGlyph | SCION_RENDERING/Rendering/Core/TextBatchRenderer.cpp:26-110 | one request: no chunk when `wrap > 1`, else its whole text; the buffer gains exactly that request's vertices after the earlier ones, the slots after the write index stay untouched, and the counters advance by its characters on its atlas |
| TextBatchRenderer.TextBatcher.EmitChunk | SCION_RENDERING/Rendering/Core/TextBatchRenderer.cpp:46-109 | one chunk writes six vertices per character and extends the grouping by them; the cursor then returns to the request's x and moves down by font size plus padding |
| TextBatchRenderer.TextBatcher.EmitLine | SCION_RENDERING/Rendering/Core/TextBatchRenderer.cpp:48-104 | the characters of one line, in order, each drawn at the cursor the font left after the previous one; the write index advances by six per character and the grouping by one id per character |
| TextBatchRenderer.TextBatcher.EmitCharacter | SCION_RENDERING/Rendering/Core/TextBatchRenderer.cpp:50-103 | one character: the font's glyph at the current cursor gives its quad, written at the write index; the write index and offset advance by six, the character count by one, the previous atlas becomes this one, and the descriptors are the grouping of the ids so far |
| TextBatchRenderer.TextBatcher.AddToBatches | SCION_RENDERING/Rendering/Core/TextBatchRenderer.cpp:90-103 | the first character, or one on a different atlas than the previous, opens a six-vertex descriptor at the current offset; otherwise the last descriptor grows by six; either way the descriptors become the grouping of the stream extended by this character |
| TextBatchRenderer.TextBatcher.Render | SCION_RENDERING/Rendering/Core/TextBatchRenderer.cpp:132-145 | no calls at all without descriptors; otherwise enable the vertex array, then per descriptor in list order select unit 0, bind its atlas, draw its range, then disable |
| TextBatchRenderer.DrawCallsAt | SCION_RENDERING/Rendering/Core/TextBatchRenderer.cpp:138-143 | the k-th descriptor produces calls 3k to 3k+2, binding its own atlas and drawing exactly its offset and vertex count |
| TextBatchRenderer.CountCharacters | SCION_RENDERING/Rendering/Core/TextBatchRenderer.cpp:19-21 | the total is the sum of the text lengths of all requests |
| TextBatchRenderer.RoomFor | SCION_RENDERING/Rendering/Core/TextBatchRenderer.cpp:19-24 | the vertices already written plus six per character of the next request never exceed the pre-sized buffer, so the write index stays in bounds |
| TextBatchRenderer.WriteQuad | SCION_RENDERING/Rendering/Core/TextBatchRenderer.cpp:53-88 | writes exactly the six vertices of the glyph's two triangles at consecutive slots from the write index, leaves every later slot unchanged, and advances the index by six |
| TextBatchRenderer.ExtendAfter | SCION_RENDERING/Rendering/Core/TextBatchRenderer.cpp:90-99 | one grouping step on descriptors that follow older ones either appends a descriptor or grows the very last one; the older descriptors are never touched |
| TextLayout.QuadVertices | SCION_RENDERING/Rendering/Core/TextBatchRenderer.cpp:53-88 | a glyph's vertices are six, forming two triangles that share the diagonal from the glyph's min corner (vertex 0) to its max corner (vertex 2), each with that corner's position under the request's model matrix, that corner's UV and the request's colour; the shape then fixes the other four |
| TextLayout.LayoutAllQuads | SCION_RENDERING/Rendering/Core/TextBatchRenderer.cpp:46-88 | the whole layout is a sequence of such six-vertex quads, one per emitted character |
| TextLayout.LayoutLength | SCION_RENDERING/Rendering/Core/TextBatchRenderer.cpp:46-104 | the layout has exactly six vertices per emitted character |
| TextLayout.ChunksCount | SCION_RENDERING/Rendering/Core/TextBatchRenderer.cpp:32-40 | a request emits its whole text, or nothing when `wrap > 1` |
| TextLayout.EmittedBound | SCION_RENDERING/Rendering/Core/TextBatchRenderer.cpp:19-40 | no more characters are emitted than were counted; exactly as many iff every request with `wrap > 1` has empty text |
| TextLayout.WrappedEmitsNothing | SCION_RENDERING/Rendering/Core/TextBatchRenderer.cpp:32-46 | a request with `wrap > 1` adds no vertex and no character to the grouping |
| TextLayout.UploadedBufferFrom | SCION_RENDERING/Rendering/Core/TextBatchRenderer.cpp:23-24 | a pre-sized buffer that starts with the layout and is value-initialised after it is the uploaded buffer |
| BatchGrouping.GroupingChained | SCION_RENDERING/Rendering/Core/TextBatchRenderer.cpp:90-103 | each descriptor starts where the previous ones end, covers whole quads and differs in atlas from its predecessor; the counts add up to six per character; there are at most as many descriptors as characters; the last one is on the last character's atlas |
| BatchGrouping.GroupingWellFormed | SCION_RENDERING/Rendering/Core/TextBatchRenderer.cpp:90-103 | the first descriptor starts at 0, each next one at the previous offset plus its count, every count is a positive multiple of six, and neighbours have different atlases |
| BatchGrouping.WellFormedIsChained | SCION_RENDERING/Rendering/Core/TextBatchRenderer.cpp:90-103 | the pairwise reading of those conditions and the one-descriptor-at-a-time reading agree, both directions |
| BatchGrouping.ExtendChained | SCION_RENDERING/Rendering/Core/TextBatchRenderer.cpp:90-103 | one character's step keeps the descriptors well-formed and adds six vertices to their total |
| BatchGrouping.ExtendExpands | SCION_RENDERING/Rendering/Core/TextBatchRenderer.cpp:90-99 | one character's step adds exactly that character at the end of the covered stream |
| BatchGrouping.GroupingExpands | SCION_RENDERING/Rendering/Core/TextBatchRenderer.cpp:90-103 | expanding the descriptors gives back the stream of atlas ids they were built from: order is preserved and no character is lost |
| BatchGrouping.GroupingUnique | SCION_RENDERING/Rendering/Core/TextBatchRenderer.cpp:90-103 | any well-formed descriptor list covering the stream is the greedy grouping: it is the run-length encoding of the stream |

## Left out

- The OpenGL calls are not issued. The vertex-attribute setup in `Initialize` is left out. The buffer upload is recorded as the `uploads` trace. `Render` returns the calls it would issue.
- Text is a sequence of `char`, and each `char` stands for one byte of the `std::string`. The code counts bytes and draws one glyph per byte, so a multi-byte UTF-8 character becomes several glyphs. The model agrees with this only when the text is given byte by byte.
- Float arithmetic is not modelled. Positions, UVs and sizes are reals without rounding, and the model-matrix product is kept symbolic.
- The font is not modelled. Glyph metrics and cursor advance are the font's `getGlyph` query, given as a function value.
- `Begin` and the `Batcher` base class are not part of this model. Neither is the clearing of `m_Glyphs` and `m_Batches` between frames. So `GenerateBatches` appends to whatever descriptors are already there, as the code does.
- TextBatchRenderer.TextBatcher.AddToBatches: does not model the 32-bit wrap-around of `offset` (GLuint) and `currentFont` (int); they are unbounded.
- TextBatchRenderer.TextBatcher.BuildVertices: the buffer is a local array and its size `total * 6` is unbounded; `size_t` overflow is not modelled.
- Width-based wrapping is a stub in the source and is not invented here. Its actual effect, no chunk, is modelled.
- `GenerateBatches` is split into methods, one per nested loop level: `BuildVertices`, `EmitGlyph`, `EmitChunk`, `EmitLine` and `EmitCharacter`. The write index, offset, character count and previous atlas are passed between them instead of being one function's locals.
- `Renderer.h`, `CoreUtilities`, `TextComponent` and `TextureLoader` are not part of this model. They hold GL wrappers, float geometry, scripting bindings and asset loading.
