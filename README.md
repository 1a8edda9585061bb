# Vixen engine asset importers, modelled in Dafny

This project models two asset producers of the Vixen engine's resource core:

- **The bitmap-font importer** (`BMFont`, `source/vgraphics/vix_bmfont.cpp`). It reads an
  AngelCode BMFont descriptor with the sections `font/info`, `font/common`, `font/pages` and
  `font/chars`, and fills a font-file record from them. It then builds the map from character
  code to glyph, where the last glyph of an id wins. It also collects one page texture per page
  whose texture request succeeded. Finally it answers glyph, page and line-height queries.
- **The Direct3D model** (`DXModel`, `source/vgraphics/directx/vix_dxmodel.cpp`). After a scene
  import, it copies the first mesh's vertices into its vertex list. Each optional normal,
  tangent frame and UV component is copied when the mesh has it. It flattens every triangle
  into three index entries and records the mesh bounds. At draw time it batches per-instance
  world transforms into a fixed array, and a flush issues one instanced draw and resets the
  counters.

Files:

- `options.dfy`: the optional value used for null pointers and absent mesh arrays.
- `markup.dfy`: the descriptor document as plain data. An element is a record of integer and
  text attributes. A run of repeated siblings is an ordered list, and the sibling pointer is
  an index into it (`None` is null). The module also has a comma split that keeps empty items; it
  stands in for the split done by `parse<int>`, which the info reader indexes into.
- `bmfont.dfy`: the section readers, the character-map and texture specifications, and the
  `BMFont` class.
- `dxmodel.dfy`: the mesh, vertex and index specifications, the instance transforms, and the
  `DXModel` class.

The section readers for pages and chars walk the sibling pointer in loops, and the two
post-parse loops fill the character map and the texture list. Each of these is a method whose
`ensures` ties its result to a specification function (`PagesOf`, `GlyphsOf`, `InsertAll`,
`OpenedTextures`). The lemmas beside those functions prove what the source promises: order,
counts, last-wins and the subsequence property. On the model side, the vertex and index loops
are proved against `MeshVertices` and `FaceIndices`. The batch/flush counters are fields that
`BatchRender` and `Render` update in place.

The instance batch has no overflow path. `BatchRender` writes slot `m_numInstances` before it
tests anything (vix_dxmodel.cpp:185), and the array holds `MAX_INSTANCE_PER_DRAW` transforms.
So the model requires `numInstances < maxInstances`. Under that requirement the new count never
exceeds the maximum, and the render-call counter increment at lines 188-189 never fires.
`BatchRender` states and proves that the render-call counter stays unchanged. In the source,
batching more transforms than the maximum writes past the end of the array, and only then
increments `m_numRenderCalls`; no second draw is ever issued for the extra instances (see
"## Findings").

## Model

| member | source | states |
|---|---|---|
| `Markup.CursorAtIndex` | source/vgraphics/vix_bmfont.cpp:176-194 | after the first-child step and n next-sibling steps, the element pointer is on element n if the list is that long, and null otherwise |
| `Markup.Split` | source/vgraphics/vix_bmfont.cpp:135-143 | the comma split yields at least one item, and no item contains the separator |
| `Markup.JoinSplit` | source/vgraphics/vix_bmfont.cpp:135-143 | joining the items of a split with the separator gives back the padding or spacing text |
| `Markup.SplitJoin` | source/vgraphics/vix_bmfont.cpp:135-143 | splitting a join of separator-free items gives back the items, so the split is a round trip |
| `Markup.SplitPaddingExample` | source/vgraphics/vix_bmfont.cpp:135-139 | the padding text "2,3,4,5" yields the four items 2, 3, 4, 5 |
| `BMFonts.ReadFontInfo` | source/vgraphics/vix_bmfont.cpp:101-145 | face, charset and padding text are copied; padX, padY, padW, padH are items 0-3 of the stored padding text; spacingX and spacingY are items 0-1 of the spacing text; each flag and number is its integer attribute (default 0) |
| `BMFonts.ReadFontCommon` | source/vgraphics/vix_bmfont.cpp:147-165 | each field of the common block holds its named integer attribute: lineHeight, base, scaleW, scaleH, pages, packed and the four channel attributes |
| `BMFonts.ReadFontPages` | source/vgraphics/vix_bmfont.cpp:198-224 | the loop stops exactly when the sibling pointer is null; it appends one page per `page` element in document order, copying id and file, and keeps the pages already in the file |
| `BMFonts.ReadFontChars` | source/vgraphics/vix_bmfont.cpp:167-196 | it succeeds iff count does not exceed the number of `char` elements; it then appends exactly max(count, 0) glyphs, glyph i taking id, x, y, width, height, xoffset, yoffset, xadvance, page and chnl from the i-th element, and keeps the glyphs already there; on failure the file is unchanged |
| `BMFonts.ReadsNullCharIffShort` | source/vgraphics/vix_bmfont.cpp:176-194 | the glyph loop as written dereferences a null sibling iff the declared count exceeds the number of `char` elements present |
| `BMFonts.InsertAllKeys` | source/vgraphics/vix_bmfont.cpp:59-63 | the key set of the character map is its old keys together with the ids of all glyphs |
| `BMFonts.InsertAllLastWins` | source/vgraphics/vix_bmfont.cpp:59-63 | for every id, the map holds the last glyph in the list with that id |
| `BMFonts.InsertAllKeepsOthers` | source/vgraphics/vix_bmfont.cpp:59-63 | a code that no glyph carries is present and mapped exactly as before |
| `BMFonts.InsertAllDistinctSize` | source/vgraphics/vix_bmfont.cpp:59-63 | with pairwise distinct ids, a fresh map has one entry per glyph |
| `BMFonts.OpenedTexturesSubsequence` | source/vgraphics/vix_bmfont.cpp:65-70 | the texture list is the subsequence of page textures whose open returned non-null: strictly increasing page indices, each opened page included, no more entries than pages |
| `BMFonts.BMFont.constructor` | source/vgraphics/vix_bmfont.cpp:31-34 | a new font has no pages, no glyphs, an empty character map and no textures |
| `BMFonts.BMFont.InitFromFile` | source/vgraphics/vix_bmfont.cpp:41-73 | a failed document load returns false and changes nothing; a declared `count` larger than the number of `char` elements also returns false and changes nothing (where the source would dereference null); otherwise the four sections are read in order; the character map is updated with every glyph of the file and the texture list is extended with the opened page textures in page order |
| `BMFonts.BMFont.MapChars` | source/vgraphics/vix_bmfont.cpp:59-63 | the map afterwards is the old map updated glyph by glyph, in list order |
| `BMFonts.BMFont.OpenPageTextures` | source/vgraphics/vix_bmfont.cpp:65-70 | the texture list grows by exactly the non-null textures of the pages, in page order |
| `BMFonts.BMFont.PageTexture` | source/vgraphics/vix_bmfont.cpp:75-81 | it returns null iff the index is not below the number of textures, and the stored texture for every index below it |
| `BMFonts.BMFont.PageTextureAsWrittenOffByOne` | source/vgraphics/vix_bmfont.cpp:75-81 | the lookup as written (null when `index > size`, else the read `m_textures[index]`) reads past the end of the texture list exactly when the index equals its size, and agrees with the corrected lookup at every other index |
| `BMFonts.BMFont.FindChar` | source/vgraphics/vix_bmfont.cpp:83-93 | it reports true iff the code is a key; it then gives the mapped glyph, and otherwise gives back the caller's glyph unchanged |
| `BMFonts.BMFont.LineHeight` | source/vgraphics/vix_bmfont.cpp:95-98 | it is the lineHeight parsed into the common block |
| `DXModels.Sub` | source/vgraphics/directx/vix_dxmodel.cpp:82-83 | the size is the componentwise offset that carries min to max |
| `DXModels.MeshVertices` | source/vgraphics/directx/vix_dxmodel.cpp:86-128 | one vertex per mesh vertex, in order; position i is the mesh's position i; normal, tangent/bitangent and UV are the mesh's i-th entries when the mesh has them and zero otherwise |
| `DXModels.FaceIndicesAt` | source/vgraphics/directx/vix_dxmodel.cpp:130-138 | the index list has exactly 3 entries per face, and entry 3f+k is index k of face f |
| `DXModels.FaceIndicesInRange` | source/vgraphics/directx/vix_dxmodel.cpp:130-138 | if the faces refer to existing vertices, every index-list entry does |
| `DXModels.Transpose` | source/vgraphics/directx/vix_dxmodel.cpp:184 | entry (i, j) of the stored transform is entry (j, i) of the world matrix |
| `DXModels.TransposeInvolutive` | source/vgraphics/directx/vix_dxmodel.cpp:184 | transposing the stored transform gives back the world matrix, so storing loses nothing |
| `DXModels.DXModel.constructor` | source/vgraphics/directx/vix_dxmodel.cpp:31-44 | a new model has zero instances and zero render calls, no vertices or indices, no material, no buffers, and a transform array of the batch capacity |
| `DXModels.DXModel.InitFromFile` | source/vgraphics/directx/vix_dxmodel.cpp:52-147 | a failed scene import returns false and leaves vertices, indices and bounds unchanged; on success the bounds are the reported min, max and centre with size = max - min, the vertex list grows by exactly the mesh's vertices, and the index list grows by the flattened faces |
| `DXModels.DXModel.SetMaterial` | source/vgraphics/directx/vix_dxmodel.cpp:149-152 | the model afterwards draws with the given material, which it does not own |
| `DXModels.DXModel.SetWorld` | source/vgraphics/directx/vix_dxmodel.cpp:174-178 | the stored world transform is the transpose of the given matrix |
| `DXModels.DXModel.BatchRender` | source/vgraphics/directx/vix_dxmodel.cpp:180-190 | the transposed transform lands in slot numInstances and the other slots keep their contents; numInstances grows by exactly 1; numRenderCalls grows only when the new count exceeds the capacity; the write requires a free slot |
| `DXModels.DXModel.Render` | source/vgraphics/directx/vix_dxmodel.cpp:154-172 | the draw issued is `Flush` of the index count, the queued count and the whole transform array: with no queued instance nothing changes and no draw is issued; otherwise one draw of the whole index list with the queued count and the full transform array is issued, and both counters become 0; the transform array is never changed |
| `DXModels.BatchRunAsWrittenOverflows` | source/vgraphics/directx/vix_dxmodel.cpp:185-189 | k batch calls as written on an empty batch write slots 0..k-1 in order, so the first write past an array of the batch capacity is call capacity+1; the instance count is then k and the render-call counter is k - capacity, non-zero exactly when a write past the end has happened |
| `DXModels.OverflowFlushExceedsArray` | source/vgraphics/directx/vix_dxmodel.cpp:154-189 | flushing after more batch calls than the capacity, as written, issues a single draw whose instance count exceeds the number of transforms in the array |
| `DXModels.BatchTwoAndFlush` | source/vgraphics/directx/vix_dxmodel.cpp:154-190 | two transforms batched on an empty batch are flushed in one draw of two instances carrying both transposed transforms, and the counters start over |
| `DXModels.DXModel.Min` | source/vgraphics/directx/vix_dxmodel.cpp:193-196 | returns the stored minimum corner without changing the model |
| `DXModels.DXModel.Max` | source/vgraphics/directx/vix_dxmodel.cpp:198-201 | returns the stored maximum corner without changing the model |
| `DXModels.DXModel.Center` | source/vgraphics/directx/vix_dxmodel.cpp:203-206 | returns the stored centre without changing the model |
| `DXModels.DXModel.Size` | source/vgraphics/directx/vix_dxmodel.cpp:208-211 | the returned extent carries the minimum corner exactly to the maximum corner |

## Findings

| source | as written | input that shows it | evidently intended | confidence | as-written member | corrected member |
|---|---|---|---|---|---|---|
| source/vgraphics/vix_bmfont.cpp:77 | the page lookup returns null only when `index > m_textures.size()`, then reads `m_textures[index]` | a font with no page textures and index 0 (generally index == size) reads past the end of the list | null for every `index >= size()` | high; not executed | `BMFonts.BMFont.PageTextureAsWrittenOffByOne` | `BMFonts.BMFont.PageTexture` |
| source/vgraphics/vix_bmfont.cpp:176-194 | the glyph loop trusts the `count` attribute and dereferences the sibling pointer on every iteration | `<chars count="1">` with no `char` child: the first iteration reads through a null pointer | stop and fail cleanly when the elements run out before `count` | high; not executed | `BMFonts.ReadsNullCharIffShort` | `BMFonts.ReadFontChars` |
| source/vgraphics/directx/vix_dxmodel.cpp:185-189 | the batch call writes slot `m_numInstances` before testing the count, and counts an extra render call only when the new count exceeds `MAX_INSTANCE_PER_DRAW` | with `MAX_INSTANCE_PER_DRAW` transforms already queued, the next call writes one slot past the end of `m_instanceData` and only then increments `m_numRenderCalls`; no second draw follows | a batch call never writes outside the array; the render-call counter at lines 188-189 shows that a full batch was meant to start another render call, not overflow the buffer | medium; not executed | `DXModels.BatchRunAsWrittenOverflows` | `DXModels.DXModel.BatchRender` |

`BMFonts.BMFont.InitFromFile` uses the corrected glyph reader. When the declared count exceeds
the `char` elements, it returns false and leaves the font as it was. The source would crash.

## Left out

- The resource manager (`include/vgraphics/vix_resourcemanager.h`) is not part of this model. It has declarations only, so its registry, deduplication and reference counting would have to be invented. The font importer uses its texture request as a parameter `openTexture: string -> Texture?`, null on failure.
- `source/vgame/vix_lightcomponent.cpp` is not part of this model. It is component glue with nothing to specify.
- Loading and error checking of the markup document are foreign-library work. A failed load is the input `None`. The `font`, `info`, `common`, `pages` and `chars` elements are assumed present; the source dereferences them unchecked.
- Repeated children of another tag that sit between `page` or `char` siblings are skipped by the markup library's sibling step. The model's element lists hold only the `page` and `char` elements.
- `BMFonts.ReadFontInfo`: requires the four text attributes to be present, and at least four padding items and two spacing items. The source builds strings from the attribute pointers and indexes the parsed vectors without checks. The integer conversion of one item (`parse<int>`, which is defined outside the modelled files) is the parameter `toInt`.
- `Markup.Split`: keeps empty items, including a trailing one ("2,3,4," gives four items, the last empty). That `parse<int>` splits the same way is an assumption, since its body is defined outside the modelled files; a split that drops a trailing empty item would give three items there, and the read of item 3 at vix_bmfont.cpp:139 would be out of range.
- `BMFonts.ReadFontPages`: requires every `page` element to carry `file`, which the source copies without a null check.
- `BMFonts.BMFont.constructor`: promises nothing about the info and common blocks. The font-file type is declared in a header that is not part of this model.
- `BMFonts.BMFont.LineHeight`: returns the integer line height. The source converts it to `float`.
- Glyph ids are taken as in-range character codes. The narrowing cast to the character type is not modelled.
- Texture ownership and release in the font destructor, `DebugPrintF` logging and string conversion are left out. They have no effect on the modelled state.
- The scene importer and its post-processing flags are a foreign library. A failed import is the input `None`. The model requires the scene's first mesh to exist, to carry one entry per vertex in every array it has, and to have at least three indices per face. The source reads those entries unchecked.
- The mesh-bounds routine is defined outside the modelled files. It is the parameter `findMeshCenter`, and the model says only that the stored min, max and centre are what it reports.
- Vertex components are modelled as exact `real` values. Floating-point rounding of `max - min` is not modelled.
- A component the mesh lacks is modelled as zero. The vertex type's default construction is declared in a header that is not part of this model.
- Index-list entries keep the face's full index value. The element type of the index list is declared in a header that is not part of this model, so any narrowing to 16 bits is not modelled.
- The batch capacity `MAX_INSTANCE_PER_DRAW` is defined in a header that is not part of this model. It is the construction parameter `maxInstancesPerDraw`.
- Direct3D work (buffer creation, sub-data upload, shader uniforms, bind and draw) is opaque. Buffer creation is the flag `hasBuffers`, and the instanced draw is the `DrawCall` value that `Render` returns. The camera's projection and view matrices and the unused `dt` and `totalTime` arguments are not modelled.
- `DXModels.DXModel.Render`: requires a material and created buffers whenever an instance is queued. The source dereferences `m_material` (vix_dxmodel.cpp:159-162) and the vertex and index buffers (164-165) without checking them.
- `DXModels.DXModel.SetMaterial`: does not model the unchecked cast of the material to its Direct3D subtype.
- Destructors, and the buffers leaked when a model is imported twice, are left out. They concern memory release only.
