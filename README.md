# rusty-opengl core, modelled in Dafny

This project models the data-preparation core of `rusty-opengl`, a small
OpenGL drawing library written in Rust. It does not model the OpenGL calls
themselves, only what the library computes before handing data to the GPU:

- **Colours** (`color.rs`, `polygons/color.rs`). An RGBA colour has three
  `u8` channels and an alpha that is clamped to [0, 1]. A colour can be read
  from a packed `0xRRGGBBAA` value, and each colour is normalised to four
  floats in [0, 1].
- **Vertex attributes** (`polygons/vertices.rs`). A polygon keeps three flat
  float vectors: positions (3 floats per vertex), colours (4 per vertex) and
  texture coordinates (2 per vertex). The model covers:
  - the updates that overwrite, append to or fill these vectors;
  - the ratio test that accepts or rejects their lengths;
  - the interleaving of all three into one buffer, one vertex after another;
  - the stride announced to the GPU.
- **The polygon builder** (`polygons.rs`). It fills in a default white
  colour and default texture coordinates for triangles and rectangles. It
  chooses the textured or the coloured shader pair.
- **Circles** (`circle.rs`). A circle keeps its centre as given and a
  radius clamped to [0, 1]; the radius is corrected for the window's aspect
  ratio. Its buffer carries the colour, the centre clamped to [-1, 1], then
  a perimeter fan of `segments` points.
- **Rectangles** (`polygons/reactangle.rs`). A rectangle has a fixed
  12-float vertex array that `set_vertices` overwrites pair by pair.
- **Shader programs** (`shaders/shader_program.rs`). The model covers the
  compile/attach/link/delete sequence with its early exits, the sources
  kept by the program, and uniform upload.

Modelling conventions:

- `f32` values are `real`.
- `u8`, `u16`, `u32` and `i32` are newtypes of their exact ranges (module
  `Numeric`).
- Objects whose methods mutate `self` are Dafny classes with `modifies`
  clauses. Vectors they rebuild are `seq` fields. The rectangle's fixed
  `[f32; 12]` is an `array<real>`.
- `sin`, `cos` and `to_radians` are passed in as a `Trig` value. The model
  proves the shape of the circle buffer for any such functions.
- OpenGL answers are inputs. `CompileAnswers` carries the shader ids and the
  link status the driver would return. `SetUniform4fVariable` takes the
  uniform location. The calls made are returned as a `seq<GlCall>` trace.

Where the code differs from its own comments or types, the model follows
the code:

- `polygons.rs` imports `RGBA` from `polygons::color`, but that file only
  defines `ColorRGBA`. The builder is modelled with `color.rs`'s `RGBA`, and
  `PolygonColor.ColorRGBA` is proved to agree with it operation by
  operation.
- For texture coordinates without colours, `get_stride` announces 9 floats
  per vertex while the interleaved record holds 5. `StrideVersusWidth`
  states exactly when the two agree.

## Model

| member | source | states |
|---|---|---|
| Numeric.ToBeBytes | rusty-opengl/src/color.rs:31-39 | the four big-endian bytes of a `u32`, which reassemble into the same number |
| Numeric.BeBytesRoundTrip | rusty-opengl/src/color.rs:31-39 | splitting the number assembled from four bytes gives those bytes back |
| Wrappers.Option.UnwrapOr | rusty-opengl/src/circle.rs:27-39 | the contained value when present, otherwise the default |
| ColorModel.RGBA.New | rusty-opengl/src/color.rs:11-18 | stores the three channels unchanged; alpha is clamped to [0, 1], left alone inside it, 0 below and 1 above |
| ColorModel.RGBA.Empty | rusty-opengl/src/color.rs:21-28 | opaque black: channels (0, 0, 0) and alpha 1 |
| ColorModel.RGBA.FromHex | rusty-opengl/src/color.rs:31-39 | the channels are the bytes of `0xRRGGBBAA` in order; alpha is the low byte divided by 255; the colour re-packs to the same number |
| ColorModel.FromHexOfBytes | rusty-opengl/src/color.rs:31-39 | reading the packing of any four bytes gives exactly those channels and alpha byte/255 |
| ColorModel.RGBA.GetAsNormalizedF32 | rusty-opengl/src/color.rs:42-48 | four floats; each channel float times 255 is the channel; the last is alpha; all lie in [0, 1] for a valid colour |
| ColorModel.RGBA.GetRgba | rusty-opengl/src/color.rs:51-53 | the tuple holds the colour's components: rebuilding a colour from it gives the same colour |
| ColorModel.RGBA.ConvertFromU8ToNormalizedF32 | rusty-opengl/src/color.rs:56-58 | the result lies in [0, 1] and times 255 gives the byte back; it is 1 exactly for 255 and 0 exactly for 0 |
| ColorModel.RGBA.NormalizedAlpha | rusty-opengl/src/color.rs:61-71 | clamps to [0, 1]: values inside unchanged, negatives to 0, values above 1 to 1 |
| ColorModel.NormalizedAlphaIdempotent | rusty-opengl/src/color.rs:61-71 | clamping an already clamped alpha changes nothing |
| ColorModel.SourceExamples | rusty-opengl/src/color.rs:78-110 | the unit-test cases: alpha 23 becomes 1, -0.4 becomes 0, `0xff00ffff` is (255, 0, 255, 1), normalising red gives [1, 0, 0, 1] |
| PolygonColor.ColorRGBA.New | rusty-opengl/src/polygons/color.rs:10-12 | agrees with `RGBA.New`: stored channels and clamped alpha |
| PolygonColor.ColorRGBA.Empty | rusty-opengl/src/polygons/color.rs:14-16 | agrees with `RGBA.Empty`: opaque black |
| PolygonColor.ColorRGBA.FromHex | rusty-opengl/src/polygons/color.rs:18-21 | agrees with `RGBA.FromHex` on every `u32` |
| PolygonColor.ColorRGBA.GetAsNormalizedF32 | rusty-opengl/src/polygons/color.rs:23-29 | the same four floats as `RGBA.GetAsNormalizedF32`, each in [0, 1] |
| PolygonColor.ColorRGBA.GetRgba | rusty-opengl/src/polygons/color.rs:31-33 | the same tuple as `RGBA.GetRgba` |
| PolygonColor.ColorRGBA.ConvertFromU8ToNormalizedF32 | rusty-opengl/src/polygons/color.rs:35-37 | multiplying by `1/255` gives the same value as dividing by 255 |
| PolygonColor.ColorRGBA.NormalizedAlpha | rusty-opengl/src/polygons/color.rs:39-49 | the same clamp as `RGBA.NormalizedAlpha` |
| PolygonColor.SourceExamples | rusty-opengl/src/polygons/color.rs:56-88 | the same unit-test cases hold for `ColorRGBA` |
| PolygonVertices.InterleaveSize | rusty-opengl/src/polygons/vertices.rs:90-109 | after n vertices the buffer holds n records of the layout's width |
| PolygonVertices.InterleavePrefix | rusty-opengl/src/polygons/vertices.rs:90-109 | the records of the first m vertices are a prefix of those of the first n |
| PolygonVertices.InterleaveBlockAt | rusty-opengl/src/polygons/vertices.rs:90-109 | vertex i's record sits at offset i·width: its position, then its colour and texture coordinates if present |
| PolygonVertices.RatiosGiveCounts | rusty-opengl/src/polygons/vertices.rs:156-170 | when the ratios hold there are enough floats for every whole position triple, and each present attribute has exactly one record per vertex |
| PolygonVertices.InterleaveLength | rusty-opengl/src/polygons/vertices.rs:77-112 | the joined buffer holds every colour and texture float once; it is `sum_capacity` long when the positions are whole triples |
| PolygonVertices.InterleavePositionsOnly | rusty-opengl/src/polygons/vertices.rs:196-204 | with positions only, the joined buffer is the positions themselves |
| PolygonVertices.StrideVersusWidth | rusty-opengl/src/polygons/vertices.rs:115-126 | the announced stride equals the record width iff colours are present or textures absent; otherwise it is 4 too large |
| PolygonVertices.Overwrite | rusty-opengl/src/polygons/vertices.rs:138-154 | the new vector starts with the given floats and keeps the old elements past them; its length is the larger of the two |
| PolygonVertices.Repeat | rusty-opengl/src/polygons/vertices.rs:57-64 | one copy of the record per vertex |
| PolygonVertices.RepeatAt | rusty-opengl/src/polygons/vertices.rs:57-64 | every 4-float slot of the filled colour vector is the colour's record |
| PolygonVertices.Normalized | rusty-opengl/src/polygons/vertices.rs:50-55 | four floats per appended colour |
| PolygonVertices.NormalizedAt | rusty-opengl/src/polygons/vertices.rs:50-55 | slot i of the appended floats is colour i's normalised record |
| PolygonVertices.NormalizedAppend | rusty-opengl/src/polygons/vertices.rs:263-274 | appending two batches of colours in turn equals appending them at once |
| PolygonVertices.Vertices.constructor | rusty-opengl/src/polygons/vertices.rs:19-25 | the three vectors are stored as given |
| PolygonVertices.Vertices.Empty | rusty-opengl/src/polygons/vertices.rs:28-34 | all three vectors empty, capacity 0 |
| PolygonVertices.Vertices.SetPosition | rusty-opengl/src/polygons/vertices.rs:36-48 | only the chosen vector changes to `Overwrite` of its old value; the other two stay |
| PolygonVertices.Vertices.AppendColors | rusty-opengl/src/polygons/vertices.rs:50-55 | the colour vector gains each colour's four normalised floats in order; positions and textures stay |
| PolygonVertices.Vertices.SetOneColorForAllVert | rusty-opengl/src/polygons/vertices.rs:57-64 | the colour vector becomes one record of the colour per whole position triple; the rest stays |
| PolygonVertices.Vertices.IsTriangle | rusty-opengl/src/polygons/vertices.rs:67-69 | true exactly for three whole vertices |
| PolygonVertices.Vertices.IsReactangle | rusty-opengl/src/polygons/vertices.rs:72-74 | true exactly for four whole vertices |
| PolygonVertices.Vertices.IsTexture | rusty-opengl/src/polygons/vertices.rs:134-136 | true exactly when the announced stride is the textured one, 9 |
| PolygonVertices.Vertices.SumCapacity | rusty-opengl/src/polygons/vertices.rs:129-131 | the total number of attribute floats; for a valid structure of whole triples, exactly the length of the joined buffer |
| PolygonVertices.AppendColorsExample | rusty-opengl/src/polygons/vertices.rs:262-275 | the unit test: two appended colours give capacity 8, a third gives 12, and colour floats 0, 5 and 10 are 1 |
| PolygonVertices.Vertices.IsValidStructure | rusty-opengl/src/polygons/vertices.rs:156-170 | the `f32` ratio test (0.75 for colours, 1.5 for textures, absent vectors ignored) holds iff 4·positions = 3·colours and 2·positions = 3·textures for the present vectors |
| PolygonVertices.Vertices.CreateSingleVerticesArray | rusty-opengl/src/polygons/vertices.rs:77-112 | None exactly when the ratio test fails; otherwise every vertex's record in vertex order |
| PolygonVertices.Vertices.PushRun | rusty-opengl/src/polygons/vertices.rs:90-108 | appends `count` consecutive elements of the source to the buffer and moves the index past them |
| PolygonVertices.Vertices.GetStride | rusty-opengl/src/polygons/vertices.rs:115-126 | the byte stride is 4 times 9 with textures, 7 with colours only, 3 with positions only |
| PolygonVertices.Vertices.BuildData | rusty-opengl/src/polygons/vertices.rs:138-154 | the result is `Overwrite(data, position)` |
| PolygonVertices.SourceExamples | rusty-opengl/src/polygons/vertices.rs:240-274 | 9 positions with 9 colours and 4 texture floats are rejected; appending three colours gives twelve floats |
| Polygons.DefaultColorIsWhite | rusty-opengl/src/polygons.rs:77-83 | the default colour `0xFFFFFFFF` normalises to [1, 1, 1, 1] |
| Polygons.PreparedColors | rusty-opengl/src/polygons.rs:77-83 | one record per whole vertex, each the chosen colour's record, or white when none is set |
| Polygons.PreparedTextures | rusty-opengl/src/polygons.rs:85-95 | existing texture coordinates are kept; otherwise a textured triangle gets 6 default floats, a textured rectangle 8, anything else none |
| Polygons.PreparedIsValid | rusty-opengl/src/polygons.rs:76-96 | for whole triples with absent or well-sized texture coordinates, a prepared polygon passes the ratio test |
| Polygons.PreparedStrideIsWidth | rusty-opengl/src/polygons.rs:76-96 | after preparation colours are always present, so the announced stride is the record width |
| Polygons.PolygonBuilder.constructor | rusty-opengl/src/polygons.rs:41-47 | a fresh empty vertex set, no colour, no texture |
| Polygons.PolygonBuilder.SetColor | rusty-opengl/src/polygons.rs:64-66 | sets the colour; vertices and texture stay |
| Polygons.PolygonBuilder.SetVertices | rusty-opengl/src/polygons.rs:68-70 | replaces the vertices; colour and texture stay |
| Polygons.PolygonBuilder.SetTexture | rusty-opengl/src/polygons.rs:72-74 | sets the texture; vertices and colour stay |
| Polygons.PolygonBuilder.PrepareVertices | rusty-opengl/src/polygons.rs:76-96 | positions kept; colours become `PreparedColors`; texture coordinates become `PreparedTextures` |
| Polygons.PolygonBuilder.CreateShader | rusty-opengl/src/polygons.rs:98-104 | the texture shader pair iff a texture is set, the coloured pair iff not |
| CircleGeometry.ClampToUnit | rusty-opengl/src/circle.rs:94-110 | in [-1, 1]: values inside unchanged, values above 1 become 1, values below -1 become -1 |
| CircleGeometry.FanVertex | rusty-opengl/src/circle.rs:122-137 | a perimeter vertex is three floats with z = 0 |
| CircleGeometry.Perimeter | rusty-opengl/src/circle.rs:122-137 | three floats per perimeter point |
| CircleGeometry.PerimeterAt | rusty-opengl/src/circle.rs:122-137 | point k of the perimeter lies at angle (k+1)·360/segments, scaled by the two radii, with z = 0 |
| CircleGeometry.ScaleDown | rusty-opengl/src/circle.rs:58-73 | scaling a radius by a ratio below 1 keeps it in [0, radius], and the product with the larger side is preserved |
| CircleGeometry.Circle.constructor | rusty-opengl/src/circle.rs:27-39 | both radii are the clamped radius; segments default to 32; centre and colour stored |
| CircleGeometry.Circle.NormalizedRadius | rusty-opengl/src/circle.rs:112-120 | clamps the radius to [0, 1] |
| CircleGeometry.Circle.AdjustRadius | rusty-opengl/src/circle.rs:58-73 | for a wide window the width radius shrinks by height/width, for a tall one the height radius by width/height, for a square none. A round circle then has equal extent on screen. Radii never grow |
| CircleGeometry.Circle.CalculateRawData | rusty-opengl/src/circle.rs:75-81 | the colour record, the clamped centre, then the perimeter; 7 + 3·segments floats |
| CircleGeometry.Circle.AddColor | rusty-opengl/src/circle.rs:83-86 | appends the colour's normalised record |
| CircleGeometry.Circle.AddCenterPoint | rusty-opengl/src/circle.rs:88-92 | appends the clamped centre with z = 0 |
| CircleGeometry.Circle.NormalizedCenterCoordinates | rusty-opengl/src/circle.rs:94-110 | both centre coordinates clamped to [-1, 1] |
| CircleGeometry.Circle.AddTriangles | rusty-opengl/src/circle.rs:122-137 | appends the `segments` perimeter points in angle order |
| CircleGeometry.SourceExamples | rusty-opengl/src/circle.rs:254-292 | zero segments give the colour and the centre only; six segments give 25 floats and the default 32 give 103 |
| RectangleGeometry.CopiedLength | rusty-opengl/src/polygons/reactangle.rs:108-128 | the number of input floats copied: the largest even count not above the input length, at most 8 |
| RectangleGeometry.AfterSetVertices | rusty-opengl/src/polygons/reactangle.rs:108-128 | the first copied-length slots come from the input; the others keep their values |
| RectangleGeometry.ShortInputUnchanged | rusty-opengl/src/polygons/reactangle.rs:108-128 | fewer than two input floats leave the vertices untouched |
| RectangleGeometry.CopyIsIndexForIndex | rusty-opengl/src/polygons/reactangle.rs:108-128 | input slot j lands in array slot j, so from six input floats on the z slots 2 and 5 of the first two vertices are overwritten; slots 8 to 11 are never written |
| RectangleGeometry.ExtraInputIgnored | rusty-opengl/src/polygons/reactangle.rs:108-128 | input beyond the copied length has no effect |
| RectangleGeometry.Vertices.constructor | rusty-opengl/src/polygons/reactangle.rs:20-27 | four corners of (x, y) lifted to (x, y, 0) in a fresh 12-float array |
| RectangleGeometry.Reactangle.constructor | rusty-opengl/src/polygons/reactangle.rs:32-38 | keeps the vertices; buffer ids start at 0 |
| RectangleGeometry.Reactangle.SetVertices | rusty-opengl/src/polygons/reactangle.rs:108-128 | the array becomes `AfterSetVertices` of its old contents |
| RectangleGeometry.Reactangle.Recalculate | rusty-opengl/src/polygons/reactangle.rs:130-130 | changes nothing |
| Shaders.CompileOrder | rusty-opengl/src/shaders/shader_program.rs:54-83 | the vertex stage is compiled first, the fragment stage only if the vertex stage succeeded, linking only if both did, deletion only after a successful link |
| Shaders.ShaderProgram.constructor | rusty-opengl/src/shaders/shader_program.rs:34-42 | stores both sources and the program id; not compiled |
| Shaders.ShaderProgram.SetFragmentShader | rusty-opengl/src/shaders/shader_program.rs:44-47 | replaces the fragment source and clears the compiled flag; the rest stays |
| Shaders.ShaderProgram.SetVertexShader | rusty-opengl/src/shaders/shader_program.rs:49-52 | replaces the vertex source and clears the compiled flag; the rest stays |
| Shaders.ShaderProgram.Compile | rusty-opengl/src/shaders/shader_program.rs:54-83 | an already compiled program returns true with no calls; otherwise success iff both shader ids are non-zero and linking succeeded, with the calls in compile order; the flag records the result. Only the sources actually converted must be NUL-free: none when already compiled, the fragment source only after the vertex stage succeeded |
| Shaders.ShaderProgram.CompileStage | rusty-opengl/src/shaders/shader_program.rs:125-137 | compiles the source matching the stage and returns the driver's id for it |
| Shaders.ShaderProgram.SetUniform4fVariable | rusty-opengl/src/shaders/shader_program.rs:102-116 | activates the program, looks the name up, uploads the value iff the location is not -1, and deactivates: four calls on success, three otherwise; the result is whether it uploaded |
| Shaders.ShaderProgram.IsCompiled | rusty-opengl/src/shaders/shader_program.rs:98-100 | reports the compiled flag, which `Compile` sets to its result and both source setters clear |
| Shaders.ShaderProgram.MatchShaderSrc | rusty-opengl/src/shaders/shader_program.rs:118-123 | the vertex source for the vertex stage, the fragment source for the fragment stage |

## Left out

- OpenGL output. The following are not part of this model:
  - `DataBuffer` (`polygons/databuffer.rs`) and `CircleDataBuffer`;
  - the `init` and `draw` methods;
  - `Polygon::draw`, `PolygonBuilder::build` and `init_polygon`;
  - `Triangle`, texture loading (`polygons/texture.rs`) and the `Drop` impls.

  They only forward buffers to the driver, and the buffers they forward are
  modelled.
- Driver answers. `glCreateShader`, `glGetShaderiv`/`glGetProgramiv`,
  `glGetUniformLocation` and the program id are not computed. They are
  inputs: `CompileAnswers`, the `location` parameter and the constructor's
  `programId`. `check_compile_status` and `check_link_status` become the
  non-zero shader ids and the `linked` flag. The log text printed on failure
  is not modelled.
- File reading. `create_shader_program` (`shaders/utils.rs`) and
  `shader_file_reader.rs` are not part of this model. `CreateShader` returns
  the pair of file names it would open.
- Polygons.PolygonBuilder.SetVertices: Rust moves the `Vertices` value into
  the builder. The model stores a reference, so later aliasing through that
  reference is not excluded.
- RectangleGeometry.Reactangle.constructor: Rust's `Reactangle` owns its
  `Vertices` by value. The model keeps a reference to the caller's object,
  so aliasing of the 12-float array between a rectangle and its caller is
  not excluded.
- Shaders.ShaderProgram.Compile: `CString::new` panics on a source with an
  interior NUL. The requires asks `NulFree` only of the sources the source
  code converts: the vertex source when the program is not yet compiled,
  and the fragment source only when the vertex stage also succeeded. The
  panic itself is not modelled.
- Shaders.ShaderProgram.SetUniform4fVariable: the same `NulFree` requires
  stands for the same `CString::new` panic.
- Shaders.ShaderProgram.Activate and Deactivate: single `UseProgram` calls.
  They have no contract of their own; their effect is stated through the
  first and last calls of `SetUniform4fVariable`'s trace.
- `f32` arithmetic is exact real arithmetic here: rounding, NaN and infinity
  are not modelled. Two places depend on this:
  - PolygonVertices.Vertices.IsValidStructure and
    PolygonVertices.Vertices.CreateSingleVerticesArray require every length
    below 2^23. Below that, the `f32` quotient equals 0.75 or 1.5 exactly when the
    exact quotient does. Longer vectors are not covered.
  - CircleGeometry.Circle.AddTriangles: the source adds the step angle to an
    `f32` accumulator. The model uses the exact multiple (k+1)·step, so the
    rounding drift over many segments is not captured.
- CircleGeometry.Circle.AddTriangles: `sin`, `cos` and `to_radians` are
  arbitrary functions supplied in `Trig`, so nothing about the circle's
  actual shape on screen is proved.
- CircleGeometry.Circle.AdjustRadius: `Rc<Resolution>` is modelled as a
  plain value.
- Integer widths: lengths are unbounded naturals. The `usize` capacity sum
  and the `i32` stride cannot overflow for the lengths that satisfy
  IsValidStructure's requires.
