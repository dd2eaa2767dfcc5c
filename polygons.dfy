/** The polygon builder of `polygons.rs`: it collects vertices, an optional
    colour and an optional texture, fills in one colour per vertex and
    default texture coordinates for triangles and rectangles, and picks the
    shader pair. The texture is an opaque token; only its presence matters. */
module Polygons {
  import opened Numeric
  import opened Wrappers
  import opened ColorModel
  import opened PolygonVertices

  /** A loaded texture, known here only by its GL name. */
  datatype Texture = Texture(name: u32)

  /** The file names of a vertex shader and a fragment shader. */
  datatype ShaderFiles = ShaderFiles(vertex: string, fragment: string)

  const TEXTURE_SHADER := ShaderFiles("basic_texture.vert", "basic_texture.frag")
  const COLORED_SHADER := ShaderFiles("basic_colored.vert", "basic_colored.frag")

  /** The colour used when the builder has none: opaque white. */
  const DEFAULT_COLOR: u32 := 0xFF_FF_FF_FF

  const TRIANGLE_TEXTURE_COORDS: seq<real> := [1.0, 1.0, 1.0, 0.0, 0.0, 0.0]
  const REACTANGLE_TEXTURE_COORDS: seq<real> := [1.0, 1.0, 1.0, 0.0, 0.0, 0.0, 0.0, 1.0]

  /** The default colour is white at full opacity. */
  lemma DefaultColorIsWhite()
    ensures RGBA.FromHex(DEFAULT_COLOR).GetAsNormalizedF32() == [1.0, 1.0, 1.0, 1.0]
  {
    FromHexOfBytes(0xFF, 0xFF, 0xFF, 0xFF);
  }

  /** The colours `prepare_vertices` leaves: one record of the builder's
      colour, or of white, per whole position triple. */
  function PreparedColors(pos: seq<real>, color: Option<RGBA>): (r: seq<real>)
    ensures |r| == 4 * (|pos| / 3)
    ensures forall i :: 0 <= i < |pos| / 3 ==>
      r[4 * i..4 * i + 4] == color.UnwrapOr(RGBA.FromHex(DEFAULT_COLOR)).GetAsNormalizedF32()
  {
    var record := color.UnwrapOr(RGBA.FromHex(DEFAULT_COLOR)).GetAsNormalizedF32();
    forall i | 0 <= i < |pos| / 3
      ensures Repeat(record, |pos| / 3)[4 * i..4 * i + 4] == record
    {
      RepeatAt(record, |pos| / 3, i);
    }
    Repeat(record, |pos| / 3)
  }

  /** The texture coordinates `prepare_vertices` leaves: untouched unless a
      texture is set and there are none, in which case a triangle and a
      rectangle get their defaults and any other shape stays without. */
  function PreparedTextures(pos: seq<real>, textures: seq<real>, textured: bool): (r: seq<real>)
    ensures !textured || |textures| != 0 ==> r == textures
    ensures textured && |textures| == 0 && |pos| == 9 ==> r == TRIANGLE_TEXTURE_COORDS
    ensures textured && |textures| == 0 && |pos| == 12 ==> r == REACTANGLE_TEXTURE_COORDS
    ensures textured && |textures| == 0 && |pos| != 9 && |pos| != 12 ==> r == []
  {
    if textured && |textures| == 0 then
      if |pos| == 9 then Overwrite(textures, TRIANGLE_TEXTURE_COORDS)
      else if |pos| == 12 then Overwrite(textures, REACTANGLE_TEXTURE_COORDS)
      else textures
    else textures
  }

  /** After preparation, whole position triples with no or well-sized
      texture coordinates pass the interleaver's validity test — in
      particular every triangle and every rectangle, textured or not. */
  lemma {:induction false} PreparedIsValid(pos: seq<real>, textures: seq<real>, color: Option<RGBA>, textured: bool)
    requires |pos| % 3 == 0
    requires |textures| == 0 || 2 * |pos| == 3 * |textures|
    ensures RatiosHold(|pos|, |PreparedColors(pos, color)|, |PreparedTextures(pos, textures, textured)|)
  {
    var n := |pos| / 3;
    assert |pos| == 3 * n;
    assert 4 * |pos| == 3 * (4 * n);
  }

  /** After preparation the stride `get_stride` announces is the record
      width the interleaver writes, whenever there is at least one vertex. */
  lemma {:induction false} PreparedStrideIsWidth(pos: seq<real>, textures: seq<real>, color: Option<RGBA>, textured: bool)
    requires |pos| >= 3
    ensures var colors := PreparedColors(pos, color);
      var tex := PreparedTextures(pos, textures, textured);
      StrideFloats(colors, tex) == Width(colors, tex)
  {
    var colors := PreparedColors(pos, color);
    assert |colors| == 4 * (|pos| / 3) >= 4;
    StrideVersusWidth(colors, PreparedTextures(pos, textures, textured));
  }

  class PolygonBuilder {
    var vertices: Vertices
    var color: Option<RGBA>
    var texture: Option<Texture>

    /** `PolygonBuilder::new`: empty vertices, no colour, no texture. */
    constructor ()
      ensures fresh(vertices)
      ensures vertices.vertPos == [] && vertices.colorsPos == [] && vertices.texturesPos == []
      ensures color == None && texture == None
    {
      vertices := new Vertices.Empty();
      color := None;
      texture := None;
    }

    method SetColor(color: RGBA)
      modifies this
      ensures this.color == Some(color)
      ensures vertices == old(vertices) && texture == old(texture)
    {
      this.color := Some(color);
    }

    method SetVertices(vertices: Vertices)
      modifies this
      ensures this.vertices == vertices
      ensures color == old(color) && texture == old(texture)
    {
      this.vertices := vertices;
    }

    method SetTexture(texture: Texture)
      modifies this
      ensures this.texture == Some(texture)
      ensures vertices == old(vertices) && color == old(color)
    {
      this.texture := Some(texture);
    }

    /** `prepare_vertices`: positions kept, colours replaced by one record
        per vertex, default texture coordinates added where they apply. */
    method PrepareVertices()
      modifies vertices
      ensures vertices.vertPos == old(vertices.vertPos)
      ensures vertices.colorsPos == PreparedColors(old(vertices.vertPos), color)
      ensures vertices.texturesPos == PreparedTextures(old(vertices.vertPos), old(vertices.texturesPos), texture.Some?)
    {
      if color.Some? {
        vertices.SetOneColorForAllVert(color.value);
      } else {
        vertices.SetOneColorForAllVert(RGBA.FromHex(DEFAULT_COLOR));
      }

      if texture.Some? && !vertices.IsTexture() {
        if vertices.IsTriangle() {
          vertices.SetPosition(TRIANGLE_TEXTURE_COORDS, VertexLocation.Texture);
        } else if vertices.IsReactangle() {
          vertices.SetPosition(REACTANGLE_TEXTURE_COORDS, VertexLocation.Texture);
        }
      }
    }

    /** `create_shader`, without reading the files: the texture shader pair
        exactly when a texture is set, the coloured pair otherwise. */
    function CreateShader(): (files: ShaderFiles)
      reads this
      ensures files == TEXTURE_SHADER <==> texture.Some?
      ensures files == COLORED_SHADER <==> texture.None?
    {
      if texture.Some? then TEXTURE_SHADER else COLORED_SHADER
    }
  }

  /** For a triangle or a rectangle without texture coordinates, the texture
      shader is chosen exactly when preparation gives the 9-float layout that
      carries texture coordinates. */
  lemma ShaderMatchesLayout(b: PolygonBuilder)
    requires |b.vertices.vertPos| == 9 || |b.vertices.vertPos| == 12
    requires |b.vertices.texturesPos| == 0
    ensures var v := b.vertices.vertPos;
      var colors := PreparedColors(v, b.color);
      var tex := PreparedTextures(v, b.vertices.texturesPos, b.texture.Some?);
      b.CreateShader() == TEXTURE_SHADER <==> StrideFloats(colors, tex) == 9
  {
  }
}
