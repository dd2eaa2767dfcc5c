/** The vertex attribute container of `polygons/vertices.rs`: three flat float
    sequences (3 position floats, 4 colour floats and 2 texture-coordinate
    floats per vertex), the in-place updates the polygon builder applies to
    them, and their interleaving into one vertex-major buffer. The `f32`
    payloads are only copied and are modelled as `real`. */
module PolygonVertices {
  import opened Numeric
  import opened Wrappers
  import opened ColorModel

  /** Which of the three sequences `set_position` rewrites. */
  datatype VertexLocation = Position | Color | Texture

  /** Below this length an `f32` holds the length exactly and an `f32`
      quotient of two lengths is bit-equal to 0.75 (or 1.5) exactly when the
      exact quotient is. */
  const F32_EXACT_LENGTH: nat := 0x80_0000

  // ---------------------------------------------------------------------
  // Specification of the layout

  /** The lengths the interleaver accepts: colours absent or 4 floats for
      every 3 position floats, textures absent or 2 for every 3. */
  predicate RatiosHold(positions: nat, colors: nat, textures: nat) {
    && (colors == 0 || 4 * positions == 3 * colors)
    && (textures == 0 || 2 * positions == 3 * textures)
  }

  /** Floats per vertex in the interleaved buffer. */
  function Width(colors: seq<real>, textures: seq<real>): nat {
    3 + (if |colors| == 0 then 0 else 4) + (if |textures| == 0 then 0 else 2)
  }

  /** Enough attribute floats for `n` vertices. */
  predicate Covers(pos: seq<real>, colors: seq<real>, textures: seq<real>, n: nat) {
    && 3 * n <= |pos|
    && (|colors| == 0 || 4 * n <= |colors|)
    && (|textures| == 0 || 2 * n <= |textures|)
  }

  /** The record of vertex `i`: its position, then its colour if colours are
      present, then its texture coordinates if those are present. */
  function Block(pos: seq<real>, colors: seq<real>, textures: seq<real>, i: nat): (r: seq<real>)
    requires Covers(pos, colors, textures, i + 1)
  {
    pos[3 * i..3 * i + 3]
    + (if |colors| == 0 then [] else colors[4 * i..4 * i + 4])
    + (if |textures| == 0 then [] else textures[2 * i..2 * i + 2])
  }

  /** The records of vertices 0 .. n-1, in vertex order. */
  function Interleave(pos: seq<real>, colors: seq<real>, textures: seq<real>, n: nat): seq<real>
    requires Covers(pos, colors, textures, n)
  {
    if n == 0 then []
    else Interleave(pos, colors, textures, n - 1) + Block(pos, colors, textures, n - 1)
  }

  /** Every record is `Width` floats long. */
  lemma {:induction false} InterleaveSize(pos: seq<real>, colors: seq<real>, textures: seq<real>, n: nat)
    requires Covers(pos, colors, textures, n)
    ensures |Interleave(pos, colors, textures, n)| == n * Width(colors, textures)
  {
    if n > 0 {
      InterleaveSize(pos, colors, textures, n - 1);
      assert |Block(pos, colors, textures, n - 1)| == Width(colors, textures);
    }
  }

  /** The ratios fix the vertex count: every present attribute holds exactly
      as many records as there are whole position triples. */
  lemma {:induction false} RatiosGiveCounts(pos: seq<real>, colors: seq<real>, textures: seq<real>)
    requires RatiosHold(|pos|, |colors|, |textures|)
    ensures Covers(pos, colors, textures, |pos| / 3)
    ensures |colors| != 0 ==> |pos| % 3 == 0 && |colors| == 4 * (|pos| / 3)
    ensures |textures| != 0 ==> |pos| % 3 == 0 && |textures| == 2 * (|pos| / 3)
  {
    var n := |pos| / 3;
    assert |pos| == 3 * n + |pos| % 3;
    if |colors| != 0 {
      assert 4 * (|pos| % 3) == 3 * (|colors| - 4 * n);
      assert |pos| % 3 == 0;
    }
    if |textures| != 0 {
      assert 2 * (|pos| % 3) == 3 * (|textures| - 2 * n);
      assert |pos| % 3 == 0;
    }
  }

  /** The three runs the interleaver pushes for vertex `v` make up its record. */
  lemma RecordFromRuns(pos: seq<real>, colors: seq<real>, textures: seq<real>, v: nat,
                       done: seq<real>, withPos: seq<real>, withColor: seq<real>, buffer: seq<real>)
    requires Covers(pos, colors, textures, v + 1)
    requires withPos == done + pos[3 * v..3 * v + 3]
    requires |colors| == 0 ==> withColor == withPos
    requires |colors| != 0 ==> withColor == withPos + colors[4 * v..4 * v + 4]
    requires |textures| == 0 ==> buffer == withColor
    requires |textures| != 0 ==> buffer == withColor + textures[2 * v..2 * v + 2]
    ensures buffer == done + Block(pos, colors, textures, v)
  {
  }

  /** A shorter interleaving is a prefix of a longer one. */
  lemma {:induction false} InterleavePrefix(pos: seq<real>, colors: seq<real>, textures: seq<real>, m: nat, n: nat)
    requires Covers(pos, colors, textures, n)
    requires m <= n
    ensures Covers(pos, colors, textures, m)
    ensures |Interleave(pos, colors, textures, m)| <= |Interleave(pos, colors, textures, n)|
    ensures Interleave(pos, colors, textures, n)[..|Interleave(pos, colors, textures, m)|]
         == Interleave(pos, colors, textures, m)
  {
    if m < n {
      InterleavePrefix(pos, colors, textures, m, n - 1);
      var prev := Interleave(pos, colors, textures, n - 1);
      var k := |Interleave(pos, colors, textures, m)|;
      assert Interleave(pos, colors, textures, n)[..k] == prev[..k];
    }
  }

  /** Vertex `i`'s record sits at offset `i * Width` of the interleaved buffer. */
  lemma {:induction false} InterleaveBlockAt(pos: seq<real>, colors: seq<real>, textures: seq<real>, n: nat, i: nat)
    requires Covers(pos, colors, textures, n)
    requires i < n
    ensures var w := Width(colors, textures);
      |Interleave(pos, colors, textures, n)| == n * w
      && (i + 1) * w <= n * w
      && Interleave(pos, colors, textures, n)[i * w..(i + 1) * w] == Block(pos, colors, textures, i)
  {
    InterleavePrefix(pos, colors, textures, i + 1, n);
    InterleaveSize(pos, colors, textures, i);
    InterleaveSize(pos, colors, textures, i + 1);
    InterleaveSize(pos, colors, textures, n);
    var whole := Interleave(pos, colors, textures, n);
    var front := Interleave(pos, colors, textures, i);
    var upTo := Interleave(pos, colors, textures, i + 1);
    assert upTo == front + Block(pos, colors, textures, i);
    assert whole[|front|..|upTo|] == upTo[|front|..];
  }

  /** The interleaved buffer holds every attribute float once: its length is
      the whole position triples plus all colour and texture floats, which is
      `sum_capacity` when the positions are whole triples. */
  lemma {:induction false} InterleaveLength(pos: seq<real>, colors: seq<real>, textures: seq<real>)
    requires RatiosHold(|pos|, |colors|, |textures|)
    ensures Covers(pos, colors, textures, |pos| / 3)
    ensures |Interleave(pos, colors, textures, |pos| / 3)| == 3 * (|pos| / 3) + |colors| + |textures|
    ensures |pos| % 3 == 0 ==> |Interleave(pos, colors, textures, |pos| / 3)| == |pos| + |colors| + |textures|
  {
    RatiosGiveCounts(pos, colors, textures);
    var n := |pos| / 3;
    InterleaveSize(pos, colors, textures, n);
    assert n * Width(colors, textures)
        == 3 * n + (if |colors| == 0 then 0 else 4 * n) + (if |textures| == 0 then 0 else 2 * n);
  }

  /** With only positions, interleaving copies the whole position triples. */
  lemma {:induction false} InterleavePositionsOnly(pos: seq<real>, n: nat)
    requires 3 * n <= |pos|
    ensures Covers(pos, [], [], n)
    ensures Interleave(pos, [], [], n) == pos[..3 * n]
  {
    if n > 0 {
      InterleavePositionsOnly(pos, n - 1);
      assert pos[..3 * n] == pos[..3 * (n - 1)] + pos[3 * (n - 1)..3 * n];
    }
  }

  /** Floats per vertex `get_stride` announces: 9 whenever texture
      coordinates are present, else 7 with colours, else 3. */
  function StrideFloats(colors: seq<real>, textures: seq<real>): nat {
    if |textures| != 0 then 9 else if |colors| != 0 then 7 else 3
  }

  /** The announced stride is the width of a record exactly when colours are
      present or texture coordinates absent; with texture coordinates and no
      colours it overstates the record (5 floats) by 4. */
  lemma StrideVersusWidth(colors: seq<real>, textures: seq<real>)
    ensures |colors| != 0 || |textures| == 0 <==> StrideFloats(colors, textures) == Width(colors, textures)
    ensures |colors| == 0 && |textures| != 0 ==> StrideFloats(colors, textures) == Width(colors, textures) + 4
  {
  }

  /** `build_data`'s result, specified: `position` followed by the old
      elements beyond its length. */
  function Overwrite(data: seq<real>, position: seq<real>): (r: seq<real>)
    ensures |r| == if |data| < |position| then |position| else |data|
    ensures r[..|position|] == position
    ensures r[|position|..] == if |data| < |position| then [] else data[|position|..]
  {
    if |data| < |position| then position else position + data[|position|..]
  }

  /** `n` copies of a colour record, one per vertex. */
  function Repeat(record: seq<real>, n: nat): (r: seq<real>)
    ensures |r| == n * |record|
  {
    if n == 0 then [] else Repeat(record, n - 1) + record
  }

  lemma {:induction false} RepeatAt(record: seq<real>, n: nat, i: nat)
    requires i < n
    ensures (i + 1) * |record| <= n * |record|
    ensures Repeat(record, n)[i * |record|..(i + 1) * |record|] == record
  {
    var k := |record|;
    var prev := Repeat(record, n - 1);
    var lo, hi, total := i * k, (i + 1) * k, (n - 1) * k;
    ProductSteps(i, n, k);
    assert Repeat(record, n) == prev + record;
    if i < n - 1 {
      RepeatAt(record, n - 1, i);
      SliceOfFront(prev, record, lo, hi);
    } else {
      SliceOfBack(prev, record);
    }
  }

  /** The products `RepeatAt` needs, one step of `n` and `i` at a time. */
  lemma ProductSteps(i: nat, n: nat, k: nat)
    requires i < n
    ensures (i + 1) * k == i * k + k && n * k == (n - 1) * k + k
    ensures i < n - 1 ==> (i + 1) * k <= (n - 1) * k
    ensures i == n - 1 ==> i * k == (n - 1) * k
  {
  }

  /** A slice inside the front part of a concatenation. */
  lemma SliceOfFront(front: seq<real>, back: seq<real>, lo: nat, hi: nat)
    requires lo <= hi <= |front|
    ensures (front + back)[lo..hi] == front[lo..hi]
  {
  }

  /** The back part of a concatenation, sliced out again. */
  lemma SliceOfBack(front: seq<real>, back: seq<real>)
    ensures (front + back)[|front|..|front| + |back|] == back
  {
  }

  /** The normalised records of `colors`, one after the other. */
  function Normalized(colors: seq<RGBA>): (r: seq<real>)
    ensures |r| == 4 * |colors|
  {
    if |colors| == 0 then [] else Normalized(colors[..|colors| - 1]) + colors[|colors| - 1].GetAsNormalizedF32()
  }

  /** Colour `i`'s four floats sit at offset `4 * i`, in order. */
  lemma {:induction false} NormalizedAt(colors: seq<RGBA>, i: nat)
    requires i < |colors|
    ensures Normalized(colors)[4 * i..4 * i + 4] == colors[i].GetAsNormalizedF32()
  {
    var init := colors[..|colors| - 1];
    if i < |colors| - 1 {
      NormalizedAt(init, i);
      assert init[i] == colors[i];
      assert Normalized(colors)[4 * i..4 * i + 4] == Normalized(init)[4 * i..4 * i + 4];
    }
  }

  /** Appending colours in two batches appends them in one. */
  lemma {:induction false} NormalizedAppend(xs: seq<RGBA>, ys: seq<RGBA>)
    ensures Normalized(xs + ys) == Normalized(xs) + Normalized(ys)
  {
    if ys != [] {
      var init := ys[..|ys| - 1];
      assert (xs + ys)[..|xs + ys| - 1] == xs + init;
      NormalizedAppend(xs, init);
    } else {
      assert xs + ys == xs;
    }
  }

  // ---------------------------------------------------------------------
  // The container

  class Vertices {
    var vertPos: seq<real>
    var colorsPos: seq<real>
    var texturesPos: seq<real>

    /** `Vertices::new`: the three sequences as given. */
    constructor (vertPos: seq<real>, colorsPos: seq<real>, texturesPos: seq<real>)
      ensures this.vertPos == vertPos && this.colorsPos == colorsPos && this.texturesPos == texturesPos
    {
      this.vertPos, this.colorsPos, this.texturesPos := vertPos, colorsPos, texturesPos;
    }

    /** `Vertices::empty`. */
    constructor Empty()
      ensures vertPos == [] && |colorsPos| == 0 && |texturesPos| == 0
      ensures SumCapacity() == 0
    {
      vertPos, colorsPos, texturesPos := [], [], [];
    }

    /** `set_position`: the sequence `location` selects becomes `position`
        followed by its old elements beyond `|position|`; the other two are
        unchanged. */
    method SetPosition(position: seq<real>, location: VertexLocation)
      modifies this
      ensures location == Position ==> vertPos == Overwrite(old(vertPos), position)
      ensures location == Color ==> colorsPos == Overwrite(old(colorsPos), position)
      ensures location == Texture ==> texturesPos == Overwrite(old(texturesPos), position)
      ensures location != Position ==> vertPos == old(vertPos)
      ensures location != Color ==> colorsPos == old(colorsPos)
      ensures location != Texture ==> texturesPos == old(texturesPos)
    {
      match location
      case Position => vertPos := BuildData(vertPos, position);
      case Color => colorsPos := BuildData(colorsPos, position);
      case Texture => texturesPos := BuildData(texturesPos, position);
    }

    /** `append_colors`: four floats per colour appended in order, earlier
        colour floats kept. */
    method AppendColors(colors: seq<RGBA>)
      modifies this
      ensures colorsPos == old(colorsPos) + Normalized(colors)
      ensures vertPos == old(vertPos) && texturesPos == old(texturesPos)
    {
      for k := 0 to |colors|
        invariant colorsPos == old(colorsPos) + Normalized(colors[..k])
        invariant vertPos == old(vertPos) && texturesPos == old(texturesPos)
      {
        assert colors[..k + 1][..k] == colors[..k];
        colorsPos := colorsPos + colors[k].GetAsNormalizedF32();
      }
      assert colors[..|colors|] == colors;
    }

    /** `set_one_color_for_all_vert`: one copy of the colour's record per
        whole position triple, replacing the old colours. */
    method SetOneColorForAllVert(color: RGBA)
      modifies this
      ensures colorsPos == Repeat(color.GetAsNormalizedF32(), |vertPos| / 3)
      ensures vertPos == old(vertPos) && texturesPos == old(texturesPos)
    {
      colorsPos := [];
      var size := |vertPos| / 3;
      for k := 0 to size
        invariant colorsPos == Repeat(color.GetAsNormalizedF32(), k)
        invariant vertPos == old(vertPos) && texturesPos == old(texturesPos)
      {
        colorsPos := colorsPos + color.GetAsNormalizedF32();
      }
    }

    /** Exactly three whole vertices. */
    predicate IsTriangle()
      reads this
      ensures IsTriangle() <==> |vertPos| % 3 == 0 && |vertPos| / 3 == 3
    {
      |vertPos| == 9
    }

    /** Exactly four whole vertices. */
    predicate IsReactangle()
      reads this
      ensures IsReactangle() <==> |vertPos| % 3 == 0 && |vertPos| / 3 == 4
    {
      |vertPos| == 12
    }

    /** Texture coordinates are present exactly when the announced stride is
        the textured one. */
    predicate IsTexture()
      reads this
      ensures IsTexture() <==> StrideFloats(colorsPos, texturesPos) == 9
    {
      |texturesPos| != 0
    }

    /** The capacity reserved for the interleaved buffer, which is exactly
        its length when the structure is valid and the positions are whole
        triples. */
    function SumCapacity(): (n: nat)
      reads this
      ensures n == |vertPos| + |colorsPos| + |texturesPos|
      ensures RatiosHold(|vertPos|, |colorsPos|, |texturesPos|) && |vertPos| % 3 == 0 ==>
        Covers(vertPos, colorsPos, texturesPos, |vertPos| / 3)
        && n == |Interleave(vertPos, colorsPos, texturesPos, |vertPos| / 3)|
    {
      if RatiosHold(|vertPos|, |colorsPos|, |texturesPos|) then
        InterleaveLength(vertPos, colorsPos, texturesPos);
        |vertPos| + |colorsPos| + |texturesPos|
      else
        |vertPos| + |colorsPos| + |texturesPos|
    }

    /** Lengths for which the `f32` ratio test below is exact. */
    predicate LengthsExact()
      reads this
    {
      |vertPos| < F32_EXACT_LENGTH && |colorsPos| < F32_EXACT_LENGTH && |texturesPos| < F32_EXACT_LENGTH
    }

    /** `is_valid_structure`: the position length divided by each present
        attribute's length must be 0.75 (colours) or 1.5 (textures). */
    predicate IsValidStructure()
      reads this
      requires LengthsExact()
      ensures IsValidStructure() <==> RatiosHold(|vertPos|, |colorsPos|, |texturesPos|)
    {
      var validColors := |colorsPos| == 0 || |vertPos| as real / |colorsPos| as real == 0.75;
      var validTexture := |texturesPos| == 0 || |vertPos| as real / |texturesPos| as real == 1.5;
      validTexture && validColors
    }

    /** `create_single_vertices_array`: None unless the structure is valid,
        otherwise every vertex's record in vertex order. */
    method CreateSingleVerticesArray() returns (result: Option<seq<real>>)
      requires LengthsExact()
      ensures RatiosHold(|vertPos|, |colorsPos|, |texturesPos|) <==> result.Some?
      ensures result.Some? ==> Covers(vertPos, colorsPos, texturesPos, |vertPos| / 3)
      ensures result.Some? ==> result.value == Interleave(vertPos, colorsPos, texturesPos, |vertPos| / 3)
    {
      if !IsValidStructure() {
        return None;
      }
      var pos, colors, textures := vertPos, colorsPos, texturesPos;
      RatiosGiveCounts(pos, colors, textures);
      var buffer: seq<real> := [];
      var isTexture := |textures| != 0;
      var isColor := |colors| != 0;
      var vertices := |pos| / 3;

      var vertPosIndex := 0;
      var colorPosIndex := 0;
      var texturePosIndex := 0;
      for v := 0 to vertices
        invariant vertPosIndex == 3 * v
        invariant isColor ==> colorPosIndex == 4 * v
        invariant isTexture ==> texturePosIndex == 2 * v
        invariant buffer == Interleave(pos, colors, textures, v)
      {
        ghost var done := buffer;
        buffer, vertPosIndex := PushRun(buffer, pos, vertPosIndex, 3);
        ghost var withPos := buffer;
        if isColor {
          buffer, colorPosIndex := PushRun(buffer, colors, colorPosIndex, 4);
        }
        ghost var withColor := buffer;
        if isTexture {
          buffer, texturePosIndex := PushRun(buffer, textures, texturePosIndex, 2);
        }
        RecordFromRuns(pos, colors, textures, v, done, withPos, withColor, buffer);
      }
      return Some(buffer);
    }

    /** One of the inner loops of `create_single_vertices_array`: pushes
        `count` consecutive elements of `source`, starting at the running
        index, and advances the index past them. */
    static method PushRun(buffer: seq<real>, source: seq<real>, index: nat, count: nat)
      returns (result: seq<real>, next: nat)
      requires index + count <= |source|
      ensures result == buffer + source[index..index + count]
      ensures next == index + count
    {
      result, next := buffer, index;
      for k := 0 to count
        invariant next == index + k
        invariant result == buffer + source[index..next]
      {
        result := result + [source[next]];
        next := next + 1;
      }
    }

    /** `get_stride`: bytes per vertex, four per announced float. */
    method GetStride() returns (stride: i32)
      ensures stride as int == 4 * StrideFloats(colorsPos, texturesPos)
    {
      var floats := 3;
      if |colorsPos| != 0 {
        floats := 7;
      }
      if |texturesPos| != 0 {
        floats := 9;
      }
      stride := (floats * 4) as i32;
    }

    /** `build_data`: when `data` is empty or shorter than `position` it is
        cleared and refilled from `position`; then its first `|position|`
        elements are overwritten by `position`. */
    static method BuildData(data: seq<real>, position: seq<real>) returns (r: seq<real>)
      ensures r == Overwrite(data, position)
    {
      r := data;
      if r == [] || |r| < |position| {
        r := [];
        for k := 0 to |position|
          invariant r == position[..k]
        {
          r := r + [position[k]];
        }
      }
      if |r| >= |position| {
        for k := 0 to |position|
          invariant |r| == |Overwrite(data, position)|
          invariant r[..k] == position[..k]
          invariant r[|position|..] == Overwrite(data, position)[|position|..]
        {
          r := r[k := position[k]];
        }
      }
    }
  }

  /** `test_append_colors`: two colours appended to an empty structure give
      capacity 8, a third gives 12, and the red and green channels read 1. */
  method AppendColorsExample() returns (first: nat, second: nat, samples: seq<real>)
    ensures first == 8 && second == 12
    ensures samples == [1.0, 1.0, 1.0]
  {
    var vertices := new Vertices.Empty();
    var magenta := RGBA.New(255, 0, 255, 1.0);
    var green := RGBA.New(0, 255, 0, 1.0);
    vertices.AppendColors([magenta, green]);
    first := vertices.SumCapacity();
    NormalizedAt([magenta, green], 0);
    NormalizedAt([magenta, green], 1);
    var s0, s5 := vertices.colorsPos[0], vertices.colorsPos[5];
    vertices.AppendColors([magenta]);
    second := vertices.SumCapacity();
    NormalizedAt([magenta], 0);
    samples := [s0, s5, vertices.colorsPos[10]];
  }

  /** The cases the unit tests of `polygons/vertices.rs` check. */
  lemma {:induction false} SourceExamples()
    ensures !RatiosHold(9, 9, 4)
    ensures var red := RGBA.New(255, 0, 255, 1.0);
      |Normalized([red, RGBA.New(0, 255, 0, 1.0)] + [red])| == 12
  {
  }
}
