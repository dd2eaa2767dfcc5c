/** The rectangle of `polygons/reactangle.rs` (the source spells it
    `Reactangle`): a fixed 12-slot vertex array, four vertices of x, y, z,
    built from eight floats and partly rewritten in place by `set_vertices`.
    The GL buffer names are kept as plain fields; the GL calls of `init`,
    `draw` and `drop` are not part of this model. */
module RectangleGeometry {
  import opened Numeric

  /** Slots of the vertex array: four vertices of three floats. */
  const SIZE: nat := 12

  /** How many leading input floats `set_vertices` copies: the whole pairs
      among the first eight. */
  function CopiedLength(len: nat): (n: nat)
    ensures n % 2 == 0 && n <= 8 && n <= len
    ensures n == 8 || len < n + 2
  {
    2 * ((if len < 8 then len else 8) / 2)
  }

  /** The array `set_vertices` leaves: input element `j` in slot `j` for
      every copied `j`, the old slot elsewhere. */
  function AfterSetVertices(vert: seq<real>, input: seq<real>): (r: seq<real>)
    requires |vert| == SIZE
    ensures |r| == SIZE
    ensures forall j :: 0 <= j < CopiedLength(|input|) ==> r[j] == input[j]
    ensures forall j :: CopiedLength(|input|) <= j < SIZE ==> r[j] == vert[j]
  {
    input[..CopiedLength(|input|)] + vert[CopiedLength(|input|)..]
  }

  /** Fewer than two input floats leave the array as it was. */
  lemma ShortInputUnchanged(vert: seq<real>, input: seq<real>)
    requires |vert| == SIZE && |input| < 2
    ensures AfterSetVertices(vert, input) == vert
  {
  }

  /** The copy is index for index, so from six input floats on it writes the
      slots 2 and 5 that hold the z of the first two vertices; slots 8 to 11
      are never written. */
  lemma CopyIsIndexForIndex(vert: seq<real>, input: seq<real>)
    requires |vert| == SIZE
    ensures |input| >= 6 ==>
      (AfterSetVertices(vert, input)[2] == input[2] && AfterSetVertices(vert, input)[5] == input[5])
    ensures AfterSetVertices(vert, input)[8..] == vert[8..]
  {
  }

  /** Input beyond index 7 and an unpaired last element make no difference. */
  lemma {:induction false} ExtraInputIgnored(vert: seq<real>, input: seq<real>)
    requires |vert| == SIZE
    ensures AfterSetVertices(vert, input) == AfterSetVertices(vert, input[..CopiedLength(|input|)])
  {
    var n := CopiedLength(|input|);
    assert CopiedLength(|input[..n]|) == n;
    assert input[..n][..n] == input[..n];
  }

  class Vertices {
    var vert: array<real>

    /** The array always has its 12 slots. */
    predicate Valid()
      reads this
    {
      vert.Length == SIZE
    }

    /** `Vertices::new`: vertex `i` takes x and y from input pair `i`, z zero. */
    constructor (data: seq<real>)
      requires |data| == 8
      ensures Valid() && fresh(vert)
      ensures forall i :: 0 <= i < 4 ==>
        vert[3 * i] == data[2 * i] && vert[3 * i + 1] == data[2 * i + 1] && vert[3 * i + 2] == 0.0
    {
      vert := new real[SIZE] [data[0], data[1], 0.0, data[2], data[3], 0.0,
                              data[4], data[5], 0.0, data[6], data[7], 0.0];
    }
  }

  class Reactangle {
    var ebo: u32
    var vao: u32
    var vbo: u32
    var vertices: Vertices

    predicate Valid()
      reads this, vertices
    {
      vertices.Valid()
    }

    /** `Reactangle::new`: the vertices, and no GL buffers yet. */
    constructor (vertices: Vertices)
      requires vertices.Valid()
      ensures this.vertices == vertices && Valid()
      ensures ebo == 0 && vao == 0 && vbo == 0
    {
      ebo, vao, vbo := 0, 0, 0;
      this.vertices := vertices;
    }

    /** `set_vertices`: under length guards of 2, 4, 6 and 8, copies the
        input pair by pair into the same slots of the array. */
    method SetVertices(input: seq<real>)
      requires Valid()
      modifies vertices.vert
      ensures Valid()
      ensures vertices.vert[..] == AfterSetVertices(old(vertices.vert[..]), input)
    {
      var vert := vertices.vert;
      if |input| >= 2 {
        vert[0] := input[0];
        vert[1] := input[1];
      }
      if |input| >= 4 {
        vert[2] := input[2];
        vert[3] := input[3];
      }
      if |input| >= 6 {
        vert[4] := input[4];
        vert[5] := input[5];
      }
      if |input| >= 8 {
        vert[6] := input[6];
        vert[7] := input[7];
      }
    }

    /** `recalculate` does nothing. */
    method Recalculate()
      requires Valid()
      ensures Valid() && vertices.vert[..] == old(vertices.vert[..])
    {
    }
  }
}
