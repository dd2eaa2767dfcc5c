/** The circle of `circle.rs`: clamped centre and radius, aspect-ratio
    correction of the two radii, and the triangle-fan buffer handed to the GL
    side (colour record, centre, then one vertex per segment). Sine, cosine
    and the degree-to-radian conversion are uninterpreted parameters. */
module CircleGeometry {
  import opened Numeric
  import opened Wrappers
  import opened ColorModel

  /** The window size, in pixels. */
  datatype Resolution = Resolution(width: u32, height: u32)

  /** `f32::sin`, `f32::cos` and `f32::to_radians`, left uninterpreted. */
  datatype Trig = Trig(sin: real -> real, cos: real -> real, toRadians: real -> real)

  const DEFAULT_SEGMENTS: u16 := 32

  /** Clamps a coordinate into [-1, 1], the visible range. */
  function ClampToUnit(x: real): (r: real)
    ensures -1.0 <= r <= 1.0
    ensures -1.0 <= x <= 1.0 ==> r == x
    ensures x > 1.0 ==> r == 1.0
    ensures x < -1.0 ==> r == -1.0
  {
    if x > 1.0 then 1.0 else if x < -1.0 then -1.0 else x
  }

  /** The angle step, in degrees, between perimeter vertices. */
  function AngleStep(segments: u16): real
    requires segments > 0
  {
    360.0 / segments as real
  }

  /** Perimeter vertex `k` (0-based): at `k + 1` angle steps, x from the sine
      scaled by the width radius, y from the cosine scaled by the height
      radius, z zero. */
  function PerimeterPoint(trig: Trig, radiusWidth: real, radiusHeight: real, segments: u16, k: nat): seq<real>
    requires segments > 0
  {
    FanVertex(trig, radiusWidth, radiusHeight, (k + 1) as real * AngleStep(segments))
  }

  /** The perimeter vertex at `angle` degrees. */
  function FanVertex(trig: Trig, radiusWidth: real, radiusHeight: real, angle: real): (v: seq<real>)
    ensures |v| == 3 && v[2] == 0.0
  {
    var x := radiusWidth * trig.sin(trig.toRadians(angle));
    var y := radiusHeight * trig.cos(trig.toRadians(angle));
    [x, y, 0.0]
  }

  /** Perimeter vertices 0 .. n-1, one triple each. */
  function Perimeter(trig: Trig, radiusWidth: real, radiusHeight: real, segments: u16, n: nat): (r: seq<real>)
    requires n == 0 || segments > 0
    ensures |r| == 3 * n
  {
    if n == 0 then []
    else Perimeter(trig, radiusWidth, radiusHeight, segments, n - 1)
         + PerimeterPoint(trig, radiusWidth, radiusHeight, segments, n - 1)
  }

  /** Triple `k` of the perimeter is perimeter vertex `k`; its z is zero. */
  lemma {:induction false} PerimeterAt(trig: Trig, radiusWidth: real, radiusHeight: real, segments: u16, n: nat, k: nat)
    requires segments > 0
    requires k < n
    ensures Perimeter(trig, radiusWidth, radiusHeight, segments, n)[3 * k..3 * k + 3]
         == PerimeterPoint(trig, radiusWidth, radiusHeight, segments, k)
    ensures Perimeter(trig, radiusWidth, radiusHeight, segments, n)[3 * k + 2] == 0.0
  {
    var prev := Perimeter(trig, radiusWidth, radiusHeight, segments, n - 1);
    var last := PerimeterPoint(trig, radiusWidth, radiusHeight, segments, n - 1);
    assert Perimeter(trig, radiusWidth, radiusHeight, segments, n) == prev + last;
    if k < n - 1 {
      PerimeterAt(trig, radiusWidth, radiusHeight, segments, n - 1, k);
      assert (prev + last)[3 * k..3 * k + 3] == prev[3 * k..3 * k + 3];
    } else {
      assert (prev + last)[3 * k..3 * k + 3] == last;
    }
  }

  /** Scaling by `small / large` undoes multiplying by `large` and does not
      grow a non-negative radius. */
  lemma ScaleDown(small: real, large: real, radius: real)
    requires 0.0 <= small < large
    ensures small * radius / large * large == small * radius
    ensures radius >= 0.0 ==> 0.0 <= small * radius / large <= radius
  {
    if radius >= 0.0 {
      assert small * radius <= large * radius;
    }
  }

  class Circle {
    var center: (real, real)
    var radiusWidth: real
    var radiusHeight: real
    var color: RGBA
    var segments: u16

    /** `Circle::new`: the centre stored as given, both radii the clamped
        radius, the segment count defaulting to 32. */
    constructor (center: (real, real), radius: real, color: RGBA, segments: Option<u16>)
      ensures this.center == center && this.color == color
      ensures radiusWidth == radiusHeight == NormalizedRadius(radius)
      ensures this.segments == segments.UnwrapOr(DEFAULT_SEGMENTS)
    {
      var segmentsValue := segments.UnwrapOr(DEFAULT_SEGMENTS);
      var r := NormalizedRadius(radius);
      this.center := center;
      radiusWidth, radiusHeight := r, r;
      this.color := color;
      this.segments := segmentsValue;
    }

    /** `normalized_radius`: clamps into [0, 1]. */
    static function NormalizedRadius(radius: real): (r: real)
      ensures 0.0 <= r <= 1.0
      ensures 0.0 <= radius <= 1.0 ==> r == radius
      ensures radius < 0.0 ==> r == 0.0
      ensures radius > 1.0 ==> r == 1.0
    {
      if radius < 0.0 then 0.0 else if radius > 1.0 then 1.0 else radius
    }

    /** `adjust_radius`: on a window that is not square, the radius along the
        longer side shrinks by the ratio of the sides, so that a circle that
        started round is drawn round. */
    method AdjustRadius(resolution: Resolution)
      modifies this
      ensures center == old(center) && color == old(color) && segments == old(segments)
      ensures resolution.width == resolution.height ==>
        radiusWidth == old(radiusWidth) && radiusHeight == old(radiusHeight)
      ensures resolution.width > resolution.height ==>
        radiusWidth == resolution.height as real * old(radiusWidth) / resolution.width as real
        && radiusHeight == old(radiusHeight)
      ensures resolution.width < resolution.height ==>
        radiusHeight == resolution.width as real * old(radiusHeight) / resolution.height as real
        && radiusWidth == old(radiusWidth)
      ensures old(radiusWidth) == old(radiusHeight) ==>
        radiusWidth * resolution.width as real == radiusHeight * resolution.height as real
      ensures old(radiusWidth) >= 0.0 ==> 0.0 <= radiusWidth <= old(radiusWidth)
      ensures old(radiusHeight) >= 0.0 ==> 0.0 <= radiusHeight <= old(radiusHeight)
    {
      if resolution.width == resolution.height {
        return;
      }
      var w, h := resolution.width as real, resolution.height as real;
      var rw, rh := radiusWidth, radiusHeight;
      if resolution.width > resolution.height {
        ScaleDown(h, w, rw);
        radiusWidth := h * rw / w;
        assert radiusWidth * w == h * rw;
      } else {
        ScaleDown(w, h, rh);
        radiusHeight := w * rh / h;
        assert radiusHeight * h == w * rh;
      }
    }

    /** `calculate_raw_data`: the normalised colour, the clamped centre with
        z zero, then one triple per segment. */
    method CalculateRawData(trig: Trig) returns (result: seq<real>)
      ensures result == color.GetAsNormalizedF32()
                        + [ClampToUnit(center.0), ClampToUnit(center.1), 0.0]
                        + Perimeter(trig, radiusWidth, radiusHeight, segments, segments as nat)
      ensures |result| == 7 + 3 * segments as int
    {
      result := [];
      result := AddColor(result);
      result := AddCenterPoint(result);
      result := AddTriangles(trig, result);
    }

    method AddColor(buffer: seq<real>) returns (result: seq<real>)
      ensures result == buffer + color.GetAsNormalizedF32()
    {
      result := buffer + color.GetAsNormalizedF32();
    }

    method AddCenterPoint(buffer: seq<real>) returns (result: seq<real>)
      ensures result == buffer + [ClampToUnit(center.0), ClampToUnit(center.1), 0.0]
    {
      var c := NormalizedCenterCoordinates();
      result := buffer + [c.0, c.1, 0.0];
    }

    /** `normalized_center_coordinates`: each coordinate clamped into [-1, 1]
        on its own. */
    method NormalizedCenterCoordinates() returns (result: (real, real))
      ensures result == (ClampToUnit(center.0), ClampToUnit(center.1))
    {
      result := center;
      if center.0 > 1.0 {
        result := (1.0, result.1);
      }
      if center.1 > 1.0 {
        result := (result.0, 1.0);
      }
      if center.0 < -1.0 {
        result := (-1.0, result.1);
      }
      if center.1 < -1.0 {
        result := (result.0, -1.0);
      }
    }

    /** `add_triangles`: nothing for zero segments, otherwise one triple per
        segment at an angle that grows by one step each time. */
    method AddTriangles(trig: Trig, buffer: seq<real>) returns (result: seq<real>)
      ensures result == buffer + Perimeter(trig, radiusWidth, radiusHeight, segments, segments as nat)
    {
      var segs, rw, rh := segments, radiusWidth, radiusHeight;
      if segs == 0 {
        return buffer;
      }
      var angle := 360.0 / segs as real;
      var currentAngle := angle;
      result := buffer;
      for k := 0 to segs as nat
        invariant currentAngle == (k + 1) as real * AngleStep(segs)
        invariant result == buffer + Perimeter(trig, rw, rh, segs, k)
      {
        PerimeterStep(trig, rw, rh, segs, k);
        result := result + FanVertex(trig, rw, rh, currentAngle);
        NextAngle(k, angle);
        currentAngle := currentAngle + angle;
      }
    }
  }

  /** One more perimeter vertex appends its triple. */
  lemma PerimeterStep(trig: Trig, radiusWidth: real, radiusHeight: real, segments: u16, k: nat)
    requires segments > 0
    ensures Perimeter(trig, radiusWidth, radiusHeight, segments, k + 1)
         == Perimeter(trig, radiusWidth, radiusHeight, segments, k)
            + FanVertex(trig, radiusWidth, radiusHeight, (k + 1) as real * AngleStep(segments))
  {
  }

  /** Adding one step to the angle of vertex `k` gives the angle of vertex `k + 1`. */
  lemma NextAngle(k: nat, step: real)
    ensures (k + 1) as real * step + step == (k + 2) as real * step
  {
  }

  /** The cases the unit tests of `circle.rs` check: zero segments give the
      colour and the centre only; six and the default 32 give 25 and 103
      floats. */
  lemma SourceExamples(trig: Trig)
    ensures RGBA.FromHex(0x00_00_FF_FF).GetAsNormalizedF32()
            + [ClampToUnit(0.5), ClampToUnit(0.4), 0.0]
            + Perimeter(trig, 0.2, 0.2, 0, 0)
         == [0.0, 0.0, 1.0, 1.0, 0.5, 0.4, 0.0]
    ensures |RGBA.FromHex(0x00_00_FF_FF).GetAsNormalizedF32()
             + [ClampToUnit(0.5), ClampToUnit(0.4), 0.0]
             + Perimeter(trig, 0.2, 0.2, 6, 6)| == 25
    ensures |RGBA.FromHex(0x00_00_FF_FF).GetAsNormalizedF32()
             + [ClampToUnit(0.5), ClampToUnit(0.4), 0.0]
             + Perimeter(trig, 0.2, 0.2, DEFAULT_SEGMENTS, DEFAULT_SEGMENTS as nat)| == 103
  {
    FromHexOfBytes(0, 0, 0xFF, 0xFF);
    assert FromBeBytes([0, 0, 0xFF, 0xFF]) == 0x00_00_FF_FF;
  }
}
