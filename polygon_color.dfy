/** `ColorRGBA` of `polygons/color.rs`, a second copy of the colour value of
    `color.rs`. Its operations are written out as the file has them, and each
    contract states that it agrees with the corresponding `ColorModel.RGBA`
    operation, so everything proved there holds here. */
module PolygonColor {
  import opened Numeric
  import opened ColorModel

  datatype ColorRGBA = ColorRGBA(r: u8, g: u8, b: u8, a: real) {

    /** The same colour as a `ColorModel.RGBA`. */
    function AsRGBA(): RGBA {
      RGBA(r, g, b, a)
    }

    predicate Valid() {
      UnitInterval(a)
    }

    static function New(red: u8, green: u8, blue: u8, alpha: real): (c: ColorRGBA)
      ensures c.Valid()
      ensures c.r == red && c.g == green && c.b == blue
      ensures UnitInterval(alpha) ==> c.a == alpha
      ensures c.AsRGBA() == RGBA.New(red, green, blue, alpha)
    {
      ColorRGBA(red, green, blue, NormalizedAlpha(alpha))
    }

    static function Empty(): (c: ColorRGBA)
      ensures c.Valid()
      ensures c.GetRgba() == (0, 0, 0, 1.0)
      ensures c.AsRGBA() == RGBA.Empty()
    {
      ColorRGBA(0, 0, 0, 1.0)
    }

    static function FromHex(color: u32): (c: ColorRGBA)
      ensures c.Valid()
      ensures c.AsRGBA() == RGBA.FromHex(color)
    {
      var bytes := ToBeBytes(color);
      ColorRGBA(bytes[0], bytes[1], bytes[2], ConvertFromU8ToNormalizedF32(bytes[3]))
    }

    function GetAsNormalizedF32(): (v: seq<real>)
      ensures |v| == 4 && v[3] == a
      ensures v == AsRGBA().GetAsNormalizedF32()
    {
      [ConvertFromU8ToNormalizedF32(r), ConvertFromU8ToNormalizedF32(g),
       ConvertFromU8ToNormalizedF32(b), a]
    }

    function GetRgba(): (t: (u8, u8, u8, real))
      ensures ColorRGBA(t.0, t.1, t.2, t.3) == this
      ensures t == AsRGBA().GetRgba()
    {
      (r, g, b, a)
    }

    static function ConvertFromU8ToNormalizedF32(number: u8): (x: real)
      ensures UnitInterval(x)
      ensures x * 255.0 == number as real
      ensures x == RGBA.ConvertFromU8ToNormalizedF32(number)
    {
      (1.0 / U8_MAX as real) * number as real
    }

    static function NormalizedAlpha(number: real): (x: real)
      ensures UnitInterval(x)
      ensures UnitInterval(number) ==> x == number
      ensures x == RGBA.NormalizedAlpha(number)
    {
      if number > 1.0 then 1.0
      else if number < 0.0 then 0.0
      else number
    }
  }

  /** The cases the unit tests of `polygons/color.rs` check. */
  lemma SourceExamples()
    ensures ColorRGBA.New(255, 0, 0, 23.0).GetRgba() == (255, 0, 0, 1.0)
    ensures ColorRGBA.New(255, 0, 0, -0.4).GetRgba() == (255, 0, 0, 0.0)
    ensures ColorRGBA.FromHex(0xff00ffff).GetRgba() == (255, 0, 255, 1.0)
    ensures ColorRGBA.New(255, 0, 0, 1.0).GetAsNormalizedF32() == [1.0, 0.0, 0.0, 1.0]
  {
    ColorModel.SourceExamples();
  }
}
