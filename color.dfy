/** The colour value of `color.rs`: three 8-bit channels and an `f32` alpha,
    modelled as a `real`, that every constructor keeps inside [0, 1]. */
module ColorModel {
  import opened Numeric

  /** Alpha is a fraction of full opacity. */
  predicate UnitInterval(x: real) {
    0.0 <= x <= 1.0
  }

  datatype RGBA = RGBA(r: u8, g: u8, b: u8, a: real) {

    /** What every constructor below establishes. */
    predicate Valid() {
      UnitInterval(a)
    }

    /** `RGBA::new`: the channels as given, alpha clamped into [0, 1]. */
    static function New(red: u8, green: u8, blue: u8, alpha: real): (c: RGBA)
      ensures c.Valid()
      ensures c.r == red && c.g == green && c.b == blue
      ensures UnitInterval(alpha) ==> c.a == alpha
      ensures alpha > 1.0 ==> c.a == 1.0
      ensures alpha < 0.0 ==> c.a == 0.0
    {
      RGBA(red, green, blue, NormalizedAlpha(alpha))
    }

    /** `RGBA::empty`: opaque black. */
    static function Empty(): (c: RGBA)
      ensures c.Valid()
      ensures c.GetRgba() == (0, 0, 0, 1.0)
    {
      RGBA(0, 0, 0, 1.0)
    }

    /** `RGBA::from_hex`: the big-endian bytes of `color` are red, green, blue
        and alpha, the alpha byte scaled into [0, 1]. */
    static function FromHex(color: u32): (c: RGBA)
      ensures c.Valid()
      ensures FromBeBytes([c.r, c.g, c.b, (c.a * 255.0).Floor as u8]) == color
      ensures c.a * 255.0 == (color % 0x100) as real
    {
      var bytes := ToBeBytes(color);
      RGBA(bytes[0], bytes[1], bytes[2], ConvertFromU8ToNormalizedF32(bytes[3]))
    }

    /** `get_as_normalized_f32`: red, green and blue scaled into [0, 1], then alpha. */
    function GetAsNormalizedF32(): (v: seq<real>)
      ensures |v| == 4
      ensures v[0] * 255.0 == r as real && v[1] * 255.0 == g as real && v[2] * 255.0 == b as real
      ensures v[3] == a
      ensures Valid() ==> forall i :: 0 <= i < 4 ==> UnitInterval(v[i])
    {
      [ConvertFromU8ToNormalizedF32(r), ConvertFromU8ToNormalizedF32(g),
       ConvertFromU8ToNormalizedF32(b), a]
    }

    /** `get_rgba`: the stored fields, unchanged. */
    function GetRgba(): (t: (u8, u8, u8, real))
      ensures RGBA(t.0, t.1, t.2, t.3) == this
    {
      (r, g, b, a)
    }

    /** `convert_from_u8_to_normalized_f32`: a byte as a fraction of 255. */
    static function ConvertFromU8ToNormalizedF32(number: u8): (x: real)
      ensures UnitInterval(x)
      ensures x * 255.0 == number as real
      ensures x == 1.0 <==> number == U8_MAX
      ensures x == 0.0 <==> number == 0
    {
      (1.0 / 255.0) * number as real
    }

    /** `normalized_alpha`: clamps into [0, 1], leaving values inside unchanged. */
    static function NormalizedAlpha(number: real): (x: real)
      ensures UnitInterval(x)
      ensures UnitInterval(number) ==> x == number
      ensures number > 1.0 ==> x == 1.0
      ensures number < 0.0 ==> x == 0.0
    {
      if number > 1.0 then 1.0
      else if number < 0.0 then 0.0
      else number
    }
  }

  /** Decoding the packed form of four bytes gives them back as channels. */
  lemma {:induction false} FromHexOfBytes(red: u8, green: u8, blue: u8, alpha: u8)
    ensures RGBA.FromHex(FromBeBytes([red, green, blue, alpha]))
         == RGBA(red, green, blue, alpha as real / 255.0)
  {
    BeBytesRoundTrip([red, green, blue, alpha]);
  }

  /** Clamping alpha twice is clamping it once. */
  lemma NormalizedAlphaIdempotent(alpha: real)
    ensures RGBA.NormalizedAlpha(RGBA.NormalizedAlpha(alpha)) == RGBA.NormalizedAlpha(alpha)
  {
  }

  /** The cases the unit tests of `color.rs` check. */
  lemma SourceExamples()
    ensures RGBA.New(255, 0, 0, 1.0).GetRgba() == (255, 0, 0, 1.0)
    ensures RGBA.New(255, 0, 0, 23.0).GetRgba() == (255, 0, 0, 1.0)
    ensures RGBA.New(255, 0, 0, -0.4).GetRgba() == (255, 0, 0, 0.0)
    ensures RGBA.FromHex(0xff00ffff).GetRgba() == (255, 0, 255, 1.0)
    ensures RGBA.New(255, 0, 0, 1.0).GetAsNormalizedF32() == [1.0, 0.0, 0.0, 1.0]
  {
    FromHexOfBytes(255, 0, 255, 255);
    assert FromBeBytes([255, 0, 255, 255]) == 0xff00ffff;
  }
}
