/** The miLight command encoder: the per-zone code tables, the brightness and
    colour encoders, and the 3-byte datagram a command travels in. */
module Encoder {

  /** A zone of the miLight RF protocol: 0 addresses every bulb, 1 to 4 one group each. */
  type Zone = z: int | 0 <= z < 5

  /** Per-zone command bytes fixed by the bulb firmware. */
  const WhiteCodes: seq<int> := [0xC2, 0xC5, 0xC7, 0xC9, 0xCB]
  const OnCodes: seq<int> := [0x42, 0x45, 0x47, 0x49, 0x4B]
  const OffCodes: seq<int> := [0x41, 0x46, 0x48, 0x4A, 0x4C]

  const LevelCode := 0x4E
  const HueCode := 0x40
  /** The fixed last byte of every datagram. */
  const Trailer := 0x55
  /** The RGB number of pure white, which selects the zone's white mode. */
  const WhiteRgb := 0xFFFFFF
  /** The highest hue the bulbs' colour wheel reaches; larger hues are clamped to it. */
  const MaxHue := 271.0

  /** An RF command. NoCmd is the empty object the level encoder gives for a
      level of zero or below: it has neither a code nor a parameter. */
  datatype Cmd = NoCmd | RfCmd(code: int, param: int)

  /** A colour as the colour library reports it: its 24-bit RGB number and its hue in degrees. */
  datatype Colour = Colour(rgb: int, hue: real)

  /** The colour library yields hues in [0, 360). */
  predicate HueInRange(c: Colour)
  {
    0.0 <= c.hue < 360.0
  }

  /** The cached colour of a new device, '#ffffff'. */
  const DefaultColour := Colour(WhiteRgb, 0.0)

  /** JavaScript's Math.round: the nearest integer, halves rounded upward. */
  function JsRound(x: real): (r: int)
    ensures r as real - 0.5 <= x < r as real + 0.5
  {
    (x + 0.5).Floor
  }

  /** Integer division by four with the offset 2 rounds a quarter exactly as Math.round does. */
  lemma QuarterRounding(n: int)
    ensures (n + 2) / 4 == JsRound(n as real / 4.0)
  {
  }

  /** levelToCmd: a positive brightness percentage becomes the brightness
      command with Math.round(level / 4), a level of zero or below the empty command. */
  function LevelToCmd(level: int): (c: Cmd)
    ensures c.RfCmd? <==> level > 0
    ensures c.RfCmd? ==> c.code == LevelCode && c.param == JsRound(level as real / 4.0)
    ensures 0 < level <= 100 ==> c.RfCmd? && 0 <= c.param <= 25
    ensures level == 1 ==> c == RfCmd(LevelCode, 0)
  {
    if level > 0 then
      QuarterRounding(level);
      RfCmd(LevelCode, (level + 2) / 4)
    else
      NoCmd
  }

  /** A brighter level never gives a smaller brightness parameter. */
  lemma LevelMonotone(a: int, b: int)
    requires 0 < a <= b
    ensures LevelToCmd(a).param <= LevelToCmd(b).param
  {
  }

  /** Hues beyond the end of the bulbs' colour wheel are coerced to its end. */
  function ClampHue(h: real): (r: real)
    ensures r <= MaxHue && r <= h
    ensures r == h || r == MaxHue
  {
    if h > MaxHue then MaxHue else h
  }

  /** cssToCmd: pure white selects the zone's white code; any other colour
      gives the hue command whose parameter is floor(192 - h * 255 / 360) of
      the clamped hue h. */
  function CssToCmd(colour: Colour, zone: Zone): (c: Cmd)
    requires HueInRange(colour)
    ensures colour.rgb == WhiteRgb ==> c == RfCmd(WhiteCodes[zone], 0x00)
    ensures colour.rgb != WhiteRgb ==> c.RfCmd? && c.code == HueCode && 0 <= c.param <= 192
    ensures colour.rgb != WhiteRgb ==>
              c.RfCmd? && c.param as real <= 192.0 - ClampHue(colour.hue) * 255.0 / 360.0 < c.param as real + 1.0
  {
    if colour.rgb == WhiteRgb then
      RfCmd(WhiteCodes[zone], 0x00)
    else
      RfCmd(HueCode, (192.0 - ClampHue(colour.hue) * 255.0 / 360.0).Floor)
  }

  /** Whether a command is a hue command, the test the sequencer applies to an encoded colour. */
  predicate IsHue(c: Cmd)
  {
    c.RfCmd? && c.code == HueCode
  }

  /** No white code equals the hue code, so the sequencer's hue test on an
      encoded colour holds exactly for the colours that are not pure white. */
  lemma HueTestExact(colour: Colour, zone: Zone)
    requires HueInRange(colour)
    ensures IsHue(CssToCmd(colour, zone)) <==> colour.rgb != WhiteRgb
  {
  }

  /** Every hue above the clamp gives the same command as the clamp itself. */
  lemma HueClamped(rgb: int, h: real, zone: Zone)
    requires MaxHue < h < 360.0
    ensures CssToCmd(Colour(rgb, h), zone) == CssToCmd(Colour(rgb, MaxHue), zone)
  {
  }

  /** Red, hue 0, has no special case: it maps to parameter 192. */
  lemma HueZero(rgb: int, zone: Zone)
    requires rgb != WhiteRgb
    ensures CssToCmd(Colour(rgb, 0.0), zone) == RfCmd(HueCode, 192)
  {
  }

  /** The hue parameter runs backwards along the colour wheel. */
  lemma HueAntitone(rgb: int, h1: real, h2: real, zone: Zone)
    requires rgb != WhiteRgb && 0.0 <= h1 <= h2 < 360.0
    ensures CssToCmd(Colour(rgb, h2), zone).param <= CssToCmd(Colour(rgb, h1), zone).param
  {
  }

  /** Buffer.from keeps the low 8 bits of every number it is given. */
  function ToByte(x: int): (b: int)
    ensures 0 <= b < 256
    ensures 0 <= x < 256 ==> b == x
    ensures (b - x) % 256 == 0
  {
    x % 256
  }

  /** The datagram sendProperties builds from a command: [code, param, 0x55].
      The empty command has neither field, and Buffer.from turns each missing one into 0. */
  function Frame(c: Cmd): (f: seq<int>)
    ensures |f| == 3 && f[2] == Trailer
    ensures forall i :: 0 <= i < |f| ==> 0 <= f[i] < 256
    ensures c.NoCmd? ==> f == [0, 0, Trailer]
  {
    match c
    case NoCmd => [0, 0, Trailer]
    case RfCmd(code, param) => [ToByte(code), ToByte(param), Trailer]
  }

  /** How the bridge reads a datagram back into a command. */
  function ParseFrame(f: seq<int>): (c: Cmd)
    requires |f| == 3
    ensures c.RfCmd?
  {
    RfCmd(f[0], f[1])
  }

  /** A command both of whose fields are bytes. */
  predicate ByteCmd(c: Cmd)
  {
    c.RfCmd? && 0 <= c.code < 256 && 0 <= c.param < 256
  }

  /** A command of bytes travels through its datagram unchanged. */
  lemma FrameRoundTrip(c: Cmd)
    requires ByteCmd(c)
    ensures ParseFrame(Frame(c)) == c
  {
  }

  /** Everything the encoders produce for in-range inputs is made of bytes,
      so its datagram carries it exactly. */
  lemma EncodersYieldBytes(level: int, colour: Colour, zone: Zone)
    requires 0 < level <= 100 && HueInRange(colour)
    ensures ByteCmd(LevelToCmd(level)) && ParseFrame(Frame(LevelToCmd(level))) == LevelToCmd(level)
    ensures ByteCmd(CssToCmd(colour, zone)) && ParseFrame(Frame(CssToCmd(colour, zone))) == CssToCmd(colour, zone)
  {
  }
}
