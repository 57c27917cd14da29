/**
  The RGBA colours a transfer function stores (Qt's QColor, reduced to what the
  renderer uses): four 8-bit channels, read as integers (`red()`, `alpha()`) or
  as reals in [0, 1] (`redF()`, `alphaF()`).
*/
module Colors {

  /** One 8-bit colour channel. */
  type Channel = c: int | 0 <= c <= 255

  datatype Color = Color(red: Channel, green: Channel, blue: Channel, alpha: Channel)

  /** What QColor() holds: an invalid colour, black with full alpha. */
  const InvalidColor := Color(0, 0, 0, 255)

  /**
    What a QColor read past the end of a stream holds: every field it reads
    is zero-filled, the alpha included.
  */
  const ZeroColor := Color(0, 0, 0, 0)

  /** Which of the four channels an operation may overwrite. */
  datatype Mask = Mask(red: bool, green: bool, blue: bool, alpha: bool)

  /** Channel `k` (0 red, 1 green, 2 blue, 3 alpha) of `c`. */
  function ChannelOf(c: Color, k: int): Channel
    requires 0 <= k < 4
  {
    if k == 0 then c.red else if k == 1 then c.green else if k == 2 then c.blue else c.alpha
  }

  /** Whether `m` selects channel `k`. */
  predicate Selects(m: Mask, k: int)
    requires 0 <= k < 4
  {
    if k == 0 then m.red else if k == 1 then m.green else if k == 2 then m.blue else m.alpha
  }

  /** QColor::redF() and its siblings: the channel scaled to [0, 1]. */
  function ChannelF(c: Channel): (v: real)
    ensures 0.0 <= v <= 1.0
  {
    c as real / 255.0
  }

  /**
    QColor::setRedF(v) and its siblings followed by red(): the nearest 8-bit
    value. Qt clamps a `v` outside [0, 1] to the nearer end (with a warning).
  */
  function FromF(v: real): (c: Channel)
    ensures 0.0 <= v <= 1.0 ==> v * 255.0 - 0.5 < c as real <= v * 255.0 + 0.5
    ensures v < 0.0 ==> c == 0
    ensures v > 1.0 ==> c == 255
  {
    if v < 0.0 then 0 else if v > 1.0 then 255 else (v * 255.0 + 0.5).Floor
  }

  /** Reading a channel as a real and writing it back gives the same channel. */
  lemma FromFChannelF(c: Channel)
    ensures FromF(ChannelF(c)) == c
  {
  }

  /** `prev` with the channels selected by `m` taken from `next`. */
  function Overwrite(prev: Color, next: Color, m: Mask): (r: Color)
    ensures forall k :: 0 <= k < 4 ==> ChannelOf(r, k) == if Selects(m, k) then ChannelOf(next, k) else ChannelOf(prev, k)
  {
    Color(if m.red then next.red else prev.red,
          if m.green then next.green else prev.green,
          if m.blue then next.blue else prev.blue,
          if m.alpha then next.alpha else prev.alpha)
  }
}
