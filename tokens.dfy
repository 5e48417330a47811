/**
 * The values a constraint-layout file is made of, one token per `<<` of the
 * data stream. The byte encoding of each token is left to the stream library;
 * the codec only depends on the order and the kind of the tokens.
 */
module Tokens {

  /** A QPointF. Coordinates are doubles; the codec only copies them, so reals stand in. */
  datatype Point = Point(x: real, y: real)

  const Origin: Point := Point(0.0, 0.0)

  const U32Limit: int := 0x1_0000_0000

  /** quint16 */
  newtype U16 = x: int | 0 <= x < 0x1_0000

  /** quint32 */
  newtype U32 = x: int | 0 <= x < 0x1_0000_0000

  /** One value written with `<<` and read back with `>>`. */
  datatype Token =
    | BoolTok(b: bool)
    | PointTok(p: Point)
    | DoubleTok(d: real)
    | U16Tok(h: U16)
    | U32Tok(w: U32)

  /** The token for a container size cast to quint32: the cast keeps the low 32 bits. */
  function CountToken(n: nat): Token
  {
    U32Tok((n % U32Limit) as U32)
  }
}
