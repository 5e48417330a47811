/**
 * The data stream the codec writes to and reads from, at token level.
 *
 * Reading follows the stream library's failure behaviour without a status
 * flag, since the codec never looks at one: a read past the end yields the
 * zero value of the requested kind and consumes nothing; a token of another
 * kind than the one requested yields the zero value and is consumed.
 */
module Streams {
  import opened Tokens

  /** What is left after one read. */
  function Rest(ts: seq<Token>): seq<Token>
  {
    if ts == [] then [] else ts[1..]
  }

  function TakeBool(ts: seq<Token>): (bool, seq<Token>)
  {
    (if ts != [] && ts[0].BoolTok? then ts[0].b else false, Rest(ts))
  }

  function TakePoint(ts: seq<Token>): (Point, seq<Token>)
  {
    (if ts != [] && ts[0].PointTok? then ts[0].p else Origin, Rest(ts))
  }

  function TakeDouble(ts: seq<Token>): (real, seq<Token>)
  {
    (if ts != [] && ts[0].DoubleTok? then ts[0].d else 0.0, Rest(ts))
  }

  function TakeU16(ts: seq<Token>): (U16, seq<Token>)
  {
    (if ts != [] && ts[0].U16Tok? then ts[0].h else 0, Rest(ts))
  }

  function TakeU32(ts: seq<Token>): (U32, seq<Token>)
  {
    (if ts != [] && ts[0].U32Tok? then ts[0].w else 0, Rest(ts))
  }

  /** A count written with `CountToken` reads back as the count, as long as it fits in 32 bits. */
  lemma CountRoundTrip(n: nat, rest: seq<Token>)
    requires n < U32Limit
    ensures TakeU32([CountToken(n)] + rest) == (n as U32, rest)
  {
    assert ([CountToken(n)] + rest)[1..] == rest;
  }

  /** An output stream: everything written so far, in order. */
  class OutStream {
    var tokens: seq<Token>

    constructor ()
      ensures tokens == []
    {
      tokens := [];
    }

    /** `out << value` */
    method Write(t: Token)
      modifies this
      ensures tokens == old(tokens) + [t]
    {
      tokens := tokens + [t];
    }
  }

  /** An input stream over a fixed token sequence with a read cursor. */
  class InStream {
    const data: seq<Token>
    var pos: nat

    ghost predicate Valid()
      reads this
    {
      pos <= |data|
    }

    /** The tokens not read yet. */
    function Remaining(): seq<Token>
      reads this
      requires Valid()
    {
      data[pos..]
    }

    constructor (ts: seq<Token>)
      ensures Valid() && data == ts && Remaining() == ts
    {
      data := ts;
      pos := 0;
    }

    /** Moves the cursor past one token, if there is one. */
    method Advance()
      requires Valid()
      modifies this`pos
      ensures Valid() && Remaining() == Rest(old(Remaining()))
    {
      if pos < |data| {
        assert data[pos..][1..] == data[pos + 1..];
        pos := pos + 1;
      }
    }

    /** `in >> b` for a bool */
    method ReadBool() returns (b: bool)
      requires Valid()
      modifies this`pos
      ensures Valid() && (b, Remaining()) == TakeBool(old(Remaining()))
    {
      b := pos < |data| && data[pos].BoolTok? && data[pos].b;
      Advance();
    }

    /** `in >> p` for a QPointF */
    method ReadPoint() returns (p: Point)
      requires Valid()
      modifies this`pos
      ensures Valid() && (p, Remaining()) == TakePoint(old(Remaining()))
    {
      p := if pos < |data| && data[pos].PointTok? then data[pos].p else Origin;
      Advance();
    }

    /** `in >> d` for a double */
    method ReadDouble() returns (d: real)
      requires Valid()
      modifies this`pos
      ensures Valid() && (d, Remaining()) == TakeDouble(old(Remaining()))
    {
      d := if pos < |data| && data[pos].DoubleTok? then data[pos].d else 0.0;
      Advance();
    }

    /** `in >> h` for a quint16 */
    method ReadU16() returns (h: U16)
      requires Valid()
      modifies this`pos
      ensures Valid() && (h, Remaining()) == TakeU16(old(Remaining()))
    {
      h := if pos < |data| && data[pos].U16Tok? then data[pos].h else 0;
      Advance();
    }

    /** `in >> w` for a quint32 */
    method ReadU32() returns (w: U32)
      requires Valid()
      modifies this`pos
      ensures Valid() && (w, Remaining()) == TakeU32(old(Remaining()))
    {
      w := if pos < |data| && data[pos].U32Tok? then data[pos].w else 0;
      Advance();
    }
  }
}
