// The LZ4 block codec of src/util.rs.
module Lz4 {
  import opened Wrappers

  type Byte = x: int | 0 <= x < 256

  datatype Error =
    | InputTooShort | SizeTooLarge | LiteralLengthEnds | LiteralPastInput
    | OffsetEnds | ZeroOffset | MatchLengthEnds | OffsetTooFar | OutputTooLong

  const MAX_SIZE := 256 * 1024 * 1024
  const U32 := 0x1_0000_0000
  const TABLE_SIZE := 16384

  // ---------------------------------------------------------------- the block format

  // The bytes after a nibble of 15: a run of 255s, then the remainder.
  function Extra(rem: nat): (r: seq<Byte>)
    ensures |r| == rem / 255 + 1
  {
    if rem >= 255 then [255] + Extra(rem - 255) else [rem]
  }

  function Extension(n: nat): seq<Byte> {
    if n >= 15 then Extra(n - 15) else []
  }

  function Nibble(n: nat): (r: nat)
    ensures r <= 15
  {
    if n >= 15 then 15 else n
  }

  // A run of literals followed by a copy of earlier output.
  datatype Piece = Piece(lits: seq<Byte>, offset: nat, len: nat)

  predicate Fits(p: Piece) {
    1 <= p.offset < 0x1_0000 && p.len >= 4
  }

  function PieceBytes(p: Piece): seq<Byte>
    requires Fits(p)
  {
    [Nibble(|p.lits|) * 16 + Nibble(p.len - 4)] + Extension(|p.lits|) + p.lits
    + [p.offset % 256, p.offset / 256] + Extension(p.len - 4)
  }

  function LastBytes(lits: seq<Byte>): seq<Byte> {
    if lits == [] then [] else [Nibble(|lits|) * 16] + Extension(|lits|) + lits
  }

  // Each copied byte is the one offset places before it, which may itself be copied.
  function Copy(out: seq<Byte>, offset: nat, len: nat): (r: seq<Byte>)
    requires 1 <= offset <= |out|
    ensures |r| == |out| + len
  {
    if len == 0 then out
    else
      var before := Copy(out, offset, len - 1);
      before + [before[|before| - offset]]
  }

  // What decoding a block from some output on gives.
  function ReadExtra(input: seq<Byte>, acc: nat): (r: Option<(nat, seq<Byte>)>)
    ensures r.Some? ==>
      && |r.value.1| < |input|
      && r.value.1 == input[|input| - |r.value.1|..]
      && acc <= r.value.0 <= acc + 255 * (|input| - |r.value.1|)
  {
    if input == [] then None
    else if input[0] == 255 then ReadExtra(input[1..], acc + 255)
    else Some((acc + input[0] as int, input[1..]))
  }

  function ReadLength(input: seq<Byte>, nibble: nat): (r: Option<(nat, seq<Byte>)>)
    ensures r.Some? ==>
      && |r.value.1| <= |input|
      && r.value.1 == input[|input| - |r.value.1|..]
      && r.value.0 <= nibble + 255 * (|input| - |r.value.1|)
  {
    if nibble == 15 then ReadExtra(input, 15) else Some((nibble, input))
  }

  function Decode(input: seq<Byte>, out: seq<Byte>, size: nat): Result<seq<Byte>, Error>
    decreases |input|
  {
    if input == [] then Ok(out)
    else
      var token := input[0];
      match ReadLength(input[1..], token / 16)
      case None => Err(LiteralLengthEnds)
      case Some((count, rest)) =>
        if count > |rest| then Err(LiteralPastInput)
        else DecodeMatch(rest[count..], out + rest[..count], token % 16, size)
  }

  function DecodeMatch(input: seq<Byte>, out: seq<Byte>, nibble: nat, size: nat): Result<seq<Byte>, Error>
    decreases |input|
  {
    if input == [] then Ok(out)
    else if |input| < 2 then Err(OffsetEnds)
    else
      var offset := input[0] as int + 256 * input[1] as int;
      if offset == 0 then Err(ZeroOffset)
      else
        match ReadLength(input[2..], nibble)
        case None => Err(MatchLengthEnds)
        case Some((len, rest)) =>
          if offset > |out| then Err(OffsetTooFar)
          else
            var copied := Copy(out, offset, len + 4);
            if |copied| > size + 1024 then Err(OutputTooLong) else Decode(rest, copied, size)
  }

  function SizeBytes(n: nat): seq<Byte> {
    [n % 256, n / 0x100 % 256, n / 0x1_0000 % 256, n / 0x100_0000 % 256]
  }

  function SizeOf(input: seq<Byte>): nat
    requires |input| >= 4
  {
    input[0] as int + 0x100 * input[1] as int + 0x1_0000 * input[2] as int + 0x100_0000 * input[3] as int
  }

  function DecodeSized(input: seq<Byte>): Result<seq<Byte>, Error> {
    if |input| < 4 then Err(InputTooShort)
    else if SizeOf(input) > MAX_SIZE then Err(SizeTooLarge)
    else Decode(input[4..], [], SizeOf(input))
  }

  // ---------------------------------------------------------------- decoding what was encoded

  lemma {:induction false} ExtraRead(rem: nat, acc: nat, rest: seq<Byte>)
    ensures ReadExtra(Extra(rem) + rest, acc) == Some((acc + rem, rest))
  {
    if rem >= 255 {
      assert (Extra(rem) + rest)[1..] == Extra(rem - 255) + rest;
      ExtraRead(rem - 255, acc + 255, rest);
    } else {
      assert (Extra(rem) + rest)[1..] == rest;
    }
  }

  lemma LengthRead(n: nat, rest: seq<Byte>)
    ensures ReadLength(Extension(n) + rest, Nibble(n)) == Some((n, rest))
  {
    if n >= 15 {
      ExtraRead(n - 15, 15, rest);
    } else {
      assert Extension(n) + rest == rest;
    }
  }

  lemma LiteralsDecoded(token: Byte, lits: seq<Byte>, tail: seq<Byte>, out: seq<Byte>, size: nat)
    requires token / 16 == Nibble(|lits|)
    ensures Decode([token] + Extension(|lits|) + lits + tail, out, size) == DecodeMatch(tail, out + lits, token % 16, size)
  {
    hide Extension, Nibble, ReadLength, DecodeMatch;
    var code := [token] + Extension(|lits|) + lits + tail;
    assert code[1..] == Extension(|lits|) + (lits + tail);
    LengthRead(|lits|, lits + tail);
    assert (lits + tail)[..|lits|] == lits && (lits + tail)[|lits|..] == tail;
  }

  lemma MatchDecoded(offset: nat, len: nat, rest: seq<Byte>, out: seq<Byte>, size: nat)
    requires 1 <= offset < 0x1_0000 && offset <= |out|
    ensures DecodeMatch([offset % 256, offset / 256] + (Extension(len) + rest), out, Nibble(len), size)
         == if |out| + len + 4 <= size + 1024 then Decode(rest, Copy(out, offset, len + 4), size) else Err(OutputTooLong)
  {
    hide Extension, Nibble, ReadLength, Decode, Copy;
    var code: seq<Byte> := [offset % 256, offset / 256] + (Extension(len) + rest);
    assert code[2..] == Extension(len) + rest;
    LengthRead(len, rest);
  }

  // A piece appends its literals and its copy, whatever follows it, unless that is more than the size admits.
  lemma PieceDecoded(p: Piece, rest: seq<Byte>, out: seq<Byte>, size: nat)
    requires Fits(p) && p.offset <= |out| + |p.lits|
    ensures Decode(PieceBytes(p) + rest, out, size)
         == if |out| + |p.lits| + p.len <= size + 1024 then Decode(rest, Copy(out + p.lits, p.offset, p.len), size) else Err(OutputTooLong)
  {
    hide Extension, Nibble, Decode, DecodeMatch, Copy;
    var token := Nibble(|p.lits|) * 16 + Nibble(p.len - 4);
    var tail := [p.offset % 256, p.offset / 256] + (Extension(p.len - 4) + rest);
    assert PieceBytes(p) + rest == [token] + Extension(|p.lits|) + p.lits + tail;
    LiteralsDecoded(token, p.lits, tail, out, size);
    MatchDecoded(p.offset, p.len - 4, rest, out + p.lits, size);
  }

  lemma LastDecoded(lits: seq<Byte>, out: seq<Byte>, size: nat)
    ensures Decode(LastBytes(lits), out, size) == Ok(out + lits)
  {
    hide Extension, Nibble, ReadLength, Copy;
    if lits == [] {
      assert out + lits == out;
    } else {
      assert LastBytes(lits)[1..] == Extension(|lits|) + lits;
      LengthRead(|lits|, lits);
      assert lits[..|lits|] == lits && lits[|lits|..] == [];
    }
  }

  // The text that a list of pieces stands for.
  ghost function Text(ps: seq<Piece>): seq<Byte>
    requires Sound(ps)
    decreases |ps|, 1
  {
    if ps == [] then [] else Copy(Text(ps[..|ps| - 1]) + ps[|ps| - 1].lits, ps[|ps| - 1].offset, ps[|ps| - 1].len)
  }

  // Every offset stays inside the text before it.
  ghost predicate Sound(ps: seq<Piece>)
    decreases |ps|, 0
  {
    ps != [] ==>
      var last := ps[|ps| - 1];
      && Sound(ps[..|ps| - 1])
      && Fits(last) && last.offset <= |Text(ps[..|ps| - 1])| + |last.lits|
  }

  ghost function Bytes(ps: seq<Piece>): seq<Byte>
    requires Sound(ps)
  {
    if ps == [] then [] else Bytes(ps[..|ps| - 1]) + PieceBytes(ps[|ps| - 1])
  }

  lemma {:induction false} PiecesDecoded(ps: seq<Piece>, rest: seq<Byte>, size: nat)
    requires Sound(ps)
    ensures Decode(Bytes(ps) + rest, [], size) == if |Text(ps)| <= size + 1024 then Decode(rest, Text(ps), size) else Err(OutputTooLong)
  {
    hide Decode, PieceBytes, Copy;
    if ps == [] {
      assert Bytes(ps) + rest == rest;
    } else {
      var front, last := ps[..|ps| - 1], ps[|ps| - 1];
      PiecesDecoded(front, PieceBytes(last) + rest, size);
      PieceDecoded(last, rest, Text(front), size);
      assert Bytes(ps) + rest == Bytes(front) + (PieceBytes(last) + rest);
    }
  }

  // ---------------------------------------------------------------- copies

  // A stretch that agrees with itself offset places back is what the copy produces.
  lemma {:induction false} CopyRepeats(input: seq<Byte>, pos: nat, offset: nat, len: nat)
    requires 1 <= offset <= pos && pos + len <= |input|
    requires forall i :: pos <= i < pos + len ==> input[i] == input[i - offset]
    ensures Copy(input[..pos], offset, len) == input[..pos + len]
  {
    if len > 0 {
      CopyRepeats(input, pos, offset, len - 1);
      assert input[..pos + len] == input[..pos + len - 1] + [input[pos + len - 1]];
    }
  }

  // The copied bytes repeat with period offset.
  lemma {:induction false} CopyPeriod(out: seq<Byte>, offset: nat, len: nat, k: nat)
    requires 1 <= offset <= |out| && k < |out| + len
    ensures k < |out| ==> Copy(out, offset, len)[k] == out[k]
    ensures k >= |out| ==> Copy(out, offset, len)[k] == out[|out| - offset + (k - |out|) % offset]
  {
    if len > 0 {
      var i := len - 1;
      if k < |out| + i {
        CopyPeriod(out, offset, i, k);
      } else {
        CopyPeriod(out, offset, i, |out| + i - offset);
        if i >= offset { Wrap(i, offset); } else { Small(i, offset); }
      }
    }
  }

  lemma Wrap(i: nat, p: nat)
    requires i >= p > 0
    ensures i % p == (i - p) % p
  {
    assert i - p == p * (i / p - 1) + i % p;
    Remainder(p, i / p - 1, i % p, (i - p) / p, (i - p) % p);
  }

  lemma Remainder(p: int, q: int, r: nat, q': int, r': nat)
    requires r < p && r' < p && p * q + r == p * q' + r'
    ensures r == r'
  {
    Apart(p, q - q');
    assert p * (q - q') == r' - r;
  }

  lemma Apart(p: int, d: int)
    requires p > 0
    ensures d > 0 ==> p * d >= p
    ensures d < 0 ==> p * d <= -p
    ensures d == 0 ==> p * d == 0
  {
  }

  lemma Small(i: nat, p: nat)
    requires i < p
    ensures i % p == i
  {
  }
}
