// The blocks the LZ4 decoder accepts, whoever wrote them: sequences with copies, and literals at the end.
module Lz4Format {
  import opened Wrappers
  import opened Lz4

  // The end of a block: nothing, or a token whose low half is not looked at, with literals.
  function Tail(lits: seq<Byte>, low: nat): seq<Byte>
    requires low < 16
  {
    [Nibble(|lits|) * 16 + low] + Extension(|lits|) + lits
  }

  ghost predicate Block(input: seq<Byte>, ps: seq<Piece>, lits: seq<Byte>, low: nat) {
    && Sound(ps) && low < 16
    && (input == Bytes(ps) + Tail(lits, low) || (input == Bytes(ps) && lits == []))
  }

  lemma TailDecoded(lits: seq<Byte>, low: nat, out: seq<Byte>, size: nat)
    requires low < 16
    ensures Decode(Tail(lits, low), out, size) == Ok(out + lits)
  {
    hide Extension, Nibble, ReadLength;
    var token := Nibble(|lits|) * 16 + low;
    assert Tail(lits, low) == [token] + Extension(|lits|) + lits + [];
    LiteralsDecoded(token, lits, [], out, size);
  }

  // A block decodes to its text, if its copies end where the size admits.
  lemma BlockDecoded(input: seq<Byte>, ps: seq<Piece>, lits: seq<Byte>, low: nat, size: nat)
    requires Block(input, ps, lits, low)
    ensures Decode(input, [], size) == if |Text(ps)| <= size + 1024 then Ok(Text(ps) + lits) else Err(OutputTooLong)
  {
    hide Tail, Text, Bytes, Decode;
    if input == Bytes(ps) && lits == [] {
      assert Bytes(ps) + [] == Bytes(ps) && Text(ps) + [] == Text(ps);
      PiecesDecoded(ps, [], size);
      NothingDecoded(Text(ps), size);
    } else {
      PiecesDecoded(ps, Tail(lits, low), size);
      TailDecoded(lits, low, Text(ps), size);
    }
  }

  lemma NothingDecoded(out: seq<Byte>, size: nat)
    ensures Decode([], out, size) == Ok(out)
  {
  }

  // ---- what is decoded is a block ----

  lemma {:induction false} ExtraFrom(input: seq<Byte>, acc: nat)
    requires ReadExtra(input, acc).Some?
    ensures var (n, rest) := ReadExtra(input, acc).value; n >= acc && input == Extra(n - acc) + rest
  {
    hide Extra;
    var rest := input[1..];
    assert input == [input[0]] + rest;
    if input[0] == 255 {
      ExtraFrom(rest, acc + 255);
      var (n, more) := ReadExtra(rest, acc + 255).value;
      ExtraStep(n - acc, more);
    } else {
      ExtraLast(input[0], rest);
    }
  }

  lemma ExtraStep(n: nat, more: seq<Byte>)
    requires n >= 255
    ensures [255] + (Extra(n - 255) + more) == Extra(n) + more
  {
    var tail := Extra(n - 255);
    assert Extra(n) == [255] + tail;
    hide Extra;
  }

  lemma ExtraLast(b: Byte, rest: seq<Byte>)
    requires b < 255
    ensures [b] + rest == Extra(b) + rest
  {
  }

  lemma LengthFrom(input: seq<Byte>, nibble: nat)
    requires nibble < 16 && ReadLength(input, nibble).Some?
    ensures var (n, rest) := ReadLength(input, nibble).value; nibble == Nibble(n) && input == Extension(n) + rest
  {
    hide Extra;
    if nibble == 15 {
      ExtraFrom(input, 15);
    } else {
      assert input == [] + input;
    }
  }

  // The literals at the front of a block, and what follows them.
  lemma LiteralsFrom(input: seq<Byte>, out: seq<Byte>, size: nat) returns (lits: seq<Byte>, rest: seq<Byte>)
    requires input != [] && Decode(input, out, size).Ok?
    ensures input == [Nibble(|lits|) * 16 + input[0] % 16] + Extension(|lits|) + lits + rest
    ensures Decode(input, out, size) == DecodeMatch(rest, out + lits, input[0] % 16, size) && |rest| < |input|
  {
    hide Extension, Nibble, ReadLength, DecodeMatch;
    LengthFrom(input[1..], input[0] / 16);
    var (count, more) := ReadLength(input[1..], input[0] / 16).value;
    lits, rest := more[..count], more[count..];
    assert input == [input[0]] + input[1..];
    assert more == lits + rest;
    assert input[0] == input[0] / 16 * 16 + input[0] % 16;
  }

  // A copy, and what follows it.
  lemma MatchFrom(input: seq<Byte>, out: seq<Byte>, nibble: nat, size: nat) returns (offset: nat, len: nat, rest: seq<Byte>)
    requires input != [] && nibble < 16 && DecodeMatch(input, out, nibble, size).Ok?
    ensures 1 <= offset < 0x1_0000 && offset <= |out| && len >= 4 && nibble == Nibble(len - 4)
    ensures input == [offset % 256, offset / 256] + Extension(len - 4) + rest && |rest| < |input|
    ensures |out| + len <= size + 1024 && DecodeMatch(input, out, nibble, size) == Decode(rest, Copy(out, offset, len), size)
  {
    hide Extension, Nibble, ReadLength, Decode, Copy;
    offset := input[0] as int + 256 * input[1] as int;
    LengthFrom(input[2..], nibble);
    var (n, more) := ReadLength(input[2..], nibble).value;
    len, rest := n + 4, more;
    assert input == [input[0], input[1]] + input[2..];
  }

  // Behind pieces that have been decoded, the rest of a block is pieces and a tail.
  lemma {:induction false} BlockFrom(done: seq<Piece>, input: seq<Byte>, size: nat) returns (ps: seq<Piece>, lits: seq<Byte>, low: nat)
    requires Sound(done) && Decode(input, Text(done), size).Ok? && |Text(done)| <= size + 1024
    ensures Block(Bytes(done) + input, ps, lits, low) && |Text(ps)| <= size + 1024
    decreases |input|
  {
    hide Decode, DecodeMatch, Extension, Nibble, Copy, PieceBytes, Text, Bytes;
    low := 0;
    if input == [] {
      ps, lits := done, [];
      assert Bytes(done) + input == Bytes(done);
    } else {
      var rest;
      lits, rest := LiteralsFrom(input, Text(done), size);
      low := input[0] % 16;
      if rest == [] {
        ps := done;
        assert input == Tail(lits, low);
      } else {
        var offset, len, more := MatchFrom(rest, Text(done) + lits, low, size);
        var p := Piece(lits, offset, len);
        assert input == PieceBytes(p) + more by { PieceGlue(p, rest, more); }
        OneMore(done, p);
        assert Bytes(done + [p]) + more == Bytes(done) + input;
        ps, lits, low := BlockFrom(done + [p], more, size);
      }
    }
  }

  lemma PieceGlue(p: Piece, rest: seq<Byte>, more: seq<Byte>)
    requires Fits(p) && rest == [p.offset % 256, p.offset / 256] + Extension(p.len - 4) + more
    ensures [Nibble(|p.lits|) * 16 + Nibble(p.len - 4)] + Extension(|p.lits|) + p.lits + rest == PieceBytes(p) + more
  {
    hide Extension, Nibble;
  }

  lemma OneMore(done: seq<Piece>, p: Piece)
    requires Sound(done) && Fits(p) && p.offset <= |Text(done)| + |p.lits|
    ensures Sound(done + [p]) && Text(done + [p]) == Copy(Text(done) + p.lits, p.offset, p.len)
    ensures Bytes(done + [p]) == Bytes(done) + PieceBytes(p)
  {
    hide Copy, PieceBytes;
    var ps := done + [p];
    assert ps[..|ps| - 1] == done;
  }

  // A block of this text, whose copies end where the size admits.
  ghost predicate Stands(input: seq<Byte>, ps: seq<Piece>, lits: seq<Byte>, low: nat, size: nat, out: seq<Byte>) {
    Block(input, ps, lits, low) && |Text(ps)| <= size + 1024 && out == Text(ps) + lits
  }

  // Exactly these blocks are decoded, and each to its text.
  lemma DecodedExactly(input: seq<Byte>, size: nat, out: seq<Byte>)
    ensures Decode(input, [], size) == Ok(out) <==> exists ps, lits, low :: Stands(input, ps, lits, low, size, out)
  {
    hide Decode, Text, Bytes;
    if Decode(input, [], size) == Ok(out) {
      NoPieces();
      assert [] + input == input;
      var ps, lits, low := BlockFrom([], input, size);
      BlockDecoded(input, ps, lits, low, size);
      assert Stands(input, ps, lits, low, size, out);
    }
    if ps, lits, low :| Stands(input, ps, lits, low, size, out) {
      BlockDecoded(input, ps, lits, low, size);
    }
  }

  lemma NoPieces()
    ensures Sound([]) && Text([]) == [] && Bytes([]) == []
  {
  }
}
