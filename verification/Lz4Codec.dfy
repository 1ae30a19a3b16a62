// The compressor and decompressor loops of src/util.rs, and the laws they keep.
module Lz4Codec {
  import opened Wrappers
  import opened Lz4

  // ---------------------------------------------------------------- decompression

  // A nibble of 15 goes on in the following bytes.
  method ReadLengthAt(input: seq<Byte>, start: nat, nibble: nat) returns (r: Option<(nat, nat)>)
    requires start <= |input|
    ensures r.None? <==> ReadLength(input[start..], nibble).None?
    ensures r.Some? ==> start <= r.value.1 <= |input| && ReadLength(input[start..], nibble) == Some((r.value.0, input[r.value.1..]))
  {
    var pos: nat, len: nat := start, nibble;
    if nibble != 15 {
      return Some((len, pos));
    }
    while true
      invariant start <= pos <= |input|
      invariant ReadExtra(input[start..], 15) == ReadExtra(input[pos..], len)
      decreases |input| - pos
    {
      if pos >= |input| {
        return None;
      }
      var b := input[pos];
      assert input[pos..][1..] == input[pos + 1..];
      pos := pos + 1;
      len := len + b as int;
      if b != 255 {
        return Some((len, pos));
      }
    }
  }

  method CopyMatch(out: seq<Byte>, offset: nat, len: nat) returns (output: seq<Byte>)
    requires 1 <= offset <= |out|
    ensures output == Copy(out, offset, len)
  {
    output := out;
    var start := |out| - offset;
    for i := 0 to len
      invariant output == Copy(out, offset, i)
    {
      CopyPeriod(out, offset, i, start + i % offset);
      CopyPeriod(out, offset, i + 1, |out| + i);
      var byte := output[start + i % offset];
      output := output + [byte];
    }
  }

  // One token of a block: its literals start at from, and their count is count.
  lemma LiteralStep(input: seq<Byte>, pos: nat, count: nat, from: nat, out: seq<Byte>, size: nat)
    requires pos < |input| && from <= |input|
    requires ReadLength(input[pos + 1..], input[pos] / 16) == Some((count, input[from..]))
    ensures from + count > |input| ==> Decode(input[pos..], out, size) == Err(LiteralPastInput)
    ensures from + count <= |input| ==>
      Decode(input[pos..], out, size) == DecodeMatch(input[from + count..], out + input[from..from + count], input[pos] % 16, size)
  {
    hide ReadLength, DecodeMatch;
    assert input[pos..][1..] == input[pos + 1..];
    if from + count <= |input| {
      assert input[from..][..count] == input[from..from + count];
      assert input[from..][count..] == input[from + count..];
    }
  }

  lemma MatchStep(input: seq<Byte>, pos: nat, len: nat, from: nat, out: seq<Byte>, nibble: nat, size: nat)
    requires pos + 2 <= |input| && from <= |input|
    requires ReadLength(input[pos + 2..], nibble) == Some((len, input[from..]))
    ensures var offset := input[pos] as int + 256 * input[pos + 1] as int;
      offset == 0 || DecodeMatch(input[pos..], out, nibble, size) ==
        if offset > |out| then Err(OffsetTooFar)
        else
          var copied := Copy(out, offset, len + 4);
          if |copied| > size + 1024 then Err(OutputTooLong) else Decode(input[from..], copied, size)
  {
    hide ReadLength, Copy, Decode;
    assert input[pos..][2..] == input[pos + 2..];
  }

  lemma LiteralFails(input: seq<Byte>, pos: nat, out: seq<Byte>, size: nat)
    requires pos < |input| && ReadLength(input[pos + 1..], input[pos] / 16).None?
    ensures Decode(input[pos..], out, size) == Err(LiteralLengthEnds)
  {
    hide ReadLength, DecodeMatch;
    assert input[pos..][1..] == input[pos + 1..];
  }

  lemma MatchFails(input: seq<Byte>, pos: nat, out: seq<Byte>, nibble: nat, size: nat)
    requires pos < |input|
    ensures pos + 1 == |input| ==> DecodeMatch(input[pos..], out, nibble, size) == Err(OffsetEnds)
    ensures pos + 2 <= |input| && input[pos] as int + 256 * input[pos + 1] as int == 0 ==>
      DecodeMatch(input[pos..], out, nibble, size) == Err(ZeroOffset)
  {
    hide ReadLength, Decode;
  }

  lemma RepeatFails(input: seq<Byte>, pos: nat, out: seq<Byte>, nibble: nat, size: nat)
    requires pos + 2 <= |input| && input[pos] as int + 256 * input[pos + 1] as int > 0
    requires ReadLength(input[pos + 2..], nibble).None?
    ensures DecodeMatch(input[pos..], out, nibble, size) == Err(MatchLengthEnds)
  {
    hide ReadLength, Decode;
    assert input[pos..][2..] == input[pos + 2..];
  }

  method DecompressBlock(input: seq<Byte>, size: nat) returns (r: Result<seq<Byte>, Error>)
    ensures r == Decode(input, [], size)
  {
    hide ReadLength, Copy, Decode, DecodeMatch;
    var output: seq<Byte> := [];
    var pos: nat := 0;
    assert input[0..] == input;
    while pos < |input|
      invariant pos <= |input|
      invariant Decode(input, [], size) == Decode(input[pos..], output, size)
    {
      var token := input[pos];
      var literal := ReadLengthAt(input, pos + 1, token as int / 16);
      if literal.None? {
        LiteralFails(input, pos, output, size);
        return Err(LiteralLengthEnds);
      }
      var litLen, from := literal.value.0, literal.value.1;
      LiteralStep(input, pos, litLen, from, output, size);
      if from + litLen > |input| {
        return Err(LiteralPastInput);
      }
      output := output + input[from..from + litLen];
      pos := from + litLen;
      if pos >= |input| {
        NothingLeft(output, token % 16, size);
        assert input[pos..] == [];
        return Ok(output);
      }
      var nibble := token as int % 16;
      MatchFails(input, pos, output, nibble, size);
      if pos + 2 > |input| {
        return Err(OffsetEnds);
      }
      var offset := input[pos] as int + 256 * input[pos + 1] as int;
      if offset == 0 {
        return Err(ZeroOffset);
      }
      var repeat := ReadLengthAt(input, pos + 2, nibble);
      if repeat.None? {
        RepeatFails(input, pos, output, nibble, size);
        return Err(MatchLengthEnds);
      }
      var matchLen := repeat.value.0 + 4;
      MatchStep(input, pos, repeat.value.0, repeat.value.1, output, nibble, size);
      pos := repeat.value.1;
      if offset > |output| {
        return Err(OffsetTooFar);
      }
      output := CopyMatch(output, offset, matchLen);
      if |output| > size + 1024 {
        return Err(OutputTooLong);
      }
    }
    assert input[pos..] == [];
    NothingLeft(output, 0, size);
    return Ok(output);
  }

  lemma NothingLeft(out: seq<Byte>, nibble: nat, size: nat)
    ensures Decode([], out, size) == Ok(out)
    ensures DecodeMatch([], out, nibble, size) == Ok(out)
  {
  }

  method DecompressSizePrepended(input: seq<Byte>) returns (r: Result<seq<Byte>, Error>)
    ensures r == DecodeSized(input)
  {
    if |input| < 4 {
      return Err(InputTooShort);
    }
    var size := SizeOf(input);
    if size > MAX_SIZE {
      return Err(SizeTooLarge);
    }
    r := DecompressBlock(input[4..], size);
  }

  // On arbitrary bytes the output is at most 255 times the bytes read.
  lemma {:induction false} DecodeBounded(input: seq<Byte>, out: seq<Byte>, size: nat)
    ensures Decode(input, out, size).Ok? ==> |Decode(input, out, size).value| <= |out| + 255 * |input|
    decreases |input|
  {
    hide ReadLength, Copy;
    if input != [] {
      var token := input[0];
      match ReadLength(input[1..], token / 16)
      case None =>
      case Some((count, rest)) =>
        if count <= |rest| {
          MatchBounded(rest[count..], out + rest[..count], token % 16, size);
        }
    }
  }

  lemma {:induction false} MatchBounded(input: seq<Byte>, out: seq<Byte>, nibble: nat, size: nat)
    requires nibble <= 15
    ensures DecodeMatch(input, out, nibble, size).Ok? ==> |DecodeMatch(input, out, nibble, size).value| <= |out| + 255 * |input|
    decreases |input|
  {
    hide ReadLength, Copy;
    if |input| >= 2 {
      var offset := input[0] as int + 256 * input[1] as int;
      if 0 < offset <= |out| {
        match ReadLength(input[2..], nibble)
        case None =>
        case Some((len, rest)) => DecodeBounded(rest, Copy(out, offset, len + 4), size);
      }
    }
  }

  // ---------------------------------------------------------------- compression

  function Hash(a: Byte, b: Byte, c: Byte, d: Byte): (h: nat)
    ensures h < TABLE_SIZE
  {
    var val := a as int + 0x100 * b as int + 0x1_0000 * c as int + 0x100_0000 * d as int;
    ((val * 2654435761) % U32) / 0x4_0000 % TABLE_SIZE
  }

  method EmitExtra(output: seq<Byte>, count: nat) returns (r: seq<Byte>)
    requires count >= 15
    ensures r == output + Extension(count)
  {
    r := output;
    var rem := count - 15;
    while rem >= 255
      invariant rem >= 0
      invariant r + Extra(rem) == output + Extra(count - 15)
    {
      assert r + Extra(rem) == r + [255] + Extra(rem - 255);
      r := r + [255];
      rem := rem - 255;
    }
    r := r + [rem];
  }

  lemma ShortLength(n: nat)
    ensures n < 15 ==> Extension(n) == []
  {
  }

  lemma PieceParts(output: seq<Byte>, p: Piece)
    requires Fits(p)
    ensures output + [Nibble(|p.lits|) * 16 + Nibble(p.len - 4)] + Extension(|p.lits|)
            + (p.lits + [p.offset % 256, p.offset / 256]) + Extension(p.len - 4)
         == output + PieceBytes(p)
  {
    hide Extension;
  }

  method EmitPiece(output: seq<Byte>, lits: seq<Byte>, offset: nat, len: nat) returns (r: seq<Byte>)
    requires 1 <= offset < 0x1_0000 && len >= 4
    ensures r == output + PieceBytes(Piece(lits, offset, len))
  {
    hide Extension, PieceBytes;
    PieceParts(output, Piece(lits, offset, len));
    var litToken := if |lits| >= 15 then 15 else |lits|;
    var matchToken := if len - 4 >= 15 then 15 else len - 4;
    r := output + [litToken * 16 + matchToken];
    ShortLength(|lits|);
    ShortLength(len - 4);
    ghost var head := r;
    if |lits| >= 15 {
      r := EmitExtra(r, |lits|);
    }
    assert r == head + Extension(|lits|);
    r := r + (lits + [offset % 256, offset / 256]);
    head := r;
    if len - 4 >= 15 {
      r := EmitExtra(r, len - 4);
    }
    assert r == head + Extension(len - 4);
  }

  method EmitLast(output: seq<Byte>, lits: seq<Byte>) returns (r: seq<Byte>)
    ensures r == output + LastBytes(lits)
  {
    r := output;
    if |lits| > 0 {
      r := r + [(if |lits| >= 15 then 15 else |lits|) * 16];
      if |lits| >= 15 {
        r := EmitExtra(r, |lits|);
      }
      r := r + lits;
    }
  }

  // How far the text at pos agrees with the text at from, at least four bytes.
  method MatchLength(input: seq<Byte>, from: nat, pos: nat) returns (len: nat)
    requires from < pos && pos + 4 <= |input|
    requires forall i :: pos <= i < pos + 4 ==> input[i] == input[i - (pos - from)]
    ensures len >= 4 && pos + len <= |input|
    ensures forall i :: pos <= i < pos + len ==> input[i] == input[i - (pos - from)]
    ensures pos + len < |input| ==> input[pos + len] != input[from + len]
  {
    len := 4;
    while pos + len < |input| && from + len < |input| && input[pos + len] == input[from + len]
      invariant len >= 4 && pos + len <= |input|
      invariant forall i :: pos <= i < pos + len ==> input[i] == input[i - (pos - from)]
    {
      len := len + 1;
    }
  }

  // What the compressor has written covers the text before the anchor.
  ghost predicate Coded(input: seq<Byte>, ps: seq<Piece>, output: seq<Byte>, anchor: nat) {
    && anchor <= |input|
    && Sound(ps) && Text(ps) == input[..anchor]
    && output == Bytes(ps)
  }

  lemma NothingCoded(input: seq<Byte>)
    ensures Coded(input, [], [], 0)
  {
  }

  lemma Extended(input: seq<Byte>, ps: seq<Piece>, output: seq<Byte>, anchor: nat, pos: nat, p: Piece)
    requires Coded(input, ps, output, anchor)
    requires anchor <= pos && Fits(p) && p.offset <= pos && pos + p.len <= |input| && p.lits == input[anchor..pos]
    requires forall i :: pos <= i < pos + p.len ==> input[i] == input[i - p.offset]
    ensures Coded(input, ps + [p], output + PieceBytes(p), pos + p.len)
  {
    hide PieceBytes, Copy;
    assert input[..anchor] + p.lits == input[..pos];
    CopyRepeats(input, pos, p.offset, p.len);
    assert (ps + [p])[..|ps|] == ps;
  }

  lemma Finished(input: seq<Byte>, ps: seq<Piece>, output: seq<Byte>, anchor: nat)
    requires Coded(input, ps, output, anchor)
    ensures forall size: nat :: Decode(output + LastBytes(input[anchor..]), [], size) == Within(input, anchor, size)
    ensures |output + LastBytes(input[anchor..])| <= |input| + |input| / 255 + 2
  {
    hide PieceBytes, LastBytes, Decode, Copy;
    var rest := input[anchor..];
    assert input[..anchor] + rest == input;
    forall size: nat ensures Decode(output + LastBytes(rest), [], size) == Within(input, anchor, size) {
      PiecesDecoded(ps, LastBytes(rest), size);
      LastDecoded(rest, input[..anchor], size);
    }
    PiecesSize(ps);
    LastSize(rest, anchor);
  }

  // A text whose last copy ends at `copied`: the decoder looks at the declared size there.
  function Within(input: seq<Byte>, copied: nat, size: nat): Result<seq<Byte>, Error> {
    if copied <= size + 1024 then Ok(input) else Err(OutputTooLong)
  }

  // The block written for any input: it decodes to the input under every declared size that admits the
  // end of its last copy, and it is barely larger than the input.
  method CompressBlock(input: seq<Byte>) returns (output: seq<Byte>, ghost copied: nat)
    ensures copied <= |input| && forall size: nat :: Decode(output, [], size) == Within(input, copied, size)
    ensures |output| <= |input| + |input| / 255 + 2
  {
    hide Decode, PieceBytes, LastBytes, Copy, Hash, Coded, Sound, Text, Bytes;
    output, copied := [], 0;
    if input == [] {
      forall size: nat ensures Decode(output, [], size) == Ok(input) { NothingLeft([], 0, size); }
      return;
    }
    var table := new nat[TABLE_SIZE](i => 0);
    var pos, anchor := 0, 0;
    ghost var ps: seq<Piece> := [];
    NothingCoded(input);
    while pos + 4 < |input|
      invariant anchor <= pos <= |input|
      invariant forall h :: 0 <= h < TABLE_SIZE ==> table[h] == 0 || table[h] < pos
      invariant Coded(input, ps, output, anchor)
      decreases |input| - pos
    {
      var h := Hash(input[pos], input[pos + 1], input[pos + 2], input[pos + 3]);
      var candidate := table[h];
      table[h] := pos % U32;
      if candidate > 0 && pos - candidate < 65535 && pos + 4 <= |input| && candidate + 4 <= |input|
        && input[candidate..candidate + 4] == input[pos..pos + 4]
      {
        SameFour(input, candidate, pos);
        var len := MatchLength(input, candidate, pos);
        var offset := (pos - candidate) % 0x1_0000;
        ghost var piece := Piece(input[anchor..pos], offset, len);
        Extended(input, ps, output, anchor, pos, piece);
        output := EmitPiece(output, input[anchor..pos], offset, len);
        ps := ps + [piece];
        pos := pos + len;
        anchor := pos;
      } else {
        pos := pos + 1;
      }
    }
    Finished(input, ps, output, anchor);
    copied := anchor;
    output := EmitLast(output, input[anchor..]);
  }

  lemma SameFour(input: seq<Byte>, from: nat, pos: nat)
    requires from < pos && pos + 4 <= |input| && input[from..from + 4] == input[pos..pos + 4]
    ensures forall i :: pos <= i < pos + 4 ==> input[i] == input[i - (pos - from)]
  {
    forall i | pos <= i < pos + 4
      ensures input[i] == input[i - (pos - from)]
    {
      assert input[i] == input[pos..pos + 4][i - pos] == input[from..from + 4][i - pos];
    }
  }

  lemma {:induction false} PiecesSize(ps: seq<Piece>)
    requires Sound(ps)
    ensures |Bytes(ps)| <= |Text(ps)| + |Text(ps)| / 255
  {
    if ps != [] {
      PiecesSize(ps[..|ps| - 1]);
      PieceSize(ps[|ps| - 1], |Text(ps[..|ps| - 1])|);
    }
  }

  lemma PieceSize(p: Piece, n: nat)
    requires Fits(p)
    ensures n / 255 + |PieceBytes(p)| <= |p.lits| + p.len + (n + |p.lits| + p.len) / 255
  {
    hide Extra;
  }

  lemma LastSize(lits: seq<Byte>, n: nat)
    ensures n / 255 + |LastBytes(lits)| <= |lits| + 2 + (n + |lits|) / 255
  {
    hide Extra;
  }

  // The size in front is the size modulo 2^32.
  method CompressPrependSize(input: seq<Byte>) returns (output: seq<Byte>, ghost copied: nat)
    ensures |output| <= 4 + |input| + |input| / 255 + 2
    ensures copied <= |input|
    ensures var claimed := |input| % U32;
      DecodeSized(output) == if claimed <= MAX_SIZE then Within(input, copied, claimed) else Err(SizeTooLarge)
  {
    var block, last := CompressBlock(input);
    copied := last;
    output := SizeBytes(|input|) + block;
    SizeRead(|input|, block);
  }

  lemma SizeRead(n: nat, rest: seq<Byte>)
    ensures SizeOf(SizeBytes(n) + rest) == n % U32
    ensures (SizeBytes(n) + rest)[4..] == rest
  {
    FourBytes(n);
    assert (SizeBytes(n) + rest)[..4] == SizeBytes(n);
  }

  lemma FourBytes(n: nat)
    ensures n % 256 + 0x100 * (n / 0x100 % 256) + 0x1_0000 * (n / 0x1_0000 % 256) + 0x100_0000 * (n / 0x100_0000 % 256) == n % U32
  {
    var a := n / 0x100;
    var b := a / 0x100;
    var c := b / 0x100;
    assert n / 0x1_0000 == b && n / 0x100_0000 == c && n / U32 == c / 0x100;
  }

  // Decompressing what was compressed gives the input back exactly when the size in front is no larger than the
  // decoder's limit and admits the end of the last copy; below 2^32 bytes, when the input is no larger than the limit.
  method RoundTrip(input: seq<Byte>) returns (r: Result<seq<Byte>, Error>, ghost copied: nat)
    ensures r == Ok(input) <==> |input| % U32 <= MAX_SIZE && copied <= |input| % U32 + 1024
    ensures |input| < U32 ==> (r == Ok(input) <==> |input| <= MAX_SIZE)
  {
    var output, last := CompressPrependSize(input);
    copied := last;
    r := DecompressSizePrepended(output);
  }
}
