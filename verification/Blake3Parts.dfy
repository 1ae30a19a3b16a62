// How the input of the hash is cut up: into chunks of 1024 bytes, blocks of 64 bytes and little-endian words, in order
// and without gaps.  Short inputs are written out down to the constants.
module Blake3Parts {
  import opened Blake3

  function Joined(parts: seq<seq<Byte>>): seq<Byte> {
    if parts == [] then [] else parts[0] + Joined(parts[1..])
  }

  // All parts but the last are full, and the last is empty only when it is the only one.
  predicate FullBut(parts: seq<seq<Byte>>, size: nat) {
    && parts != []
    && (forall i | 0 <= i < |parts| - 1 :: |parts[i]| == size)
    && |parts[|parts| - 1]| <= size
    && (parts[|parts| - 1] == [] ==> |parts| == 1)
  }

  // ---- chunks ----

  lemma {:induction false} ChunksJoin(data: seq<Byte>)
    ensures Joined(Chunks(data)) == data && FullBut(Chunks(data), 1024)
    ensures Chunks(data)[|Chunks(data)| - 1] == [] ==> data == []
  {
    if |data| > 1024 {
      var rest := Chunks(data[1024..]);
      ChunksJoin(data[1024..]);
      assert Chunks(data)[1..] == rest;
      assert data[..1024] + data[1024..] == data;
      forall i | 0 <= i < |Chunks(data)| - 1 ensures |Chunks(data)[i]| == 1024 {
        if i > 0 { assert Chunks(data)[i] == rest[i - 1]; }
      }
    } else {
      assert Chunks(data)[1..] == [] && data + [] == data;
    }
  }

  // ---- blocks ----

  function Blocks(chunk: seq<Byte>): seq<seq<Byte>> {
    seq(BlockCount(chunk), i requires 0 <= i < BlockCount(chunk) => BlockAt(chunk, i))
  }

  lemma {:induction false} SlicesJoin(chunk: seq<Byte>, from: nat)
    requires from <= BlockCount(chunk)
    ensures Joined(Blocks(chunk)[from..]) == if 64 * from <= |chunk| then chunk[64 * from..] else []
    decreases BlockCount(chunk) - from
  {
    var parts := Blocks(chunk);
    if from == BlockCount(chunk) {
      assert parts[from..] == [];
    } else {
      SlicesJoin(chunk, from + 1);
      assert parts[from..][0] == BlockAt(chunk, from) && parts[from..][1..] == parts[from + 1..];
      if 64 * (from + 1) <= |chunk| {
        assert chunk[64 * from..64 * (from + 1)] + chunk[64 * (from + 1)..] == chunk[64 * from..];
      } else {
        assert BlockAt(chunk, from) == if 64 * from <= |chunk| then chunk[64 * from..] else [];
      }
    }
  }

  lemma BlocksJoin(chunk: seq<Byte>)
    ensures Joined(Blocks(chunk)) == chunk && FullBut(Blocks(chunk), 64)
    ensures |chunk| <= 1024 ==> |Blocks(chunk)| <= 16
  {
    SlicesJoin(chunk, 0);
    assert Blocks(chunk)[0..] == Blocks(chunk) && chunk[0..] == chunk;
  }

  // ---- words ----

  // The bytes of a word, least significant first.
  function Digit(w: Word, j: nat): nat
    requires j < 4
  {
    match j
    case 0 => w % 256
    case 1 => w / 256 % 256
    case 2 => w / 65536 % 256
    case 3 => w / 16777216
  }

  lemma FourDigits(w: Word, a: Byte, b: Byte, c: Byte, d: Byte)
    requires w == a + 256 * b + 65536 * c + 16777216 * d
    ensures Digit(w, 0) == a && Digit(w, 1) == b && Digit(w, 2) == c && Digit(w, 3) == d
  {
    LowDigit(b + 256 * c + 65536 * d, a);
    LowDigit(c + 256 * d, b);
    LowDigit(d, c);
    UpperDigits(w, a + 256 * b, c + 256 * d);
    TopDigit(w, a + 256 * b + 65536 * c, d);
  }

  lemma LowDigit(q: nat, r: Byte)
    ensures (r + 256 * q) % 256 == r && (r + 256 * q) / 256 == q
  {
  }

  lemma UpperDigits(w: nat, r: nat, q: nat)
    requires r < 65536 && w == r + 65536 * q
    ensures w / 65536 == q
  {
  }

  lemma TopDigit(w: nat, r: nat, q: nat)
    requires r < 16777216 && w == r + 16777216 * q
    ensures w / 16777216 == q
  {
  }

  // Reading a block and taking its words apart gives the bytes back, with zeros behind the end of a short block.
  lemma WordsOfBlock(block: seq<Byte>, i: nat, j: nat)
    requires |block| <= 64 && i < 16 && j < 4
    ensures Digit(BlockWords(block)[i], j) == if 4 * i + j < |block| then block[4 * i + j] else 0
  {
    FourDigits(BlockWords(block)[i], ByteAt(block, 4 * i), ByteAt(block, 4 * i + 1), ByteAt(block, 4 * i + 2), ByteAt(block, 4 * i + 3));
  }

  lemma BytesOfWord(cv: Cv, i: nat, j: nat)
    requires i < 8 && j < 4
    ensures 4 * i + j < |CvBytes(cv)| && CvBytes(cv)[4 * i + j] == Digit(cv[i], j)
  {
    assert (4 * i + j) / 4 == i && (4 * i + j) % 4 == j;
  }

  // ---- flags and constants, on the inputs short enough to be written out ----

  lemma FlagValues(i: nat, count: nat, root: bool)
    requires i < count
    ensures BlockFlags(i, count, root)
      == if count == 1 then (if root then 11 else 3) else if i == 0 then 1 else if i < count - 1 then 0 else if root then 10 else 2
  {
  }

  // Up to 64 bytes: one call with the first eight words of the fractional square roots, counter 0 and flags 1 + 2 + 8.
  lemma ShortInput(f: Compression, data: seq<Byte>, i: nat, j: nat)
    requires |data| <= 64 && i < 8 && j < 4
    ensures var start := [0x6A09E667, 0xBB67AE85, 0x3C6EF372, 0xA54FF53A, 0x510E527F, 0x9B05688C, 0x1F83D9AB, 0x5BE0CD19];
      CvBytes(Tree(f, Chunks(data), 0, |Chunks(data)|, true))[4 * i + j] == Digit(f(start, BlockWords(data), 0, |data|, 11)[i], j)
  {
    hide CvBytes, BlockWords, Digit;
    assert Chunks(data) == [data];
    assert BlockCount(data) == 1 && BlockAt(data, 0) == data;
    assert AfterBlocks(f, data, 0, true, 0) == IV;
    var cv := Tree(f, [data], 0, 1, true);
    assert cv == Chain(f, IV, BlockWords(data), 0, |data|, 11);
    BytesOfWord(cv, i, j);
  }

  // Two chunks: their chaining values with the counters 0 and 1, and a parent with counter 0, length 64 and flags 4 + 8.
  lemma TwoChunks(f: Compression, data: seq<Byte>)
    requires 1024 < |data| <= 2048
    ensures var a, b := ChunkCv(f, data[..1024], 0, false), ChunkCv(f, data[1024..], 1, false);
      Tree(f, Chunks(data), 0, |Chunks(data)|, true) == f(IV, a + b, 0, 64, 12)[..8]
  {
    hide ChunkCv;
    assert Chunks(data[1024..]) == [data[1024..]];
    assert Chunks(data) == [data[..1024], data[1024..]];
    assert LeftLen(2) == 1;
  }

  // A chunk: the first block from the constants, every other block from the value before it.
  lemma ChunkSteps(f: Compression, chunk: seq<Byte>, counter: nat, root: bool, k: nat)
    requires k < |Blocks(chunk)|
    ensures AfterBlocks(f, chunk, counter, root, 0) == IV && ChunkCv(f, chunk, counter, root) == AfterBlocks(f, chunk, counter, root, |Blocks(chunk)|)
    ensures var n := |Blocks(chunk)|;
      var flags := (if k == 0 then 1 else 0) + (if k == n - 1 then 2 else 0) + (if k == n - 1 && root then 8 else 0);
      AfterBlocks(f, chunk, counter, root, k + 1)
      == f(AfterBlocks(f, chunk, counter, root, k), BlockWords(Blocks(chunk)[k]), counter, |Blocks(chunk)[k]|, flags)[..8]
  {
  }
}
