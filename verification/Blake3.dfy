// BLAKE3 hashing of src/util.rs: chunks are hashed one after the other and their
// chaining values merged on a stack.  The result is the root of the left-balanced
// binary tree of section 2.1 of the BLAKE3 paper.  The compression function is a
// parameter, so every statement holds for any of them.
module Blake3 {

  type Byte = x: int | 0 <= x < 0x100
  type Word = x: int | 0 <= x < 0x1_0000_0000
  type Cv = s: seq<Word> | |s| == 8 witness [0, 0, 0, 0, 0, 0, 0, 0]
  type Words = s: seq<Word> | |s| == 16 witness [0, 0, 0, 0, 0, 0, 0, 0, 0, 0, 0, 0, 0, 0, 0, 0]

  // Chaining value, message words, counter, block length, flags.
  type Compression = (Cv, Words, nat, nat, nat) -> Words

  const IV: Cv := [
    0x6A09E667, 0xBB67AE85, 0x3C6EF372, 0xA54FF53A,
    0x510E527F, 0x9B05688C, 0x1F83D9AB, 0x5BE0CD19
  ]

  const CHUNK_START := 1
  const CHUNK_END := 2
  const PARENT := 4
  const ROOT := 8

  const CHUNK_LEN := 1024
  const BLOCK_LEN := 64

  // ---------------------------------------------------------------- bytes and words

  function ByteAt(block: seq<Byte>, k: nat): Byte {
    if k < |block| then block[k] else 0
  }

  // A block shorter than 64 bytes is padded with zeros.
  function BlockWords(block: seq<Byte>): Words {
    seq(16, i requires 0 <= i < 16 =>
      ByteAt(block, 4 * i) + 0x100 * ByteAt(block, 4 * i + 1)
      + 0x1_0000 * ByteAt(block, 4 * i + 2) + 0x100_0000 * ByteAt(block, 4 * i + 3))
  }

  function WordByte(w: Word, j: nat): Byte
    requires j < 4
  {
    (if j == 0 then w else if j == 1 then w / 0x100 else if j == 2 then w / 0x1_0000 else w / 0x100_0000) % 0x100
  }

  function CvBytes(cv: Cv): (r: seq<Byte>)
    ensures |r| == 32
  {
    seq(32, k requires 0 <= k < 32 => WordByte(cv[k / 4], k % 4))
  }

  lemma WordOfBytes(w: Word)
    ensures WordByte(w, 0) + 0x100 * WordByte(w, 1) + 0x1_0000 * WordByte(w, 2) + 0x100_0000 * WordByte(w, 3) == w
  {
  }

  lemma ByteOfWord(left: Cv, right: Cv, i: nat, j: nat)
    requires i < 16 && j < 4
    ensures ByteAt(CvBytes(left) + CvBytes(right), 4 * i + j) == WordByte((left + right)[i], j)
  {
    var k := 4 * i + j;
    assert k / 4 == i && k % 4 == j;
    if i < 8 {
      assert CvBytes(left)[k] == WordByte(left[i], j);
    } else {
      assert (k - 32) / 4 == i - 8 && (k - 32) % 4 == j;
      assert CvBytes(right)[k - 32] == WordByte(right[i - 8], j);
    }
  }

  // Serialising two chaining values into a block and reading its words back.
  lemma ParentBlock(left: Cv, right: Cv)
    ensures BlockWords(CvBytes(left) + CvBytes(right)) == left + right
  {
    hide CvBytes, WordByte, ByteAt;
    var block := CvBytes(left) + CvBytes(right);
    forall i: nat | i < 16
      ensures BlockWords(block)[i] == (left + right)[i]
    {
      ByteOfWord(left, right, i, 0);
      ByteOfWord(left, right, i, 1);
      ByteOfWord(left, right, i, 2);
      ByteOfWord(left, right, i, 3);
      WordOfBytes((left + right)[i]);
    }
  }

  // ---------------------------------------------------------------- the tree

  function Chain(f: Compression, cv: Cv, words: Words, counter: nat, len: nat, flags: nat): Cv {
    f(cv, words, counter, len, flags)[..8]
  }

  function BlockCount(chunk: seq<Byte>): (r: nat)
    ensures r >= 1
  {
    if chunk == [] then 1 else (|chunk| + 63) / BLOCK_LEN
  }

  function BlockAt(chunk: seq<Byte>, i: nat): seq<Byte>
    requires i < BlockCount(chunk)
  {
    var start := i * BLOCK_LEN;
    var end := if start + BLOCK_LEN < |chunk| then start + BLOCK_LEN else |chunk|;
    if start < |chunk| then chunk[start..end] else []
  }

  function BlockFlags(i: nat, count: nat, root: bool): nat {
    (if i == 0 then CHUNK_START else 0) +
    (if i + 1 == count then CHUNK_END + (if root then ROOT else 0) else 0)
  }

  // The chaining value after the first k blocks of a chunk.
  function AfterBlocks(f: Compression, chunk: seq<Byte>, counter: nat, root: bool, k: nat): Cv
    requires k <= BlockCount(chunk)
  {
    if k == 0 then IV
    else
      var block := BlockAt(chunk, k - 1);
      Chain(f, AfterBlocks(f, chunk, counter, root, k - 1), BlockWords(block), counter, |block|,
            BlockFlags(k - 1, BlockCount(chunk), root))
  }

  function ChunkCv(f: Compression, chunk: seq<Byte>, counter: nat, root: bool): Cv {
    AfterBlocks(f, chunk, counter, root, BlockCount(chunk))
  }

  function Parent(f: Compression, left: Cv, right: Cv, root: bool): Cv {
    Chain(f, IV, left + right, 0, BLOCK_LEN, PARENT + (if root then ROOT else 0))
  }

  predicate PowerOfTwo(p: nat) {
    p == 1 || (p > 0 && p % 2 == 0 && PowerOfTwo(p / 2))
  }

  // The size of the left subtree: the largest power of two below n.
  function LeftLen(n: nat): (r: nat)
    requires n >= 2
    ensures PowerOfTwo(r) && r < n <= 2 * r
  {
    if n == 2 then 1 else 2 * LeftLen((n + 1) / 2)
  }

  // The subtree over the chunks lo to hi; a left subtree is always complete.
  function Tree(f: Compression, chunks: seq<seq<Byte>>, lo: nat, hi: nat, root: bool): Cv
    requires lo < hi <= |chunks|
    decreases hi - lo
  {
    if hi == lo + 1 then ChunkCv(f, chunks[lo], lo, root)
    else
      var mid := lo + LeftLen(hi - lo);
      Parent(f, Tree(f, chunks, lo, mid, false), Tree(f, chunks, mid, hi, false), root)
  }

  function Chunks(data: seq<Byte>): (r: seq<seq<Byte>>)
    ensures |r| == if data == [] then 1 else (|data| + 1023) / CHUNK_LEN
  {
    if |data| <= CHUNK_LEN then [data] else [data[..CHUNK_LEN]] + Chunks(data[CHUNK_LEN..])
  }

  // ---------------------------------------------------------------- powers of two

  // p divides n, for a power of two p.
  predicate Divides(p: nat, n: nat)
    requires PowerOfTwo(p)
  {
    p == 1 || (n % 2 == 0 && Divides(p / 2, n / 2))
  }

  // n is k times the power of two p.
  predicate Scaled(n: nat, p: nat, k: nat)
    requires PowerOfTwo(p)
  {
    if p == 1 then n == k else n % 2 == 0 && Scaled(n / 2, p / 2, k)
  }

  lemma {:induction false} OnePower(p: nat, q: nat)
    requires PowerOfTwo(p) && PowerOfTwo(q) && p <= q < 2 * p
    ensures p == q
  {
    if p > 1 && q > 1 { OnePower(p / 2, q / 2); }
  }

  lemma Doubled(p: nat)
    requires PowerOfTwo(p)
    ensures PowerOfTwo(2 * p)
  {
  }

  lemma {:induction false} PowerDivides(p: nat, q: nat)
    requires PowerOfTwo(p) && PowerOfTwo(q) && p <= q
    ensures Divides(p, q)
  {
    if p > 1 { PowerDivides(p / 2, q / 2); }
  }

  lemma {:induction false} SumDivides(p: nat, a: nat, b: nat)
    requires PowerOfTwo(p) && Divides(p, a) && Divides(p, b)
    ensures Divides(p, a + b)
  {
    if p > 1 {
      SumDivides(p / 2, a / 2, b / 2);
      assert (a + b) / 2 == a / 2 + b / 2;
    }
  }

  lemma {:induction false} ZeroDivides(p: nat)
    requires PowerOfTwo(p)
    ensures Divides(p, 0)
  {
    if p > 1 { ZeroDivides(p / 2); }
  }

  // Multiples of 2p are at least 2p apart.
  lemma {:induction false} NotHalfway(p: nat, n: nat)
    requires PowerOfTwo(p) && p <= n && Divides(2 * p, n) && Divides(2 * p, n - p)
    ensures false
  {
    if p > 1 {
      assert (n - p) / 2 == n / 2 - p / 2;
      NotHalfway(p / 2, n / 2);
    }
  }

  lemma {:induction false} HalveUnits(n: nat, p: nat, k: nat)
    requires PowerOfTwo(p) && Scaled(n, p, k) && k % 2 == 0
    ensures Divides(2 * p, n) && Scaled(n, 2 * p, k / 2)
  {
    if p > 1 { HalveUnits(n / 2, p / 2, k); }
  }

  lemma {:induction false} OddUnits(n: nat, p: nat, k: nat)
    requires PowerOfTwo(p) && Scaled(n, p, k) && k % 2 == 1
    ensures p <= n && Divides(2 * p, n - p)
    ensures n == p <==> k == 1
  {
    if p > 1 {
      OddUnits(n / 2, p / 2, k);
      assert (n - p) / 2 == n / 2 - p / 2;
    }
  }

  // ---------------------------------------------------------------- the stack

  // The stack splits the first hi chunks into complete trees of strictly decreasing sizes.
  ghost predicate Stacked(f: Compression, chunks: seq<seq<Byte>>, stack: seq<Cv>, sizes: seq<nat>, hi: nat)
    decreases |stack|
  {
    |stack| == |sizes| && hi <= |chunks| &&
    if stack == [] then hi == 0
    else
      var last := |stack| - 1;
      && PowerOfTwo(sizes[last]) && sizes[last] <= hi
      && (last > 0 ==> sizes[last] < sizes[last - 1])
      && stack[last] == Tree(f, chunks, hi - sizes[last], hi, false)
      && Stacked(f, chunks, stack[..last], sizes[..last], hi - sizes[last])
  }

  lemma {:induction false} StackDivides(f: Compression, chunks: seq<seq<Byte>>, stack: seq<Cv>, sizes: seq<nat>, hi: nat, p: nat)
    requires Stacked(f, chunks, stack, sizes, hi)
    requires PowerOfTwo(p) && (stack != [] ==> p <= sizes[|stack| - 1])
    ensures Divides(p, hi)
    decreases |stack|
  {
    hide Tree, PowerOfTwo, Divides;
    if stack == [] {
      ZeroDivides(p);
    } else {
      var last := |stack| - 1;
      StackDivides(f, chunks, stack[..last], sizes[..last], hi - sizes[last], p);
      PowerDivides(p, sizes[last]);
      SumDivides(p, hi - sizes[last], sizes[last]);
    }
  }

  // An even count of merged units means that the top of the stack has the unit's size.
  lemma TopIsEqual(f: Compression, chunks: seq<seq<Byte>>, stack: seq<Cv>, sizes: seq<nat>, n: nat, s: nat, units: nat)
    requires PowerOfTwo(s) && s <= n && Stacked(f, chunks, stack, sizes, n - s)
    requires stack != [] ==> s <= sizes[|stack| - 1]
    requires Scaled(n, s, units) && units % 2 == 0
    ensures stack != [] && sizes[|stack| - 1] == s
  {
    hide Tree, PowerOfTwo, Divides, Scaled;
    HalveUnits(n, s, units);
    Doubled(s);
    if stack == [] || 2 * s <= sizes[|stack| - 1] {
      StackDivides(f, chunks, stack, sizes, n - s, 2 * s);
      NotHalfway(s, n);
    } else {
      OnePower(s, sizes[|stack| - 1]);
    }
  }

  // An odd count means that the unit is smaller than the top of the stack.
  lemma TopIsLarger(f: Compression, chunks: seq<seq<Byte>>, stack: seq<Cv>, sizes: seq<nat>, n: nat, s: nat, units: nat)
    requires PowerOfTwo(s) && s <= n && Stacked(f, chunks, stack, sizes, n - s)
    requires stack != [] && s <= sizes[|stack| - 1]
    requires Scaled(n, s, units) && units % 2 == 1
    ensures s < sizes[|stack| - 1]
  {
    hide Tree, PowerOfTwo, Divides, Scaled;
    var last := |stack| - 1;
    OddUnits(n, s, units);
    Doubled(s);
    if sizes[last] == s {
      if last > 0 { OnePowerBelow(f, chunks, stack, sizes, n - s, s); }
      StackDivides(f, chunks, stack[..last], sizes[..last], n - s - s, 2 * s);
      NotHalfway(s, n - s);
    }
  }

  lemma OnePowerBelow(f: Compression, chunks: seq<seq<Byte>>, stack: seq<Cv>, sizes: seq<nat>, hi: nat, s: nat)
    requires Stacked(f, chunks, stack, sizes, hi) && |stack| >= 2 && sizes[|stack| - 1] == s
    ensures 2 * s <= sizes[|stack| - 2]
  {
    if sizes[|stack| - 2] < 2 * s { OnePower(s, sizes[|stack| - 2]); }
  }

  // Merging two neighbours where the left one is complete and no smaller than the right one.
  lemma Merged(f: Compression, chunks: seq<seq<Byte>>, lo: nat, mid: nat, hi: nat, root: bool)
    requires lo < mid < hi <= |chunks|
    requires PowerOfTwo(mid - lo) && hi - mid <= mid - lo
    ensures Tree(f, chunks, lo, hi, root) == Parent(f, Tree(f, chunks, lo, mid, false), Tree(f, chunks, mid, hi, false), root)
  {
    hide PowerOfTwo, LeftLen, ChunkCv, Parent;
    var p, q := mid - lo, LeftLen(hi - lo);
    assert p < hi - lo <= 2 * p && q < hi - lo <= 2 * q;
    if p <= q { OnePower(p, q); } else { OnePower(q, p); }
    assert mid == lo + LeftLen(hi - lo);
  }

  // ---------------------------------------------------------------- the hash

  method ParentCv(f: Compression, left: Cv, right: Cv, flags: nat) returns (cv: Cv)
    ensures cv == Chain(f, IV, left + right, 0, BLOCK_LEN, flags)
  {
    ParentBlock(left, right);
    cv := Chain(f, IV, BlockWords(CvBytes(left) + CvBytes(right)), 0, BLOCK_LEN, flags);
  }

  method HashChunk(f: Compression, chunk: seq<Byte>, counter: nat, root: bool) returns (cv: Cv)
    ensures cv == ChunkCv(f, chunk, counter, root)
  {
    cv := IV;
    var count := BlockCount(chunk);
    for bi := 0 to count
      invariant cv == AfterBlocks(f, chunk, counter, root, bi)
    {
      var block := BlockAt(chunk, bi);
      var flags := 0;
      if bi == 0 { flags := flags + CHUNK_START; }
      if bi == count - 1 { flags := flags + CHUNK_END; }
      if root && bi == count - 1 { flags := flags + ROOT; }
      cv := Chain(f, cv, BlockWords(block), counter, |block|, flags);
    }
  }

  lemma AtLeastOne(f: Compression, chunks: seq<seq<Byte>>, stack: seq<Cv>, sizes: seq<nat>, hi: nat)
    requires Stacked(f, chunks, stack, sizes, hi) && stack != []
    ensures sizes[|stack| - 1] >= 1
  {
  }

  // The last loop: the two topmost subtrees are merged until one is left.
  method Finish(f: Compression, chunks: seq<seq<Byte>>, cvs: seq<Cv>, ghost parts: seq<nat>) returns (result: seq<Byte>)
    requires |cvs| >= 2 && Stacked(f, chunks, cvs, parts, |chunks|)
    ensures result == CvBytes(Tree(f, chunks, 0, |chunks|, true))
  {
    hide LeftLen, ChunkCv, BlockWords, CvBytes, Chain;
    var stack := cvs;
    ghost var total := |chunks|;
    ghost var last := |stack| - 1;
    ghost var sizes := parts[..last];
    ghost var mid: nat := total - parts[last];
    AtLeastOne(f, chunks, cvs, parts, total);
    while |stack| > 1
      invariant |stack| >= 2 && |sizes| == |stack| - 1
      invariant mid < total
      invariant Stacked(f, chunks, stack[..|stack| - 1], sizes, mid)
      invariant total - mid <= sizes[|stack| - 2]
      invariant stack[|stack| - 1] == Tree(f, chunks, mid, total, false)
    {
      var right, left := stack[|stack| - 1], stack[|stack| - 2];
      ghost var lo := mid - sizes[|stack| - 2];
      assert stack[..|stack| - 1][..|stack| - 2] == stack[..|stack| - 2];
      stack, sizes := stack[..|stack| - 2], sizes[..|stack| - 2];
      assert Stacked(f, chunks, stack, sizes, lo);
      Merged(f, chunks, lo, mid, total, stack == []);
      var cv := ParentCv(f, left, right, if stack == [] then ROOT + PARENT else PARENT);
      if stack == [] {
        return CvBytes(cv);
      }
      ghost var below := sizes[|sizes| - 1];
      if below < 2 * (mid - lo) { OnePower(mid - lo, below); }
      stack := stack + [cv];
      assert stack[..|stack| - 1] + [cv] == stack;
      mid := lo;
    }
    assert false;
  }

  lemma OneUnit(n: nat)
    ensures PowerOfTwo(1) && Scaled(n, 1, n)
  {
  }

  lemma ParentMeans(f: Compression, left: Cv, right: Cv, root: bool)
    ensures Parent(f, left, right, root) == Chain(f, IV, left + right, 0, BLOCK_LEN, (if root then ROOT else 0) + PARENT)
  {
  }

  // Merges the chunk just hashed with every complete subtree of its own size.  When
  // nothing is left to merge with after the last chunk, the result is the root.
  method MergeUp(f: Compression, chunks: seq<seq<Byte>>, cvs: seq<Cv>, ghost parts: seq<nat>, counter: nat, cv: Cv)
    returns (stack: seq<Cv>, ghost sizes: seq<nat>, newCv: Cv, root: bool)
    requires counter < |chunks| && |chunks| > 1
    requires Stacked(f, chunks, cvs, parts, counter)
    requires cv == Tree(f, chunks, counter, counter + 1, false)
    ensures root ==> newCv == Tree(f, chunks, 0, |chunks|, true)
    ensures !root ==> Stacked(f, chunks, stack + [newCv], sizes, counter + 1)
    ensures !root && counter + 1 == |chunks| ==> stack != []
  {
    hide Tree, LeftLen, ChunkCv, Parent, Chain, PowerOfTwo, Divides, Scaled;
    var isLast := counter == |chunks| - 1;
    var soFar: nat := counter + 1;
    ghost var s: nat := 1;
    stack, sizes, newCv := cvs, parts, cv;
    OneUnit(counter + 1);
    if stack != [] { AtLeastOne(f, chunks, stack, sizes, counter); }
    while soFar % 2 == 0 && stack != []
      invariant PowerOfTwo(s) && soFar > 0 && 1 <= s <= counter + 1 && Scaled(counter + 1, s, soFar)
      invariant Stacked(f, chunks, stack, sizes, counter + 1 - s)
      invariant stack != [] ==> s <= sizes[|stack| - 1]
      invariant newCv == Tree(f, chunks, counter + 1 - s, counter + 1, false)
      invariant isLast && s > 1 ==> stack != []
      decreases soFar
    {
      TopIsEqual(f, chunks, stack, sizes, counter + 1, s, soFar);
      ghost var hi := counter + 1 - s;
      var last := |stack| - 1;
      if last > 0 { OnePowerBelow(f, chunks, stack, sizes, hi, s); }
      var left := stack[last];
      stack, sizes := stack[..last], sizes[..last];
      root := isLast && stack == [];
      Merged(f, chunks, hi - s, hi, counter + 1, root);
      newCv := ParentCv(f, left, newCv, (if root then ROOT else 0) + PARENT);
      ParentMeans(f, left, Tree(f, chunks, hi, counter + 1, false), root);
      if root {
        return;
      }
      HalveUnits(counter + 1, s, soFar);
      Doubled(s);
      soFar, s := soFar / 2, 2 * s;
    }
    root := false;
    if stack != [] {
      TopIsLarger(f, chunks, stack, sizes, counter + 1, s, soFar);
    }
    sizes := sizes + [s];
    assert (stack + [newCv])[..|stack|] == stack && sizes[..|stack|] == sizes[..|sizes| - 1];
  }

  // The result is the root of the tree for every input, and the fallback after the
  // last loop of the source is never reached.
  method Hash(f: Compression, data: seq<Byte>) returns (result: seq<Byte>)
    ensures result == CvBytes(Tree(f, Chunks(data), 0, |Chunks(data)|, true))
  {
    hide LeftLen, ChunkCv, BlockWords, CvBytes, Chain;
    var chunks := Chunks(data);
    var total := |chunks|;
    var stack: seq<Cv> := [];
    ghost var sizes: seq<nat> := [];
    var counter: nat := 0;
    while counter < total
      invariant counter <= total
      invariant Stacked(f, chunks, stack, sizes, counter)
      invariant counter > 0 ==> total > 1
      invariant counter == total ==> |stack| >= 2
    {
      var newCv := HashChunk(f, chunks[counter], counter, total == 1);
      if total == 1 {
        return CvBytes(newCv);
      }
      var root;
      stack, sizes, newCv, root := MergeUp(f, chunks, stack, sizes, counter, newCv);
      if root {
        return CvBytes(newCv);
      }
      stack := stack + [newCv];
      counter := counter + 1;
    }
    result := Finish(f, chunks, stack, sizes);
  }
}
