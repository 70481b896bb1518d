/** How a token list falls into blocks, and how many more blocks it needs. */
module Chunking {
  import opened Basics
  import opened Arithmetic

  /** `tokens[lo..hi]`, cut off at the end. */
  function Slice(tokens: seq<TokenId>, lo: nat, hi: nat): seq<TokenId>
    requires lo <= hi
  {
    tokens[Min(lo, |tokens|)..Min(hi, |tokens|)]
  }

  /** The part of `tokens` that belongs to block `i`. */
  function Chunk(tokens: seq<TokenId>, blockSize: nat, i: nat): seq<TokenId> {
    Slice(tokens, i * blockSize, (i + 1) * blockSize)
  }

  lemma SliceAppend(tokens: seq<TokenId>, ts: seq<TokenId>, lo: nat, hi: nat)
    requires lo <= hi && (hi <= |tokens| || lo > |tokens| || (lo <= |tokens| && |tokens| + |ts| <= hi))
    requires lo > |tokens| ==> lo >= |tokens| + |ts|
    ensures Slice(tokens + ts, lo, hi) == Slice(tokens, lo, hi) + (if lo <= |tokens| < hi then ts else [])
  {
  }

  /** Block `k` is the one that `ts` continues. */
  predicate Continues(tokens: seq<TokenId>, ts: seq<TokenId>, blockSize: nat, k: nat) {
    k * blockSize <= |tokens| < (k + 1) * blockSize && |tokens| + |ts| <= (k + 1) * blockSize
  }

  /** Appending within one block changes only its chunk. */
  lemma ChunkAppend(tokens: seq<TokenId>, ts: seq<TokenId>, blockSize: nat, k: nat, i: nat)
    requires Continues(tokens, ts, blockSize, k)
    ensures Chunk(tokens + ts, blockSize, i) == Chunk(tokens, blockSize, i) + (if i == k then ts else [])
    ensures i > k ==> Chunk(tokens, blockSize, i) == []
  {
    Scaled(i, i + 1, blockSize);
    if i < k {
      Scaled(i + 1, k, blockSize);
    } else if i > k {
      Scaled(k + 1, i, blockSize);
    }
    SliceAppend(tokens, ts, i * blockSize, (i + 1) * blockSize);
  }

  lemma ChunkAt(tokens: seq<TokenId>, blockSize: nat, i: nat, j: nat)
    requires blockSize > 0 && j < |Chunk(tokens, blockSize, i)|
    ensures i * blockSize + j < |tokens| && Chunk(tokens, blockSize, i)[j] == tokens[i * blockSize + j]
  {
    Scaled(i, i + 1, blockSize);
  }

  lemma ChunkSize(tokens: seq<TokenId>, blockSize: nat, i: nat)
    requires blockSize > 0
    ensures |Chunk(tokens, blockSize, i)| <= blockSize
    ensures (i + 1) * blockSize <= |tokens| ==> |Chunk(tokens, blockSize, i)| == blockSize
    ensures i * blockSize >= |tokens| ==> Chunk(tokens, blockSize, i) == []
  {
    Scaled(i, i + 1, blockSize);
  }

  // ---------- blocks to add ----------

  /** The first block that appending writes. */
  function FirstOpen(n: nat, blockSize: nat): nat {
    if blockSize == 0 then 0 else n / blockSize
  }

  /** How many blocks must be added before `required` more tokens fit. */
  function NewBlocks(blocks: nat, numFull: nat, required: nat, blockSize: nat): nat
    requires blockSize > 0 && numFull <= blocks * blockSize
  {
    var empty := blocks * blockSize - numFull;
    if required <= empty then 0 else CeilDiv(required - empty, blockSize)
  }

  lemma NewBlocksEnough(blocks: nat, numFull: nat, required: nat, blockSize: nat)
    requires blockSize > 0 && numFull <= blocks * blockSize
    ensures numFull + required <= (blocks + NewBlocks(blocks, numFull, required, blockSize)) * blockSize
  {
    var empty := blocks * blockSize - numFull;
    if required > empty {
      var n := CeilDiv(required - empty, blockSize);
      BlockBounds(required - empty + blockSize - 1, blockSize);
      assert (blocks + n) * blockSize == blocks * blockSize + n * blockSize;
      assert (n + 1) * blockSize == n * blockSize + blockSize;
    }
  }

  /** No fewer would do. */
  lemma NewBlocksLeast(blocks: nat, numFull: nat, required: nat, blockSize: nat, q: nat)
    requires blockSize > 0 && numFull <= blocks * blockSize
    ensures NewBlocks(blocks, numFull, required, blockSize) <= q <==> numFull + required <= (blocks + q) * blockSize
  {
    NewBlocksEnough(blocks, numFull, required, blockSize);
    var n, empty := NewBlocks(blocks, numFull, required, blockSize), blocks * blockSize - numFull;
    assert (blocks + q) * blockSize == blocks * blockSize + q * blockSize;
    if n <= q { Scaled(blocks + n, blocks + q, blockSize); }
    if required > empty && numFull + required <= (blocks + q) * blockSize { CeilLeast(required - empty, blockSize, q); }
  }

  /** GetNumRelatedBlocks of a table with `numFull` tokens. */
  function RelatedBlocks(numFull: nat, required: nat, blockSize: nat): nat
    requires blockSize > 0
  {
    var lastEmpty := blockSize - numFull % blockSize;
    if lastEmpty == blockSize then CeilDiv(required, blockSize)
    else if lastEmpty >= required then 0
    else CeilDiv(required - lastEmpty, blockSize)
  }

  /** The estimate never falls short of what EnsureEnoughSlots allocates, and is exact unless spare blocks are held. */
  lemma RelatedBound(blocks: nat, numFull: nat, required: nat, blockSize: nat)
    requires blockSize > 0 && numFull <= blocks * blockSize
    ensures NewBlocks(blocks, numFull, required, blockSize) <= RelatedBlocks(numFull, required, blockSize)
    ensures blocks == CeilDiv(numFull, blockSize)
      ==> NewBlocks(blocks, numFull, required, blockSize) == RelatedBlocks(numFull, required, blockSize)
  {
    var held := CeilDiv(numFull, blockSize);
    CeilLeast(numFull, blockSize, blocks);
    Scaled(held, blocks, blockSize);
    HeldIsRelated(numFull, required, blockSize);
    var spare, need := held * blockSize - numFull, blocks * blockSize - numFull;
    CeilBounds(numFull, blockSize);
    if required > need {
      CeilBounds(required - spare, blockSize);
      CeilLeast(required - need, blockSize, CeilDiv(required - spare, blockSize));
    }
  }

  /** The estimate is what a table without spare blocks needs. */
  lemma HeldIsRelated(numFull: nat, required: nat, blockSize: nat)
    requires blockSize > 0
    ensures
      var held := CeilDiv(numFull, blockSize);
      && numFull <= held * blockSize
      && RelatedBlocks(numFull, required, blockSize) == NewBlocks(held, numFull, required, blockSize)
  {
    var full := numFull / blockSize;
    BlockBounds(numFull, blockSize);
    CeilBounds(numFull, blockSize);
    assert (full + 1) * blockSize == full * blockSize + blockSize;
    if numFull % blockSize == 0 {
      DivIs(numFull + blockSize - 1, blockSize, full);
    } else {
      assert (full + 2) * blockSize == full * blockSize + 2 * blockSize;
      DivIs(numFull + blockSize - 1, blockSize, full + 1);
    }
  }

  // ---------- reading a list back ----------

  function Concat(parts: seq<seq<TokenId>>): seq<TokenId> {
    if parts == [] then [] else Concat(parts[..|parts| - 1]) + parts[|parts| - 1]
  }

  function Chunks(tokens: seq<TokenId>, blockSize: nat, n: nat): seq<seq<TokenId>> {
    seq(n, i requires 0 <= i < n => Chunk(tokens, blockSize, i))
  }

  lemma {:induction false} ConcatChunks(tokens: seq<TokenId>, blockSize: nat, n: nat)
    ensures Concat(Chunks(tokens, blockSize, n)) == tokens[..Min(n * blockSize, |tokens|)]
  {
    if n > 0 {
      ConcatChunks(tokens, blockSize, n - 1);
      assert Chunks(tokens, blockSize, n)[..n - 1] == Chunks(tokens, blockSize, n - 1);
      Scaled(n - 1, n, blockSize);
    }
  }

  /** What block `i` of `n` tokens holds: full blocks, at most one partial one, then empty ones. */
  function ShareOf(n: nat, blockSize: nat, i: nat): nat
    requires blockSize > 0
  {
    if i < n / blockSize then blockSize else if i == n / blockSize then n % blockSize else 0
  }

  lemma ChunkShareAt(tokens: seq<TokenId>, blockSize: nat, full: nat, i: nat)
    requires full * blockSize <= |tokens| < (full + 1) * blockSize
    ensures |Chunk(tokens, blockSize, i)| ==
      if i < full then blockSize else if i == full then |tokens| - full * blockSize else 0
  {
    assert (i + 1) * blockSize == i * blockSize + blockSize;
    if i < full { Scaled(i + 1, full, blockSize); }
    if i > full { Scaled(full + 1, i, blockSize); }
  }

  lemma ChunkShare(tokens: seq<TokenId>, blockSize: nat, i: nat)
    requires blockSize > 0
    ensures |Chunk(tokens, blockSize, i)| == ShareOf(|tokens|, blockSize, i)
  {
    BlockBounds(|tokens|, blockSize);
    ChunkShareAt(tokens, blockSize, |tokens| / blockSize, i);
  }
}
