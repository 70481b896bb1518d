/** The two ways a block's hash is computed: over a sequence's tokens and over the chain of block objects. */
module PrefixHashing {
  import opened Basics
  import opened Arithmetic
  import opened Chunking
  import opened PrefixChain
  import opened PrefixCacheSpec
  import opened PrefixCacheSteps
  import opened CacheReports
  import opened PrefixCacheRuns
  import opened PrefixCacheAllocator
  import opened BlockTableSpec
  import opened BlockTableSteps
  import opened BlockTables
  import opened AppendAdmission

  /** HashCombine: the seed and a value make the next seed. */
  type Combine = (HashValue, int) -> HashValue

  function Fold(combine: Combine, seed: HashValue, values: seq<int>): HashValue {
    if values == [] then seed else combine(Fold(combine, seed, values[..|values| - 1]), values[|values| - 1])
  }

  /** What goes into a block's hash: the predecessor's hash, if any, the tokens, the extra hash. */
  function Ingredients(prev: HashValue, tokens: seq<TokenId>, extra: HashValue): seq<int> {
    (if prev != INVALID_HASH_VALUE then [prev] else []) + tokens + [extra]
  }

  function Mix(combine: Combine): Mixer {
    (prev: HashValue, tokens: seq<TokenId>, extra: HashValue) => Fold(combine, 0, Ingredients(prev, tokens, extra))
  }

  lemma FoldNext(combine: Combine, values: seq<int>, v: int)
    ensures Fold(combine, 0, values + [v]) == combine(Fold(combine, 0, values), v)
  {
    assert (values + [v])[..|values|] == values;
  }

  /** The tracker's hash of one block. */
  method ComputeHashValueForSeq(combine: Combine, prevBlockHash: HashValue, tokens: seq<TokenId>, extra: HashValue)
    returns (seed: HashValue)
    ensures seed == Mix(combine)(prevBlockHash, tokens, extra)
  {
    hide Fold;
    seed := 0;
    ghost var done: seq<int> := [];
    assert seed == Fold(combine, 0, done) by { NothingFolded(combine); }
    if prevBlockHash != INVALID_HASH_VALUE {
      FoldNext(combine, done, prevBlockHash);
      seed := combine(seed, prevBlockHash);
      done := done + [prevBlockHash];
    }
    ghost var first := done;
    for k := 0 to |tokens|
      invariant done == first + tokens[..k] && seed == Fold(combine, 0, done)
    {
      FoldNext(combine, done, tokens[k]);
      seed := combine(seed, tokens[k]);
      done := done + [tokens[k]];
      assert tokens[..k + 1] == tokens[..k] + [tokens[k]];
    }
    FoldNext(combine, done, extra);
    seed := combine(seed, extra);
    assert tokens[..|tokens|] == tokens;
    assert done + [extra] == Ingredients(prevBlockHash, tokens, extra);
  }

  lemma NothingFolded(combine: Combine)
    ensures Fold(combine, 0, []) == 0
  {
  }

  // ---------- the sequence's chain and the table's chain ----------

  ghost predicate SameExtra(s: State, objs: seq<Obj>, extra: HashValue) {
    forall k :: 0 <= k < |objs| ==> objs[k] in s.blocks && s.blocks[objs[k]].extra == extra
  }

  /** The block objects of a table form the sequence's own chain. */
  lemma {:induction false} TableChain(s: State, objs: seq<Obj>, tokens: seq<TokenId>, extra: HashValue, k: nat)
    requires s.cfg.blockSize > 0 && Tabled(s, objs, tokens) && SameExtra(s, objs, extra)
    requires PLACEHOLDER_TOKEN !in tokens && k < |objs| && (k + 1) * s.cfg.blockSize <= |tokens|
    ensures ChainOf(s.blocks[objs[k]]) == SeqChain(tokens, s.cfg.blockSize, extra, k + 1)
  {
    var bs := s.cfg.blockSize;
    assert SlotOk(s, objs, tokens, k);
    ChunkSize(tokens, bs, k);
    ChunkAt(tokens, bs, k, bs - 1);
    assert tokens[k * bs + (bs - 1)] in tokens;
    if k > 0 {
      assert k * bs == (k + 1) * bs - bs;
      TableChain(s, objs, tokens, extra, k - 1);
    }
  }

  lemma SequenceReady(tokens: seq<TokenId>, blockSize: nat, extra: HashValue, k: nat)
    requires blockSize > 0 && PLACEHOLDER_TOKEN !in tokens && 0 < k && k * blockSize <= |tokens|
    ensures Ready(blockSize, SeqChain(tokens, blockSize, extra, k))
  {
    assert forall t :: t in tokens[..k * blockSize] ==> t in tokens;
    SeqChainReady(tokens, blockSize, extra, k);
  }

  /** Both ways give a full block the same hash; a block that is not full has none. */
  lemma HashesAgree(s: State, objs: seq<Obj>, tokens: seq<TokenId>, extra: HashValue, k: nat)
    requires s.cfg.blockSize > 0 && Tabled(s, objs, tokens) && SameExtra(s, objs, extra)
    requires PLACEHOLDER_TOKEN !in tokens && k < |objs|
    ensures HashOf(s.cfg, s.blocks[objs[k]])
         == if (k + 1) * s.cfg.blockSize <= |tokens|
            then ChainHash(s.cfg.mix, SeqChain(tokens, s.cfg.blockSize, extra, k + 1)) else INVALID_HASH_VALUE
  {
    hide SeqChain; hide ChainHash; hide Chunk;
    var bs := s.cfg.blockSize;
    if (k + 1) * bs <= |tokens| {
      TableChain(s, objs, tokens, extra, k);
      SequenceReady(tokens, bs, extra, k + 1);
    } else {
      assert SlotOk(s, objs, tokens, k);
      PartialChunk(tokens, bs, k);
    }
  }

  lemma PartialChunk(tokens: seq<TokenId>, blockSize: nat, k: nat)
    requires |tokens| < (k + 1) * blockSize
    ensures |Chunk(tokens, blockSize, k)| < blockSize
  {
    assert (k + 1) * blockSize == k * blockSize + blockSize;
    Scaled(k, k + 1, blockSize);
  }

  // ---------- the two counts of cached tokens ----------

  /** How many of the sequence's first chunks are cached and computed, up to the first that is not. */
  ghost predicate CachedChunks(alloc: PrefixCacheBlockAllocator, tokens: seq<TokenId>, extra: HashValue, n: nat)
    reads alloc, alloc.evictor, alloc.live.Values
  {
    var bs := alloc.cfg.blockSize;
    && n * bs <= |tokens|
    && (forall k :: 0 <= k < n ==> ChunkCached(alloc, tokens, extra, k))
    && ((n + 1) * bs <= |tokens| ==> !ChunkCached(alloc, tokens, extra, n))
  }

  ghost predicate ChunkCached(alloc: PrefixCacheBlockAllocator, tokens: seq<TokenId>, extra: HashValue, k: nat)
    reads alloc, alloc.evictor, alloc.live.Values
  {
    Findable(alloc.Abs(), ChainHash(alloc.cfg.mix, SeqChain(tokens, alloc.cfg.blockSize, extra, k + 1)))
  }

  predicate FindCachedBlockPrefix(alloc: PrefixCacheBlockAllocator, blockHash: HashValue)
    reads alloc, alloc.evictor
  {
    if blockHash == INVALID_HASH_VALUE then false
    else if blockHash in alloc.cached then alloc.IsBlockComputed(alloc.cached[blockHash]) else false
  }

  lemma CachedNotZero(alloc: PrefixCacheBlockAllocator, h: HashValue)
    requires alloc.Valid()
    ensures alloc.cfg.blockSize > 0 && (FindCachedBlockPrefix(alloc, h) <==> Findable(alloc.Abs(), h))
    ensures !Findable(alloc.Abs(), INVALID_HASH_VALUE)
  {
    assert INVALID_HASH_VALUE !in alloc.Abs().cached;
  }

  /** The hash of the next full chunk, from that of the chunk before. */
  method HashChunk(combine: Combine, prevBlockHash: HashValue, tokens: seq<TokenId>, size: nat, k: nat,
                   extra: HashValue)
    returns (blockHash: HashValue)
    requires prevBlockHash == ChainHash(Mix(combine), SeqChain(tokens, size, extra, k)) && (k + 1) * size <= |tokens|
    ensures blockHash == ChainHash(Mix(combine), SeqChain(tokens, size, extra, k + 1))
  {
    assert k * size <= (k + 1) * size by { Scaled(k, k + 1, size); }
    var blockTokenIds := tokens[k * size..(k + 1) * size];
    assert blockTokenIds == Chunk(tokens, size, k);
    blockHash := ComputeHashValueForSeq(combine, prevBlockHash, blockTokenIds, extra);
  }

  lemma FullChunk(length: nat, size: nat, k: nat)
    requires size > 0
    ensures k < length / size <==> (k + 1) * size <= length
  {
    BlockBounds(length, size);
    if k < length / size { Scaled(k + 1, length / size, size); } else { Scaled(length / size + 1, k + 1, size); }
  }

  lemma CachedSoFar(alloc: PrefixCacheBlockAllocator, tokens: seq<TokenId>, extra: HashValue, n: nat)
    requires alloc.cfg.blockSize > 0 && n <= |tokens| / alloc.cfg.blockSize
    requires forall k :: 0 <= k < n ==> ChunkCached(alloc, tokens, extra, k)
    requires n < |tokens| / alloc.cfg.blockSize ==> !ChunkCached(alloc, tokens, extra, n)
    ensures CachedChunks(alloc, tokens, extra, n)
  {
    FullChunk(|tokens|, alloc.cfg.blockSize, n);
    if n > 0 { FullChunk(|tokens|, alloc.cfg.blockSize, n - 1); }
  }

  /** One round of the count: the next chunk's hash, and whether it is cached. */
  method LookChunk(alloc: PrefixCacheBlockAllocator, combine: Combine, tokens: seq<TokenId>, extra: HashValue, k: nat,
                   prevBlockHash: HashValue) returns (blockHash: HashValue, hit: bool)
    requires alloc.Valid() && alloc.cfg.mix == Mix(combine) && (k + 1) * alloc.cfg.blockSize <= |tokens|
    requires prevBlockHash == ChainHash(Mix(combine), SeqChain(tokens, alloc.cfg.blockSize, extra, k))
    ensures blockHash == ChainHash(Mix(combine), SeqChain(tokens, alloc.cfg.blockSize, extra, k + 1))
    ensures hit <==> ChunkCached(alloc, tokens, extra, k)
  {
    hide PrefixCacheBlockAllocator.Valid; hide ChainHash; hide SeqChain; hide Mix;
    blockHash := HashChunk(combine, prevBlockHash, tokens, alloc.cfg.blockSize, k, extra);
    CachedNotZero(alloc, blockHash);
    hit := FindCachedBlockPrefix(alloc, blockHash);
  }

  lemma NoHash(mix: Mixer, tokens: seq<TokenId>, size: nat, extra: HashValue)
    ensures ChainHash(mix, SeqChain(tokens, size, extra, 0)) == INVALID_HASH_VALUE
  {
  }

  /** The tracker's count for a first-chunk prefill on one rank. */
  method GetCachedTokensNum(alloc: PrefixCacheBlockAllocator, combine: Combine, tokens: seq<TokenId>, extra: HashValue)
    returns (num: nat)
    requires alloc.Valid() && alloc.cfg.mix == Mix(combine)
    ensures exists n: nat :: CachedChunks(alloc, tokens, extra, n) && num == n * alloc.cfg.blockSize
  {
    hide *;
    CachedNotZero(alloc, 0);
    var size := alloc.cfg.blockSize;
    var numFullBlocks := |tokens| / size;
    num := 0;
    ghost var n: nat := 0;
    var prevBlockHash := INVALID_HASH_VALUE;
    NoHash(Mix(combine), tokens, size, extra);
    for blockIdx := 0 to numFullBlocks
      invariant n == blockIdx && num == n * size
      invariant prevBlockHash == ChainHash(Mix(combine), SeqChain(tokens, size, extra, blockIdx))
      invariant forall k :: 0 <= k < n ==> ChunkCached(alloc, tokens, extra, k)
    {
      FullChunk(|tokens|, size, blockIdx);
      var hit;
      prevBlockHash, hit := LookChunk(alloc, combine, tokens, extra, blockIdx, prevBlockHash);
      if !hit {
        CachedSoFar(alloc, tokens, extra, n);
        return;
      }
      num, n := num + size, n + 1;
    }
    CachedSoFar(alloc, tokens, extra, n);
  }

  /** The hashes of a table's block objects. */
  method TableHashes(t: BlockTable) returns (hashes: seq<HashValue>)
    ensures |hashes| == |t.objs| && forall k :: 0 <= k < |hashes| ==>
      hashes[k] == HashOf(t.alloc.cfg, t.objs[k].Value())
  {
    hashes := [];
    for k := 0 to |t.objs|
      invariant |hashes| == k && forall j :: 0 <= j < k ==> hashes[j] == HashOf(t.alloc.cfg, t.objs[j].Value())
    {
      hashes := hashes + [t.objs[k].PrefixHash(t.alloc.cfg)];
    }
  }

  /** The blocks of `tokens` that are full and end in a known token. */
  function Complete(tokens: seq<TokenId>, size: nat): nat
    requires size > 0
  {
    |Known(tokens)| / size
  }

  lemma CompleteIs(tokens: seq<TokenId>, size: nat, k: nat)
    requires size > 0 && Suffixed(tokens)
    ensures k < Complete(tokens, size) <==>
      (k + 1) * size <= |tokens| && tokens[(k + 1) * size - 1] != PLACEHOLDER_TOKEN
  {
    FullChunk(|Known(tokens)|, size, k);
    KnownMeaning(tokens);
    KnownIsFirst(tokens);
    var p := (k + 1) * size;
    if p <= |Known(tokens)| {
      assert tokens[p - 1] == Known(tokens)[p - 1] && Known(tokens)[p - 1] in Known(tokens);
    }
  }

  /** A block of a table has a hash exactly if it is complete. */
  lemma CompleteHashed(s: State, objs: seq<Obj>, tokens: seq<TokenId>, k: nat)
    requires CollisionFree(s.cfg.mix) && Inv(s) && Tabled(s, objs, tokens) && k < |objs|
    ensures s.cfg.blockSize > 0
    ensures HashOf(s.cfg, s.blocks[objs[k]]) != INVALID_HASH_VALUE <==> k < Complete(tokens, s.cfg.blockSize)
  {
    hide InvHeld, Complete, CollisionFree;
    var bs, b := s.cfg.blockSize, s.blocks[objs[k]];
    assert bs > 0 by { SizeIsPositive(s); }
    CompleteIs(tokens, bs, k);
    assert SlotOk(s, objs, tokens, k);
    if k < Complete(tokens, bs) {
      FullBlockReady(s, objs, tokens, k);
      ReadyHashed(s.cfg, b);
    } else {
      ChunkSize(tokens, bs, k);
      if (k + 1) * bs > |tokens| { PartialChunk(tokens, bs, k); } else { ChunkAt(tokens, bs, k, bs - 1); }
    }
  }

  lemma SizeIsPositive(s: State)
    requires Inv(s)
    ensures s.cfg.blockSize > 0
  {
  }

  lemma ReadyHashed(cfg: Config, b: Block)
    requires CollisionFree(cfg.mix) && Ready(cfg.blockSize, ChainOf(b))
    ensures HashOf(cfg, b) != INVALID_HASH_VALUE
  {
    ReadyHashNonZero(cfg, ChainOf(b));
  }

  /** Once all that was put in is marked, the complete blocks of a live table are found, on the ids they are on. */
  lemma TableFound(s: State, objs: seq<Obj>, tokens: seq<TokenId>, hashes: seq<HashValue>)
    requires CollisionFree(s.cfg.mix) && Inv(s) && Tabled(s, objs, tokens) && s.touched == {}
    requires |hashes| == |objs| && forall k :: 0 <= k < |objs| ==> hashes[k] == HashOf(s.cfg, s.blocks[objs[k]])
    ensures s.cfg.blockSize > 0 && |FoundIds(s, hashes)| == Min(Complete(tokens, s.cfg.blockSize), |objs|)
    ensures forall k :: 0 <= k < |FoundIds(s, hashes)| ==> FoundIds(s, hashes)[k] == s.blocks[objs[k]].id
  {
    hide InvHeld, CollisionFree, Complete, SlotOk, FoundIds, HashOf, Findable;
    var ids := FoundIds(s, hashes);
    SizeIsPositive(s);
    UntouchedFinds(s);
    forall k | 0 <= k < |objs|
      ensures Findable(s, hashes[k]) <==> k < Complete(tokens, s.cfg.blockSize)
      ensures Findable(s, hashes[k]) ==> hashes[k] in s.cached && s.cached[hashes[k]] == s.blocks[objs[k]].id
    {
      CompleteHashed(s, objs, tokens, k);
      HashedCached(s, objs[k]);
    }
    var n := Complete(tokens, s.cfg.blockSize);
    if n < |objs| { assert !Findable(s, hashes[n]); }
  }

  /** Freed, they are found as before. */
  lemma FreedTableFound(s: State, objs: seq<Obj>, tokens: seq<TokenId>, hashes: seq<HashValue>)
    requires CollisionFree(s.cfg.mix) && Inv(s) && Tabled(s, objs, tokens) && s.touched == {}
    requires |hashes| == |objs| && forall k :: 0 <= k < |objs| ==> hashes[k] == HashOf(s.cfg, s.blocks[objs[k]])
    requires LegalRun(s, FreeOps(objs)) && Run(s, FreeOps(objs)).Ok?
    ensures FoundIds(s, hashes) <= FoundIds(Run(s, FreeOps(objs)).value, hashes)
    ensures s.cfg.blockSize > 0 && |FoundIds(s, hashes)| == Min(Complete(tokens, s.cfg.blockSize), |objs|)
  {
    hide InvHeld, CollisionFree, Tabled, FoundIds, Complete, HashOf;
    TableFound(s, objs, tokens, hashes);
    forall id ensures SparesId(s, FreeOps(objs), id) { FreeingSpares(s, FreeOps(objs), id); }
    FoundAgain(s, FreeOps(objs), hashes);
  }

  lemma {:induction false} FreeingSpares(s: State, ops: seq<Op>, id: BlockId)
    requires forall k :: 0 <= k < |ops| ==> ops[k].OpFree?
    ensures SparesId(s, ops, id)
    decreases |ops|
  {
    if ops != [] && Apply(s, ops[0]).Ok? { FreeingSpares(Apply(s, ops[0]).value, ops[1..], id); }
  }

  lemma HashedCached(s: State, o: Obj)
    requires Inv(s) && o in s.blocks
    ensures !Findable(s, INVALID_HASH_VALUE)
    ensures
      var h := HashOf(s.cfg, s.blocks[o]);
      h != INVALID_HASH_VALUE ==> h in s.cached && s.cached[h] == s.blocks[o].id
  {
    BlockFact(s, None, o);
  }

  /** The count over a table's block objects. When nothing is left to mark these are the table's complete blocks. */
  method GetCachedBlocks(t: BlockTable) returns (ids: seq<BlockId>)
    requires t.Valid()
    ensures |ids| <= |t.objs|
    ensures forall k :: 0 <= k < |ids| ==> Findable(t.alloc.Abs(), HashOf(t.alloc.cfg, t.objs[k].Value()))
    ensures |ids| < |t.objs| ==> !Findable(t.alloc.Abs(), HashOf(t.alloc.cfg, t.objs[|ids|].Value()))
    ensures t.alloc.cfg.blockSize > 0
    ensures t.alloc.touched == {} ==> ids == t.ids[..Min(Complete(t.tokens, t.alloc.cfg.blockSize), |t.objs|)]
  {
    hide *;
    var hashes := TableHashes(t);
    ids := t.alloc.FindCachedBlocksPrefix(hashes);
    t.Sizes();
    if t.alloc.touched == {} { FoundInTable(t, hashes); }
  }

  lemma FoundInTable(t: BlockTable, hashes: seq<HashValue>)
    requires t.Valid() && t.alloc.touched == {} && |hashes| == |t.objs|
    requires forall k :: 0 <= k < |hashes| ==> hashes[k] == HashOf(t.alloc.cfg, t.objs[k].Value())
    ensures t.alloc.cfg.blockSize > 0 && |t.ids| == |t.objs|
    ensures FoundIds(t.alloc.Abs(), hashes) == t.ids[..Min(Complete(t.tokens, t.alloc.cfg.blockSize), |t.objs|)]
  {
    hide Inv, Complete, FoundIds, HashOf, Sequential;
    var s, objs := t.alloc.Abs(), Addresses(t.objs);
    forall k | 0 <= k < |t.objs| ensures objs[k] in s.blocks && s.blocks[objs[k]] == t.objs[k].Value() {
      assert t.alloc.Has(t.objs[k]);
    }
    TableFound(s, objs, t.tokens, hashes);
  }

  lemma ObjectHash(t: BlockTable, extra: HashValue, k: nat)
    requires t.Valid() && PLACEHOLDER_TOKEN !in t.tokens && k < |t.objs|
    requires forall j :: 0 <= j < |t.objs| ==> t.objs[j].extra == extra
    ensures (k + 1) * t.alloc.cfg.blockSize <= |t.tokens| ==>
      HashOf(t.alloc.cfg, t.objs[k].Value()) == ChainHash(t.alloc.cfg.mix,
        SeqChain(t.tokens, t.alloc.cfg.blockSize, extra, k + 1))
    ensures (k + 1) * t.alloc.cfg.blockSize > |t.tokens| ==>
      HashOf(t.alloc.cfg, t.objs[k].Value()) == INVALID_HASH_VALUE
  {
    var s, objs := t.alloc.Abs(), Addresses(t.objs);
    forall j | 0 <= j < |t.objs| ensures objs[j] in s.blocks && s.blocks[objs[j]] == t.objs[j].Value() {
      assert t.alloc.Has(t.objs[j]);
    }
    HashesAgree(s, objs, t.tokens, extra, k);
  }

  lemma ObjectCached(t: BlockTable, extra: HashValue, k: nat)
    requires t.Valid() && PLACEHOLDER_TOKEN !in t.tokens && k < |t.objs|
    requires forall j :: 0 <= j < |t.objs| ==> t.objs[j].extra == extra
    ensures Findable(t.alloc.Abs(), HashOf(t.alloc.cfg, t.objs[k].Value())) <==>
      (k + 1) * t.alloc.cfg.blockSize <= |t.tokens| && ChunkCached(t.alloc, t.tokens, extra, k)
  {
    hide BlockTable.Holds; hide PrefixCacheBlockAllocator.Valid; hide SeqChain; hide ChainHash; hide HashOf;
    ObjectHash(t, extra, k);
    assert t.alloc.Valid() by { HeldNow(t); }
    CachedNotZero(t.alloc, INVALID_HASH_VALUE);
  }

  lemma SameCount(t: BlockTable, extra: HashValue, n: nat, m: nat)
    requires t.Valid() && PLACEHOLDER_TOKEN !in t.tokens && m <= |t.objs| && CachedChunks(t.alloc, t.tokens, extra, n)
    requires forall j :: 0 <= j < |t.objs| ==> t.objs[j].extra == extra
    requires forall k :: 0 <= k < m ==> Findable(t.alloc.Abs(), HashOf(t.alloc.cfg, t.objs[k].Value()))
    requires m < |t.objs| ==> !Findable(t.alloc.Abs(), HashOf(t.alloc.cfg, t.objs[m].Value()))
    ensures n == m
  {
    hide BlockTable.Holds; hide Findable; hide HashOf; hide ChunkCached;
    var bs := t.alloc.cfg.blockSize;
    t.Sizes();
    if n < m { ObjectCached(t, extra, n); }
    if m < n {
      Scaled(m + 1, n, bs);
      FewerBlocks(m, n, |t.tokens|, |t.objs|, bs);
      ObjectCached(t, extra, m);
    }
  }

  lemma FewerBlocks(m: nat, n: nat, length: nat, blocks: nat, size: nat)
    requires size > 0 && m < n && n * size <= length <= blocks * size
    ensures m < blocks
  {
    assert (blocks + 1) * size == blocks * size + size;
    if blocks <= m { Scaled(blocks + 1, n, size); }
  }

  /** Without placeholders the complete blocks are the full ones. */
  lemma AllKnown(t: BlockTable)
    requires t.Valid() && PLACEHOLDER_TOKEN !in t.tokens
    ensures t.alloc.cfg.blockSize > 0 && |t.ids| == |t.objs|
    ensures Min(Complete(t.tokens, t.alloc.cfg.blockSize), |t.objs|) == |t.tokens| / t.alloc.cfg.blockSize
    ensures |t.tokens| / t.alloc.cfg.blockSize <= |t.ids|
  {
    t.Sizes();
    var size := t.alloc.cfg.blockSize;
    BlockBounds(|t.tokens|, size);
    if |t.objs| < |t.tokens| / size { Scaled(|t.objs| + 1, |t.tokens| / size, size); }
  }

  /** On one rank, the tracker's count of cached tokens is the block size times the cached blocks that the
      sequence's own table finds: all its full blocks, when nothing is left to mark. */
  method CountsAgree(t: BlockTable, combine: Combine, tokens: seq<TokenId>, extra: HashValue)
    returns (num: nat, ids: seq<BlockId>)
    requires t.Valid() && t.tokens == tokens && PLACEHOLDER_TOKEN !in tokens && t.alloc.cfg.mix == Mix(combine)
    requires forall j :: 0 <= j < |t.objs| ==> t.objs[j].extra == extra
    ensures num == t.alloc.cfg.blockSize * |ids|
    ensures t.alloc.cfg.blockSize > 0
    ensures t.alloc.touched == {} ==> |ids| == |tokens| / t.alloc.cfg.blockSize && ids == t.ids[..|ids|]
  {
    hide *;
    HeldNow(t);
    AllKnown(t);
    ids := GetCachedBlocks(t);
    num := GetCachedTokensNum(t.alloc, combine, tokens, extra);
    ghost var n: nat :| CachedChunks(t.alloc, tokens, extra, n) && num == n * t.alloc.cfg.blockSize;
    SameCount(t, extra, n, |ids|);
  }

  // ---------- the hash assumption can be met ----------

  function Natural(i: int): nat {
    if i >= 0 then 2 * i else -2 * i - 1
  }

  /** A pairing of naturals: `2^a` times an odd number. */
  function Pair(a: nat, b: nat): nat {
    if a == 0 then 2 * b + 1 else 2 * Pair(a - 1, b)
  }

  lemma {:induction false} PairInjective(a: nat, b: nat, a': nat, b': nat)
    requires Pair(a, b) == Pair(a', b')
    ensures a == a' && b == b'
  {
    if a > 0 && a' > 0 { PairInjective(a - 1, b, a' - 1, b'); }
  }

  lemma {:induction false} PairPositive(a: nat, b: nat)
    ensures Pair(a, b) > 0
  {
    if a > 0 { PairPositive(a - 1, b); }
  }

  function Pairing(): Combine {
    (seed: HashValue, v: int) => Pair(Natural(seed), Natural(v))
  }

  lemma {:induction false} PairingInjective(v: seq<int>, w: seq<int>)
    requires Fold(Pairing(), 0, v) == Fold(Pairing(), 0, w)
    ensures v == w
  {
    var p := Pairing();
    if v != [] { PairPositive(Natural(Fold(p, 0, v[..|v| - 1])), Natural(v[|v| - 1])); }
    if w != [] { PairPositive(Natural(Fold(p, 0, w[..|w| - 1])), Natural(w[|w| - 1])); }
    if v != [] && w != [] {
      var a, b := Fold(p, 0, v[..|v| - 1]), Fold(p, 0, w[..|w| - 1]);
      PairInjective(Natural(a), Natural(v[|v| - 1]), Natural(b), Natural(w[|w| - 1]));
      PairingInjective(v[..|v| - 1], w[..|w| - 1]);
      assert v == v[..|v| - 1] + [v[|v| - 1]] && w == w[..|w| - 1] + [w[|w| - 1]];
    }
  }

  lemma IngredientsInjective(p: HashValue, t: seq<TokenId>, e: HashValue, p': HashValue, t': seq<TokenId>,
                             e': HashValue)
    requires |t| == |t'| && Ingredients(p, t, e) == Ingredients(p', t', e')
    ensures p == p' && t == t' && e == e'
  {
    var v, w := Ingredients(p, t, e), Ingredients(p', t', e');
    var n := |v| - |t| - 1;
    assert |v| == |w|;
    assert v[|v| - 1] == e && w[|w| - 1] == e';
    assert t == v[n..n + |t|] && t' == w[n..n + |t|];
    if n > 0 { assert v[0] == p && w[0] == p'; }
  }

  /** Some way of combining values has no collisions at all, so the theorems are not about nothing. */
  lemma CollisionFreeExists()
    ensures CollisionFree(Mix(Pairing()))
  {
    var mix := Mix(Pairing());
    forall p, t, e ensures mix(p, t, e) != INVALID_HASH_VALUE {
      var v := Ingredients(p, t, e);
      PairPositive(Natural(Fold(Pairing(), 0, v[..|v| - 1])), Natural(v[|v| - 1]));
    }
    forall p, t, e, p', t', e' | |t| == |t'| && mix(p, t, e) == mix(p', t', e') ensures p == p' && t == t' && e == e' {
      PairingInjective(Ingredients(p, t, e), Ingredients(p', t', e'));
      IngredientsInjective(p, t, e, p', t', e');
    }
  }
}
