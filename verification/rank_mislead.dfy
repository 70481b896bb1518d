/** Whom decoding over several ranks misleads: a prompt that continues otherwise may take over a decoded block. */
module RankMislead {
  import opened Basics
  import opened Arithmetic
  import opened Chunking
  import opened PrefixChain
  import opened LruEvictor
  import opened PrefixCacheSpec
  import opened PrefixCacheSteps
  import opened PrefixCacheOperations
  import opened PrefixCacheAllocator
  import opened BlockTableSpec
  import opened BlockTables
  import opened CacheReuse
  import opened RankPlacement
  import opened RankDecode
  import opened RankAppend

  lemma {:induction false} TurnAt(k: nat, n: nat, ranks: nat, j: nat) returns (i: nat)
    requires ranks > 0 && j < k
    ensures
      var turns := TurnsOf(k, n, ranks, RankOf(j, n, ranks));
      i < |turns| && turns[i] == j
  {
    hide RankOf;
    if j == k - 1 {
      i := |TurnsOf(k, n, ranks, RankOf(j, n, ranks))| - 1;
    } else {
      i := TurnAt(k - 1, n, ranks, j);
    }
  }

  /** Whoever holds the content of a hash in use holds it where it is cached. */
  lemma HeldWhereCached(s: State, o: Obj)
    requires Inv(s) && o in s.blocks && HashOf(s.cfg, s.blocks[o]) != INVALID_HASH_VALUE
    ensures
      var h := HashOf(s.cfg, s.blocks[o]);
      InUse(s, h) && h in s.cached && s.cached[h] == s.blocks[o].id
  {
    hide InvHeld;
    BlockFact(s, None, o);
    UsesOf(s, o);
    UsedOrWaiting(s, HashOf(s.cfg, s.blocks[o]));
  }

  /** Where the `i`-th block that a rank gets of a placement ends, if its content was in use there. */
  lemma LandsInUse(start: State, now: State, objs: seq<Obj>, hs: seq<HashValue>, ranks: nat, q: nat, i: nat)
    requires ranks > 0 && |objs| == |hs| && RankReused(start, now, objs, hs, ranks, q)
    requires i < |TurnsOf(|hs|, |hs|, ranks, q)| && TurnsOf(|hs|, |hs|, ranks, q)[i] < |hs|
    requires InUse(start, hs[TurnsOf(|hs|, |hs|, ranks, q)[i]])
    ensures
      var j := TurnsOf(|hs|, |hs|, ranks, q)[i];
      objs[j] in now.blocks && now.blocks[objs[j]].id == start.cached[hs[j]]
  {
    hide Inv, Available, Uncovered, Missing, EntriesStay, SameUse, HashOf, TurnsOf, OnRank;
    OnRankIs(objs, |hs|, ranks, q);
    OnRankIs(hs, |hs|, ranks, q);
    assert hs[..|objs|] == hs;
    assert OnCachedId(start, now, OnRank(objs, |hs|, ranks, q), OnRank(hs, |hs|, ranks, q), i);
  }

  /** A full block of a prompt ends on the id of whoever holds its chain on its rank. */
  lemma PromptTakes(allocs: seq<PrefixCacheBlockAllocator>, objs: seq<BlockObj>, tokens: seq<TokenId>, extra: HashValue,
                    size: nat, mix: Mixer, starts: seq<State>, j: nat, o: Obj)
    requires Placing(allocs, objs, tokens, extra, size, mix, |objs|, starts) && j < |objs|
    requires (j + 1) * size <= |tokens| && PLACEHOLDER_TOKEN !in tokens
    requires |starts| == |allocs| > 0 && RankOf(j, |objs|, |allocs|) < |allocs|
    requires o in starts[RankOf(j, |objs|, |allocs|)].blocks
    requires ChainOf(starts[RankOf(j, |objs|, |allocs|)].blocks[o]) == SeqChain(tokens, size, extra, j + 1)
    ensures objs[j].blockId == starts[RankOf(j, |objs|, |allocs|)].blocks[o].id
  {
    hide *;
    var n, ranks, q := |objs|, |allocs|, RankOf(j, |objs|, |allocs|);
    var start, hs := starts[q], SeqHashes(mix, size, tokens, extra, n);
    PlacingFacts(allocs, objs, tokens, extra, size, mix, n, starts);
    PrefillBlock(allocs, objs, tokens, extra, size, mix, starts, j);
    RankStart(start, allocs[q].Abs(), Addresses(objs), hs, ranks, q);
    LiveFacts(allocs[q]);
    SeqChainReady(tokens, size, extra, j + 1);
    FullHash(start, o, tokens, size, extra, j, mix, n);
    HeldWhereCached(start, o);
    var i := TurnAt(n, n, ranks, j);
    LandsInUse(start, allocs[q].Abs(), Addresses(objs), hs, ranks, q, i);
    AddressAt(objs, j);
    ValueIs(allocs[q], objs[j]);
  }

  lemma RankStart(start: State, now: State, objs: seq<Obj>, hs: seq<HashValue>, ranks: nat, q: nat)
    requires ranks > 0 && RankReused(start, now, objs, hs, ranks, q)
    ensures Inv(start) && now.cfg == start.cfg
  {
    hide Inv;
  }

  lemma AddressAt(objs: seq<BlockObj>, j: nat)
    requires j < |objs|
    ensures |Addresses(objs)| == |objs| && Addresses(objs)[j] == objs[j].address
  {
  }

  /** A block with the chain of a full block of a sequence has its hash. */
  lemma FullHash(s: State, o: Obj, tokens: seq<TokenId>, size: nat, extra: HashValue, j: nat, mix: Mixer, n: nat)
    requires o in s.blocks && ChainOf(s.blocks[o]) == SeqChain(tokens, size, extra, j + 1) && j < n
    requires s.cfg.mix == mix && s.cfg.blockSize == size && CollisionFree(mix)
    requires Ready(size, SeqChain(tokens, size, extra, j + 1))
    ensures HashOf(s.cfg, s.blocks[o]) == SeqHashes(mix, size, tokens, extra, n)[j] != INVALID_HASH_VALUE
  {
    hide Ready, SeqChain;
  }

  /** For every prompt of whole rounds, decoded on by `skipped` and `last`: while the block that holds `last` is held,
      the last block of the prompt `prompt + last` ends on its id, though what is there was computed behind
      `prompt + skipped`. */
  lemma PromptMisled(prompt: seq<TokenId>, skipped: seq<TokenId>, last: seq<TokenId>, size: nat, extra: HashValue,
                     rounds: nat, allocs: seq<PrefixCacheBlockAllocator>, objs: seq<BlockObj>, mix: Mixer,
                     starts: seq<State>, o: Obj)
    requires size > 0 && |allocs| > 0 && rounds > 0 && |prompt| == rounds * |allocs| * size && prompt != []
    requires |skipped| == (|allocs| - 1) * size && |last| == size && PLACEHOLDER_TOKEN !in prompt + last
    requires |objs| == CeilDiv(|prompt + last|, size) && |starts| == |allocs|
    requires Placing(allocs, objs, prompt + last, extra, size, mix, |objs|, starts)
    requires o in starts[|allocs| - 1].blocks
    requires ChainOf(starts[|allocs| - 1].blocks[o])
          == EndOf(PutAll(Prefilled(prompt, size, extra, |allocs|), size, skipped + last, extra).rows[|allocs| - 1])
    ensures objs != [] && objs[|objs| - 1].blockId == starts[|allocs| - 1].blocks[o].id
  {
    hide *;
    var n, ranks := rounds * |allocs|, |allocs|;
    DecodedLikePrompt(prompt, skipped, last, size, extra, ranks, rounds);
    EndIs(Prefilled(prompt, size, extra, ranks).rows[ranks - 1], SeqChain(prompt + last, size, extra, n + 1));
    OneBlockMore(n, size);
    PromptTakes(allocs, objs, prompt + last, extra, size, mix, starts, n, o);
  }

  lemma OneBlockMore(n: nat, size: nat)
    ensures (n + 1) * size == n * size + size
  {
  }

  lemma EndIs(row: seq<Chain>, c: Chain)
    ensures EndOf(row + [c]) == c
  {
  }

  /** The last block of a rank is live there, with the chain the table says. */
  lemma LastHeld(t: RankTable, q: nat)
    requires t.Valid() && q < |t.allocs| == |t.rows| && t.rows[q] != []
    ensures |t.Chains().rows| == |t.allocs|
    ensures
      var b, s := t.rows[q][|t.rows[q]| - 1], t.allocs[q].Abs();
      b.address in s.blocks && ChainOf(s.blocks[b.address]) == EndOf(t.Chains().rows[q])
      && s.blocks[b.address].id == b.blockId
  {
    hide *;
    var b := t.rows[q][|t.rows[q]| - 1];
    t.Facts();
    HoldingFacts(t.allocs, t.rows, t.lists, t.numFull, t.size, t.current);
    RankFacts(t.allocs[q], t.rows[q], t.lists[q], t.numFull[q], t.size, q == t.current);
    HeldFacts(t.allocs[q], t.rows[q], t.lists[q], t.size);
    RowFacts(t.allocs[q], t.rows[q], t.lists[q], t.size);
    ValueIs(t.allocs[q], b);
    ChainIs(b);
    LastChainIs(t.rows[q]);
    ChainOfValue(b);
  }

  lemma LastChainIs(row: seq<BlockObj>)
    requires row != []
    ensures EndOf(ChainsOf(row)) == row[|row| - 1].Chain()
  {
  }

  lemma ChainOfValue(b: BlockObj)
    ensures ChainOf(b.Value()) == b.Chain()
  {
  }
}
