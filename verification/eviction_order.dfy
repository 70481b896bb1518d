/** In which order cached blocks give up their ids: a prefix is cut from its end, never from its root. */
module EvictionOrder {
  import opened Basics
  import opened PrefixChain
  import opened LruEvictor
  import opened PrefixCacheSpec
  import opened PrefixCacheSteps
  import opened PrefixCacheOperations
  import opened BlockTableSpec

  /** The entry of block `k` of a table, freed by its last holder, claims the `k + 1` blocks up to its end. */
  lemma FreedClaims(s: State, objs: seq<Obj>, tokens: seq<TokenId>, k: nat)
    requires Inv(s) && Tabled(s, objs, tokens) && k < |objs| && Alone(s, objs[k])
    requires HashOf(s.cfg, s.blocks[objs[k]]) != INVALID_HASH_VALUE
    ensures Free(s, objs[k]).Ok?
    ensures
      var t, b := Free(s, objs[k]).value, s.blocks[objs[k]];
      && b.id in s.info && b.id in t.evictor
      && t.evictor[b.id]
         == BlockMetaData(b.id, HashOf(s.cfg, b), (k + 1) * s.cfg.blockSize, s.info[b.id].lastAccessed)
  {
    hide InvHeld, Free, SlotOk;
    FreeCorrect(s, objs[k]);
    HashedKnown(s, objs[k]);
    SpanIs(s, objs, tokens, k, s.cfg.blockSize);
  }

  lemma HashedKnown(s: State, o: Obj)
    requires Inv(s) && o in s.blocks && HashOf(s.cfg, s.blocks[o]) != INVALID_HASH_VALUE
    ensures s.cfg.blockSize > 0 && Known(s.blocks[o].tokens) != []
  {
    KnownWhole(s.cfg, s.blocks[o]);
  }

  /** `c` is a proper beginning of `longer`. */
  predicate Precedes(c: Chain, longer: Chain) {
    longer.Link? && (longer.before == c || Precedes(c, longer.before))
  }

  lemma {:induction false} SpanGrows(blockSize: nat, c: Chain, longer: Chain)
    requires blockSize > 0 && Precedes(c, longer)
    ensures Span(blockSize, c) < Span(blockSize, longer)
  {
    if longer.before != c { SpanGrows(blockSize, c, longer.before); }
  }

  /** While no entry exaggerates, of two waiting blocks of one chain with the same stamp the earlier is never evicted
      first. */
  lemma PrefixOutlives(s: State, queue: multiset<BlockMetaData>, id: BlockId, later: BlockId)
    requires Inv(s) && Consistent(s.evictor, queue) && Truthful(s.evictor, queue)
    requires id in s.evictor && later in s.evictor
    requires s.evictor[id].lastAccessedTime == s.evictor[later].lastAccessedTime
    requires id in s.memory && later in s.memory && Precedes(s.memory[id], s.memory[later])
    ensures !EvictsNext(s.evictor, queue, id)
  {
    hide Consistent, Truthful, EvictsNext;
    ClaimsSpan(s, id);
    ClaimsSpan(s, later);
    SpanGrows(s.cfg.blockSize, s.memory[id], s.memory[later]);
    if EvictsNext(s.evictor, queue, id) { TruthfulIsFair(s.evictor, queue, id); }
  }

  lemma ClaimsSpan(s: State, id: BlockId)
    requires Inv(s) && id in s.evictor
    ensures s.cfg.blockSize > 0 && id in s.memory
    ensures s.evictor[id].hashedTokensNum == Span(s.cfg.blockSize, s.memory[id])
  {
    assert CandidateOk(s, id);
  }
}
