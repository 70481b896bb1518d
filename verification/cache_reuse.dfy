/** What a prompt saves: its blocks that are cached take no id, and stay where they are cached. */
module CacheReuse {
  import opened Basics
  import opened PrefixChain
  import opened LruEvictor
  import opened PrefixCacheSpec
  import opened PrefixCacheSteps
  import opened PrefixCacheOperations
  import opened BlockTableSpec

  // ---------- one block ----------

  /** The content of hash `g` is in use in both states or in neither, and then on the same id. */
  ghost predicate SameUse(s: State, t: State, g: HashValue) {
    (InUse(t, g) <==> InUse(s, g)) && (InUse(s, g) ==> t.cached[g] == s.cached[g])
  }

  /** No entry is lost or moved, none but `h` is new, and no report changes. */
  ghost predicate EntriesStay(s: State, t: State, hs: seq<HashValue>) {
    && (forall g :: g in s.cached ==>
          g in t.cached && t.cached[g] == s.cached[g] && (Reported(t, t.cached[g]) <==> Reported(s, s.cached[g])))
    && (forall g :: g in t.cached ==> g in s.cached || g in hs)
  }

  /** How placing the object `o` under the hash `h` uses the cache: a hit takes no free id, changes no entry and no
      report, and lands on the cached id, which alone leaves the evictor; a miss with a free id takes that. Neither
      changes what else is in use. */
  ghost predicate Reuses(s: State, t: State, o: Obj, h: HashValue) {
    && o in t.blocks && HashOf(t.cfg, t.blocks[o]) == h
    && (forall g :: g != h ==> SameUse(s, t, g))
    && (h in s.cached ==>
          && t.blocks[o].id == s.cached[h] && t.free == s.free && t.evictor == s.evictor - {s.cached[h]}
          && t.cached == s.cached && t.touched == s.touched && t.info == Revived(s, s.cached[h])
          && EntriesStay(s, t, [h]))
    && (h !in s.cached && s.free != [] ==>
          t.blocks[o].id == s.free[0] && t.free == s.free[1..] && t.evictor == s.evictor && EntriesStay(s, t, [h]))
  }

  /** An id that comes back from the evictor is computed, and was not accessed yet; any other stays as it is. */
  ghost function Revived(s: State, id: BlockId): map<BlockId, BlockInfo> {
    if id in s.evictor then s.info[id := BlockInfo(true, true, DEFAULT_LAST_ACCESSED_TIME)] else s.info
  }

  lemma PlacementReuses(s: State, o: Obj, before: Chain, ts: seq<TokenId>, extra: HashValue, pick: BlockId)
    requires CollisionFree(s.cfg.mix) && Inv(s) && MayPlace(s, o, before, ts, extra)
    requires AllocateImmutableBlock(s, o, before, ts, extra, pick).Ok?
    ensures
      Reuses(s, AllocateImmutableBlock(s, o, before, ts, extra, pick).value, o,
             HashOf(s.cfg, Block(before, ts, extra, 0)))
  {
    hide InvHeld, CollisionFree, AllocateMutableBlock, IncrRefCountCacheBlock, Reuses;
    var h := HashOf(s.cfg, Block(before, ts, extra, 0));
    if h in s.cached {
      var b := Block(before, ts, extra, s.cached[h]);
      HitJoins(s, o, b);
      JoinReuses(s, o, b);
    } else {
      MissReuses(s, o, before, ts, extra, pick);
    }
  }

  lemma JoinReuses(s: State, o: Obj, b: Block)
    requires Inv(s) && HashOf(s.cfg, b) in s.cached && b.id == s.cached[HashOf(s.cfg, b)] && b.id in s.refs
    ensures Reuses(s, Joined(s, o, b), o, HashOf(s.cfg, b))
  {
    hide InvHeld, PrefixHash;
    var t, h := Joined(s, o, b), HashOf(s.cfg, b);
    CachedId(s, h);
    UsedOrWaiting(s, h);
    assert s.refs[b.id] == 0 || s.evictor - {b.id} == s.evictor;
    forall g | g in s.cached
      ensures Reported(t, s.cached[g]) <==> Reported(s, s.cached[g])
      ensures g != h ==> s.cached[g] != b.id
    {
      CachedId(s, g);
      UsedOrWaiting(s, g);
      if s.cached[g] == b.id { OneHash(s, g, h); }
    }
  }

  lemma UsedOrWaiting(s: State, g: HashValue)
    requires Inv(s) && g in s.cached
    ensures s.cached[g] in s.refs && (s.refs[s.cached[g]] > 0 <==> s.cached[g] !in s.evictor)
  {
    EntryFact(s, None, g);
  }

  lemma OneHash(s: State, g: HashValue, h: HashValue)
    requires Inv(s) && g in s.cached && h in s.cached && s.cached[g] == s.cached[h]
    ensures g == h
  {
    EntryFact(s, None, g);
    EntryFact(s, None, h);
  }

  lemma MissReuses(s: State, o: Obj, before: Chain, ts: seq<TokenId>, extra: HashValue, pick: BlockId)
    requires CollisionFree(s.cfg.mix) && Inv(s) && MayPlace(s, o, before, ts, extra)
    requires HashOf(s.cfg, Block(before, ts, extra, 0)) !in s.cached
    requires AllocateMutableBlock(s, o, before, ts, extra, pick).Ok?
    ensures
      Reuses(s, AllocateMutableBlock(s, o, before, ts, extra, pick).value, o,
             HashOf(s.cfg, Block(before, ts, extra, 0)))
  {
    hide InvHeld, CollisionFree, Reuses, Settle;
    AllocateMutableBlockCorrect(s, o, before, ts, extra, pick);
    AllocateBlockIdCorrect(s, pick);
    var (id, t) := AllocateBlockId(s, pick).value;
    var b := Block(before, ts, extra, id);
    AtHand(t, id);
    FirstAppend(t, o, b, pick);
    if s.free != [] {
      TakeFree(s, pick);
      SettleBinds(t, o, b, 0);
      FreeTakenReuses(s, o, b);
    } else {
      EvictedInRange(s, id);
      assert t == TakenEvicted(s, id);
      SettleBinds(t, o, b, 0);
      EvictedTakenReuses(s, o, b);
    }
  }

  lemma AtHand(t: State, id: BlockId)
    requires InvHeld(t, Some(id))
    ensures id in t.refs && t.refs[id] == 1 && t.cfg.blockSize > 0
  {
  }

  lemma EvictedInRange(s: State, id: BlockId)
    requires Inv(s) && id in s.evictor
    ensures id in s.refs && AllocateBlockId(s.(free := []), id) == Ok((id, TakenEvicted(s.(free := []), id)))
  {
    assert CandidateOk(s, id);
  }

  lemma FreeTakenReuses(s: State, o: Obj, b: Block)
    requires Inv(s) && s.free != [] && b.id == s.free[0] && b.id in s.refs && HashOf(s.cfg, b) !in s.cached
    ensures Reuses(s, Bound(TakenFree(s), o, b), o, HashOf(s.cfg, b))
  {
    hide InvHeld, PrefixHash, EntriesStay, SameUse;
    FreeTakenStays(s, o, b);
    var t := Bound(TakenFree(s), o, b);
    forall g | g != HashOf(s.cfg, b) ensures SameUse(s, t, g) { FreeTakenUse(s, o, b, g); }
  }

  lemma FreeTakenUse(s: State, o: Obj, b: Block, g: HashValue)
    requires s.free != [] && s.free[0] in s.refs && g != HashOf(s.cfg, b)
    ensures SameUse(s, Bound(TakenFree(s), o, b), g)
  {
    hide PrefixHash;
  }

  lemma FreeTakenStays(s: State, o: Obj, b: Block)
    requires Inv(s) && s.free != [] && s.free[0] in s.refs && HashOf(s.cfg, b) !in s.cached
    ensures EntriesStay(s, Bound(TakenFree(s), o, b), [HashOf(s.cfg, b)])
  {
    hide InvHeld, PrefixHash;
    var t := Bound(TakenFree(s), o, b);
    forall g | g in s.cached
      ensures s.cached[g] != s.free[0] && (Reported(t, s.cached[g]) <==> Reported(s, s.cached[g]))
    {
      NotFree(s, g);
    }
  }

  lemma NotFree(s: State, g: HashValue)
    requires Inv(s) && g in s.cached
    ensures s.cached[g] !in s.free
  {
    EntryFact(s, None, g);
  }

  lemma EvictedTakenReuses(s: State, o: Obj, b: Block)
    requires Inv(s) && s.free == [] && b.id in s.evictor && b.id in s.refs && HashOf(s.cfg, b) !in s.cached
    ensures Reuses(s, Bound(TakenEvicted(s, b.id), o, b), o, HashOf(s.cfg, b))
  {
    hide InvHeld, PrefixHash;
    var key := s.evictor[b.id].prefixHash;
    KeyIs(s, b.id);
    forall g | g in s.cached && g != key ensures s.cached[g] != b.id { if s.cached[g] == b.id { OneHash(s, g, key); } }
  }

  lemma KeyIs(s: State, id: BlockId)
    requires Inv(s) && id in s.evictor
    ensures s.evictor[id].prefixHash in s.cached && s.cached[s.evictor[id].prefixHash] == id
  {
    assert CandidateOk(s, id);
  }

  /** The object `o` was placed as `b`, using the cache as it should. */
  ghost predicate PlacedAs(s: State, t: State, o: Obj, b: Block) {
    PlaceOutcome(s, o, b, false, Ok(t)) && Reuses(s, t, o, HashOf(s.cfg, b))
  }

  /** Placing `b` may fail: it is not cached, and nothing is left. */
  ghost predicate Refused(s: State, b: Block) {
    HashOf(s.cfg, b) !in s.cached && Available(s) == 0
  }

  // ---------- the blocks of a sequence ----------

  /** How many of the hashes name no content in use: their blocks take an id each. */
  ghost function Uncovered(s: State, hs: seq<HashValue>): nat {
    if hs == [] then 0 else Uncovered(s, hs[..|hs| - 1]) + (if InUse(s, hs[|hs| - 1]) then 0 else 1)
  }

  /** How many of the hashes are not cached. */
  ghost function Missing(s: State, hs: seq<HashValue>): nat {
    if hs == [] then 0 else Missing(s, hs[..|hs| - 1]) + (if hs[|hs| - 1] in s.cached then 0 else 1)
  }

  /** Blocks of one chain have different hashes, if any. */
  predicate HashesDiffer(hs: seq<HashValue>) {
    forall j, k :: 0 <= j < k < |hs| && hs[j] == hs[k] ==> hs[j] == INVALID_HASH_VALUE
  }

  /** Since `s0` objects were placed under the hashes `hs`. Each has taken one of the ids left, unless its content was
      in use. Who was in use is so on the same id. As long as the free ids last for the blocks that were not cached,
      no entry was lost, and every cached block ends on the id it was cached under. */
  ghost predicate Reused(s0: State, s: State, objs: seq<Obj>, hs: seq<HashValue>) {
    && |objs| == |hs| && s.cfg == s0.cfg
    && Available(s) == Available(s0) - Uncovered(s0, hs)
    && (forall g :: g !in hs ==> SameUse(s0, s, g))
    && (Missing(s0, hs) <= |s0.free| ==> s.free == s0.free[Missing(s0, hs)..] && EntriesStay(s0, s, hs))
    && (forall k :: 0 <= k < |objs| ==> OnCachedId(s0, s, objs, hs, k))
  }

  ghost predicate OnCachedId(s0: State, s: State, objs: seq<Obj>, hs: seq<HashValue>, k: nat)
    requires k < |objs| == |hs|
  {
    && objs[k] in s.blocks && HashOf(s.cfg, s.blocks[objs[k]]) == hs[k]
    && (hs[k] in s0.cached && (InUse(s0, hs[k]) || Missing(s0, hs[..k]) <= |s0.free|) ==>
          s.blocks[objs[k]].id == s0.cached[hs[k]])
  }

  lemma ReusedNone(s: State)
    ensures Reused(s, s, [], [])
  {
  }

  lemma UncoveredNext(s: State, hs: seq<HashValue>, h: HashValue)
    ensures Uncovered(s, hs + [h]) == Uncovered(s, hs) + (if InUse(s, h) then 0 else 1)
    ensures Missing(s, hs + [h]) == Missing(s, hs) + (if h in s.cached then 0 else 1)
  {
    assert (hs + [h])[..|hs|] == hs;
  }

  lemma {:induction false} UncoveredGrows(s: State, hs: seq<HashValue>, k: nat)
    requires k <= |hs|
    ensures Uncovered(s, hs[..k]) <= Uncovered(s, hs)
    decreases |hs|
  {
    if k < |hs| {
      UncoveredGrows(s, hs[..|hs| - 1], k);
      assert hs[..|hs| - 1][..k] == hs[..k];
    } else {
      assert hs[..k] == hs;
    }
  }

  /** A block for which nothing is left is one too many. */
  lemma ReusedFails(s0: State, s: State, objs: seq<Obj>, hs: seq<HashValue>, k: nat)
    requires Inv(s0) && Inv(s) && k < |hs| && HashesDiffer(hs) && Reused(s0, s, objs, hs[..k])
    requires hs[k] !in s.cached && Available(s) == 0
    ensures Available(s0) < Uncovered(s0, hs)
  {
    hide InvHeld, Available, OnCachedId, Uncovered, EntriesStay;
    UncoveredNext(s0, hs[..k], hs[k]);
    assert hs[..k + 1] == hs[..k] + [hs[k]];
    UncoveredGrows(s0, hs, k + 1);
    NotUsed(s0, s, hs, k);
  }

  lemma NotUsed(s0: State, s: State, hs: seq<HashValue>, k: nat)
    requires Inv(s0) && k < |hs| && HashesDiffer(hs) && hs[k] !in s.cached
    requires forall g :: g !in hs[..k] ==> SameUse(s0, s, g)
    ensures !InUse(s0, hs[k])
  {
    hide InvHeld;
    if hs[k] in hs[..k] { ZeroAbsent(s0); } else { assert SameUse(s0, s, hs[k]); }
  }

  lemma ZeroAbsent(s: State)
    requires Inv(s)
    ensures INVALID_HASH_VALUE !in s.cached
  {
  }

  lemma ReusedNext(s0: State, s: State, objs: seq<Obj>, hs: seq<HashValue>, t: State, o: Obj, b: Block)
    requires Inv(s0) && Inv(s) && Reused(s0, s, objs, hs) && o !in s.blocks && HashesDiffer(hs + [HashOf(s.cfg, b)])
    requires PlacedAs(s, t, o, b)
    ensures Reused(s0, t, objs + [o], hs + [HashOf(s.cfg, b)])
  {
    hide InvHeld, PrefixHash, EntriesStay, Uncovered, Missing, Available, SameUse, HashesDiffer, InUse;
    var h := HashOf(s.cfg, b);
    var more, hs' := objs + [o], hs + [h];
    UncoveredNext(s0, hs, h);
    UseKnown(s0, s, hs, h);
    forall g | g !in hs' ensures SameUse(s0, t, g) {
      assert h == hs'[|hs|];
      SameUseThen(s0, s, t, g);
    }
    if Missing(s0, hs') <= |s0.free| { StayNext(s0, s, objs, hs, t, o, h); }
    forall k | 0 <= k < |more| ensures OnCachedId(s0, t, more, hs', k) {
      if k < |hs| {
        assert OnCachedId(s0, s, objs, hs, k) && hs'[..k] == hs[..k];
      } else {
        assert hs'[..k] == hs;
        if h in s0.cached && (InUse(s0, h) || Missing(s0, hs) <= |s0.free|) { LandsOnCached(s0, s, objs, hs, t, o, h); }
      }
    }
  }

  lemma SameUseThen(s: State, t: State, u: State, g: HashValue)
    requires SameUse(s, t, g) && SameUse(t, u, g)
    ensures SameUse(s, u, g)
  {
  }

  lemma UseKnown(s0: State, s: State, hs: seq<HashValue>, h: HashValue)
    requires Inv(s0) && Inv(s) && HashesDiffer(hs + [h]) && forall g :: g !in hs ==> SameUse(s0, s, g)
    ensures SameUse(s0, s, h) && (InUse(s, h) <==> InUse(s0, h))
  {
    hide InvHeld;
    ZeroAbsent(s0);
    ZeroAbsent(s);
    if h in hs {
      var i :| 0 <= i < |hs| && hs[i] == h;
      assert (hs + [h])[i] == h && (hs + [h])[|hs|] == h;
    }
  }

  /** While the free ids last, a block is cached now exactly if it was at the start. */
  lemma CachedSince(s0: State, s: State, hs: seq<HashValue>, h: HashValue)
    requires Inv(s0) && Inv(s) && HashesDiffer(hs + [h]) && EntriesStay(s0, s, hs)
    ensures h in s.cached <==> h in s0.cached
  {
    hide InvHeld;
    ZeroAbsent(s0);
    ZeroAbsent(s);
    if h in hs {
      var i :| 0 <= i < |hs| && hs[i] == h;
      assert (hs + [h])[i] == h && (hs + [h])[|hs|] == h;
    }
  }

  lemma StayNext(s0: State, s: State, objs: seq<Obj>, hs: seq<HashValue>, t: State, o: Obj, h: HashValue)
    requires Inv(s0) && Inv(s) && Reused(s0, s, objs, hs) && HashesDiffer(hs + [h]) && Reuses(s, t, o, h)
    requires Missing(s0, hs + [h]) <= |s0.free|
    ensures t.free == s0.free[Missing(s0, hs + [h])..] && EntriesStay(s0, t, hs + [h])
  {
    hide InvHeld, PrefixHash, Uncovered, Missing, Available, SameUse, HashesDiffer, Reported, OnCachedId;
    UncoveredNext(s0, hs, h);
    CachedSince(s0, s, hs, h);
    assert (hs + [h])[|hs|] == h;
    assert forall g :: g in hs ==> g in hs + [h];
  }

  lemma LandsOnCached(s0: State, s: State, objs: seq<Obj>, hs: seq<HashValue>, t: State, o: Obj, h: HashValue)
    requires Inv(s0) && Inv(s) && Reused(s0, s, objs, hs) && HashesDiffer(hs + [h]) && Reuses(s, t, o, h)
    requires h in s0.cached && (InUse(s0, h) || Missing(s0, hs) <= |s0.free|)
    ensures t.blocks[o].id == s0.cached[h]
  {
    hide InvHeld, PrefixHash, Uncovered, Missing, Available, HashesDiffer, Reported, OnCachedId;
    UseKnown(s0, s, hs, h);
    if !InUse(s0, h) { CachedSince(s0, s, hs, h); }
  }

  // ---------- the hashes of a sequence ----------

  /** The hashes of the first `n` blocks of a sequence; 0 for a block that may not be shared. */
  function SeqHashes(mix: Mixer, size: nat, tokens: seq<TokenId>, extra: HashValue, n: nat): (hs: seq<HashValue>)
    ensures |hs| == n
  {
    seq(n, k requires 0 <= k < n => PrefixHash(mix, size, SeqChain(tokens, size, extra, k + 1)))
  }

  lemma {:induction false} SeqSpan(tokens: seq<TokenId>, blockSize: nat, extra: HashValue, k: nat)
    ensures Span(1, SeqChain(tokens, blockSize, extra, k)) == k
  {
    if k > 0 { SeqSpan(tokens, blockSize, extra, k - 1); }
  }

  /** Chains of different lengths do not share a hash. */
  lemma LengthsApart(mix: Mixer, blockSize: nat, c: Chain, d: Chain)
    requires CollisionFree(mix) && Span(1, c) != Span(1, d)
    requires PrefixHash(mix, blockSize, c) == PrefixHash(mix, blockSize, d)
    ensures PrefixHash(mix, blockSize, c) == INVALID_HASH_VALUE
  {
    if PrefixHash(mix, blockSize, c) != INVALID_HASH_VALUE { ChainHashInjective(mix, blockSize, c, d); }
  }

  lemma SeqHashesApart(mix: Mixer, size: nat, tokens: seq<TokenId>, extra: HashValue, n: nat)
    requires CollisionFree(mix)
    ensures HashesDiffer(SeqHashes(mix, size, tokens, extra, n))
  {
    hide CollisionFree, SeqChain, PrefixHash, Span;
    var hs := SeqHashes(mix, size, tokens, extra, n);
    forall j, k | 0 <= j < k < n && hs[j] == hs[k] ensures hs[j] == INVALID_HASH_VALUE {
      SeqSpan(tokens, size, extra, j + 1);
      SeqSpan(tokens, size, extra, k + 1);
      LengthsApart(mix, size, SeqChain(tokens, size, extra, j + 1), SeqChain(tokens, size, extra, k + 1));
    }
  }

  lemma {:induction false} UncoveredBound(s: State, hs: seq<HashValue>)
    ensures Uncovered(s, hs) <= |hs|
  {
    if hs != [] { UncoveredBound(s, hs[..|hs| - 1]); }
  }

  /** The leading cached blocks of a sequence end where they are cached. If that is all of them, nothing else in the
      allocator has changed hands: no free id, no entry, no report. */
  lemma LeadingStay(s0: State, s: State, objs: seq<Obj>, hs: seq<HashValue>, n: nat)
    requires Reused(s0, s, objs, hs) && n <= |hs| && forall k :: 0 <= k < n ==> hs[k] in s0.cached
    ensures forall k :: 0 <= k < n ==> objs[k] in s.blocks && s.blocks[objs[k]].id == s0.cached[hs[k]]
    ensures n == |hs| ==> s.free == s0.free && EntriesStay(s0, s, hs) && s.cached == s0.cached
  {
    hide Uncovered, InUse, Reported, HashOf;
    forall k | 0 <= k <= n ensures Missing(s0, hs[..k]) == 0 { NoneMissing(s0, hs[..k]); }
    forall k | 0 <= k < n ensures objs[k] in s.blocks && s.blocks[objs[k]].id == s0.cached[hs[k]] {
      assert OnCachedId(s0, s, objs, hs, k);
    }
    assert hs[..|hs|] == hs;
    if n == |hs| {
      NoneMissing(s0, hs);
      forall g | g in s.cached ensures g in s0.cached {
        if g in hs { var k :| 0 <= k < |hs| && hs[k] == g; }
      }
      forall g | g in s0.cached ensures g in s.cached && s.cached[g] == s0.cached[g] {}
      assert s.cached == s0.cached;
    }
  }

  lemma {:induction false} NoneMissing(s: State, hs: seq<HashValue>)
    requires forall k :: 0 <= k < |hs| ==> hs[k] in s.cached
    ensures Missing(s, hs) == 0
  {
    if hs != [] { NoneMissing(s, hs[..|hs| - 1]); }
  }

  lemma DifferPrefix(hs: seq<HashValue>, k: nat)
    requires HashesDiffer(hs) && k < |hs|
    ensures HashesDiffer(hs[..k] + [hs[k]]) && hs[..k] + [hs[k]] == hs[..k + 1]
  {
  }
}
