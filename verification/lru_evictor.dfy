/** The lazily cleaned LRU queue of eviction candidates. */
module LruEvictor {
  import opened Basics

  const LRU_EVICTOR_CLEANUP_THRESHOLD: nat := 50

  datatype BlockMetaData = BlockMetaData(
    blockId: BlockId, prefixHash: HashValue, hashedTokensNum: nat, lastAccessedTime: TimeStamp)

  /** Queue priority: an older access is greater; among equal times, more hashed tokens is greater. */
  predicate Less(a: BlockMetaData, b: BlockMetaData) {
    if a.lastAccessedTime != b.lastAccessedTime then a.lastAccessedTime > b.lastAccessedTime
    else a.hashedTokensNum < b.hashedTokensNum
  }

  predicate IsTop(queue: multiset<BlockMetaData>, m: BlockMetaData) {
    m in queue && forall n :: n in queue ==> !Less(m, n)
  }

  lemma TopIn(queue: multiset<BlockMetaData>, m: BlockMetaData)
    requires IsTop(queue, m)
    ensures m in queue
  {
  }

  lemma {:induction false} TopExists(queue: multiset<BlockMetaData>)
    requires |queue| > 0
    ensures exists m :: IsTop(queue, m)
    decreases |queue|
  {
    var x :| x in queue;
    var rest := queue - multiset{x};
    if |rest| == 0 {
      assert forall n :: n in queue ==> n == x || n in rest;
      assert IsTop(queue, x);
    } else {
      TopExists(rest);
      var y :| IsTop(rest, y);
      assert forall n :: n in queue ==> n == x || n in rest;
      assert IsTop(queue, if Less(y, x) then x else y);
    }
  }

  /** A queue entry that eviction would act on. */
  predicate Current(candidates: map<BlockId, BlockMetaData>, m: BlockMetaData) {
    m.blockId in candidates && candidates[m.blockId].lastAccessedTime == m.lastAccessedTime
  }

  /** `m` is the first current entry the queue gives up. */
  ghost predicate FirstCurrent(candidates: map<BlockId, BlockMetaData>, queue: multiset<BlockMetaData>,
                               m: BlockMetaData) {
    && m in queue && Current(candidates, m)
    && forall n :: n in queue && Current(candidates, n) ==> !Less(m, n)
  }

  /** `id` may be evicted next. */
  ghost predicate EvictsNext(candidates: map<BlockId, BlockMetaData>, queue: multiset<BlockMetaData>, id: BlockId) {
    exists m :: FirstCurrent(candidates, queue, m) && m.blockId == id
  }

  /** Every candidate is in the queue under its own id. */
  ghost predicate Consistent(candidates: map<BlockId, BlockMetaData>, queue: multiset<BlockMetaData>) {
    forall id :: id in candidates ==> candidates[id].blockId == id && candidates[id] in queue
  }

  /** The queue cannot run dry before the candidates do. */
  lemma QueueNotEmpty(candidates: map<BlockId, BlockMetaData>, queue: multiset<BlockMetaData>)
    requires Consistent(candidates, queue) && candidates != map[]
    ensures |queue| > 0
  {
    assert candidates.Keys != {};
    var id := AnyOf(candidates.Keys);
    assert candidates[id] in queue;
  }

  /** Popping a stale entry loses nothing current. */
  lemma PopStale(candidates: map<BlockId, BlockMetaData>, queue: multiset<BlockMetaData>, m: BlockMetaData)
    requires Consistent(candidates, queue) && !Current(candidates, m)
    ensures Consistent(candidates, queue - multiset{m})
    ensures forall n :: n in queue && Current(candidates, n) ==> n in queue - multiset{m}
  {
    forall id | id in candidates ensures candidates[id] in queue - multiset{m} {
      assert candidates[id] != m;
    }
  }

  /** Of `before`, all but stale entries are left. */
  ghost predicate OnlyStaleGone(candidates: map<BlockId, BlockMetaData>, before: multiset<BlockMetaData>,
                                left: multiset<BlockMetaData>) {
    && left <= before && |left| <= |before|
    && forall n :: n in before && Current(candidates, n) ==> left[n] == before[n]
  }

  lemma PopStaleNext(candidates: map<BlockId, BlockMetaData>, before: multiset<BlockMetaData>,
                     left: multiset<BlockMetaData>, m: BlockMetaData)
    requires Consistent(candidates, left) && OnlyStaleGone(candidates, before, left)
    requires m in left && !Current(candidates, m)
    ensures Consistent(candidates, left - multiset{m}) && OnlyStaleGone(candidates, before, left - multiset{m})
    ensures |left - multiset{m}| == |left| - 1
  {
    hide Consistent;
    PopStale(candidates, left, m);
  }

  /** What popping the first current entry leaves of `before`. */
  ghost predicate GaveUp(candidates: map<BlockId, BlockMetaData>, before: multiset<BlockMetaData>, entry: BlockMetaData,
                         left: multiset<BlockMetaData>) {
    && FirstCurrent(candidates, before, entry)
    && left <= before && |left| < |before|
    && forall n :: n in before && Current(candidates, n) ==> left[n] == before[n] - (if n == entry then 1 else 0)
  }

  lemma GaveUpNext(candidates: map<BlockId, BlockMetaData>, before: multiset<BlockMetaData>, entry: BlockMetaData,
                   left: multiset<BlockMetaData>)
    requires GaveUp(candidates, before, entry, left)
    ensures EvictsNext(candidates, before, entry.blockId)
  {
  }

  lemma PopFirst(candidates: map<BlockId, BlockMetaData>, before: multiset<BlockMetaData>,
                 left: multiset<BlockMetaData>, top: BlockMetaData)
    requires OnlyStaleGone(candidates, before, left) && IsTop(left, top) && Current(candidates, top)
    ensures GaveUp(candidates, before, top, left - multiset{top})
  {
    forall n | n in before && Current(candidates, n) ensures !Less(top, n) { assert n in left; }
  }

  lemma LeftConsistent(candidates: map<BlockId, BlockMetaData>, left: multiset<BlockMetaData>, top: BlockMetaData)
    requires Consistent(candidates, left)
    ensures Consistent(candidates - {top.blockId}, left - multiset{top})
  {
    forall id | id in candidates && id != top.blockId ensures candidates[id] in left - multiset{top} {
      assert candidates[id] != top;
    }
  }

  /** The evicted candidate was accessed no later than any other. */
  lemma EvictsOldest(candidates: map<BlockId, BlockMetaData>, queue: multiset<BlockMetaData>, m: BlockMetaData,
                     id: BlockId)
    requires Consistent(candidates, queue) && FirstCurrent(candidates, queue, m) && id in candidates
    ensures candidates[m.blockId].lastAccessedTime <= candidates[id].lastAccessedTime
  {
    assert Current(candidates, candidates[id]);
  }

  ghost predicate LongestOfOldest(candidates: map<BlockId, BlockMetaData>, id: BlockId)
    requires id in candidates
  {
    forall k :: k in candidates && candidates[k].lastAccessedTime == candidates[id].lastAccessedTime ==>
      candidates[k].hashedTokensNum <= candidates[id].hashedTokensNum
  }

  /** Among the entries of the oldest candidates, none claims more hashed tokens than `m`. */
  ghost predicate ClaimsMost(candidates: map<BlockId, BlockMetaData>, queue: multiset<BlockMetaData>,
                             m: BlockMetaData) {
    && m in queue && Current(candidates, m)
    && (forall id :: id in candidates ==> m.lastAccessedTime <= candidates[id].lastAccessedTime)
    && (forall n :: n in queue && Current(candidates, n) && n.lastAccessedTime == m.lastAccessedTime ==>
          n.hashedTokensNum <= m.hashedTokensNum)
  }

  lemma FirstClaimsMost(candidates: map<BlockId, BlockMetaData>, queue: multiset<BlockMetaData>, m: BlockMetaData)
    requires Consistent(candidates, queue)
    ensures FirstCurrent(candidates, queue, m) <==> ClaimsMost(candidates, queue, m)
  {
    if FirstCurrent(candidates, queue, m) {
      forall id | id in candidates ensures m.lastAccessedTime <= candidates[id].lastAccessedTime {
        EvictsOldest(candidates, queue, m, id);
      }
    }
  }

  /** Ties go to the longest prefix exactly if no entry that claims the most, at the oldest age, belongs to a
      block with fewer tokens than another of that age. */
  lemma TieRuleExact(candidates: map<BlockId, BlockMetaData>, queue: multiset<BlockMetaData>)
    requires Consistent(candidates, queue)
    ensures
      (forall id :: EvictsNext(candidates, queue, id) ==> LongestOfOldest(candidates, id)) <==>
      (forall m, k | ClaimsMost(candidates, queue, m) && k in candidates ::
        candidates[k].lastAccessedTime == m.lastAccessedTime ==>
          candidates[k].hashedTokensNum <= candidates[m.blockId].hashedTokensNum)
  {
    forall m | ClaimsMost(candidates, queue, m) ensures EvictsNext(candidates, queue, m.blockId) {
      FirstClaimsMost(candidates, queue, m);
    }
    forall m | FirstCurrent(candidates, queue, m) ensures ClaimsMost(candidates, queue, m) {
      FirstClaimsMost(candidates, queue, m);
    }
  }

  /** The entry claims more hashed tokens than the candidate it stands for has. */
  predicate Exaggerates(candidates: map<BlockId, BlockMetaData>, m: BlockMetaData)
    requires m.blockId in candidates
  {
    candidates[m.blockId].hashedTokensNum < m.hashedTokensNum
  }

  /** An entry that claims no more than its candidate has yields a longest one of the oldest: only one left
      behind from an earlier, longer content of the block can do harm. */
  lemma HonestEntryFair(candidates: map<BlockId, BlockMetaData>, queue: multiset<BlockMetaData>, m: BlockMetaData)
    requires Consistent(candidates, queue) && FirstCurrent(candidates, queue, m) && !Exaggerates(candidates, m)
    ensures LongestOfOldest(candidates, m.blockId)
  {
    forall k | k in candidates && candidates[k].lastAccessedTime == candidates[m.blockId].lastAccessedTime
      ensures candidates[k].hashedTokensNum <= candidates[m.blockId].hashedTokensNum
    {
      assert Current(candidates, candidates[k]);
    }
  }

  /** No current entry exaggerates. */
  ghost predicate Truthful(candidates: map<BlockId, BlockMetaData>, queue: multiset<BlockMetaData>) {
    forall m :: m in queue && Current(candidates, m) ==> !Exaggerates(candidates, m)
  }

  /** An entry from an earlier stay of the block claims more tokens at the same age. */
  ghost predicate Outclaimed(queue: multiset<BlockMetaData>, data: BlockMetaData) {
    exists m :: m in queue && m.blockId == data.blockId && m.lastAccessedTime == data.lastAccessedTime
      && data.hashedTokensNum < m.hashedTokensNum
  }

  /** While no block comes back at the age of an earlier stay with fewer tokens, ties go to the longest prefix. */
  lemma TruthfulIsFair(candidates: map<BlockId, BlockMetaData>, queue: multiset<BlockMetaData>, id: BlockId)
    requires Consistent(candidates, queue) && Truthful(candidates, queue) && EvictsNext(candidates, queue, id)
    ensures LongestOfOldest(candidates, id)
  {
    var m :| FirstCurrent(candidates, queue, m) && m.blockId == id;
    HonestEntryFair(candidates, queue, m);
  }

  lemma AddedTruthful(candidates: map<BlockId, BlockMetaData>, queue: multiset<BlockMetaData>, data: BlockMetaData)
    requires Consistent(candidates, queue) && Truthful(candidates, queue)
    ensures Truthful(candidates[data.blockId := data], queue + multiset{data}) <==> !Outclaimed(queue, data)
  {
    var now, more := candidates[data.blockId := data], queue + multiset{data};
    if Outclaimed(queue, data) {
      var m :| m in queue && m.blockId == data.blockId && m.lastAccessedTime == data.lastAccessedTime
        && data.hashedTokensNum < m.hashedTokensNum;
      assert m in more && Current(now, m) && Exaggerates(now, m);
    } else {
      forall m | m in more && Current(now, m) ensures !Exaggerates(now, m) {
        assert m == data || m in queue;
        if m != data && m.blockId != data.blockId { assert Current(candidates, m); }
      }
    }
  }

  /** Evicting or removing a candidate keeps it so. */
  lemma LeftTruthful(candidates: map<BlockId, BlockMetaData>, queue: multiset<BlockMetaData>, id: BlockId,
                     rest: multiset<BlockMetaData>)
    requires Truthful(candidates, queue) && rest <= queue
    ensures Truthful(candidates - {id}, rest)
  {
    forall m | m in rest && Current(candidates - {id}, m) ensures !Exaggerates(candidates - {id}, m) {
      assert m in queue && Current(candidates, m);
    }
  }

  class LRUEvictor {
    var candidates: map<BlockId, BlockMetaData>
    var queue: multiset<BlockMetaData>  // a std::priority_queue; the order among equals is left open

    constructor ()
      ensures Valid() && candidates == map[] && |queue| == 0
    {
      candidates := map[];
      queue := multiset{};
    }

    ghost predicate Valid()
      reads this
    {
      Consistent(candidates, queue)
    }

    predicate ContainsBlock(id: BlockId)
      reads this
    {
      id in candidates
    }

    /** Fails only without candidates; otherwise gives up the candidate of the first current entry. */
    method Evict() returns (r: Result<(HashValue, BlockId)>, ghost entry: BlockMetaData)
      requires Valid()
      modifies this
      ensures Valid()
      ensures old(candidates) == map[] ==> r == Err(Exhausted) && candidates == old(candidates) && queue == old(queue)
      ensures old(candidates) != map[] ==>
        && GaveUp(old(candidates), old(queue), entry, queue) && entry.blockId in old(candidates)
        && r == Ok((old(candidates)[entry.blockId].prefixHash, entry.blockId))
        && candidates == old(candidates) - {entry.blockId}
    {
      hide Consistent, GaveUp, IsTop;
      entry := BlockMetaData(0, 0, 0, 0);
      if |candidates| == 0 {
        return Err(Exhausted), entry;
      }
      QueueNotEmpty(candidates, queue);
      while |queue| > 0
        invariant candidates == old(candidates) && OnlyStaleGone(candidates, old(queue), queue)
        invariant Valid() && |queue| > 0
        decreases |queue|
      {
        TopExists(queue);
        var top: BlockMetaData :| IsTop(queue, top);
        TopIn(queue, top);
        if top.blockId in candidates && candidates[top.blockId].lastAccessedTime == top.lastAccessedTime {
          PopFirst(candidates, old(queue), queue, top);
          LeftConsistent(candidates, queue, top);
          queue := queue - multiset{top};
          var hash := candidates[top.blockId].prefixHash;
          candidates := candidates - {top.blockId};
          entry := top;
          return Ok((hash, top.blockId)), entry;
        }
        PopStaleNext(candidates, old(queue), queue, top);
        queue := queue - multiset{top};
        QueueNotEmpty(candidates, queue);
      }
      assert false;
    }

    /** The queue stays within the cleanup threshold. */
    method Add(blockId: BlockId, prefixHash: HashValue, hashedTokensNum: nat, lastAccessedTime: TimeStamp)
      requires Valid()
      modifies this
      ensures Valid()
      ensures
        var data := BlockMetaData(blockId, prefixHash, hashedTokensNum, lastAccessedTime);
        candidates == old(candidates)[blockId := data]
      ensures |queue| <= LRU_EVICTOR_CLEANUP_THRESHOLD * |candidates|
      ensures
        var data := BlockMetaData(blockId, prefixHash, hashedTokensNum, lastAccessedTime);
        if |old(queue)| < LRU_EVICTOR_CLEANUP_THRESHOLD * |candidates| then queue == old(queue) + multiset{data}
        else forall m :: m in queue ==> m.blockId in candidates && candidates[m.blockId] == m
      ensures
        var data := BlockMetaData(blockId, prefixHash, hashedTokensNum, lastAccessedTime);
        old(Truthful(candidates, queue)) && !Outclaimed(old(queue), data) ==> Truthful(candidates, queue)
    {
      var data := BlockMetaData(blockId, prefixHash, hashedTokensNum, lastAccessedTime);
      if Truthful(candidates, queue) { AddedTruthful(candidates, queue, data); }
      candidates := candidates[blockId := data];
      queue := queue + multiset{data};
      if |queue| > LRU_EVICTOR_CLEANUP_THRESHOLD * |candidates| {
        Cleanup();
      }
    }

    method Remove(blockId: BlockId)
      requires Valid()
      modifies this
      ensures Valid() && candidates == old(candidates) - {blockId} && queue == old(queue)
    {
      if blockId in candidates {
        candidates := candidates - {blockId};
      }
    }

    /** Rebuilds the queue from the candidates: one entry each. */
    method Cleanup()
      requires forall id :: id in candidates ==> candidates[id].blockId == id
      modifies this
      ensures Valid() && candidates == old(candidates) && |queue| == |candidates|
      ensures forall m :: m in queue ==> m.blockId in candidates && candidates[m.blockId] == m
    {
      var rebuilt: multiset<BlockMetaData> := multiset{};
      var rest := candidates.Keys;
      while rest != {}
        invariant candidates == old(candidates) && rest <= candidates.Keys
        invariant |rebuilt| + |rest| == |candidates.Keys|
        invariant forall id :: id in candidates && id !in rest ==> candidates[id] in rebuilt
        invariant forall m :: m in rebuilt ==> m.blockId in candidates && candidates[m.blockId] == m
        decreases rest
      {
        ghost var some := AnyOf(rest);
        var id :| id in rest;
        rest := rest - {id};
        rebuilt := rebuilt + multiset{candidates[id]};
      }
      queue := rebuilt;
    }
  }

  /** Block 1, with 9 tokens, is freed, hit, freed again and evicted: its first entry stays behind. */
  method LeavesEntryBehind() returns (e: LRUEvictor)
    ensures fresh(e) && e.Valid() && e.candidates == map[]
    ensures e.queue == multiset{BlockMetaData(1, 10, 9, DEFAULT_LAST_ACCESSED_TIME)}
  {
    ghost var stale := BlockMetaData(1, 10, 9, DEFAULT_LAST_ACCESSED_TIME);
    e := new LRUEvictor();
    e.Add(1, 10, 9, DEFAULT_LAST_ACCESSED_TIME);
    assert e.queue == multiset{stale};
    e.Remove(1);
    e.Add(1, 10, 9, DEFAULT_LAST_ACCESSED_TIME);
    assert e.queue == multiset{stale, stale} && Current(e.candidates, stale);
    var r, entry := e.Evict();
    assert entry == stale && e.queue[stale] == 1;
    assert e.queue == multiset{stale};
  }

  lemma StaleGoesFirst(candidates: map<BlockId, BlockMetaData>, queue: multiset<BlockMetaData>, stale: BlockMetaData,
                       again: BlockMetaData, other: BlockMetaData)
    requires queue == multiset{stale, again, other} && candidates == map[1 := again, 2 := other]
    requires stale.blockId == again.blockId == 1 && other.blockId == 2
    requires stale.lastAccessedTime == again.lastAccessedTime == other.lastAccessedTime
    requires again.hashedTokensNum < other.hashedTokensNum < stale.hashedTokensNum
    ensures forall id :: EvictsNext(candidates, queue, id) <==> id == 1
    ensures !LongestOfOldest(candidates, 1)
  {
    assert FirstCurrent(candidates, queue, stale);
    forall m | FirstCurrent(candidates, queue, m) ensures m.blockId == 1 {
      assert Current(candidates, stale) && !Less(m, stale);
    }
    assert candidates[2] == other;
  }

  /** The evictor calls of an allocator run: the same block is then reused for 3 tokens and freed. Its old entry
      makes it go before block 2, which has 5 tokens and the same age. */
  method StaleEntryBreaksTie() returns (e: LRUEvictor)
    ensures fresh(e) && e.Valid() && e.candidates.Keys == {1, 2}
    ensures forall id :: EvictsNext(e.candidates, e.queue, id) <==> id == 1
    ensures !LongestOfOldest(e.candidates, 1)
  {
    hide FirstCurrent, EvictsNext, LongestOfOldest, Consistent, Truthful, Outclaimed;
    e := LeavesEntryBehind();
    ghost var stale := BlockMetaData(1, 10, 9, DEFAULT_LAST_ACCESSED_TIME);
    ghost var again := BlockMetaData(1, 11, 3, DEFAULT_LAST_ACCESSED_TIME);
    ghost var other := BlockMetaData(2, 20, 5, DEFAULT_LAST_ACCESSED_TIME);
    e.Add(1, 11, 3, DEFAULT_LAST_ACCESSED_TIME);
    e.Add(2, 20, 5, DEFAULT_LAST_ACCESSED_TIME);
    assert e.queue == multiset{stale, again, other} && e.candidates == map[1 := again, 2 := other];
    StaleGoesFirst(e.candidates, e.queue, stale, again, other);
  }
}
