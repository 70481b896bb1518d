/** What the allocator finds for a prompt: which blocks, from when on, and for how long. */
module CacheReports {
  import opened Basics
  import opened PrefixChain
  import opened LruEvictor
  import opened PrefixCacheSpec
  import opened PrefixCacheSteps
  import opened PrefixCacheOperations
  import opened PrefixCacheRuns
  import opened ComputedFlag

  // ---------- marking ----------

  /** After a run that ends with the device's work being marked, everything cached is found: no id put in before
      is forgotten. */
  lemma {:induction false} MarkedRunFinds(s: State, ops: seq<Op>)
    requires CollisionFree(s.cfg.mix) && Inv(s) && LegalRun(s, ops) && Run(s, ops).Ok?
    requires ops != [] && ops[|ops| - 1].OpMarkComputed?
    ensures var t := Run(s, ops).value; forall h :: h in t.cached ==> Findable(t, h)
    decreases |ops|
  {
    hide Inv, CollisionFree, Legal, Findable, Apply, MarkBlocksAsComputed;
    ApplyCorrect(s, ops[0]);
    if |ops| == 1 {
      MarkedFinds(s);
    } else {
      MarkedRunFinds(Apply(s, ops[0]).value, ops[1..]);
    }
  }

  lemma MarkedFinds(s: State)
    requires Inv(s)
    ensures Apply(s, OpMarkComputed) == Ok(MarkBlocksAsComputed(s))
    ensures var t := MarkBlocksAsComputed(s); forall h :: h in t.cached ==> Findable(t, h)
  {
    MarkBlocksAsComputedCorrect(s);
  }

  lemma MarkedFromStart(cfg: Config, ops: seq<Op>)
    requires cfg.blockSize > 0 && CollisionFree(cfg.mix) && LegalRun(Initial(cfg), ops + [OpMarkComputed])
    requires Run(Initial(cfg), ops + [OpMarkComputed]).Ok?
    ensures var t := Run(Initial(cfg), ops + [OpMarkComputed]).value; forall h :: h in t.cached ==> Findable(t, h)
  {
    InitialInv(cfg);
    MarkedRunFinds(Initial(cfg), ops + [OpMarkComputed]);
  }

  /** Nothing left to mark means that everything cached is found. */
  lemma UntouchedFinds(s: State)
    requires Inv(s) && s.touched == {}
    ensures forall h :: h in s.cached ==> Findable(s, h)
  {
    forall h | h in s.cached ensures Findable(s, h) { EntryFact(s, None, h); }
  }

  // ---------- founding ----------

  /** A block put in under a hash of its own is in the cache, and not found before the next mark. */
  lemma FoundedNotFound(s: State, o: Obj, before: Chain, ts: seq<TokenId>, extra: HashValue, pick: BlockId)
    requires CollisionFree(s.cfg.mix) && Inv(s) && MayPlace(s, o, before, ts, extra) && Available(s) > 0
    requires FoundsEntry(s, Block(before, ts, extra, 0))
    ensures AllocateMutableBlock(s, o, before, ts, extra, pick).Ok?
    ensures
      var h := HashOf(s.cfg, Block(before, ts, extra, 0));
      var t := AllocateMutableBlock(s, o, before, ts, extra, pick).value;
      && o in t.blocks && h in t.cached && t.cached[h] == t.blocks[o].id
      && !Findable(t, h) && Findable(MarkBlocksAsComputed(t), h)
  {
    hide InvHeld, CollisionFree, WellFormed, Settle;
    AllocateMutableBlockCorrect(s, o, before, ts, extra, pick);
    AllocateBlockIdCorrect(s, pick);
    var (id, t) := AllocateBlockId(s, pick).value;
    var b := Block(before, ts, extra, id);
    TakenHeld(t, id);
    FirstAppend(t, o, b, pick);
    TakeUnknown(s, pick);
    SettleBinds(t, o, b, 0);
    MarkedFinds(Bound(t, o, b));
  }

  /** A taken id is in use, unmarked, and no entry has been added. */
  lemma TakeUnknown(s: State, pick: BlockId)
    requires Inv(s) && Available(s) > 0
    ensures AllocateBlockId(s, pick).Ok?
    ensures
      var (id, t) := AllocateBlockId(s, pick).value;
      && id in t.info && t.info[id].active && !t.info[id].computed && t.cached.Keys <= s.cached.Keys
  {
    AllocateBlockIdCorrect(s, pick);
    if s.free != [] { TakeFree(s, pick); }
  }

  // ---------- freeing ----------

  /** The last holder of a hashed block leaves it to be found, whatever was marked. */
  lemma FreedFound(s: State, o: Obj)
    requires Inv(s) && o in s.blocks && Alone(s, o) && HashOf(s.cfg, s.blocks[o]) != INVALID_HASH_VALUE
    ensures Free(s, o).Ok?
    ensures FoundIds(Free(s, o).value, [HashOf(s.cfg, s.blocks[o])]) == [s.blocks[o].id]
  {
    hide InvHeld, HashOf;
    FreeRetires(s, o);
    RetiredFound(s, o);
    var t, h := Retired(s, o), HashOf(s.cfg, s.blocks[o]);
    assert FoundIds(t, [h]) == [t.cached[h]] + FoundIds(t, [h][1..]);
  }

  lemma RetiredFound(s: State, o: Obj)
    requires Inv(s) && o in s.blocks && s.blocks[o].id in s.info && HashOf(s.cfg, s.blocks[o]) != INVALID_HASH_VALUE
    ensures
      var h := HashOf(s.cfg, s.blocks[o]);
      Findable(Retired(s, o), h) && Retired(s, o).cached[h] == s.blocks[o].id
  {
    BlockFact(s, None, o);
  }

  // ---------- what is found is found until its id is taken ----------

  /** Whether the operation takes an id for new content. */
  ghost predicate TakesId(s: State, op: Op) {
    match op
    case OpAllocateMutable(_, _, _, _, _) => true
    case OpAllocateImmutable(_, _, _, _, _) => !HitsAtOnce(s, op)
    case OpAppend(o, _, _, _) => o in s.blocks && s.blocks[o].id in s.refs && Shared(s, o)
    case _ => false
  }

  /** The operation finds no free id, and the evictor gives it `id`. */
  ghost predicate Evicts(s: State, op: Op, id: BlockId) {
    TakesId(s, op) && s.free == [] && id in s.evictor && Victim(s.evictor, op.pick) == id
  }

  /** `h` is found in `t` under the id it was found under in `s`. */
  ghost predicate FoundAsBefore(s: State, t: State, h: HashValue)
    requires h in s.cached
  {
    Findable(t, h) && t.cached[h] == s.cached[h]
  }

  lemma SettleFound(u: State, o: Obj, from: nat, h: HashValue)
    requires ComputedFlag.Own(u, o) && Findable(u, h) && Settle(u, o, from).Ok?
    ensures FoundAsBefore(u, Settle(u, o, from).value, h)
  {
    hide HashOf;
    assert EntryLedger(u, u.cached[h]);
    if HashOf(u.cfg, u.blocks[o]) in u.cached { SettleJoins(u, o, from); }
  }

  /** An entry that is gone comes back unmarked at best. */
  lemma SettleNotFound(u: State, o: Obj, from: nat, h: HashValue)
    requires ComputedFlag.Own(u, o) && !u.info[u.blocks[o].id].computed && h !in u.cached && Settle(u, o, from).Ok?
    ensures !Findable(Settle(u, o, from).value, h)
  {
    hide HashOf;
    if HashOf(u.cfg, u.blocks[o]) in u.cached { SettleJoins(u, o, from); }
  }

  /** Taking an id loses the entry of that id and no other. */
  lemma TakeFound(s: State, pick: BlockId, h: HashValue)
    requires Inv(s) && Available(s) > 0 && Findable(s, h)
    ensures AllocateBlockId(s, pick).Ok?
    ensures
      var t := AllocateBlockId(s, pick).value.1;
      if s.free == [] && s.cached[h] in s.evictor && Victim(s.evictor, pick) == s.cached[h] then h !in t.cached
      else FoundAsBefore(s, t, h)
  {
    hide Ready, ChainHash;
    AllocateBlockIdCorrect(s, pick);
    EntryFact(s, None, h);
    if s.free != [] {
      TakeFree(s, pick);
      assert s.free[0] in s.free;
    } else {
      var id := Victim(s.evictor, pick);
      assert AllocateBlockId(s, pick).value.1 == TakenEvicted(s, id);
      VictimEntry(s, id, h);
    }
  }

  lemma VictimEntry(s: State, id: BlockId, h: HashValue)
    requires Inv(s) && id in s.evictor && h in s.cached
    ensures s.evictor[id].prefixHash == h <==> s.cached[h] == id
  {
    EntryFact(s, None, h);
    EntryFact(s, None, s.evictor[id].prefixHash);
  }

  lemma AllocateFound(s: State, o: Obj, before: Chain, ts: seq<TokenId>, extra: HashValue, pick: BlockId, h: HashValue)
    requires CollisionFree(s.cfg.mix) && Inv(s) && MayPlace(s, o, before, ts, extra) && Findable(s, h)
    requires AllocateMutableBlock(s, o, before, ts, extra, pick).Ok?
    ensures
      var t := AllocateMutableBlock(s, o, before, ts, extra, pick).value;
      if s.free == [] && s.cached[h] in s.evictor && Victim(s.evictor, pick) == s.cached[h] then !Findable(t, h)
      else FoundAsBefore(s, t, h)
  {
    hide InvHeld, CollisionFree, WellFormed, Settle, ComputedFlag.Own, Reported;
    AllocateMutableBlockCorrect(s, o, before, ts, extra, pick);
    AllocateBlockIdCorrect(s, pick);
    var (id, t) := AllocateBlockId(s, pick).value;
    var b := Block(before, ts, extra, id);
    TakenHeld(t, id);
    FirstAppend(t, o, b, pick);
    TakeUnknown(s, pick);
    TakeFound(s, pick, h);
    TakenThenSettled(s, t, o, b, 0, h);
  }

  /** From the state in which the id is held to the settled one. */
  lemma TakenThenSettled(s: State, t: State, o: Obj, b: Block, from: nat, h: HashValue)
    requires h in s.cached && InvHeld(t, Some(b.id)) && b.id in t.info && !t.info[b.id].computed
    requires Settle(t.(blocks := t.blocks[o := b]), o, from).Ok?
    requires h !in t.cached || FoundAsBefore(s, t, h)
    ensures
      var r := Settle(t.(blocks := t.blocks[o := b]), o, from).value;
      if h in t.cached then FoundAsBefore(s, r, h) else !Findable(r, h)
  {
    hide InvHeld, Settle;
    OwnFromHeld(t, o, b);
    var u := t.(blocks := t.blocks[o := b]);
    if h in t.cached {
      assert Findable(u, h);
      SettleFound(u, o, from, h);
    } else {
      SettleNotFound(u, o, from, h);
    }
  }

  lemma AppendFound(s: State, o: Obj, before: Chain, ts: seq<TokenId>, pick: BlockId, h: HashValue)
    requires CollisionFree(s.cfg.mix) && Inv(s) && MayAppend(s, o, before, ts) && Findable(s, h)
    requires AppendTokenIds(s, o, before, ts, pick).Ok?
    ensures
      var t := AppendTokenIds(s, o, before, ts, pick).value;
      if Evicts(s, OpAppend(o, before, ts, pick), s.cached[h]) then !Findable(t, h) else FoundAsBefore(s, t, h)
  {
    hide InvHeld, CollisionFree, Settle, CowBlockIfNotAppendable, WellFormed, ComputedFlag.Own, Reported;
    var b := Appended(s.blocks[o], before, ts);
    var from := |Known(s.blocks[o].tokens)|;
    var u0 := s.(blocks := s.blocks[o := b]);
    AppendTokenIdsCorrect(s, o, before, ts, pick);
    RebasedHash(s.cfg, s.blocks[o], before);
    assert AppendTokenIds(s, o, before, ts, pick) == CowAndSettle(u0, o, from, pick);
    UsesOf(s, o);
    if Shared(s, o) {
      CowFound(s, o, b, pick, from, h);
    } else {
      CowNot(u0, o, pick);
      OwnFromInv(s, o, b);
      SettleFound(u0, o, from, h) by { SameFindable(s, u0, h); }
      SameFindable(s, u0, h);
    }
  }

  lemma SameFindable(s: State, t: State, h: HashValue)
    requires t.cached == s.cached && t.info == s.info && t.evictor == s.evictor
    ensures Findable(t, h) <==> Findable(s, h)
  {
  }

  lemma CowFound(s: State, o: Obj, b: Block, pick: BlockId, from: nat, h: HashValue)
    requires Inv(s) && o in s.blocks && b.id == s.blocks[o].id && s.refs[b.id] > 1 && Findable(s, h)
    requires CowAndSettle(s.(blocks := s.blocks[o := b]), o, from, pick).Ok?
    ensures
      var t := CowAndSettle(s.(blocks := s.blocks[o := b]), o, from, pick).value;
      if s.free == [] && s.cached[h] in s.evictor && Victim(s.evictor, pick) == s.cached[h] then !Findable(t, h)
      else FoundAsBefore(s, t, h)
  {
    hide InvHeld, Settle, Reported;
    CowMoves(s, o, b, pick);
    Unshare(s, o);
    var f := Unshared(s, o);
    SameFindable(s, f, h);
    AllocateBlockIdCorrect(f, pick);
    TakeUnknown(f, pick);
    TakeFound(f, pick, h);
    var (id, t) := AllocateBlockId(f, pick).value;
    var r := Recorded(t, (b.id, id));
    RecordCow(t, b.id, id);
    SameFindable(t, r, h);
    TakenThenSettled(s, r, o, b.(id := id), from, h);
  }

  lemma ReplaceFound(s: State, o: Obj, before: Chain, i: nat, token: TokenId, h: HashValue)
    requires CollisionFree(s.cfg.mix) && Inv(s) && MayReplace(s, o, before, i, token) && Findable(s, h)
    ensures ReplaceToken(s, o, before, i, token).Ok?
    ensures FoundAsBefore(s, ReplaceToken(s, o, before, i, token).value, h)
  {
    hide InvHeld, CollisionFree, ComputedFlag.Own, Settle, Reported;
    ReplaceTokenCorrect(s, o, before, i, token);
    ReplaceReady(s, o, before, i, token);
    UsesOf(s, o);
    var b := Replaced(s.blocks[o], before, i, token);
    OwnFromInv(s, o, b);
    var u := s.(blocks := s.blocks[o := b]);
    SameFindable(s, u, h);
    SettleFound(u, o, |Known(s.blocks[o].tokens)|, h);
  }

  lemma FreeFound(s: State, o: Obj, h: HashValue)
    requires Inv(s) && o in s.blocks && Findable(s, h)
    ensures Free(s, o).Ok? && FoundAsBefore(s, Free(s, o).value, h)
  {
    hide InvHeld, HashOf, Free;
    UsesOf(s, o);
    if Shared(s, o) {
      FreeShared(s, o);
      SameFindable(s, Unshared(s, o), h);
    } else if HashOf(s.cfg, s.blocks[o]) != INVALID_HASH_VALUE {
      FreeRetires(s, o);
      if s.cached[h] == s.blocks[o].id { HolderHash(s, o, h); RetiredFound(s, o); }
    } else {
      DropFound(s, o, h);
    }
  }

  lemma HolderHash(s: State, o: Obj, h: HashValue)
    requires Inv(s) && o in s.blocks && h in s.cached && s.cached[h] == s.blocks[o].id
    ensures HashOf(s.cfg, s.blocks[o]) == h
  {
  }

  lemma DropFound(s: State, o: Obj, h: HashValue)
    requires Inv(s) && o in s.blocks && Findable(s, h) && Alone(s, o)
    requires HashOf(s.cfg, s.blocks[o]) == INVALID_HASH_VALUE
    ensures Free(s, o).Ok? && FoundAsBefore(s, Free(s, o).value, h)
  {
    hide InvHeld;
    var f, id := s.(blocks := s.blocks - {o}), s.blocks[o].id;
    Unbind(s, o);
    NotHeld(f, id, h);
    Drop(f, id);
    assert Free(s, o) == Ok(Dropped(f, id));
  }

  lemma HitFound(s: State, o: Obj, before: Chain, ts: seq<TokenId>, extra: HashValue, pick: BlockId, h: HashValue)
    requires CollisionFree(s.cfg.mix) && Inv(s) && MayPlace(s, o, before, ts, extra) && Findable(s, h)
    requires HashOf(s.cfg, Block(before, ts, extra, 0)) in s.cached
    ensures AllocateImmutableBlock(s, o, before, ts, extra, pick).Ok?
    ensures FoundAsBefore(s, AllocateImmutableBlock(s, o, before, ts, extra, pick).value, h)
  {
    hide InvHeld, HashOf, AllocateImmutableBlock, CollisionFree, MayPlace;
    var b := HitIs(s, o, before, ts, extra, pick);
    LedgerOf(s, HashOf(s.cfg, b));
    LedgerOf(s, h);
  }

  /** What is found stays found, on its id, by every operation but the one that evicts that id; and then it is gone
      or unmarked. */
  lemma FoundUntilEvicted(s: State, op: Op, h: HashValue)
    requires CollisionFree(s.cfg.mix) && Inv(s) && Legal(s, op) && Apply(s, op).Ok? && Findable(s, h)
    ensures
      var t := Apply(s, op).value;
      if Evicts(s, op, s.cached[h]) then !Findable(t, h) else FoundAsBefore(s, t, h)
  {
    hide InvHeld, CollisionFree, AllocateMutableBlock, AppendTokenIds, ReplaceToken, Free, WellFormed;
    match op
    case OpAllocateMutable(o, before, ts, extra, pick) =>
      AllocateFound(s, o, before, ts, extra, pick, h);
    case OpAllocateImmutable(o, before, ts, extra, pick) =>
      if HitsAtOnce(s, op) {
        HitFound(s, o, before, ts, extra, pick, h);
      } else {
        AllocateFound(s, o, before, ts, extra, pick, h);
      }
    case OpAppend(o, before, ts, pick) =>
      AppendFound(s, o, before, ts, pick, h);
    case OpReplace(o, before, i, token) =>
      ReplaceFound(s, o, before, i, token, h);
    case OpFork(o, copy) =>
      Copy(s, o, copy);
      SameFindable(s, Copied(s, o, copy), h);
    case OpFree(o) =>
      FreeFound(s, o, h);
    case OpMarkComputed =>
      MarkedFinds(s);
    case OpMarkAccessed(id, now) =>
    case OpClearCopies =>
      SameFindable(s, ClearCopyOnWrites(s), h);
  }

  /** No operation of the run evicts `id`. */
  ghost predicate SparesId(s: State, ops: seq<Op>, id: BlockId)
    decreases |ops|
  {
    ops != [] && Apply(s, ops[0]).Ok? ==> !Evicts(s, ops[0], id) && SparesId(Apply(s, ops[0]).value, ops[1..], id)
  }

  lemma {:induction false} FoundThroughout(s: State, ops: seq<Op>, h: HashValue)
    requires CollisionFree(s.cfg.mix) && Inv(s) && LegalRun(s, ops) && Run(s, ops).Ok? && Findable(s, h)
    requires SparesId(s, ops, s.cached[h])
    ensures FoundAsBefore(s, Run(s, ops).value, h)
    decreases |ops|
  {
    hide Inv, CollisionFree, Legal, Apply, Evicts;
    if ops != [] {
      FoundUntilEvicted(s, ops[0], h);
      ApplyCorrect(s, ops[0]);
      FoundThroughout(Apply(s, ops[0]).value, ops[1..], h);
    }
  }

  /** Later prompts with the same hashes reuse the same blocks, as long as no id of theirs is evicted: whether or not
      anybody holds the blocks meanwhile. */
  lemma FoundAgain(s: State, ops: seq<Op>, hashes: seq<HashValue>)
    requires CollisionFree(s.cfg.mix) && Inv(s) && LegalRun(s, ops) && Run(s, ops).Ok?
    requires forall id :: id in FoundIds(s, hashes) ==> SparesId(s, ops, id)
    ensures FoundIds(s, hashes) <= FoundIds(Run(s, ops).value, hashes)
  {
    hide Inv, CollisionFree, Findable, LegalRun, SparesId;
    var ids, t := FoundIds(s, hashes), Run(s, ops).value;
    forall k | 0 <= k < |ids|
      ensures Findable(t, hashes[k]) && hashes[k] in t.cached && t.cached[hashes[k]] == ids[k]
    {
      IsCached(s, hashes[k]);
      FoundThroughout(s, ops, hashes[k]);
      IsCached(t, hashes[k]);
    }
    if |FoundIds(t, hashes)| < |ids| { assert false; }
  }

  lemma IsCached(s: State, h: HashValue)
    requires Findable(s, h)
    ensures h in s.cached
  {
  }

  // ---------- found exactly when computed ----------

  /** The ids whose content is not computed yet, after the run. */
  ghost function PendingAfter(s: State, pending: set<BlockId>, ops: seq<Op>): set<BlockId>
    decreases |ops|
  {
    if ops == [] || Apply(s, ops[0]).Err? then pending
    else
      var t := Apply(s, ops[0]).value;
      PendingAfter(t, Pending(s, pending, ops[0], t), ops[1..])
  }

  lemma {:induction false} UnmarkedRun(s: State, pending: set<BlockId>, ops: seq<Op>)
    requires CollisionFree(s.cfg.mix) && Inv(s) && Honest(s, pending) && Unmarked(s, pending) && LegalRun(s, ops)
    requires RunFreesInTime(s, pending, ops) && Run(s, ops).Ok?
    ensures
      var t := Run(s, ops).value;
      Inv(t) && Honest(t, PendingAfter(s, pending, ops)) && Unmarked(t, PendingAfter(s, pending, ops))
    decreases |ops|
  {
    hide Inv, CollisionFree, Legal, Apply, Honest, Prompt, Pending, Unmarked, FreesInTime;
    if ops != [] {
      HonestExact(s, pending, ops[0]);
      PromptIsInTime(s, pending, ops[0]);
      ApplyCorrect(s, ops[0]);
      UnmarkedKept(s, pending, ops[0]);
      var t := Apply(s, ops[0]).value;
      UnmarkedRun(t, Pending(s, pending, ops[0], t), ops[1..]);
    }
  }

  /** With blocks freed in time, a cached block is found exactly once the device has computed it. */
  lemma FoundExact(s: State, pending: set<BlockId>, h: HashValue)
    requires Inv(s) && Honest(s, pending) && Unmarked(s, pending) && h in s.cached
    ensures Findable(s, h) <==> s.cached[h] !in pending
  {
    EntryFact(s, None, h);
  }

  /** So from the start, as long as no last holder frees a block before the device is done with it, what a prompt
      reuses are its leading cached blocks that have been computed, all of them and no others. */
  lemma FindsComputed(cfg: Config, ops: seq<Op>, hashes: seq<HashValue>)
    requires cfg.blockSize > 0 && CollisionFree(cfg.mix) && LegalRun(Initial(cfg), ops) && Run(Initial(cfg), ops).Ok?
    requires RunFreesInTime(Initial(cfg), {}, ops)
    ensures
      var t := Run(Initial(cfg), ops).value;
      var pending := PendingAfter(Initial(cfg), {}, ops);
      var ids := FoundIds(t, hashes);
      && (forall k :: 0 <= k < |ids| ==> hashes[k] in t.cached && ids[k] == t.cached[hashes[k]] && ids[k] !in pending)
      && (|ids| < |hashes| ==> hashes[|ids|] !in t.cached || t.cached[hashes[|ids|]] in pending)
  {
    hide Inv, Apply, Legal, CollisionFree, Reported, Unmarked;
    InitialInv(cfg);
    StartUnmarked(cfg);
    UnmarkedRun(Initial(cfg), {}, ops);
    var t := Run(Initial(cfg), ops).value;
    forall h | h in t.cached ensures Findable(t, h) <==> t.cached[h] !in PendingAfter(Initial(cfg), {}, ops) {
      FoundExact(t, PendingAfter(Initial(cfg), {}, ops), h);
    }
  }

  lemma StartUnmarked(cfg: Config)
    ensures Honest(Initial(cfg), {}) && Unmarked(Initial(cfg), {})
  {
  }
}
