/** When the allocator's answer "cached and computed" may be believed. */
module ComputedFlag {
  import opened Basics
  import opened PrefixChain
  import opened LruEvictor
  import opened PrefixCacheSpec
  import opened PrefixCacheSteps
  import opened PrefixCacheOperations
  import opened PrefixCacheRuns

  /** No content that the cache reports as computed is among the `pending`, the ids that got tokens since the
      device last finished. */
  ghost predicate Honest(s: State, pending: set<BlockId>) {
    forall h :: h in s.cached && Reported(s, s.cached[h]) ==> s.cached[h] !in pending
  }

  // ---------- the state in which a block is about to be settled ----------

  /** The object an operation puts tokens into. */
  predicate PutsTokens(op: Op) {
    op.OpAllocateMutable? || op.OpAllocateImmutable? || op.OpAppend? || op.OpReplace?
  }

  /** Whether the operation finds the whole block in the cache at once. */
  ghost predicate HitsAtOnce(s: State, op: Op) {
    op.OpAllocateImmutable? && HashOf(s.cfg, Block(op.before, op.ts, op.extra, 0)) in s.cached
  }

  /** The state before promotion: the tokens are in, and the object is on an id of its own. */
  ghost function Unsettled(s: State, op: Op): Result<State> {
    match op
    case OpAllocateMutable(o, before, ts, extra, pick) => Allocated(s, o, before, ts, extra, pick)
    case OpAllocateImmutable(o, before, ts, extra, pick) => Allocated(s, o, before, ts, extra, pick)
    case OpAppend(o, before, ts, pick) =>
      if o !in s.blocks then Err(Misuse)
      else CowBlockIfNotAppendable(s.(blocks := s.blocks[o := Appended(s.blocks[o], before, ts)]), o, pick)
    case OpReplace(o, before, i, token) =>
      if o !in s.blocks || i >= |s.blocks[o].tokens| then Err(Misuse)
      else Ok(s.(blocks := s.blocks[o := Replaced(s.blocks[o], before, i, token)]))
    case _ => Err(Misuse)
  }

  ghost function Allocated(s: State, o: Obj, before: Chain, ts: seq<TokenId>, extra: HashValue, pick: BlockId)
    : Result<State>
  {
    var r :- AllocateBlockId(s, pick);
    Ok(r.1.(blocks := r.1.blocks[o := Block(before, ts, extra, r.0)]))
  }

  /** The ids whose content is put in, or changed, by an operation that ends in `t`. */
  ghost function Pending(s: State, pending: set<BlockId>, op: Op, t: State): set<BlockId> {
    if op.OpMarkComputed? then {}
    else if PutsTokens(op) && !HitsAtOnce(s, op) && Unsettled(s, op).Ok? && op.o in Unsettled(s, op).value.blocks then
      var u := Unsettled(s, op).value;
      if HashOf(u.cfg, u.blocks[op.o]) in u.cached then pending else pending + {u.blocks[op.o].id}
    else pending
  }

  /** What callers must see to: a hashed block is not freed by its last holder before its content is computed, and
      no block is completed on an id that was marked as computed too early. */
  ghost predicate Prompt(s: State, pending: set<BlockId>, op: Op) {
    match op
    case OpFree(o) =>
      o in s.blocks && Alone(s, o) && HashOf(s.cfg, s.blocks[o]) != INVALID_HASH_VALUE ==> s.blocks[o].id !in pending
    case OpAppend(o, before, ts, _) =>
      o in s.blocks && Alone(s, o) && s.blocks[o].id in s.info && s.info[s.blocks[o].id].computed ==>
        !FoundsEntry(s, Appended(s.blocks[o], before, ts))
    case OpReplace(o, before, i, token) =>
      o in s.blocks && i < |s.blocks[o].tokens| && s.blocks[o].id in s.info && s.info[s.blocks[o].id].computed ==>
        !FoundsEntry(s, Replaced(s.blocks[o], before, i, token))
    case _ => true
  }

  /** The block is complete and its content not cached yet. */
  ghost predicate FoundsEntry(s: State, b: Block) {
    HashOf(s.cfg, b) != INVALID_HASH_VALUE && HashOf(s.cfg, b) !in s.cached
  }

  // ---------- settling ----------

  /** The object is on an id of its own, which no cache entry names. */
  ghost predicate Own(u: State, o: Obj) {
    && o in u.blocks && u.blocks[o].id in u.refs && u.refs[u.blocks[o].id] == 1
    && u.blocks[o].id in u.info && u.info[u.blocks[o].id].active && u.blocks[o].id !in u.evictor
    && INVALID_HASH_VALUE !in u.cached
    && (forall h :: h in u.cached ==> u.cached[h] != u.blocks[o].id)
    && (forall h :: h in u.cached ==> EntryLedger(u, u.cached[h]))
  }

  /** A cached id is in use and active, or in the evictor and not. */
  ghost predicate EntryLedger(u: State, id: BlockId) {
    && id in u.refs && id in u.info && u.refs[id] >= 0
    && (u.info[id].active <==> u.refs[id] > 0) && (u.refs[id] > 0 <==> id !in u.evictor)
  }

  /** Settling keeps the cache honest unless it founds an entry on an id that is marked as computed. */
  lemma SettleHonest(u: State, o: Obj, from: nat, pending: set<BlockId>)
    requires Own(u, o) && Honest(u, pending) && Settle(u, o, from).Ok?
    ensures
      var t := Settle(u, o, from).value;
      var b := u.blocks[o];
      if HashOf(u.cfg, b) in u.cached then Honest(t, pending)
      else Honest(t, pending + {b.id}) <==> !(FoundsEntry(u, b) && u.info[b.id].computed)
  {
    var b := u.blocks[o];
    var h := HashOf(u.cfg, b);
    var t := Settle(u, o, from).value;
    if h in u.cached {
      SettleJoins(u, o, from);
      forall g | g in t.cached && Reported(t, t.cached[g]) ensures t.cached[g] !in pending {
        assert EntryLedger(u, u.cached[g]) && EntryLedger(u, u.cached[h]);
      }
    } else {
      assert t.info == u.info && t.evictor == u.evictor;
      forall g | g in u.cached ensures g in t.cached && t.cached[g] == u.cached[g] {}
      if h != INVALID_HASH_VALUE { assert h in t.cached && t.cached[h] == b.id; }
    }
  }

  /** Joining an entry gives up the own id and revives the cached one if it has to. */
  lemma SettleJoins(u: State, o: Obj, from: nat)
    requires Own(u, o) && HashOf(u.cfg, u.blocks[o]) in u.cached && Settle(u, o, from).Ok?
    ensures
      var t := Settle(u, o, from).value;
      var own, k := u.blocks[o].id, u.cached[HashOf(u.cfg, u.blocks[o])];
      && t.cached == u.cached && t.evictor == u.evictor - {k} && k in t.info && t.info[k].active
      && (k in u.evictor ==> t.info[k].computed) && (k !in u.evictor ==> t.info[k] == u.info[k])
      && forall id :: id in u.info && id != own && id != k ==> id in t.info && t.info[id] == u.info[id]
  {
    var k := u.cached[HashOf(u.cfg, u.blocks[o])];
    assert EntryLedger(u, k);
    assert u.evictor - {k} == u.evictor || k in u.evictor;
  }

  lemma OwnFromInv(s: State, o: Obj, b: Block)
    requires Inv(s) && o in s.blocks && Alone(s, o) && HashOf(s.cfg, s.blocks[o]) == INVALID_HASH_VALUE
    requires b.id == s.blocks[o].id
    ensures Own(s.(blocks := s.blocks[o := b]), o)
  {
    Unbind(s, o);
    OwnFromHeld(s.(blocks := s.blocks - {o}), o, b);
    PutBack(s.blocks, o, b);
  }

  lemma OwnFromHeld(s: State, o: Obj, b: Block)
    requires InvHeld(s, Some(b.id))
    ensures Own(s.(blocks := s.blocks[o := b]), o)
  {
    forall h | h in s.cached ensures s.cached[h] != b.id && EntryLedger(s, s.cached[h]) {
      EntryFact(s, Some(b.id), h);
    }
  }

  // ---------- getting there ----------

  /** Taking an id for new content leaves the reports about all others as they were. */
  lemma TakeHonest(s: State, pick: BlockId, pending: set<BlockId>)
    requires Inv(s) && Honest(s, pending) && Available(s) > 0
    ensures AllocateBlockId(s, pick).Ok?
    ensures
      var (id, t) := AllocateBlockId(s, pick).value;
      Honest(t, pending) && id in t.info && !t.info[id].computed && InvHeld(t, Some(id))
  {
    AllocateBlockIdCorrect(s, pick);
    var (id, t) := AllocateBlockId(s, pick).value;
    if s.free != [] {
      TakeFree(s, pick);
      assert id in s.free;
      forall h | h in t.cached ensures t.cached[h] != id { EntryFact(s, None, h); }
    } else {
      EntryFact(s, None, s.evictor[id].prefixHash);
      assert t == TakenEvicted(s, id);
      forall h | h in t.cached ensures t.cached[h] != id { EntryFact(t, Some(id), h); }
    }
    forall h | h in t.cached && Reported(t, t.cached[h]) ensures t.cached[h] !in pending {
      assert Reported(s, s.cached[h]);
    }
  }

  lemma SameReports(s: State, t: State, pending: set<BlockId>)
    requires Honest(s, pending) && t.cached == s.cached && t.info == s.info && t.evictor == s.evictor
    ensures Honest(t, pending)
  {
    forall h | h in t.cached && Reported(t, t.cached[h]) ensures t.cached[h] !in pending {
      assert Reported(s, s.cached[h]);
    }
  }

  lemma AllocateHonest(s: State, o: Obj, before: Chain, ts: seq<TokenId>, extra: HashValue, pick: BlockId,
                       pending: set<BlockId>)
    requires CollisionFree(s.cfg.mix) && Inv(s) && Honest(s, pending) && MayPlace(s, o, before, ts, extra)
    requires AllocateMutableBlock(s, o, before, ts, extra, pick).Ok?
    ensures Allocated(s, o, before, ts, extra, pick).Ok? && o in Allocated(s, o, before, ts, extra, pick).value.blocks
    ensures
      var u := Allocated(s, o, before, ts, extra, pick).value;
      var t := AllocateMutableBlock(s, o, before, ts, extra, pick).value;
      if HashOf(u.cfg, u.blocks[o]) in u.cached then Honest(t, pending) else Honest(t, pending + {u.blocks[o].id})
  {
    hide InvHeld, CollisionFree, Honest, Own, Settle;
    AllocateMutableBlockCorrect(s, o, before, ts, extra, pick);
    TakeHonest(s, pick, pending);
    AllocateBlockIdCorrect(s, pick);
    var (id, t) := AllocateBlockId(s, pick).value;
    var b := Block(before, ts, extra, id);
    TakenHeld(t, id);
    FirstAppend(t, o, b, pick);
    OwnFromHeld(t, o, b);
    HonestElsewhere(t, o, b, pending);
    SettleHonest(t.(blocks := t.blocks[o := b]), o, 0, pending);
  }

  lemma TakenHeld(t: State, id: BlockId)
    requires InvHeld(t, Some(id))
    ensures id in t.refs && t.refs[id] == 1 && t.cfg.blockSize > 0
  {
  }

  lemma HonestElsewhere(t: State, o: Obj, b: Block, pending: set<BlockId>)
    requires Honest(t, pending)
    ensures Honest(t.(blocks := t.blocks[o := b]), pending)
  {
    var u := t.(blocks := t.blocks[o := b]);
    forall h | h in u.cached && Reported(u, u.cached[h]) ensures u.cached[h] !in pending {
      assert Reported(t, t.cached[h]);
    }
  }

  lemma AppendHonest(s: State, o: Obj, before: Chain, ts: seq<TokenId>, pick: BlockId, pending: set<BlockId>)
    requires CollisionFree(s.cfg.mix) && Inv(s) && Honest(s, pending) && MayAppend(s, o, before, ts)
    requires AppendTokenIds(s, o, before, ts, pick).Ok?
    ensures
      var op := OpAppend(o, before, ts, pick);
      var t := AppendTokenIds(s, o, before, ts, pick).value;
      Honest(t, Pending(s, pending, op, t)) <==> Prompt(s, pending, op)
  {
    hide InvHeld, CollisionFree, Honest, Own, Settle, CowBlockIfNotAppendable;
    var b := Appended(s.blocks[o], before, ts);
    var from := |Known(s.blocks[o].tokens)|;
    var u0 := s.(blocks := s.blocks[o := b]);
    AppendTokenIdsCorrect(s, o, before, ts, pick);
    RebasedHash(s.cfg, s.blocks[o], before);
    assert AppendTokenIds(s, o, before, ts, pick) == CowAndSettle(u0, o, from, pick);
    UsesOf(s, o);
    if Shared(s, o) {
      CowCorrect(s, o, b, pick);
      var u := CowBlockIfNotAppendable(u0, o, pick).value;
      CowHonest(s, o, b, pick, pending);
      SettleHonest(u, o, from, pending);
    } else {
      CowNot(u0, o, pick);
      OwnFromInv(s, o, b);
      HonestElsewhere(s, o, b, pending);
      SettleHonest(u0, o, from, pending);
    }
  }

  lemma CowHonest(s: State, o: Obj, b: Block, pick: BlockId, pending: set<BlockId>)
    requires Inv(s) && Honest(s, pending) && o in s.blocks && b.id == s.blocks[o].id && s.refs[b.id] > 1
    requires CowBlockIfNotAppendable(s.(blocks := s.blocks[o := b]), o, pick).Ok?
    ensures
      var u := CowBlockIfNotAppendable(s.(blocks := s.blocks[o := b]), o, pick).value;
      Own(u, o) && Honest(u, pending) && !u.info[u.blocks[o].id].computed
  {
    hide InvHeld, Own, Honest;
    CowMoves(s, o, b, pick);
    Unshare(s, o);
    SameReports(s, Unshared(s, o), pending);
    var f := Unshared(s, o);
    AllocateBlockIdCorrect(f, pick);
    TakeHonest(f, pick, pending);
    var (id, t) := AllocateBlockId(f, pick).value;
    var r := Recorded(t, (b.id, id));
    RecordCow(t, b.id, id);
    SameReports(t, r, pending);
    OwnFromHeld(r, o, b.(id := id));
    HonestElsewhere(r, o, b.(id := id), pending);
  }

  lemma ReplaceHonest(s: State, o: Obj, before: Chain, i: nat, token: TokenId, pending: set<BlockId>)
    requires CollisionFree(s.cfg.mix) && Inv(s) && Honest(s, pending) && MayReplace(s, o, before, i, token)
    ensures ReplaceToken(s, o, before, i, token).Ok?
    ensures
      var op := OpReplace(o, before, i, token);
      var t := ReplaceToken(s, o, before, i, token).value;
      Honest(t, Pending(s, pending, op, t)) <==> Prompt(s, pending, op)
  {
    hide InvHeld, CollisionFree, Honest, Own, Settle;
    ReplaceTokenCorrect(s, o, before, i, token);
    ReplaceReady(s, o, before, i, token);
    UsesOf(s, o);
    var b := Replaced(s.blocks[o], before, i, token);
    OwnFromInv(s, o, b);
    HonestElsewhere(s, o, b, pending);
    SettleHonest(s.(blocks := s.blocks[o := b]), o, |Known(s.blocks[o].tokens)|, pending);
  }

  lemma FreeHonest(s: State, o: Obj, pending: set<BlockId>)
    requires Inv(s) && Honest(s, pending) && o in s.blocks
    ensures Free(s, o).Ok? && (Honest(Free(s, o).value, pending) <==> Prompt(s, pending, OpFree(o)))
  {
    hide InvHeld, Honest, Free, HashOf;
    UsesOf(s, o);
    if Shared(s, o) {
      FreeShared(s, o);
      SameReports(s, Unshared(s, o), pending);
    } else if HashOf(s.cfg, s.blocks[o]) != INVALID_HASH_VALUE {
      FreeRetires(s, o);
      RetiredHonest(s, o, pending);
    } else {
      FreeDrops(s, o, pending);
    }
  }

  lemma FreeShared(s: State, o: Obj)
    requires o in s.blocks && s.blocks[o].id in s.refs && Shared(s, o)
    ensures Free(s, o) == Ok(Unshared(s, o))
  {
  }

  /** An id that no cache entry names is not reported. */
  lemma FreeDrops(s: State, o: Obj, pending: set<BlockId>)
    requires Inv(s) && Honest(s, pending) && o in s.blocks && Alone(s, o)
    requires HashOf(s.cfg, s.blocks[o]) == INVALID_HASH_VALUE
    ensures Free(s, o).Ok? && Honest(Free(s, o).value, pending)
  {
    hide InvHeld;
    var f, id := s.(blocks := s.blocks - {o}), s.blocks[o].id;
    Unbind(s, o);
    forall h | h in s.cached ensures s.cached[h] != id { NotHeld(f, id, h); }
    Drop(f, id);
    var t := Dropped(f, id);
    assert Free(s, o) == Ok(t);
    forall h | h in t.cached && Reported(t, t.cached[h]) ensures t.cached[h] !in pending {
      assert Reported(s, s.cached[h]);
    }
  }

  lemma NotHeld(s: State, id: BlockId, h: HashValue)
    requires InvHeld(s, Some(id)) && h in s.cached
    ensures s.cached[h] != id
  {
    EntryFact(s, Some(id), h);
  }

  lemma RetiredHonest(s: State, o: Obj, pending: set<BlockId>)
    requires Inv(s) && Honest(s, pending) && o in s.blocks && s.blocks[o].id in s.info && Alone(s, o)
    requires HashOf(s.cfg, s.blocks[o]) != INVALID_HASH_VALUE
    ensures Honest(Retired(s, o), pending) <==> s.blocks[o].id !in pending
  {
    BlockFact(s, None, o);
    var t := Retired(s, o);
    var id := s.blocks[o].id;
    var h := HashOf(s.cfg, s.blocks[o]);
    assert h in t.cached && t.cached[h] == id && Reported(t, id);
    if id !in pending {
      forall g | g in t.cached && Reported(t, t.cached[g]) ensures t.cached[g] !in pending {
        if t.cached[g] != id { assert Reported(s, s.cached[g]); }
      }
    }
  }

  // ---------- exactly when the report may be believed ----------

  /** From an honest state, an operation leads to an honest one if and only if it is prompt. */
  lemma HonestExact(s: State, pending: set<BlockId>, op: Op)
    requires CollisionFree(s.cfg.mix) && Inv(s) && Honest(s, pending) && Legal(s, op) && Apply(s, op).Ok?
    ensures
      var t := Apply(s, op).value;
      Honest(t, Pending(s, pending, op, t)) <==> Prompt(s, pending, op)
  {
    hide InvHeld, CollisionFree, Honest, AllocateMutableBlock, AppendTokenIds, ReplaceToken, Free, WellFormed;
    match op
    case OpAllocateMutable(o, before, ts, extra, pick) =>
      AllocateHonest(s, o, before, ts, extra, pick, pending);
    case OpAllocateImmutable(o, before, ts, extra, pick) =>
      if HitsAtOnce(s, op) {
        HitHonest(s, o, before, ts, extra, pick, pending);
      } else {
        AllocateHonest(s, o, before, ts, extra, pick, pending);
      }
    case OpAppend(o, before, ts, pick) =>
      AppendHonest(s, o, before, ts, pick, pending);
    case OpReplace(o, before, i, token) =>
      ReplaceHonest(s, o, before, i, token, pending);
    case OpFork(o, copy) =>
      Copy(s, o, copy);
      SameReports(s, Copied(s, o, copy), pending);
    case OpFree(o) =>
      FreeHonest(s, o, pending);
    case OpMarkComputed =>
      NothingPending(Apply(s, op).value);
    case OpMarkAccessed(id, now) =>
      MarkBlockAsAccessedCorrect(s, id, now);
      StampHonest(s, id, now, pending);
    case OpClearCopies =>
      SameReports(s, ClearCopyOnWrites(s), pending);
  }

  lemma NothingPending(s: State)
    ensures Honest(s, {})
  {
  }

  lemma StampHonest(s: State, id: BlockId, now: TimeStamp, pending: set<BlockId>)
    requires Honest(s, pending) && MarkBlockAsAccessed(s, id, now).Ok?
    ensures Honest(MarkBlockAsAccessed(s, id, now).value, pending)
  {
    var t := MarkBlockAsAccessed(s, id, now).value;
    forall h | h in t.cached && Reported(t, t.cached[h]) ensures t.cached[h] !in pending {
      assert Reported(s, s.cached[h]);
    }
  }

  /** A block found in the cache joins the id found there. */
  lemma HitIs(s: State, o: Obj, before: Chain, ts: seq<TokenId>, extra: HashValue, pick: BlockId) returns (b: Block)
    requires CollisionFree(s.cfg.mix) && Inv(s) && MayPlace(s, o, before, ts, extra)
    requires HashOf(s.cfg, Block(before, ts, extra, 0)) in s.cached
    ensures HashOf(s.cfg, b) in s.cached && b.id == s.cached[HashOf(s.cfg, b)] && b.id in s.refs
    ensures AllocateImmutableBlock(s, o, before, ts, extra, pick) == Ok(Joined(s, o, b))
  {
    hide InvHeld, CollisionFree, IncrRefCountCacheBlock, Joined;
    b := Block(before, ts, extra, s.cached[HashOf(s.cfg, Block(before, ts, extra, 0))]);
    HitJoins(s, o, b);
  }

  lemma HitHonest(s: State, o: Obj, before: Chain, ts: seq<TokenId>, extra: HashValue, pick: BlockId,
                  pending: set<BlockId>)
    requires CollisionFree(s.cfg.mix) && Inv(s) && Honest(s, pending) && MayPlace(s, o, before, ts, extra)
    requires HashOf(s.cfg, Block(before, ts, extra, 0)) in s.cached
    ensures AllocateImmutableBlock(s, o, before, ts, extra, pick).Ok?
    ensures Honest(AllocateImmutableBlock(s, o, before, ts, extra, pick).value, pending)
  {
    hide InvHeld, Honest, AllocateImmutableBlock, CollisionFree, MayPlace;
    var b := HitIs(s, o, before, ts, extra, pick);
    JoinedHonest(s, o, b, pending);
  }

  lemma LedgerOf(s: State, h: HashValue)
    requires Inv(s) && h in s.cached
    ensures EntryLedger(s, s.cached[h])
  {
    EntryFact(s, None, h);
  }

  lemma JoinedHonest(s: State, o: Obj, b: Block, pending: set<BlockId>)
    requires Inv(s) && Honest(s, pending) && HashOf(s.cfg, b) in s.cached && b.id == s.cached[HashOf(s.cfg, b)]
    requires b.id in s.refs
    ensures Honest(Joined(s, o, b), pending)
  {
    hide InvHeld, HashOf;
    LedgerOf(s, HashOf(s.cfg, b));
    var t := Joined(s, o, b);
    forall g | g in t.cached && Reported(t, t.cached[g]) ensures t.cached[g] !in pending {
      LedgerOf(s, g);
      assert Reported(s, s.cached[g]);
    }
  }

  /** Every operation of the run is prompt. */
  ghost predicate PromptRun(s: State, pending: set<BlockId>, ops: seq<Op>)
    decreases |ops|
  {
    ops != [] && Apply(s, ops[0]).Ok? ==>
      var t := Apply(s, ops[0]).value;
      Prompt(s, pending, ops[0]) && PromptRun(t, Pending(s, pending, ops[0], t), ops[1..])
  }

  /** Every state of the run is honest. */
  ghost predicate HonestRun(s: State, pending: set<BlockId>, ops: seq<Op>)
    decreases |ops|
  {
    && Honest(s, pending)
    && (ops != [] && Apply(s, ops[0]).Ok? ==>
          var t := Apply(s, ops[0]).value;
          HonestRun(t, Pending(s, pending, ops[0], t), ops[1..]))
  }

  /** Throughout a run, whatever is reported as computed has been computed since it was put in, exactly if every
      operation of the run is prompt. */
  lemma {:induction false} HonestRunExact(s: State, pending: set<BlockId>, ops: seq<Op>)
    requires CollisionFree(s.cfg.mix) && Inv(s) && Honest(s, pending) && LegalRun(s, ops)
    ensures HonestRun(s, pending, ops) <==> PromptRun(s, pending, ops)
    decreases |ops|
  {
    hide Inv, CollisionFree, Legal, Apply, Honest, Prompt, Pending;
    if ops != [] && Apply(s, ops[0]).Ok? {
      HonestExact(s, pending, ops[0]);
      ApplyCorrect(s, ops[0]);
      var t := Apply(s, ops[0]).value;
      var more := Pending(s, pending, ops[0], t);
      if Prompt(s, pending, ops[0]) {
        HonestRunExact(t, more, ops[1..]);
      } else {
        assert !HonestRun(t, more, ops[1..]);
      }
    }
  }

  // ---------- from the start, only early frees matter ----------

  /** No last holder frees a hashed block before the device is done with its content. */
  ghost predicate FreesInTime(s: State, pending: set<BlockId>, op: Op) {
    op.OpFree? ==> Prompt(s, pending, op)
  }

  /** Touched ids are pending ones in use, and no unfinished block sits on an id that is or will be marked. */
  ghost predicate Unmarked(s: State, pending: set<BlockId>) {
    && s.touched <= pending
    && (forall id :: id in s.touched ==> id in s.refs && s.refs[id] > 0)
    && (forall o :: o in s.blocks && HashOf(s.cfg, s.blocks[o]) == INVALID_HASH_VALUE ==> Clean(s, s.blocks[o].id))
  }

  ghost predicate Clean(s: State, id: BlockId) {
    id in s.info && !s.info[id].computed && id !in s.touched
  }

  lemma CleanFact(s: State, pending: set<BlockId>, o: Obj)
    requires Unmarked(s, pending) && o in s.blocks && HashOf(s.cfg, s.blocks[o]) == INVALID_HASH_VALUE
    ensures Clean(s, s.blocks[o].id)
  {
  }

  /** A block on a cached id is hashed. */
  lemma CachedHashed(t: State, h: HashValue, p: Obj)
    requires Inv(t) && h in t.cached && p in t.blocks && t.blocks[p].id == t.cached[h]
    ensures HashOf(t.cfg, t.blocks[p]) == h != INVALID_HASH_VALUE
  {
  }

  lemma SettleUnmarked(u: State, o: Obj, from: nat, pending: set<BlockId>)
    requires Own(u, o) && Clean(u, u.blocks[o].id) && Unmarked(u, pending)
    requires Settle(u, o, from).Ok? && Inv(Settle(u, o, from).value)
    ensures Unmarked(Settle(u, o, from).value,
                     if HashOf(u.cfg, u.blocks[o]) in u.cached then pending else pending + {u.blocks[o].id})
  {
    var b := u.blocks[o];
    var h := HashOf(u.cfg, b);
    var t := Settle(u, o, from).value;
    hide InvHeld;
    if h in u.cached {
      SettleJoins(u, o, from);
      SettleRefs(u, o, from);
      forall p | p in t.blocks && HashOf(t.cfg, t.blocks[p]) == INVALID_HASH_VALUE ensures Clean(t, t.blocks[p].id) {
        CleanFact(u, pending, p);
        if t.blocks[p].id == t.cached[h] { CachedHashed(t, h, p); }
        UsesOf(t, p);
      }
    } else {
      forall p | p in t.blocks && HashOf(t.cfg, t.blocks[p]) == INVALID_HASH_VALUE ensures Clean(t, t.blocks[p].id) {
        CleanFact(u, pending, p);
        if h != INVALID_HASH_VALUE && t.blocks[p].id == b.id { CachedHashed(t, h, p); }
      }
    }
  }

  lemma SettleRefs(u: State, o: Obj, from: nat)
    requires Own(u, o) && HashOf(u.cfg, u.blocks[o]) in u.cached && Settle(u, o, from).Ok?
    ensures
      var t := Settle(u, o, from).value;
      var own, k := u.blocks[o].id, u.cached[HashOf(u.cfg, u.blocks[o])];
      && t.cfg == u.cfg && t.touched == u.touched && t.blocks == u.blocks[o := u.blocks[o].(id := k)]
      && own in t.refs && t.refs[own] == 0 && k in t.refs && t.refs[k] > 0
      && forall id :: id in u.refs && id != own && id != k ==> id in t.refs && t.refs[id] == u.refs[id]
  {
    assert EntryLedger(u, u.cached[HashOf(u.cfg, u.blocks[o])]);
  }

  lemma TakeUnmarked(s: State, pick: BlockId, pending: set<BlockId>)
    requires Inv(s) && Unmarked(s, pending) && Available(s) > 0
    ensures AllocateBlockId(s, pick).Ok?
    ensures
      var (id, t) := AllocateBlockId(s, pick).value;
      Unmarked(t, pending) && Clean(t, id)
  {
    AllocateBlockIdCorrect(s, pick);
    var (id, t) := AllocateBlockId(s, pick).value;
    if s.free != [] {
      TakeFree(s, pick);
    } else {
      assert t == TakenEvicted(s, id);
    }
    forall o | o in t.blocks && HashOf(t.cfg, t.blocks[o]) == INVALID_HASH_VALUE ensures Clean(t, t.blocks[o].id) {
      CleanFact(s, pending, o);
      HolderUses(s, None, o);
    }
  }

  lemma UnmarkedWith(t: State, o: Obj, b: Block, pending: set<BlockId>)
    requires Unmarked(t, pending) && Clean(t, b.id)
    ensures Unmarked(t.(blocks := t.blocks[o := b]), pending)
  {
    var u := t.(blocks := t.blocks[o := b]);
    forall p | p in u.blocks && HashOf(u.cfg, u.blocks[p]) == INVALID_HASH_VALUE ensures Clean(u, u.blocks[p].id) {
      if p != o { CleanFact(t, pending, p); }
    }
  }

  lemma AllocateUnmarked(s: State, o: Obj, before: Chain, ts: seq<TokenId>, extra: HashValue, pick: BlockId,
                         pending: set<BlockId>)
    requires CollisionFree(s.cfg.mix) && Inv(s) && Unmarked(s, pending) && MayPlace(s, o, before, ts, extra)
    requires AllocateMutableBlock(s, o, before, ts, extra, pick).Ok?
    ensures Allocated(s, o, before, ts, extra, pick).Ok? && o in Allocated(s, o, before, ts, extra, pick).value.blocks
    ensures
      var u := Allocated(s, o, before, ts, extra, pick).value;
      var t := AllocateMutableBlock(s, o, before, ts, extra, pick).value;
      Unmarked(t, if HashOf(u.cfg, u.blocks[o]) in u.cached then pending else pending + {u.blocks[o].id})
  {
    hide InvHeld, CollisionFree, Unmarked, Own, Settle;
    AllocateMutableBlockCorrect(s, o, before, ts, extra, pick);
    AllocateBlockIdCorrect(s, pick);
    TakeUnmarked(s, pick, pending);
    var (id, t) := AllocateBlockId(s, pick).value;
    var b := Block(before, ts, extra, id);
    TakenHeld(t, id);
    FirstAppend(t, o, b, pick);
    OwnFromHeld(t, o, b);
    UnmarkedWith(t, o, b, pending);
    SettleUnmarked(t.(blocks := t.blocks[o := b]), o, 0, pending);
  }

  lemma AppendUnmarked(s: State, o: Obj, before: Chain, ts: seq<TokenId>, pick: BlockId, pending: set<BlockId>)
    requires CollisionFree(s.cfg.mix) && Inv(s) && Unmarked(s, pending) && MayAppend(s, o, before, ts)
    requires AppendTokenIds(s, o, before, ts, pick).Ok?
    ensures
      var op := OpAppend(o, before, ts, pick);
      var t := AppendTokenIds(s, o, before, ts, pick).value;
      Unmarked(t, Pending(s, pending, op, t))
  {
    hide InvHeld, CollisionFree, Unmarked, Own, Settle, CowBlockIfNotAppendable;
    var b := Appended(s.blocks[o], before, ts);
    var from := |Known(s.blocks[o].tokens)|;
    var u0 := s.(blocks := s.blocks[o := b]);
    AppendTokenIdsCorrect(s, o, before, ts, pick);
    RebasedHash(s.cfg, s.blocks[o], before);
    assert AppendTokenIds(s, o, before, ts, pick) == CowAndSettle(u0, o, from, pick);
    UsesOf(s, o);
    if Shared(s, o) {
      CowUnmarked(s, o, b, pick, pending);
      SettleUnmarked(CowBlockIfNotAppendable(u0, o, pick).value, o, from, pending);
    } else {
      CowNot(u0, o, pick);
      OwnFromInv(s, o, b);
      CleanFact(s, pending, o);
      UnmarkedWith(s, o, b, pending);
      SettleUnmarked(u0, o, from, pending);
    }
  }

  lemma UnsharedUnmarked(s: State, o: Obj, pending: set<BlockId>)
    requires Inv(s) && Unmarked(s, pending) && o in s.blocks && s.blocks[o].id in s.refs && Shared(s, o)
    ensures Unmarked(Unshared(s, o), pending)
  {
    var f := Unshared(s, o);
    forall p | p in f.blocks && HashOf(f.cfg, f.blocks[p]) == INVALID_HASH_VALUE ensures Clean(f, f.blocks[p].id) {
      CleanFact(s, pending, p);
    }
  }

  lemma CowUnmarked(s: State, o: Obj, b: Block, pick: BlockId, pending: set<BlockId>)
    requires Inv(s) && Unmarked(s, pending) && o in s.blocks && b.id == s.blocks[o].id && s.refs[b.id] > 1
    requires CowBlockIfNotAppendable(s.(blocks := s.blocks[o := b]), o, pick).Ok?
    ensures
      var u := CowBlockIfNotAppendable(s.(blocks := s.blocks[o := b]), o, pick).value;
      Own(u, o) && Unmarked(u, pending) && Clean(u, u.blocks[o].id)
  {
    hide InvHeld, Own, Unmarked;
    CowMoves(s, o, b, pick);
    Unshare(s, o);
    UnsharedUnmarked(s, o, pending);
    var f := Unshared(s, o);
    AllocateBlockIdCorrect(f, pick);
    TakeUnmarked(f, pick, pending);
    var (id, t) := AllocateBlockId(f, pick).value;
    var r := Recorded(t, (b.id, id));
    RecordCow(t, b.id, id);
    OwnFromHeld(r, o, b.(id := id));
    RecordedUnmarked(t, (b.id, id), pending);
    UnmarkedWith(r, o, b.(id := id), pending);
  }

  lemma RecordedUnmarked(t: State, pair: (BlockId, BlockId), pending: set<BlockId>)
    requires Unmarked(t, pending)
    ensures Unmarked(Recorded(t, pair), pending)
  {
    var r := Recorded(t, pair);
    forall p | p in r.blocks && HashOf(r.cfg, r.blocks[p]) == INVALID_HASH_VALUE ensures Clean(r, r.blocks[p].id) {
      CleanFact(t, pending, p);
    }
  }

  lemma ReplaceUnmarked(s: State, o: Obj, before: Chain, i: nat, token: TokenId, pending: set<BlockId>)
    requires CollisionFree(s.cfg.mix) && Inv(s) && Unmarked(s, pending) && MayReplace(s, o, before, i, token)
    ensures ReplaceToken(s, o, before, i, token).Ok?
    ensures
      var op := OpReplace(o, before, i, token);
      var t := ReplaceToken(s, o, before, i, token).value;
      Unmarked(t, Pending(s, pending, op, t))
  {
    hide InvHeld, CollisionFree, Unmarked, Own, Settle;
    ReplaceTokenCorrect(s, o, before, i, token);
    ReplaceReady(s, o, before, i, token);
    UsesOf(s, o);
    var b := Replaced(s.blocks[o], before, i, token);
    OwnFromInv(s, o, b);
    CleanFact(s, pending, o);
    UnmarkedWith(s, o, b, pending);
    SettleUnmarked(s.(blocks := s.blocks[o := b]), o, |Known(s.blocks[o].tokens)|, pending);
  }

  lemma FreeUnmarked(s: State, o: Obj, pending: set<BlockId>)
    requires Inv(s) && Unmarked(s, pending) && o in s.blocks && Prompt(s, pending, OpFree(o))
    ensures Free(s, o).Ok? && Unmarked(Free(s, o).value, pending)
  {
    hide InvHeld;
    FreeCorrect(s, o);
    UsesOf(s, o);
    if Shared(s, o) {
      UnsharedUnmarked(s, o, pending);
      FreeShared(s, o);
    } else {
      if HashOf(s.cfg, s.blocks[o]) == INVALID_HASH_VALUE { CleanFact(s, pending, o); }
      AloneFreed(s, o, pending);
    }
  }

  lemma AloneFreed(s: State, o: Obj, pending: set<BlockId>)
    requires Inv(s) && Unmarked(s, pending) && o in s.blocks && Alone(s, o) && Free(s, o).Ok?
    requires s.blocks[o].id !in s.touched
    ensures Unmarked(Free(s, o).value, pending)
  {
    var t := Free(s, o).value;
    assert o in Holders(s.blocks, s.blocks[o].id);
    forall p | p in t.blocks && HashOf(t.cfg, t.blocks[p]) == INVALID_HASH_VALUE ensures Clean(t, t.blocks[p].id) {
      CleanFact(s, pending, p);
      OnlyHolder(s, o, p);
    }
  }

  lemma OnlyHolder(s: State, o: Obj, p: Obj)
    requires Inv(s) && o in s.blocks && Alone(s, o) && p in s.blocks && p != o
    ensures s.blocks[p].id != s.blocks[o].id
  {
    HoldersLose(s.blocks, o, s.blocks[o].id);
    assert p in s.blocks - {o};
    assert p !in Holders(s.blocks - {o}, s.blocks[o].id);
  }

  lemma HitUnmarked(s: State, o: Obj, before: Chain, ts: seq<TokenId>, extra: HashValue, pick: BlockId,
                    pending: set<BlockId>)
    requires CollisionFree(s.cfg.mix) && Inv(s) && Unmarked(s, pending) && MayPlace(s, o, before, ts, extra)
    requires HashOf(s.cfg, Block(before, ts, extra, 0)) in s.cached
    ensures AllocateImmutableBlock(s, o, before, ts, extra, pick).Ok?
    ensures Unmarked(AllocateImmutableBlock(s, o, before, ts, extra, pick).value, pending)
  {
    hide InvHeld, Unmarked, AllocateImmutableBlock, CollisionFree, MayPlace;
    var b := HitIs(s, o, before, ts, extra, pick);
    JoinedUnmarked(s, o, b, pending);
  }

  lemma JoinedUnmarked(s: State, o: Obj, b: Block, pending: set<BlockId>)
    requires Inv(s) && Unmarked(s, pending) && HashOf(s.cfg, b) in s.cached && b.id == s.cached[HashOf(s.cfg, b)]
    requires b.id in s.refs
    ensures Unmarked(Joined(s, o, b), pending)
  {
    hide InvHeld, PrefixHash;
    CachedId(s, HashOf(s.cfg, b));
    var t := Joined(s, o, b);
    forall p | p in t.blocks && HashOf(t.cfg, t.blocks[p]) == INVALID_HASH_VALUE ensures Clean(t, t.blocks[p].id) {
      CleanFact(s, pending, p);
      if t.blocks[p].id == b.id { CachedHashed(s, HashOf(s.cfg, b), p); }
    }
  }

  lemma CopyUnmarked(s: State, o: Obj, copy: Obj, pending: set<BlockId>)
    requires Unmarked(s, pending) && o in s.blocks && s.blocks[o].id in s.refs
    ensures Unmarked(Copied(s, o, copy), pending)
  {
    var t := Copied(s, o, copy);
    forall p | p in t.blocks && HashOf(t.cfg, t.blocks[p]) == INVALID_HASH_VALUE ensures Clean(t, t.blocks[p].id) {
      CleanFact(s, pending, if p == copy then o else p);
    }
  }

  lemma MarkUnmarked(s: State, pending: set<BlockId>)
    requires Unmarked(s, pending)
    ensures Unmarked(MarkBlocksAsComputed(s), {})
  {
    var t := MarkBlocksAsComputed(s);
    forall p | p in t.blocks && HashOf(t.cfg, t.blocks[p]) == INVALID_HASH_VALUE ensures Clean(t, t.blocks[p].id) {
      CleanFact(s, pending, p);
    }
  }

  lemma ClearedUnmarked(s: State, pending: set<BlockId>)
    requires Unmarked(s, pending)
    ensures Unmarked(ClearCopyOnWrites(s), pending)
  {
    var t := ClearCopyOnWrites(s);
    forall p | p in t.blocks && HashOf(t.cfg, t.blocks[p]) == INVALID_HASH_VALUE ensures Clean(t, t.blocks[p].id) {
      CleanFact(s, pending, p);
    }
  }

  lemma StampUnmarked(s: State, id: BlockId, now: TimeStamp, pending: set<BlockId>)
    requires Unmarked(s, pending) && MarkBlockAsAccessed(s, id, now).Ok?
    ensures Unmarked(MarkBlockAsAccessed(s, id, now).value, pending)
  {
    var t := MarkBlockAsAccessed(s, id, now).value;
    forall p | p in t.blocks && HashOf(t.cfg, t.blocks[p]) == INVALID_HASH_VALUE ensures Clean(t, t.blocks[p].id) {
      CleanFact(s, pending, p);
    }
  }

  /** As long as blocks are freed in time, no unfinished block gets marked. */
  lemma UnmarkedKept(s: State, pending: set<BlockId>, op: Op)
    requires CollisionFree(s.cfg.mix) && Inv(s) && Unmarked(s, pending) && Legal(s, op) && Apply(s, op).Ok?
    requires FreesInTime(s, pending, op)
    ensures Unmarked(Apply(s, op).value, Pending(s, pending, op, Apply(s, op).value))
  {
    hide InvHeld, CollisionFree, Unmarked, AllocateMutableBlock, AppendTokenIds, ReplaceToken, Free, WellFormed;
    match op
    case OpAllocateMutable(o, before, ts, extra, pick) =>
      AllocateUnmarked(s, o, before, ts, extra, pick, pending);
    case OpAllocateImmutable(o, before, ts, extra, pick) =>
      if HitsAtOnce(s, op) {
        HitUnmarked(s, o, before, ts, extra, pick, pending);
      } else {
        AllocateUnmarked(s, o, before, ts, extra, pick, pending);
      }
    case OpAppend(o, before, ts, pick) =>
      AppendUnmarked(s, o, before, ts, pick, pending);
    case OpReplace(o, before, i, token) =>
      ReplaceUnmarked(s, o, before, i, token, pending);
    case OpFork(o, copy) =>
      UsesOf(s, o);
      Copy(s, o, copy);
      CopyUnmarked(s, o, copy, pending);
    case OpFree(o) =>
      FreeUnmarked(s, o, pending);
    case OpMarkComputed =>
      MarkUnmarked(s, pending);
    case OpMarkAccessed(id, now) =>
      StampUnmarked(s, id, now, pending);
    case OpClearCopies =>
      ClearedUnmarked(s, pending);
  }

  /** Unfinished blocks being unmarked, an operation is prompt if it frees in time. */
  lemma PromptIsInTime(s: State, pending: set<BlockId>, op: Op)
    requires Inv(s) && Unmarked(s, pending) && Legal(s, op)
    ensures Prompt(s, pending, op) <==> FreesInTime(s, pending, op)
  {
    if op.OpAppend? { CleanFact(s, pending, op.o); }
    if op.OpReplace? {
      ReplaceReady(s, op.o, op.before, op.i, op.token);
      CleanFact(s, pending, op.o);
    }
  }

  /** Every last holder in the run frees in time. */
  ghost predicate RunFreesInTime(s: State, pending: set<BlockId>, ops: seq<Op>)
    decreases |ops|
  {
    ops != [] && Apply(s, ops[0]).Ok? ==>
      var t := Apply(s, ops[0]).value;
      FreesInTime(s, pending, ops[0]) && RunFreesInTime(t, Pending(s, pending, ops[0], t), ops[1..])
  }

  lemma {:induction false} HonestFrom(s: State, pending: set<BlockId>, ops: seq<Op>)
    requires CollisionFree(s.cfg.mix) && Inv(s) && Honest(s, pending) && Unmarked(s, pending) && LegalRun(s, ops)
    ensures HonestRun(s, pending, ops) <==> RunFreesInTime(s, pending, ops)
    decreases |ops|
  {
    hide Inv, CollisionFree, Legal, Apply, Honest, Prompt, Pending, Unmarked, FreesInTime;
    if ops != [] && Apply(s, ops[0]).Ok? {
      HonestExact(s, pending, ops[0]);
      PromptIsInTime(s, pending, ops[0]);
      ApplyCorrect(s, ops[0]);
      var t := Apply(s, ops[0]).value;
      var more := Pending(s, pending, ops[0], t);
      if FreesInTime(s, pending, ops[0]) {
        UnmarkedKept(s, pending, ops[0]);
        HonestFrom(t, more, ops[1..]);
      } else {
        assert !HonestRun(t, more, ops[1..]);
      }
    }
  }

  /** From the start, everything reported as computed has been computed, throughout a run, exactly if no last
      holder frees a block before the device is done with it: marking goes wrong only after such a free. */
  lemma HonestFromStart(cfg: Config, ops: seq<Op>)
    requires cfg.blockSize > 0 && CollisionFree(cfg.mix) && LegalRun(Initial(cfg), ops)
    ensures HonestRun(Initial(cfg), {}, ops) <==> RunFreesInTime(Initial(cfg), {}, ops)
  {
    InitialInv(cfg);
    HonestFrom(Initial(cfg), {}, ops);
  }

  // ---------- runs in which the report is wrong ----------

  lemma ReadyTwo(mix: Mixer, b: Block)
    requires CollisionFree(mix) && b.before == Root && |b.tokens| == 2 && b.tokens[1] != PLACEHOLDER_TOKEN
    ensures HashOf(OneBlock(mix), b) != INVALID_HASH_VALUE
  {
    assert ChainHash(mix, ChainOf(b)) == mix(ChainHash(mix, Root), b.tokens, b.extra);
  }

  /** The only block is allocated and filled. */
  lemma FilledOnce(mix: Mixer) returns (t: State)
    requires CollisionFree(mix)
    ensures
      var s, op := Initial(OneBlock(mix)), OpAllocateMutable(0, Root, [5, 6], 0, 0);
      var h := HashOf(OneBlock(mix), Block(Root, [5, 6], 0, 0));
      && Legal(s, op) && Apply(s, op) == Ok(t) && Pending(s, {}, op, t) == {0} && Honest(t, {0})
      && Inv(t) && t.cfg == OneBlock(mix) && t.blocks == map[0 := Block(Root, [5, 6], 0, 0)] && Alone(t, 0)
      && h != INVALID_HASH_VALUE && t.cached == map[h := 0] && t.touched == {0} && t.free == [] && t.evictor == map[]
  {
    hide InvHeld, CollisionFree, AppendTokenIds, Settle;
    var s, op := Initial(OneBlock(mix)), OpAllocateMutable(0, Root, [5, 6], 0, 0);
    var b := Block(Root, [5, 6], 0, 0);
    InitialInv(s.cfg);
    assert s.free == [0];
    TakeFree(s, 0);
    FirstAppend(TakenFree(s), 0, b, 0);
    ReadyTwo(mix, b);
    SettleBinds(TakenFree(s), 0, b, 0);
    AllocateMutableBlockCorrect(s, 0, Root, [5, 6], 0, 0);
    t := Bound(TakenFree(s), 0, b);
    SoleAlone(t, 0);
    assert Honest(s, {}) && Prompt(s, {}, op);
    HonestExact(s, {}, op);
  }

  /** A block completed and freed before MarkBlocksAsComputed is reported as computed, since the evictor has it:
      a run of two operations. */
  lemma EarlyFreeReports(mix: Mixer)
    requires CollisionFree(mix)
    ensures
      var s, op := Initial(OneBlock(mix)), OpAllocateMutable(0, Root, [5, 6], 0, 0);
      && Legal(s, op) && Apply(s, op).Ok?
      && var t := Apply(s, op).value;
      && Legal(t, OpFree(0)) && Apply(t, OpFree(0)).Ok? && !Honest(Apply(t, OpFree(0)).value, Pending(s, {}, op, t))
  {
    var t := FilledOnce(mix);
    FreeHonest(t, 0, {0});
  }

  /** Marking takes in whoever now holds a touched id: completing that block in place is then reported at once,
      before the device has computed its last tokens. */
  lemma StaleMarkReports(s: State, o: Obj, before: Chain, ts: seq<TokenId>, pick: BlockId)
    requires CollisionFree(s.cfg.mix) && Inv(s) && o in s.blocks && Alone(s, o) && s.blocks[o].id in s.touched
    requires MayAppend(s, o, before, ts) && FoundsEntry(s, Appended(s.blocks[o], before, ts))
    ensures
      var u, op := MarkBlocksAsComputed(s), OpAppend(o, before, ts, pick);
      && Honest(u, {}) && Legal(u, op) && Apply(u, op).Ok?
      && !Honest(Apply(u, op).value, Pending(u, {}, op, Apply(u, op).value))
  {
    hide InvHeld, CollisionFree, Pending;
    MarkBlocksAsComputedCorrect(s);
    UsesOf(s, o);
    var u, op := MarkBlocksAsComputed(s), OpAppend(o, before, ts, pick);
    assert Honest(u, {});
    AppendTokenIdsCorrect(u, o, before, ts, pick);
    AppendHonest(u, o, before, ts, pick, {});
  }

  /** Its only holder frees the block. */
  lemma FreedOnce(f: State) returns (s: State)
    requires Inv(f) && f.blocks.Keys == {0} && Alone(f, 0) && f.blocks[0].id == 0 && f.free == [] && f.evictor == map[]
    requires HashOf(f.cfg, f.blocks[0]) != INVALID_HASH_VALUE && f.cached == map[HashOf(f.cfg, f.blocks[0]) := 0]
    ensures Legal(f, OpFree(0)) && Apply(f, OpFree(0)) == Ok(s)
    ensures Inv(s) && s.cfg == f.cfg && s.blocks == map[] && s.free == [] && s.evictor.Keys == {0}
    ensures s.evictor[0].prefixHash != INVALID_HASH_VALUE && s.cached == map[s.evictor[0].prefixHash := 0]
    ensures s.touched == f.touched
  {
    hide InvHeld, HashOf, Free;
    UsesOf(f, 0);
    Retire(f, 0);
    FreeRetires(f, 0);
    s := Retired(f, 0);
  }

  /** The freed block's id is taken for a block of one token. */
  lemma TakenAgain(s: State) returns (t: State)
    requires CollisionFree(s.cfg.mix) && Inv(s) && s.cfg == OneBlock(s.cfg.mix)
    requires s.blocks == map[] && s.free == [] && s.evictor.Keys == {0}
    requires s.evictor[0].prefixHash != INVALID_HASH_VALUE && s.cached == map[s.evictor[0].prefixHash := 0]
    ensures
      var op := OpAllocateMutable(1, Root, [7], 0, 0);
      && Legal(s, op) && Apply(s, op) == Ok(t)
      && Inv(t) && t.cfg == s.cfg && t.blocks == map[1 := Block(Root, [7], 0, 0)] && Alone(t, 1)
      && t.touched == s.touched && t.cached == map[]
  {
    hide InvHeld, CollisionFree, AppendTokenIds, Settle;
    var taken := TakenEvictedZero(s);
    var b := Block(Root, [7], 0, 0);
    FirstAppend(taken, 1, b, 0);
    SettleBinds(taken, 1, b, 0);
    AllocateMutableBlockCorrect(s, 1, Root, [7], 0, 0);
    t := Bound(taken, 1, b);
    SoleAlone(t, 1);
  }

  lemma TakenEvictedZero(s: State) returns (t: State)
    requires Inv(s) && s.free == [] && s.evictor.Keys == {0} && s.cached == map[s.evictor[0].prefixHash := 0]
    ensures AllocateBlockId(s, 0) == Ok((0, t)) && t.cfg == s.cfg && t.blocks == s.blocks && t.touched == s.touched
    ensures t.cached == map[] && 0 in t.refs && t.refs[0] == 1
  {
    hide InvHeld;
    TakeEvicted(s, 0);
    t := TakenEvicted(s, 0);
    EntryOfZero(s);
  }

  lemma EntryOfZero(s: State)
    requires Inv(s) && 0 in s.evictor
    ensures 0 in s.refs && s.refs[0] == 0 && 0 in s.info && !s.info[0].active && InRange(s.cfg, 0)
  {
  }

  lemma CompletesSeven(t: State)
    requires CollisionFree(t.cfg.mix) && t.cfg == OneBlock(t.cfg.mix) && t.cached == map[]
    requires t.blocks == map[1 := Block(Root, [7], 0, 0)]
    ensures MayAppend(t, 1, Root, [8]) && FoundsEntry(t, Appended(t.blocks[1], Root, [8]))
  {
    ReadyTwo(t.cfg.mix, Appended(t.blocks[1], Root, [8]));
  }

  lemma MarksAre(t: State)
    ensures Apply(t, OpMarkComputed) == Ok(MarkBlocksAsComputed(t))
  {
  }

  /** The run that gets there: after its owner's early free, an id is still touched when the next owner has it. */
  lemma StaleMarkReached(mix: Mixer)
    requires CollisionFree(mix)
    ensures
      var s := Initial(OneBlock(mix));
      var ops := [OpAllocateMutable(0, Root, [5, 6], 0, 0), OpFree(0), OpAllocateMutable(1, Root, [7], 0, 0),
                  OpMarkComputed];
      var op := OpAppend(1, Root, [8], 0);
      && LegalRun(s, ops) && Run(s, ops).Ok?
      && var u := Run(s, ops).value;
      && Honest(u, {}) && Legal(u, op) && Apply(u, op).Ok?
      && !Honest(Apply(u, op).value, Pending(u, {}, op, Apply(u, op).value))
  {
    hide InvHeld, CollisionFree, Apply, Pending, Honest;
    var s := Initial(OneBlock(mix));
    var f := FilledOnce(mix);
    var r := FreedOnce(f);
    var t := TakenAgain(r);
    var u := MarkBlocksAsComputed(t);
    var a, b := OpAllocateMutable(0, Root, [5, 6], 0, 0), OpAllocateMutable(1, Root, [7], 0, 0);
    MarksAre(t);
    RunTwo(r, b, t, OpMarkComputed, u);
    RunStep(f, OpFree(0), r, [b, OpMarkComputed]);
    RunStep(s, a, f, [OpFree(0), b, OpMarkComputed]);
    assert [a] + ([OpFree(0)] + [b, OpMarkComputed]) == [a, OpFree(0), b, OpMarkComputed];
    CompletesSeven(t);
    StaleMarkReports(t, 1, Root, [8], 0);
  }
}
