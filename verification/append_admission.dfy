/** Append admission: CanAppendSlot and the AppendSlot calls it admits. */
module AppendAdmission {
  import opened Basics
  import opened Arithmetic
  import opened Chunking
  import opened PrefixChain
  import opened PrefixCacheSpec
  import opened PrefixCacheSteps
  import opened PrefixCacheOperations
  import opened PrefixCacheRuns
  import opened PrefixCacheAllocator
  import opened BlockTableSpec
  import opened BlockTableSteps
  import opened BlockTables
  import opened LruEvictor

  // ---------- one sequence ----------

  /** The sequence `all` continues the table's tokens. */
  ghost predicate Continued(t: BlockTable, all: seq<TokenId>)
    reads t
  {
    t.objs != [] && t.tokens <= all && Suffixed(all) && t.alloc.cfg.blockSize > 0
  }

  /** Blocks behind the first one that is written, which only a lookahead leaves there, are not shared. */
  ghost predicate SpareUnshared(s: State, objs: seq<Obj>, n: nat) {
    WritableFrom(s, objs, FirstOpen(n, s.cfg.blockSize) + 1)
  }

  ghost predicate Awaiting(t: BlockTable, all: seq<TokenId>, s: State)
    reads t
  {
    Continued(t, all) && SpareUnshared(s, Addresses(t.objs), |t.tokens|) && s.cfg == t.alloc.cfg
  }

  ghost predicate ReadyToAppend(t: BlockTable, all: seq<TokenId>)
    reads t, t.objs, t.alloc, t.alloc.evictor, t.alloc.live.Values
  {
    t.Valid() && Awaiting(t, all, t.alloc.Abs())
  }

  /** The id of the block that holds the last of `n` tokens and takes the next, if both happen. */
  ghost function TailId(s: State, objs: seq<Obj>, n: nat, all: seq<TokenId>): Option<BlockId> {
    var first := FirstOpen(n, s.cfg.blockSize);
    if n < |all| && first < |objs| && objs[first] in s.blocks then Some(s.blocks[objs[first]].id) else None
  }

  /** One copy, if the tail is shared. */
  function CopyOf(tail: Option<BlockId>, refs: map<BlockId, int>): nat {
    if tail.Some? && tail.value in refs && refs[tail.value] > 1 then 1 else 0
  }

  /** Sharers left once that copy is made. */
  function AfterCopy(tail: Option<BlockId>, refs: map<BlockId, int>): map<BlockId, int> {
    if CopyOf(tail, refs) > 0 then refs[tail.value := refs[tail.value] - 1] else refs
  }

  /** How serving one sequence ends: it succeeds exactly given ids for its new blocks and for the copy of a
      shared tail. If no block gets hashed, it costs exactly these; nobody else's blocks change, and only
      the tail's id loses a user. */
  ghost predicate SlotResult(s: State, objs: seq<Obj>, n: nat, all: seq<TokenId>, lookahead: nat, r: Result<State>) {
    && s.cfg.blockSize > 0 && n <= |all| && n <= |objs| * s.cfg.blockSize
    && var tail := TailId(s, objs, n, all);
    var need := NewBlocks(|objs|, n, |all| - n + lookahead, s.cfg.blockSize) + CopyOf(tail, s.refs);
    match r
    case Err(e) => e == Exhausted && Available(s) < need
    case Ok(t) =>
      && Available(s) >= need && Available(t) >= Available(s) - need && Kept(s, t, objs) && t.cows == []
      && (Quiet(all, s.cfg.blockSize, FirstOpen(n, s.cfg.blockSize)) ==> Available(t) == Available(s) - need)
      && forall p :: p in s.blocks && p !in objs ==> Uses(s, t, p, tail == Some(s.blocks[p].id))
  }

  /** What is handed over: the copies recorded so far and that of a shared tail, from its old id to its new one. */
  ghost predicate Handed(s: State, t: State, objs: seq<Obj>, n: nat, all: seq<TokenId>,
                         pairs: seq<(BlockId, BlockId)>) {
    var tail := TailId(s, objs, n, all);
    if CopyOf(tail, s.refs) == 0 then pairs == s.cows
    else CopyAdded(s.cows, pairs, tail.value) && Lands(t, objs[FirstOpen(n, s.cfg.blockSize)], pairs[|s.cows|])
  }

  /** Whatever is shared, serving one sequence succeeds given an id for each new block and for each block that
      cannot be written in place. */
  ghost predicate SlotBound(s: State, objs: seq<Obj>, n: nat, all: seq<TokenId>, lookahead: nat, r: Result<State>) {
    && s.cfg.blockSize > 0 && n <= |all| && n <= |objs| * s.cfg.blockSize
    && var added := NewBlocks(|objs|, n, |all| - n + lookahead, s.cfg.blockSize);
    var need := added + Toll(s, objs, FirstOpen(n, s.cfg.blockSize), all[n..]);
    match r
    case Err(e) => e == Exhausted && Available(s) < need
    case Ok(t) => Available(s) >= added && Available(t) >= Available(s) - need && Kept(s, t, objs) && t.cows == []
  }

  /** Appends what the sequence `all` has generated. */
  method AppendSlot(t: BlockTable, all: seq<TokenId>, extra: HashValue, lookahead: nat)
    returns (r: Result<seq<(BlockId, BlockId)>>)
    requires t.Valid() && Continued(t, all)
    modifies t, t.alloc, t.alloc.evictor, t.objs
    ensures SlotBound(old(t.alloc.Abs()), Addresses(old(t.objs)), |old(t.tokens)|, all, lookahead,
                      if r.Ok? then Ok(t.alloc.Abs()) else Err(r.error))
    ensures SpareUnshared(old(t.alloc.Abs()), Addresses(old(t.objs)), |old(t.tokens)|) ==>
      && SlotResult(old(t.alloc.Abs()), Addresses(old(t.objs)), |old(t.tokens)|, all, lookahead,
                    if r.Ok? then Ok(t.alloc.Abs()) else Err(r.error))
      && (r.Ok? ==>
            Handed(old(t.alloc.Abs()), t.alloc.Abs(), Addresses(old(t.objs)), |old(t.tokens)|, all, r.value))
    ensures r.Ok? ==> t.Valid() && t.tokens == all && old(t.objs) <= t.objs && Extends(old(t.alloc.live), t.alloc.live)
    ensures r.Ok? ==> forall k :: |old(t.objs)| <= k < |t.objs| ==> fresh(t.objs[k])
  {
    hide *;
    ghost var s, addresses, n := t.alloc.Abs(), Addresses(t.objs), t.tokens;
    NewTokens(t, all);
    var ts := all[t.numFull..];
    var a := t.AppendTokenIds(ts, extra, lookahead);
    AppendedSlot(s, addresses, n, all, lookahead, if a.Ok? then Ok(t.alloc.Abs()) else Err(a.error));
    if a.Err? {
      return Err(a.error);
    }
    CowsOf(t.alloc);
    var pairs := TakeCopies(t);
    return Ok(pairs);
  }

  lemma NewTokens(t: BlockTable, all: seq<TokenId>)
    requires t.Valid() && Continued(t, all)
    ensures t.numFull == |t.tokens| <= |all| && t.tokens + all[t.numFull..] == all && Suffixed(all)
    ensures t.tokens <= all && t.alloc.cfg.blockSize > 0 && t.objs != []
    ensures |Addresses(t.objs)| == |t.objs| && t.alloc.Abs().cfg == t.alloc.cfg && t.alloc.Abs().cows == t.alloc.cows
    ensures Inv(t.alloc.Abs()) && Tabled(t.alloc.Abs(), Addresses(t.objs), t.tokens)
  {
    t.Sizes();
  }

  lemma CowsOf(alloc: PrefixCacheBlockAllocator)
    ensures alloc.Abs().cows == alloc.cows
  {
  }

  /** The only block that may need a copy is the tail. */
  lemma TollIsCopy(s: State, objs: seq<Obj>, n: seq<TokenId>, all: seq<TokenId>)
    requires Inv(s) && Tabled(s, objs, n) && n <= all && SpareUnshared(s, objs, |n|)
    ensures s.cfg.blockSize > 0
    ensures
      var first := FirstOpen(|n|, s.cfg.blockSize);
      && Toll(s, objs, first, all[|n|..]) == CopyOf(TailId(s, objs, |n|, all), s.refs)
      && forall p :: p in s.blocks && p !in objs ==>
           (all[|n|..] != [] && Leaves(s, objs, first, p) <==> TailId(s, objs, |n|, all) == Some(s.blocks[p].id))
  {
    var first := FirstOpen(|n|, s.cfg.blockSize);
    FirstUnhashed(s, objs, n);
    if first < |objs| {
      UnreadyFirst(s, objs, first, |objs|);
      assert Unready(s, objs, first, first) == 0;
      HolderUses(s, None, objs[first]);
    }
  }

  lemma AppendedSlot(s: State, objs: seq<Obj>, n: seq<TokenId>, all: seq<TokenId>, lookahead: nat, r: Result<State>)
    requires Inv(s) && Tabled(s, objs, n) && n <= all
    requires AppendResult(s, objs, n, all[|n|..], lookahead, r) && objs != []
    ensures
      var r' := if r.Ok? then Ok(ClearCopyOnWrites(r.value)) else r;
      && SlotBound(s, objs, |n|, all, lookahead, r')
      && (SpareUnshared(s, objs, |n|) ==> SlotResult(s, objs, |n|, all, lookahead, r'))
    ensures SpareUnshared(s, objs, |n|) && r.Ok? ==>
      Handed(s, ClearCopyOnWrites(r.value), objs, |n|, all, r.value.cows)
  {
    hide Inv, Tabled, Available, Uses, Unready, WritableFrom, NewBlocks, Quiet;
    assert n + all[|n|..] == all;
    if r.Ok? { ClearedKept(s, r.value, objs); }
    if SpareUnshared(s, objs, |n|) {
      TollIsCopy(s, objs, n, all);
      if r.Ok? {
        forall p | p in s.blocks && p !in objs
          ensures Uses(s, ClearCopyOnWrites(r.value), p, TailId(s, objs, |n|, all) == Some(s.blocks[p].id))
        {
          UsesCleared(s, r.value, p, TailId(s, objs, |n|, all) == Some(s.blocks[p].id));
        }
      }
    }
  }

  lemma UsesCleared(s: State, t: State, p: Obj, left: bool)
    requires p in s.blocks && Uses(s, t, p, left)
    ensures Uses(s, ClearCopyOnWrites(t), p, left)
  {
  }

  lemma SameBlocksTabled(s: State, u: State, objs: seq<Obj>, tokens: seq<TokenId>)
    requires Tabled(s, objs, tokens) && u.cfg == s.cfg && u.blocks == s.blocks
    ensures Tabled(u, objs, tokens)
  {
    forall i | 0 <= i < |objs| ensures SlotOk(u, objs, tokens, i) { assert SlotOk(s, objs, tokens, i); }
  }

  /** Handing over the copies changes nothing a table looks at. */
  method TakeCopies(t: BlockTable) returns (pairs: seq<(BlockId, BlockId)>)
    requires t.Valid()
    modifies t.alloc`cows
    ensures t.Valid() && pairs == old(t.alloc.cows)
    ensures t.alloc.Abs() == ClearCopyOnWrites(old(t.alloc.Abs()))
  {
    hide Inv; hide Tabled; hide LRUEvictor.Valid;
    ghost var s := t.alloc.Abs();
    pairs := t.alloc.ClearCopyOnWrites();
    SameBlocksTabled(s, t.alloc.Abs(), Addresses(t.objs), t.tokens);
  }

  lemma ClearedKept(s: State, t: State, objs: seq<Obj>)
    requires Kept(s, t, objs)
    ensures Kept(s, ClearCopyOnWrites(t), objs) && Available(ClearCopyOnWrites(t)) == Available(t)
    ensures ClearCopyOnWrites(t).cows == []
  {
    forall p | p in s.blocks && p !in objs ensures KeptAt(s, ClearCopyOnWrites(t), p) {
      assert KeptAt(s, t, p);
    }
  }

  // ---------- a group of sequences ----------

  /** What CanAppendSlot adds up over the sequences from `i` on; `ns` are their tables' lengths. */
  function Needed(ns: seq<nat>, alls: seq<seq<TokenId>>, lookahead: nat, blockSize: nat, i: nat): nat
    requires blockSize > 0 && |ns| == |alls| && i <= |ns|
    requires forall j :: 0 <= j < |ns| ==> ns[j] <= |alls[j]|
    decreases |ns| - i
  {
    if i == |ns| then 0
    else RelatedBlocks(ns[i], |alls[i]| - ns[i] + lookahead, blockSize) + Needed(ns, alls, lookahead, blockSize, i + 1)
  }

  /** The copies that serving the sequences from `i` on takes: of the sharers of a tail, the last one that
      nobody else shares with keeps it. */
  function Copies(tails: seq<Option<BlockId>>, refs: map<BlockId, int>, i: nat): nat
    requires i <= |tails|
    decreases |tails| - i
  {
    if i == |tails| then 0 else CopyOf(tails[i], refs) + Copies(tails, AfterCopy(tails[i], refs), i + 1)
  }

  /** Different tables hold different objects. */
  ghost predicate Apart(tables: seq<BlockTable>)
    reads set i | 0 <= i < |tables| :: tables[i]
  {
    && (forall i, j :: 0 <= i < j < |tables| ==> tables[i] != tables[j])
    && (forall i, j :: 0 <= i < |tables| && 0 <= j < |tables| && i != j ==> NoCommon(tables[i].objs, tables[j].objs))
  }

  predicate NoCommon(a: seq<BlockObj>, b: seq<BlockObj>) {
    forall k :: 0 <= k < |a| ==> a[k] !in b
  }

  /** A table as it was in the allocator state `s` with the objects `live`, its own fields being as they are now. */
  ghost predicate Held(t: BlockTable, s: State, live: map<Obj, BlockObj>)
    reads t, t.objs
  {
    && CollisionFree(t.alloc.cfg.mix) && Sequential(t.objs) && t.Mirrored() && t.numFull == |t.tokens|
    && (forall k :: 0 <= k < |t.objs| ==> t.objs[k].address in live && live[t.objs[k].address] == t.objs[k])
    && Tabled(s, Addresses(t.objs), t.tokens)
  }

  lemma HeldNow(t: BlockTable)
    requires t.Valid()
    ensures Held(t, t.alloc.Abs(), t.alloc.live) && t.alloc.Valid()
  {
    forall k | 0 <= k < |t.objs|
      ensures t.objs[k].address in t.alloc.live && t.alloc.live[t.objs[k].address] == t.objs[k]
    {
      assert t.alloc.Has(t.objs[k]);
    }
  }

  ghost predicate AreIn(live: map<Obj, BlockObj>, objs: seq<BlockObj>) {
    forall k :: 0 <= k < |objs| ==> objs[k].address in live && live[objs[k].address] == objs[k]
  }

  /** A table that an operation on the objects `mine` passes by stays what it is, writable if it was. */
  lemma Bystander(t: BlockTable, s: State, live: map<Obj, BlockObj>, mine: seq<BlockObj>, k: nat)
    requires Held(t, s, live) && t.alloc.Valid() && NoCommon(t.objs, mine) && AreIn(live, mine)
    requires Extends(live, t.alloc.live) && Kept(s, t.alloc.Abs(), Addresses(mine))
    ensures t.Valid()
    ensures WritableFrom(s, Addresses(t.objs), k) ==> WritableFrom(t.alloc.Abs(), Addresses(t.objs), k)
    ensures forall j :: 0 <= j < |t.objs| ==> Addresses(t.objs)[j] !in Addresses(mine)
  {
    forall j | 0 <= j < |t.objs| ensures Addresses(t.objs)[j] !in Addresses(mine) {
      assert t.objs[j] !in mine;
    }
    OthersKept(s, t.alloc.Abs(), Addresses(mine), Addresses(t.objs), t.tokens, k);
  }

  /** `tail` is the id of the block that appending to the table continues, and `refs` counts its users. */
  ghost predicate TailKnown(s: State, objs: seq<Obj>, n: nat, all: seq<TokenId>, tail: Option<BlockId>,
                            refs: map<BlockId, int>) {
    && tail == TailId(s, objs, n, all)
    && (tail.Some? ==> tail.value in refs && tail.value in s.refs && refs[tail.value] == s.refs[tail.value])
  }

  lemma SameCopy(s: State, objs: seq<Obj>, n: nat, all: seq<TokenId>, tail: Option<BlockId>, refs: map<BlockId, int>)
    requires TailKnown(s, objs, n, all, tail, refs)
    ensures CopyOf(TailId(s, objs, n, all), s.refs) == CopyOf(tail, refs)
  {
  }

  /** Another table's tail stays where it is; a copy that leaves its id is counted. */
  lemma TailStays(s: State, t: State, mine: seq<Obj>, k: nat, more: seq<TokenId>, tail: Option<BlockId>, objs: seq<Obj>,
                  tokens: seq<TokenId>, all: seq<TokenId>, other: Option<BlockId>, refs: map<BlockId, int>)
    requires Inv(s) && Kept(s, t, mine) && Tabled(s, objs, tokens) && forall j :: 0 <= j < |objs| ==> objs[j] !in mine
    requires forall p :: p in s.blocks && p !in mine ==> Uses(s, t, p, tail == Some(s.blocks[p].id))
    requires TailKnown(s, mine, k, more, tail, refs) && TailKnown(s, objs, |tokens|, all, other, refs)
    ensures TailKnown(t, objs, |tokens|, all, other, AfterCopy(tail, refs))
  {
    if other.Some? {
      var first := FirstOpen(|tokens|, s.cfg.blockSize);
      var p := objs[first];
      FirstUnhashed(s, objs, tokens);
      assert KeptAt(s, t, p);
      if tail == other {
        TwoUsers(s, mine[FirstOpen(k, s.cfg.blockSize)], p);
      }
    }
  }

  lemma TwoUsers(s: State, o: Obj, p: Obj)
    requires Inv(s) && o in s.blocks && p in s.blocks && o != p && s.blocks[o].id == s.blocks[p].id
    ensures s.blocks[p].id in s.refs && s.refs[s.blocks[p].id] > 1
  {
    assert {o, p} <= Holders(s.blocks, s.blocks[p].id);
    SubsetSize({o, p}, Holders(s.blocks, s.blocks[p].id));
  }

  /** Sequence `i` is the next one to be served; those before it hold all their tokens. `plain` says that no
      table to be served has spare blocks. */
  ghost predicate Serving(alloc: PrefixCacheBlockAllocator, tables: seq<BlockTable>, alls: seq<seq<TokenId>>,
                          ns: seq<nat>, tails: seq<Option<BlockId>>, refs: map<BlockId, int>, plain: bool, i: nat)
    reads (set j | 0 <= j < |tables| :: tables[j])
    reads (set j, k | 0 <= j < |tables| && 0 <= k < |tables[j].objs| :: tables[j].objs[k])
    reads alloc, alloc.evictor, alloc.live.Values
  {
    && |tables| == |alls| == |ns| == |tails| && Apart(tables) && alloc.cfg.blockSize > 0
    && (forall j :: 0 <= j < |tables| ==> tables[j].alloc == alloc)
    && (forall j :: 0 <= j < i && j < |tables| ==> tables[j].Valid() && tables[j].tokens == alls[j])
    && (forall j :: i <= j < |tables| ==> ReadyToAppend(tables[j], alls[j]) && |tables[j].tokens| == ns[j])
    && (forall j :: i <= j < |tables| ==>
          TailKnown(alloc.Abs(), Addresses(tables[j].objs), ns[j], alls[j], tails[j], refs))
    && (plain ==> forall j :: i <= j < |tables| ==> |tables[j].objs| == CeilDiv(ns[j], alloc.cfg.blockSize))
    && (forall j :: 0 <= j < |tables| ==> ns[j] <= |alls[j]|)
  }

  lemma ServingFacts(alloc: PrefixCacheBlockAllocator, tables: seq<BlockTable>, alls: seq<seq<TokenId>>, ns: seq<nat>,
                     tails: seq<Option<BlockId>>, refs: map<BlockId, int>, plain: bool, i: nat)
    requires Serving(alloc, tables, alls, ns, tails, refs, plain, i)
    ensures |tables| == |alls| == |ns| == |tails| && alloc.cfg.blockSize > 0 && alloc.Abs().cfg == alloc.cfg
    ensures i < |tables| ==> Inv(alloc.Abs())
    ensures forall j :: 0 <= j < |tables| ==> tables[j].alloc == alloc && ns[j] <= |alls[j]|
    ensures forall j :: 0 <= j < |tables| ==>
      Held(tables[j], alloc.Abs(), alloc.live) && AreIn(alloc.live, tables[j].objs)
    ensures forall j :: 0 <= j < |tables| ==> Tabled(alloc.Abs(), Addresses(tables[j].objs), tables[j].tokens)
    ensures forall j :: 0 <= j < i && j < |tables| ==> tables[j].tokens == alls[j]
    ensures forall j :: i <= j < |tables| ==>
      tables[j].Valid() && Awaiting(tables[j], alls[j], alloc.Abs()) && |tables[j].tokens| == ns[j]
    ensures forall j :: i <= j < |tables| ==>
      TailKnown(alloc.Abs(), Addresses(tables[j].objs), ns[j], alls[j], tails[j], refs)
    ensures plain ==> forall j :: i <= j < |tables| ==> |tables[j].objs| == CeilDiv(ns[j], alloc.cfg.blockSize)
    ensures forall j, k :: 0 <= j < |tables| && 0 <= k < |tables| && j != k ==>
      tables[j] != tables[k] && NoCommon(tables[j].objs, tables[k].objs)
  {
    forall j | 0 <= j < |tables| ensures Held(tables[j], alloc.Abs(), alloc.live) { HeldNow(tables[j]); }
    if i < |tables| { assert tables[i].alloc == alloc && ReadyToAppend(tables[i], alls[i]); }
  }

  lemma AwaitingStill(t: BlockTable, all: seq<TokenId>, s: State, u: State)
    requires Awaiting(t, all, s) && u.cfg == s.cfg
    requires
      var first := FirstOpen(|t.tokens|, t.alloc.cfg.blockSize);
      WritableFrom(s, Addresses(t.objs), first + 1) ==> WritableFrom(u, Addresses(t.objs), first + 1)
    ensures Awaiting(t, all, u)
  {
  }

  lemma ServingNext(alloc: PrefixCacheBlockAllocator, tables: seq<BlockTable>, alls: seq<seq<TokenId>>, ns: seq<nat>,
                    tails: seq<Option<BlockId>>, refs: map<BlockId, int>, plain: bool, i: nat)
    requires |tables| == |alls| == |ns| == |tails| && alloc.cfg.blockSize > 0 && i < |tables|
    requires forall j :: 0 <= j < |tables| ==> tables[j].alloc == alloc && ns[j] <= |alls[j]| && tables[j].Valid()
    requires forall j :: 0 <= j <= i ==> tables[j].tokens == alls[j]
    requires forall j :: i < j < |tables| ==> Awaiting(tables[j], alls[j], alloc.Abs()) && |tables[j].tokens| == ns[j]
    requires forall j :: i < j < |tables| ==>
      TailKnown(alloc.Abs(), Addresses(tables[j].objs), ns[j], alls[j], tails[j], refs)
    requires plain ==> forall j :: i < j < |tables| ==> |tables[j].objs| == CeilDiv(ns[j], alloc.cfg.blockSize)
    requires forall j, k :: 0 <= j < |tables| && 0 <= k < |tables| && j != k ==>
      tables[j] != tables[k] && NoCommon(tables[j].objs, tables[k].objs)
    ensures Serving(alloc, tables, alls, ns, tails, refs, plain, i + 1)
  {
    hide Inv; hide Tabled; hide WritableFrom; hide NoCommon; hide LRUEvictor.Valid; hide BlockTable.Holds;
    hide TailKnown;
    assert Apart(tables);
  }

  lemma NoCommonWith(a: seq<BlockObj>, b: seq<BlockObj>)
    ensures NoCommon(a, b) <==> forall k, m :: 0 <= k < |a| && 0 <= m < |b| ==> a[k] != b[m]
    ensures NoCommon(a, b) ==> NoCommon(b, a)
  {
    if NoCommon(a, b) {
      forall k | 0 <= k < |b| ensures b[k] !in a {}
    }
  }

  /** Ids the group still lacks, or has to spare, from sequence `i` on. */
  ghost function Slack(s: State, ns: seq<nat>, alls: seq<seq<TokenId>>, lookahead: nat, tails: seq<Option<BlockId>>,
                       refs: map<BlockId, int>, i: nat): int
    requires s.cfg.blockSize > 0 && |ns| == |alls| == |tails| && i <= |ns|
    requires forall j :: 0 <= j < |ns| ==> ns[j] <= |alls[j]|
  {
    Available(s) - Needed(ns, alls, lookahead, s.cfg.blockSize, i) - Copies(tails, refs, i)
  }

  lemma SlackFrom(s: State, t: State, objs: seq<Obj>, ns: seq<nat>, alls: seq<seq<TokenId>>, lookahead: nat,
                  tails: seq<Option<BlockId>>, refs: map<BlockId, int>, plain: bool, i: nat, r: Result<State>)
    requires s.cfg.blockSize > 0 && |ns| == |alls| == |tails| && i < |ns|
    requires forall j :: 0 <= j < |ns| ==> ns[j] <= |alls[j]|
    requires SlotResult(s, objs, ns[i], alls[i], lookahead, r) && TailKnown(s, objs, ns[i], alls[i], tails[i], refs)
    requires plain ==> |objs| == CeilDiv(ns[i], s.cfg.blockSize)
                       && Quiet(alls[i], s.cfg.blockSize, FirstOpen(ns[i], s.cfg.blockSize))
    requires r.Ok? ==> r.value == t && t.cfg == s.cfg
    ensures r.Err? ==> r.error == Exhausted && Slack(s, ns, alls, lookahead, tails, refs, i) < 0
    ensures r.Ok? ==>
      var now, next := Slack(s, ns, alls, lookahead, tails, refs, i),
                       Slack(t, ns, alls, lookahead, tails, AfterCopy(tails[i], refs), i + 1);
      now <= next && (plain ==> now == next)
  {
    hide Kept, Uses, Available, Quiet, NewBlocks, RelatedBlocks;
    SameCopy(s, objs, ns[i], alls[i], tails[i], refs);
    RelatedBound(|objs|, ns[i], |alls[i]| - ns[i] + lookahead, s.cfg.blockSize);
  }

  /** The sharers left once the first `i` sequences are served. */
  function RefsAt(tails: seq<Option<BlockId>>, refs: map<BlockId, int>, i: nat): map<BlockId, int>
    requires i <= |tails|
  {
    if i == 0 then refs else AfterCopy(tails[i - 1], RefsAt(tails, refs, i - 1))
  }

  /** The copies that serving the first `i` sequences has taken. */
  function CopiesUpTo(tails: seq<Option<BlockId>>, refs: map<BlockId, int>, i: nat): nat
    requires i <= |tails|
  {
    if i == 0 then 0 else CopiesUpTo(tails, refs, i - 1) + CopyOf(tails[i - 1], RefsAt(tails, refs, i - 1))
  }

  /** `pair` copies the tail of the sequence to the block the table now has there, unless that is completed. */
  ghost predicate TailCopied(t: BlockTable, n: nat, all: seq<TokenId>, blockSize: nat, tail: Option<BlockId>,
                             pair: (BlockId, BlockId))
    reads t, t.objs
  {
    var first := FirstOpen(n, blockSize);
    && tail == Some(pair.0) && first < |t.objs|
    && (EndsUnknown(all, blockSize, first) ==> pair.1 == t.objs[first].blockId)
  }

  /** What serving the table hands over on top of `cows`. */
  ghost predicate HandedOne(t: BlockTable, n: nat, all: seq<TokenId>, blockSize: nat, tail: Option<BlockId>,
                            refs: map<BlockId, int>, cows: seq<(BlockId, BlockId)>, pairs: seq<(BlockId, BlockId)>)
    reads t, t.objs
  {
    if CopyOf(tail, refs) == 0 then pairs == cows
    else |pairs| == |cows| + 1 && pairs[..|cows|] == cows && TailCopied(t, n, all, blockSize, tail, pairs[|cows|])
  }

  /** `pairs` are `cows` and then, in turn, one copy for each of the first `i` sequences that found its tail shared. */
  ghost predicate HandedGroup(tables: seq<BlockTable>, ns: seq<nat>, alls: seq<seq<TokenId>>, blockSize: nat,
                              tails: seq<Option<BlockId>>, refs: map<BlockId, int>, cows: seq<(BlockId, BlockId)>,
                              pairs: seq<(BlockId, BlockId)>, i: nat)
    reads (set j | 0 <= j < |tables| :: tables[j])
    reads (set j, k | 0 <= j < |tables| && 0 <= k < |tables[j].objs| :: tables[j].objs[k])
  {
    && i <= |tables| == |ns| == |alls| == |tails|
    && |pairs| == |cows| + CopiesUpTo(tails, refs, i) && pairs[..|cows|] == cows
    && forall j :: 0 <= j < i && CopyOf(tails[j], RefsAt(tails, refs, j)) > 0 ==>
         CopiedAt(tables[j], ns[j], alls[j], blockSize, tails[j], pairs, |cows| + CopiesUpTo(tails, refs, j))
  }

  ghost predicate CopiedAt(t: BlockTable, n: nat, all: seq<TokenId>, blockSize: nat, tail: Option<BlockId>,
                           pairs: seq<(BlockId, BlockId)>, at: nat)
    reads t, t.objs
  {
    at < |pairs| && TailCopied(t, n, all, blockSize, tail, pairs[at])
  }

  lemma HandedInHeap(t: BlockTable, s: State, objs: seq<BlockObj>, n: nat, all: seq<TokenId>,
                     pairs: seq<(BlockId, BlockId)>, tail: Option<BlockId>, refs: map<BlockId, int>)
    requires t.Valid() && t.tokens == all && objs <= t.objs && s.cfg == t.alloc.cfg && s.cfg.blockSize > 0
    requires Handed(s, t.alloc.Abs(), Addresses(objs), n, all, pairs)
    requires TailKnown(s, Addresses(objs), n, all, tail, refs)
    ensures HandedOne(t, n, all, s.cfg.blockSize, tail, refs, s.cows, pairs)
  {
    SameCopy(s, Addresses(objs), n, all, tail, refs);
    var first := FirstOpen(n, s.cfg.blockSize);
    if CopyOf(tail, refs) > 0 && EndsUnknown(all, s.cfg.blockSize, first) {
      assert t.alloc.Has(t.objs[first]);
      assert Addresses(t.objs)[first] == Addresses(objs)[first];
      UnknownUnhashed(t.alloc.Abs(), Addresses(t.objs), all, all, first);
    }
  }

  /** Serves one sequence of a group. */
  method AppendNext(alloc: PrefixCacheBlockAllocator, tables: seq<BlockTable>, alls: seq<seq<TokenId>>,
                    extra: HashValue, lookahead: nat, i: nat, ghost ns: seq<nat>, ghost tails: seq<Option<BlockId>>,
                    ghost refs: map<BlockId, int>, ghost plain: bool) returns (r: Result<seq<(BlockId, BlockId)>>)
    requires Serving(alloc, tables, alls, ns, tails, refs, plain, i) && i < |tables|
    requires plain ==> Quiet(alls[i], alloc.cfg.blockSize, FirstOpen(ns[i], alloc.cfg.blockSize))
    modifies tables[i], alloc, alloc.evictor, tables[i].objs
    ensures r.Ok? ==> Serving(alloc, tables, alls, ns, tails, AfterCopy(tails[i], refs), plain, i + 1)
    ensures
      var now := Slack(old(alloc.Abs()), ns, alls, lookahead, tails, refs, i);
      match r
      case Err(e) => e == Exhausted && now < 0
      case Ok(_) =>
        var next := Slack(alloc.Abs(), ns, alls, lookahead, tails, AfterCopy(tails[i], refs), i + 1);
        now <= next && (plain ==> now == next)
    ensures r.Ok? ==> alloc.Abs().cows == []
    ensures r.Ok? ==>
      HandedOne(tables[i], ns[i], alls[i], alloc.cfg.blockSize, tails[i], refs, old(alloc.Abs().cows), r.value)
    ensures r.Ok? ==> old(tables[i].objs) <= tables[i].objs
    ensures r.Ok? ==> forall k :: |old(tables[i].objs)| <= k < |tables[i].objs| ==> fresh(tables[i].objs[k])
  {
    hide *;
    ghost var s, live, mine, size := alloc.Abs(), alloc.live, tables[i].objs, alloc.cfg.blockSize;
    ServingFacts(alloc, tables, alls, ns, tails, refs, plain, i);
    forall j | 0 <= j < |tables| && j != i
      ensures NoCommon(tables[j].objs, mine)
      ensures forall k, m :: 0 <= k < |tables[j].objs| && 0 <= m < |mine| ==> tables[j].objs[k] != mine[m]
    {
      NoCommonWith(tables[j].objs, mine);
    }
    ReadyIs(tables[i], alls[i]);
    r := AppendSlot(tables[i], alls[i], extra, lookahead);
    ghost var after := if r.Ok? then Ok(alloc.Abs()) else Err(r.error);
    AddressCount(mine);
    AbsConfig(alloc);
    SlackFrom(s, alloc.Abs(), Addresses(mine), ns, alls, lookahead, tails, refs, plain, i, after);
    if r.Err? {
      return;
    }
    SlotFrame(s, Addresses(mine), ns[i], alls[i], lookahead, alloc.Abs(), tails[i], refs);
    HeldNow(tables[i]);
    HandedInHeap(tables[i], s, mine, ns[i], alls[i], r.value, tails[i], refs);
    forall j | 0 <= j < |tables| && j != i
      ensures tables[j].Valid()
      ensures j > i ==> Awaiting(tables[j], alls[j], alloc.Abs())
      ensures j > i ==>
        TailKnown(alloc.Abs(), Addresses(tables[j].objs), ns[j], alls[j], tails[j], AfterCopy(tails[i], refs))
    {
      var first := FirstOpen(|tables[j].tokens|, size);
      Bystander(tables[j], s, live, mine, first + 1);
      if j > i {
        AwaitingStill(tables[j], alls[j], s, alloc.Abs());
        AddressCount(tables[j].objs);
        TailStays(s, alloc.Abs(), Addresses(mine), ns[i], alls[i], tails[i], Addresses(tables[j].objs),
                  tables[j].tokens, alls[j], tails[j], refs);
      }
    }
    forall j, k | 0 <= j < |tables| && 0 <= k < |tables| && j != k ensures NoCommon(tables[j].objs, tables[k].objs) {
      NoCommonWith(tables[j].objs, tables[k].objs);
    }
    ServingNext(alloc, tables, alls, ns, tails, AfterCopy(tails[i], refs), plain, i);
  }

  lemma AddressCount(objs: seq<BlockObj>)
    ensures |Addresses(objs)| == |objs|
  {
  }

  lemma AbsConfig(alloc: PrefixCacheBlockAllocator)
    ensures alloc.Abs().cfg == alloc.cfg
  {
  }

  lemma SlotFrame(s: State, objs: seq<Obj>, n: nat, all: seq<TokenId>, lookahead: nat, t: State, tail: Option<BlockId>,
                  refs: map<BlockId, int>)
    requires SlotResult(s, objs, n, all, lookahead, Ok(t)) && TailKnown(s, objs, n, all, tail, refs)
    ensures Kept(s, t, objs) && t.cows == []
    ensures forall p :: p in s.blocks && p !in objs ==> Uses(s, t, p, tail == Some(s.blocks[p].id))
  {
  }

  lemma ReadyIs(t: BlockTable, all: seq<TokenId>)
    requires t.Valid() && Awaiting(t, all, t.alloc.Abs())
    ensures Continued(t, all) && t.tokens <= all && SpareUnshared(t.alloc.Abs(), Addresses(t.objs), |t.tokens|)
  {
  }

  ghost function Objects(tables: seq<BlockTable>): set<BlockObj>
    reads set j | 0 <= j < |tables| :: tables[j]
  {
    set j, k | 0 <= j < |tables| && 0 <= k < |tables[j].objs| :: tables[j].objs[k]
  }

  lemma InObjects(tables: seq<BlockTable>)
    ensures forall j, k :: 0 <= j < |tables| && 0 <= k < |tables[j].objs| ==> tables[j].objs[k] in Objects(tables)
  {
  }

  /** Whether the free ids cover the estimates of the whole group. */
  method CanAppendSlot(alloc: PrefixCacheBlockAllocator, tables: seq<BlockTable>, alls: seq<seq<TokenId>>,
                       lookahead: nat, ghost ns: seq<nat>) returns (ok: bool)
    requires alloc.cfg.blockSize > 0 && |alls| == |tables| == |ns|
    requires forall j :: 0 <= j < |tables| ==> tables[j].numFull == ns[j] <= |alls[j]|
    ensures ok <==> Needed(ns, alls, lookahead, alloc.cfg.blockSize, 0) <= Available(alloc.Abs())
  {
    var sum, size := 0, alloc.cfg.blockSize;
    for j := 0 to |tables|
      invariant sum + Needed(ns, alls, lookahead, size, j) == Needed(ns, alls, lookahead, size, 0)
    {
      sum := sum + RelatedBlocks(tables[j].numFull, |alls[j]| - tables[j].numFull + lookahead, size);
    }
    ok := sum <= alloc.GetNumFreeBlock();
  }

  /** Whether no sequence completes a block that could be hashed. */
  ghost predicate QuietGroup(ns: seq<nat>, alls: seq<seq<TokenId>>, blockSize: nat) {
    |ns| == |alls| && forall j :: 0 <= j < |ns| ==> Quiet(alls[j], blockSize, FirstOpen(ns[j], blockSize))
  }

  /** Serving one more sequence hands over its copy behind those of the others. */
  lemma HandedMore(tables: seq<BlockTable>, ns: seq<nat>, alls: seq<seq<TokenId>>, blockSize: nat,
                   tails: seq<Option<BlockId>>, refs: map<BlockId, int>, cows: seq<(BlockId, BlockId)>,
                   pairs: seq<(BlockId, BlockId)>, waiting: seq<(BlockId, BlockId)>, more: seq<(BlockId, BlockId)>,
                   i: nat)
    requires i < |tables| == |ns| == |alls| == |tails|
    requires |pairs + waiting| == |cows| + CopiesUpTo(tails, refs, i) && (pairs + waiting)[..|cows|] == cows
    requires forall j :: 0 <= j < i && CopyOf(tails[j], RefsAt(tails, refs, j)) > 0 ==>
      CopiedAt(tables[j], ns[j], alls[j], blockSize, tails[j], pairs + waiting, |cows| + CopiesUpTo(tails, refs, j))
    requires HandedOne(tables[i], ns[i], alls[i], blockSize, tails[i], RefsAt(tails, refs, i), waiting, more)
    ensures HandedGroup(tables, ns, alls, blockSize, tails, refs, cows, pairs + more, i + 1)
  {
    hide TailCopied, CopyOf, CopiesUpTo, RefsAt;
    var was, now := pairs + waiting, pairs + more;
    CopiesUpToNext(tails, refs, i);
    assert waiting <= more;
    assert now[..|was|] == was && now[..|cows|] == was[..|cows|];
    forall j | 0 <= j < i + 1 && CopyOf(tails[j], RefsAt(tails, refs, j)) > 0
      ensures CopiedAt(tables[j], ns[j], alls[j], blockSize, tails[j], now, |cows| + CopiesUpTo(tails, refs, j))
    {
      if j < i {
        assert CopiedAt(tables[j], ns[j], alls[j], blockSize, tails[j], was, |cows| + CopiesUpTo(tails, refs, j));
      } else {
        assert now[|was|] == more[|waiting|];
      }
    }
  }

  lemma HandedSoFar(tables: seq<BlockTable>, ns: seq<nat>, alls: seq<seq<TokenId>>, blockSize: nat,
                    tails: seq<Option<BlockId>>, refs: map<BlockId, int>, cows: seq<(BlockId, BlockId)>,
                    pairs: seq<(BlockId, BlockId)>, i: nat)
    requires HandedGroup(tables, ns, alls, blockSize, tails, refs, cows, pairs, i)
    ensures i <= |tables| == |ns| == |alls| == |tails|
    ensures |pairs| == |cows| + CopiesUpTo(tails, refs, i) && pairs[..|cows|] == cows
    ensures forall j :: 0 <= j < i && CopyOf(tails[j], RefsAt(tails, refs, j)) > 0 ==>
      CopiedAt(tables[j], ns[j], alls[j], blockSize, tails[j], pairs, |cows| + CopiesUpTo(tails, refs, j))
  {
    hide CopiesUpTo, RefsAt, CopyOf, CopiedAt;
  }

  lemma CopiesUpToNext(tails: seq<Option<BlockId>>, refs: map<BlockId, int>, i: nat)
    requires i < |tails|
    ensures
      var one := CopyOf(tails[i], RefsAt(tails, refs, i));
      CopiesUpTo(tails, refs, i + 1) == CopiesUpTo(tails, refs, i) + one && one <= 1
  {
  }

  /** Everything recorded before and during the round is handed over. */
  ghost predicate HandedAll(alloc: PrefixCacheBlockAllocator, tables: seq<BlockTable>, ns: seq<nat>,
                            alls: seq<seq<TokenId>>, tails: seq<Option<BlockId>>, refs: map<BlockId, int>,
                            cows: seq<(BlockId, BlockId)>, pairs: seq<(BlockId, BlockId)>)
    reads (set j | 0 <= j < |tables| :: tables[j])
    reads (set j, k | 0 <= j < |tables| && 0 <= k < |tables[j].objs| :: tables[j].objs[k])
    reads alloc, alloc.evictor, alloc.live.Values
  {
    && (tables != [] ==> alloc.Abs().cows == [])
    && HandedGroup(tables, ns, alls, alloc.cfg.blockSize, tails, refs, cows, pairs + alloc.Abs().cows, |tables|)
  }

  lemma HandedNone(tables: seq<BlockTable>, ns: seq<nat>, alls: seq<seq<TokenId>>, blockSize: nat,
                   tails: seq<Option<BlockId>>, refs: map<BlockId, int>, cows: seq<(BlockId, BlockId)>)
    requires |tables| == |ns| == |alls| == |tails|
    ensures HandedGroup(tables, ns, alls, blockSize, tails, refs, cows, [] + cows, 0)
  {
    assert [] + cows == cows && cows[..|cows|] == cows;
  }

  /** Serves sequence `i` behind those whose copies are in `pairs`. */
  method AppendHanded(alloc: PrefixCacheBlockAllocator, tables: seq<BlockTable>, alls: seq<seq<TokenId>>,
                      extra: HashValue, lookahead: nat, i: nat, ghost ns: seq<nat>, ghost tails: seq<Option<BlockId>>,
                      ghost refs: map<BlockId, int>, ghost plain: bool, ghost cows: seq<(BlockId, BlockId)>,
                      pairs: seq<(BlockId, BlockId)>) returns (r: Result<seq<(BlockId, BlockId)>>)
    requires i < |tables| == |tails|
    requires Serving(alloc, tables, alls, ns, tails, RefsAt(tails, refs, i), plain, i)
    requires plain ==> Quiet(alls[i], alloc.cfg.blockSize, FirstOpen(ns[i], alloc.cfg.blockSize))
    requires HandedGroup(tables, ns, alls, alloc.cfg.blockSize, tails, refs, cows, pairs + alloc.Abs().cows, i)
    modifies tables[i], alloc, alloc.evictor, tables[i].objs
    ensures r.Ok? ==> Serving(alloc, tables, alls, ns, tails, RefsAt(tails, refs, i + 1), plain, i + 1)
    ensures
      var now := Slack(old(alloc.Abs()), ns, alls, lookahead, tails, RefsAt(tails, refs, i), i);
      match r
      case Err(e) => e == Exhausted && now < 0
      case Ok(_) =>
        var next := Slack(alloc.Abs(), ns, alls, lookahead, tails, RefsAt(tails, refs, i + 1), i + 1);
        now <= next && (plain ==> now == next)
    ensures r.Ok? ==> alloc.Abs().cows == []
    ensures r.Ok? ==> HandedGroup(tables, ns, alls, alloc.cfg.blockSize, tails, refs, cows, r.value, i + 1)
    ensures r.Ok? ==> old(tables[i].objs) <= tables[i].objs
    ensures r.Ok? ==> forall k :: |old(tables[i].objs)| <= k < |tables[i].objs| ==> fresh(tables[i].objs[k])
  {
    hide *;
    ghost var waiting := alloc.Abs().cows;
    ServingFacts(alloc, tables, alls, ns, tails, RefsAt(tails, refs, i), plain, i);
    HandedSoFar(tables, ns, alls, alloc.cfg.blockSize, tails, refs, cows, pairs + waiting, i);
    RefsAtNext(tails, refs, i);
    forall j | 0 <= j < i
      ensures forall k, m :: 0 <= k < |tables[j].objs| && 0 <= m < |tables[i].objs| ==>
        tables[j].objs[k] != tables[i].objs[m]
    {
      NoCommonWith(tables[j].objs, tables[i].objs);
    }
    r := AppendNext(alloc, tables, alls, extra, lookahead, i, ns, tails, RefsAt(tails, refs, i), plain);
    if r.Ok? {
      HandedMore(tables, ns, alls, alloc.cfg.blockSize, tails, refs, cows, pairs, waiting, r.value, i);
      r := Ok(pairs + r.value);
    }
  }

  lemma RefsAtNext(tails: seq<Option<BlockId>>, refs: map<BlockId, int>, i: nat)
    requires i <= |tails|
    ensures RefsAt(tails, refs, 0) == refs
    ensures i < |tails| ==> RefsAt(tails, refs, i + 1) == AfterCopy(tails[i], RefsAt(tails, refs, i))
  {
  }

  /** Serves a whole group in turn. */
  method AppendSlots(alloc: PrefixCacheBlockAllocator, tables: seq<BlockTable>, alls: seq<seq<TokenId>>,
                     extras: seq<HashValue>, lookahead: nat, ghost ns: seq<nat>, ghost tails: seq<Option<BlockId>>,
                     ghost refs: map<BlockId, int>, ghost plain: bool) returns (r: Result<seq<(BlockId, BlockId)>>)
    requires Serving(alloc, tables, alls, ns, tails, refs, plain, 0) && |extras| == |tables|
    modifies (set j | 0 <= j < |tables| :: tables[j]), alloc, alloc.evictor, Objects(tables)
    ensures
      var slack := Slack(old(alloc.Abs()), ns, alls, lookahead, tails, refs, 0);
      match r
      case Err(e) => e == Exhausted && slack < 0
      case Ok(_) =>
        && (forall j :: 0 <= j < |tables| ==> tables[j].Valid() && tables[j].tokens == alls[j])
        && (plain && QuietGroup(ns, alls, alloc.cfg.blockSize) ==> slack >= 0)
    ensures r.Ok? ==> HandedAll(alloc, tables, ns, alls, tails, refs, old(alloc.Abs().cows), r.value)
  {
    hide *;
    var copies := [];
    InObjects(tables);
    ServingFacts(alloc, tables, alls, ns, tails, refs, plain, 0);
    RefsAtNext(tails, refs, 0);
    ghost var exact := plain && QuietGroup(ns, alls, alloc.cfg.blockSize);
    ServingWeaker(alloc, tables, alls, ns, tails, refs, plain, exact);
    ghost var slack, cows := Slack(alloc.Abs(), ns, alls, lookahead, tails, refs, 0), alloc.Abs().cows;
    HandedNone(tables, ns, alls, alloc.cfg.blockSize, tails, refs, cows);
    for i := 0 to |tables|
      invariant Serving(alloc, tables, alls, ns, tails, RefsAt(tails, refs, i), exact, i)
      invariant alloc.Abs().cfg == alloc.cfg && (i > 0 ==> alloc.Abs().cows == [])
      invariant slack <= Slack(alloc.Abs(), ns, alls, lookahead, tails, RefsAt(tails, refs, i), i)
      invariant exact ==> slack == Slack(alloc.Abs(), ns, alls, lookahead, tails, RefsAt(tails, refs, i), i)
      invariant HandedGroup(tables, ns, alls, alloc.cfg.blockSize, tails, refs, cows, copies + alloc.Abs().cows, i)
      invariant forall j, k :: 0 <= j < |tables| && 0 <= k < |tables[j].objs| ==>
        tables[j].objs[k] in old(Objects(tables)) || fresh(tables[j].objs[k])
    {
      ServingFacts(alloc, tables, alls, ns, tails, RefsAt(tails, refs, i), exact, i);
      QuietOne(ns, alls, alloc.cfg.blockSize, i);
      var a := AppendHanded(alloc, tables, alls, extras[i], lookahead, i, ns, tails, refs, exact, cows, copies);
      if a.Err? {
        return a;
      }
      AbsConfig(alloc);
      copies := a.value;
      assert copies + [] == copies;
    }
    ServedFacts(alloc, tables, alls, ns, tails, RefsAt(tails, refs, |tables|), exact);
    SlackAtEnd(alloc.Abs(), ns, alls, lookahead, tails, RefsAt(tails, refs, |tables|));
    HandedEnds(alloc, tables, ns, alls, tails, refs, cows, copies);
    return Ok(copies);
  }

  lemma HandedEnds(alloc: PrefixCacheBlockAllocator, tables: seq<BlockTable>, ns: seq<nat>, alls: seq<seq<TokenId>>,
                   tails: seq<Option<BlockId>>, refs: map<BlockId, int>, cows: seq<(BlockId, BlockId)>,
                   pairs: seq<(BlockId, BlockId)>)
    requires |tables| > 0 ==> alloc.Abs().cows == []
    requires HandedGroup(tables, ns, alls, alloc.cfg.blockSize, tails, refs, cows, pairs + alloc.Abs().cows, |tables|)
    ensures HandedAll(alloc, tables, ns, alls, tails, refs, cows, pairs)
  {
  }

  lemma QuietOne(ns: seq<nat>, alls: seq<seq<TokenId>>, blockSize: nat, i: nat)
    requires i < |ns| == |alls|
    ensures QuietGroup(ns, alls, blockSize) ==> Quiet(alls[i], blockSize, FirstOpen(ns[i], blockSize))
  {
  }

  lemma ServingWeaker(alloc: PrefixCacheBlockAllocator, tables: seq<BlockTable>, alls: seq<seq<TokenId>>, ns: seq<nat>,
                      tails: seq<Option<BlockId>>, refs: map<BlockId, int>, plain: bool, exact: bool)
    requires Serving(alloc, tables, alls, ns, tails, refs, plain, 0) && (exact ==> plain)
    ensures Serving(alloc, tables, alls, ns, tails, refs, exact, 0)
  {
    hide Apart, ReadyToAppend, TailKnown, CeilDiv;
  }

  lemma SlackAtEnd(s: State, ns: seq<nat>, alls: seq<seq<TokenId>>, lookahead: nat, tails: seq<Option<BlockId>>,
                   refs: map<BlockId, int>)
    requires s.cfg.blockSize > 0 && |ns| == |alls| == |tails|
    requires forall j :: 0 <= j < |ns| ==> ns[j] <= |alls[j]|
    ensures Slack(s, ns, alls, lookahead, tails, refs, |ns|) >= 0
  {
  }

  /** A whole scheduling round of a group. `ok` is what CanAppendSlot answers. If the ids cover its estimate and the
      copies of shared tails, every AppendSlot succeeds, and every table ends up holding its sequence.
      Without spare blocks, and if no block gets hashed, it succeeds only then; without shared tails, the
      estimate alone is enough. All recorded copies are handed over, in turn. */
  method AppendGroup(alloc: PrefixCacheBlockAllocator, tables: seq<BlockTable>, alls: seq<seq<TokenId>>,
                     extras: seq<HashValue>, lookahead: nat, ghost ns: seq<nat>, ghost tails: seq<Option<BlockId>>,
                     ghost refs: map<BlockId, int>, ghost plain: bool)
    returns (ok: bool, r: Result<seq<(BlockId, BlockId)>>)
    requires Serving(alloc, tables, alls, ns, tails, refs, plain, 0) && |extras| == |tables|
    modifies (set j | 0 <= j < |tables| :: tables[j]), alloc, alloc.evictor, Objects(tables)
    ensures ok <==> old(Needed(ns, alls, lookahead, alloc.cfg.blockSize, 0) <= Available(alloc.Abs()))
    ensures
      var need := Needed(ns, alls, lookahead, alloc.cfg.blockSize, 0) + Copies(tails, refs, 0);
      ok ==>
        match r
        case Err(e) => e == Exhausted && Available(old(alloc.Abs())) < need
        case Ok(_) =>
          && (forall j :: 0 <= j < |tables| ==> tables[j].Valid() && tables[j].tokens == alls[j])
          && (plain && QuietGroup(ns, alls, alloc.cfg.blockSize) ==> need <= Available(old(alloc.Abs())))
    ensures ok && r.Ok? ==> HandedAll(alloc, tables, ns, alls, tails, refs, old(alloc.Abs().cows), r.value)
    ensures ok && (forall j :: 0 <= j < |tails| ==> CopyOf(tails[j], refs) == 0) ==> r.Ok?
  {
    hide *;
    r := Ok([]);
    ServingFacts(alloc, tables, alls, ns, tails, refs, plain, 0);
    forall j | 0 <= j < |tables| ensures tables[j].numFull == ns[j] { NewTokensLength(tables[j]); }
    ok := CanAppendSlot(alloc, tables, alls, lookahead, ns);
    if forall j :: 0 <= j < |tails| ==> CopyOf(tails[j], refs) == 0 { NoCopies(tails, refs, 0); }
    if ok {
      SlackIs(alloc.Abs(), ns, alls, lookahead, tails, refs);
      r := AppendSlots(alloc, tables, alls, extras, lookahead, ns, tails, refs, plain);
    }
  }

  lemma SlackIs(s: State, ns: seq<nat>, alls: seq<seq<TokenId>>, lookahead: nat, tails: seq<Option<BlockId>>,
                refs: map<BlockId, int>)
    requires s.cfg.blockSize > 0 && |ns| == |alls| == |tails|
    requires forall j :: 0 <= j < |ns| ==> ns[j] <= |alls[j]|
    ensures Slack(s, ns, alls, lookahead, tails, refs, 0)
         == Available(s) - Needed(ns, alls, lookahead, s.cfg.blockSize, 0) - Copies(tails, refs, 0)
  {
  }

  lemma NewTokensLength(t: BlockTable)
    requires t.Valid()
    ensures t.numFull == |t.tokens|
  {
  }

  lemma ServedFacts(alloc: PrefixCacheBlockAllocator, tables: seq<BlockTable>, alls: seq<seq<TokenId>>, ns: seq<nat>,
                    tails: seq<Option<BlockId>>, refs: map<BlockId, int>, plain: bool)
    requires Serving(alloc, tables, alls, ns, tails, refs, plain, |tables|)
    ensures |alls| == |tables| && forall j :: 0 <= j < |tables| ==> tables[j].Valid() && tables[j].tokens == alls[j]
  {
  }

  /** Without shared tails the estimate is all that counts. */
  lemma {:induction false} NoCopies(tails: seq<Option<BlockId>>, refs: map<BlockId, int>, i: nat)
    requires i <= |tails|
    requires forall j :: i <= j < |tails| ==> CopyOf(tails[j], refs) == 0
    ensures Copies(tails, refs, i) == 0
    decreases |tails| - i
  {
    if i < |tails| {
      NoCopies(tails, refs, i + 1);
    }
  }

  // ---------- what the estimate leaves out ----------

  /** The only block allocated for one of its two tokens. */
  ghost function AllocatedOnce(mix: Mixer): Result<State> {
    Apply(Initial(OneBlock(mix)), OpAllocateMutable(0, Root, [5], 0, 0))
  }

  lemma AllocatedOnceIs(mix: Mixer)
    requires CollisionFree(mix)
    ensures Legal(Initial(OneBlock(mix)), OpAllocateMutable(0, Root, [5], 0, 0)) && AllocatedOnce(mix).Ok?
    ensures
      var t := AllocatedOnce(mix).value;
      Inv(t) && t.cfg == OneBlock(mix) && Available(t) == 0 && t.blocks.Keys == {0} && Alone(t, 0)
      && t.blocks[0].before == Root && t.blocks[0].tokens == [5]
  {
    hide InvHeld, CollisionFree;
    var cfg := OneBlock(mix);
    var s := Initial(cfg);
    InitialInv(cfg);
    assert IdsFrom(cfg.begin, cfg.num) == [0];
    AllocateBlockIdCorrect(s, 0);
    var (id, t) := AllocateBlockId(s, 0).value;
    var b := Block(Root, [5], 0, id);
    FirstAppend(t, 0, b, 0);
    AllocateMutableBlockCorrect(s, 0, Root, [5], 0, 0);
    assert Settle(t.(blocks := t.blocks[0 := b]), 0, 0) == Ok(WriteBack(t.(blocks := t.blocks[0 := b]), 0, 0));
  }

  /** The estimate ignores the id that copy-on-write takes: a forked block with one free slot needs no
      new block by the estimate, zero ids cover that, and still the append finds none. */
  lemma SharedBlockDefeatsEstimate(mix: Mixer)
    requires CollisionFree(mix)
    ensures
      var ops := [OpAllocateMutable(0, Root, [5], 0, 0), OpFork(0, 1)];
      && LegalRun(Initial(OneBlock(mix)), ops) && Run(Initial(OneBlock(mix)), ops).Ok?
      && var t := Run(Initial(OneBlock(mix)), ops).value;
      && RelatedBlocks(1, 1, 2) <= Available(t)
      && Legal(t, OpAppend(1, Root, [6], 0)) && Apply(t, OpAppend(1, Root, [6], 0)) == Err(Exhausted)
  {
    hide InvHeld, CollisionFree, AppendTokenIds, ForkBlock, AllocateMutableBlock;
    var fork := OpFork(0, 1);
    var alloc := OpAllocateMutable(0, Root, [5], 0, 0);
    AllocatedOnceIs(mix);
    var s := AllocatedOnce(mix).value;
    Copy(s, 0, 1);
    var t := Copied(s, 0, 1);
    assert Apply(s, fork) == Ok(t);
    RunTwo(Initial(OneBlock(mix)), alloc, s, fork, t);
    assert Legal(t, OpAppend(1, Root, [6], 0));
    AppendTokenIdsCorrect(t, 1, Root, [6], 0);
  }
}
