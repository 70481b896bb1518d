/** Prefill admission over several ranks: CanAllocate and the placement it admits. */
module RankAdmission {
  import opened Basics
  import opened Arithmetic
  import opened Chunking
  import opened PrefixChain
  import opened PrefixCacheSpec
  import opened PrefixCacheRuns
  import opened PrefixCacheAllocator
  import Hashless = HashlessSpec
  import HashlessProofs
  import opened BlockTableSpec
  import opened BlockTableSteps
  import opened BlockTables
  import opened RankPlacement
  import opened CacheReuse

  datatype AllocStatus = OK | LATER | NEVER

  function RequiredBlocks(length: nat, blockSize: nat, ranks: nat): nat
    requires blockSize > 0
  {
    CeilDiv(length, blockSize) + (if ranks > 1 then 1 else 0)
  }

  /** The answer for `npu` blocks per rank, `reserved` of them kept back, and `free` ids by the conservative count. */
  function Answer(required: nat, npu: nat, reserved: nat, ranks: nat, free: nat): AllocStatus
    requires reserved <= npu && ranks > 0
  {
    if npu * ranks - reserved < required then NEVER
    else if free >= required then OK
    else LATER
  }

  /** The conservative count: every rank is taken to be as full as the fullest. */
  ghost predicate Conservative(avail: seq<nat>, free: nat) {
    exists m: nat {:trigger Least(avail, m)} :: Least(avail, m) && free == m * |avail|
  }

  ghost predicate Least(avail: seq<nat>, m: nat) {
    (forall q :: 0 <= q < |avail| ==> m <= avail[q]) && (exists q :: 0 <= q < |avail| && avail[q] == m)
  }

  /** `counts` is what the allocator of each rank answers. */
  method GetNumFreeBlock(counts: seq<nat>) returns (free: nat)
    requires |counts| > 0
    ensures Conservative(counts, free)
  {
    if |counts| == 1 {
      assert Least(counts, counts[0]);
      return counts[0];
    }
    var least := counts[0];
    for i := 0 to |counts|
      invariant forall q :: 0 <= q < i ==> least <= counts[q]
      invariant exists q :: 0 <= q < |counts| && counts[q] == least
    {
      if counts[i] < least {
        least := counts[i];
      }
    }
    assert Least(counts, least);
    return least * |counts|;
  }

  /** The answer for the conservative count of these ids. */
  ghost predicate Answers(status: AllocStatus, required: nat, npu: nat, reserved: nat, avail: seq<nat>)
    requires reserved <= npu && |avail| > 0
  {
    exists free: nat :: Conservative(avail, free) && status == Answer(required, npu, reserved, |avail|, free)
  }

  method CanAllocate(counts: seq<nat>, length: nat, blockSize: nat, npu: nat, reserved: nat)
    returns (status: AllocStatus)
    requires |counts| > 0 && blockSize > 0 && reserved <= npu
    ensures Answers(status, RequiredBlocks(length, blockSize, |counts|), npu, reserved, counts)
  {
    var required := RequiredBlocks(length, blockSize, |counts|);
    var n := GetNumFreeBlock(counts);
    if npu * |counts| - reserved < required {
      status := NEVER;
    } else if n >= required {
      status := OK;
    } else {
      status := LATER;
    }
  }

  /** The number asked for is the least that holds the request, with one block to spare under several ranks. */
  lemma RequiredMeaning(length: nat, blockSize: nat, ranks: nat, blocks: nat)
    requires blockSize > 0
    ensures
      var spare := if ranks > 1 then 1 else 0;
      RequiredBlocks(length, blockSize, ranks) <= blocks <==> blocks >= spare && length <= (blocks - spare) * blockSize
  {
    var spare := if ranks > 1 then 1 else 0;
    CeilBounds(length, blockSize);
    if blocks >= spare {
      if length <= (blocks - spare) * blockSize { CeilLeast(length, blockSize, blocks - spare); }
      if CeilDiv(length, blockSize) <= blocks - spare { Scaled(CeilDiv(length, blockSize), blocks - spare, blockSize); }
    }
  }

  /** Under several ranks OK also means that some rank keeps an id beyond its share, for what comes next. */
  lemma OkLeavesSpare(length: nat, blockSize: nat, avail: seq<nat>, npu: nat, reserved: nat)
    requires |avail| > 1 && blockSize > 0 && reserved <= npu
    requires Answers(OK, RequiredBlocks(length, blockSize, |avail|), npu, reserved, avail)
    ensures
      var n := CeilDiv(length, blockSize);
      exists q :: 0 <= q < |avail| && Share(n, n, |avail|, q) < avail[q]
  {
    var n := CeilDiv(length, blockSize);
    var free: nat :| Conservative(avail, free)
      && Answer(RequiredBlocks(length, blockSize, |avail|), npu, reserved, |avail|, free) == OK;
    var m: nat :| Least(avail, m) && free == m * |avail|;
    var q := SmallShare(n, |avail|);
    if m <= Share(n, n, |avail|, q) { Scaled(m, Share(n, n, |avail|, q), |avail|); }
    assert m <= avail[q];
  }

  /** Some rank's share is no more than the average. */
  lemma SmallShare(n: nat, ranks: nat) returns (q: nat)
    requires ranks > 0
    ensures q < ranks && Share(n, n, ranks, q) * ranks <= n
  {
    if n <= ranks {
      q := ranks - 1;
      ShareDealt(n, n, ranks, q);
      FewDealt(n, ranks);
    } else {
      var d, m := (n - 1) / ranks, (n - 1) % ranks;
      BlockBounds(n - 1, ranks);
      q := if m < ranks - 1 then m else ranks - 1;
      assert (d + 1) * ranks == d * ranks + ranks;
      ShareDealt(n - 1, n, ranks, q);
      RoundRobin(n - 1, ranks, q, d, m);
      ShareNext(n - 1, n, ranks, q);
    }
  }

  lemma {:induction false} FewDealt(n: nat, ranks: nat)
    requires ranks > 0 && n <= ranks
    ensures Dealt(n, ranks, ranks - 1) == if n == ranks then 1 else 0
  {
    if n > 0 {
      FewDealt(n - 1, ranks);
      ModIs(n - 1, ranks, 0, n - 1);
    }
  }

  /** OK means that every rank has its share. */
  lemma OkIsEnough(length: nat, blockSize: nat, avail: seq<nat>, npu: nat, reserved: nat)
    requires |avail| > 0 && blockSize > 0 && reserved <= npu
    requires Answers(OK, RequiredBlocks(length, blockSize, |avail|), npu, reserved, avail)
    ensures
      var n := CeilDiv(length, blockSize);
      forall q :: 0 <= q < |avail| ==> Share(n, n, |avail|, q) <= avail[q]
  {
    var n := CeilDiv(length, blockSize);
    var free: nat :| Conservative(avail, free)
      && Answer(RequiredBlocks(length, blockSize, |avail|), npu, reserved, |avail|, free) == OK;
    var m: nat :| Least(avail, m) && free == m * |avail|;
    forall q | 0 <= q < |avail| ensures Share(n, n, |avail|, q) <= avail[q] { ShareFits(n, |avail|, q, m); }
  }

  method FreeCounts(allocs: seq<PrefixCacheBlockAllocator>) returns (counts: seq<nat>)
    ensures |counts| == |allocs| && forall q :: 0 <= q < |allocs| ==> Available(allocs[q].Abs()) == counts[q]
  {
    counts := [];
    for i := 0 to |allocs|
      invariant |counts| == i && forall q :: 0 <= q < i ==> Available(allocs[q].Abs()) == counts[q]
    {
      counts := counts + [allocs[i].GetNumFreeBlock()];
    }
  }

  /** Prefill with admission: whenever CanAllocate says OK, the placement succeeds on every rank. */
  method AdmitAndAllocate(allocs: seq<PrefixCacheBlockAllocator>, tokens: seq<TokenId>, extra: HashValue,
                          blockSize: nat, npu: nat, reserved: nat, ghost mix: Mixer)
    returns (status: AllocStatus, objs: seq<BlockObj>, last: nat, ghost avail: seq<nat>, ghost starts: seq<State>)
    requires Ranked(allocs, blockSize, mix) && Suffixed(tokens) && reserved <= npu
    modifies (set q | 0 <= q < |allocs| :: allocs[q]), (set q | 0 <= q < |allocs| :: allocs[q].evictor)
    ensures |allocs| > 0 && blockSize > 0
    ensures |avail| == |starts| == |allocs|
    ensures forall q :: 0 <= q < |allocs| ==> old(allocs[q].Abs()) == starts[q] && Available(starts[q]) == avail[q]
    ensures Answers(status, RequiredBlocks(|tokens|, blockSize, |allocs|), npu, reserved, avail)
    ensures status == OK ==>
      var n := CeilDiv(|tokens|, blockSize);
      |objs| == n && Placing(allocs, objs, tokens, extra, blockSize, mix, n, starts)
  {
    hide *;
    RankedFacts(allocs, blockSize, mix);
    objs, last := [], 0;
    var counts := FreeCounts(allocs);
    avail, starts := counts, StatesOf(allocs);
    status := CanAllocate(counts, |tokens|, blockSize, npu, reserved);
    if status == OK {
      var r;
      r, last := AllocateSmallRankFirst(allocs, tokens, extra, blockSize, mix, starts);
      OkIsEnough(|tokens|, blockSize, avail, npu, reserved);
      NotTooFew(starts, SeqHashes(mix, blockSize, tokens, extra, CeilDiv(|tokens|, blockSize)));
      objs := r.value;
    }
  }

  lemma NotTooFew(starts: seq<State>, hs: seq<HashValue>)
    requires |starts| > 0 && forall q :: 0 <= q < |starts| ==> Share(|hs|, |hs|, |starts|, q) <= Available(starts[q])
    ensures !SomeTooFew(starts, hs)
  {
    hide Available, Uncovered, OnRank;
  }

  // ---------- when the answer can ever be OK ----------

  lemma {:induction false} IdsFit(ids: set<BlockId>, begin: BlockId, num: nat)
    requires forall id :: id in ids ==> begin <= id < begin + num
    ensures |ids| <= num
    decreases num
  {
    if num == 0 {
      assert forall id :: id in ids ==> false;
      assert ids == {};
    } else {
      IdsFit(ids - {begin + num - 1}, begin, num - 1);
    }
  }

  lemma {:induction false} QueueSize(q: seq<BlockId>)
    requires NoDup(q)
    ensures |Elements(q)| == |q|
    decreases |q|
  {
    if q != [] {
      QueueSize(q[1..]);
      assert Elements(q) == Elements(q[1..]) + {q[0]};
    }
  }

  lemma CandidatesApart(s: State)
    requires Inv(s)
    ensures NoDup(s.free) && forall id :: id in Elements(s.free) + s.evictor.Keys ==>
      s.cfg.begin <= id < s.cfg.begin + s.cfg.num
    ensures Elements(s.free) !! s.evictor.Keys
    ensures Available(s) == |s.free| + |s.evictor.Keys|
  {
    assert forall id :: id in s.free ==> id !in s.evictor;
  }

  lemma DisjointUnion(a: set<BlockId>, b: set<BlockId>)
    requires a !! b
    ensures |a + b| == |a| + |b|
  {
  }

  /** No state offers more ids than the allocator has. */
  lemma AvailableBound(s: State)
    requires Inv(s)
    ensures Available(s) <= s.cfg.num
  {
    hide *;
    CandidatesApart(s);
    QueueSize(s.free);
    DisjointUnion(Elements(s.free), s.evictor.Keys);
    IdsFit(Elements(s.free) + s.evictor.Keys, s.cfg.begin, s.cfg.num);
  }

  /** A rank's allocator, with or without prefix caching. */
  datatype RankState = Caching(s: State) | Plain(p: Hashless.State)

  ghost function Offered(k: RankState): nat {
    match k
    case Caching(s) => Available(s)
    case Plain(p) => |p.free|
  }

  ghost predicate SoundRank(k: RankState, num: nat) {
    match k
    case Caching(s) => Inv(s) && s.cfg.num == num
    case Plain(p) => Hashless.Base(p) && p.cfg.num == num
  }

  /** No state offers more ids than the allocator has. */
  lemma OfferBound(k: RankState, num: nat)
    requires SoundRank(k, num)
    ensures Offered(k) <= num
  {
    match k
    case Caching(s) =>
      AvailableBound(s);
    case Plain(p) =>
      QueueSize(p.free);
      IdsFit(Elements(p.free), p.cfg.begin, p.cfg.num);
  }

  /** The states of the ranks, each with the ids that are not reserved; prefix caching is on for all or for none. */
  ghost predicate RankStates(states: seq<RankState>, caching: bool, npu: nat, reserved: nat) {
    && |states| > 0 && reserved <= npu
    && forall q :: 0 <= q < |states| ==> states[q].Caching? == caching && SoundRank(states[q], npu - reserved)
  }

  ghost function Avails(states: seq<RankState>): seq<nat> {
    seq(|states|, q requires 0 <= q < |states| => Offered(states[q]))
  }

  ghost predicate CanEverBeOk(caching: bool, required: nat, npu: nat, reserved: nat, ranks: nat)
    requires reserved <= npu && ranks > 0
  {
    exists states: seq<RankState>, free: nat :: AnswersOk(states, caching, free, required, npu, reserved, ranks)
  }

  ghost predicate AnswersOk(states: seq<RankState>, caching: bool, free: nat, required: nat, npu: nat, reserved: nat,
                            ranks: nat)
    requires reserved <= npu && ranks > 0
  {
    && |states| == ranks && RankStates(states, caching, npu, reserved) && Conservative(Avails(states), free)
    && Answer(required, npu, reserved, ranks, free) == OK
  }

  /** The answer can be OK in some state of the ranks exactly when their unreserved ids cover the request. */
  lemma OkReachable(caching: bool, required: nat, npu: nat, reserved: nat, ranks: nat)
    requires reserved <= npu && ranks > 0
    ensures CanEverBeOk(caching, required, npu, reserved, ranks) <==> required <= (npu - reserved) * ranks
  {
    if CanEverBeOk(caching, required, npu, reserved, ranks) {
      var states: seq<RankState>, free: nat :| AnswersOk(states, caching, free, required, npu, reserved, ranks);
      OkNeedsIds(states, caching, free, required, npu, reserved, ranks);
    }
    if required <= (npu - reserved) * ranks {
      FreshOk(caching, required, npu, reserved, ranks);
    }
  }

  lemma OkNeedsIds(states: seq<RankState>, caching: bool, free: nat, required: nat, npu: nat, reserved: nat,
                   ranks: nat)
    requires reserved <= npu && ranks > 0 && AnswersOk(states, caching, free, required, npu, reserved, ranks)
    ensures required <= (npu - reserved) * ranks
  {
    hide Inv;
    var m: nat :| Least(Avails(states), m) && free == m * ranks;
    OfferBound(states[0], npu - reserved);
    assert m <= Avails(states)[0];
    Scaled(m, npu - reserved, ranks);
  }

  /** Fresh allocators answer OK to all they can hold. */
  lemma FreshOk(caching: bool, required: nat, npu: nat, reserved: nat, ranks: nat)
    requires reserved <= npu && ranks > 0 && required <= (npu - reserved) * ranks
    ensures CanEverBeOk(caching, required, npu, reserved, ranks)
  {
    hide Offered, SoundRank;
    var start := FreshRank(caching, npu - reserved);
    var states := seq(ranks, q => start);
    assert Avails(states)[0] == npu - reserved;
    assert Least(Avails(states), npu - reserved);
    LessCapacity(npu, reserved, ranks);
    assert AnswersOk(states, caching, (npu - reserved) * ranks, required, npu, reserved, ranks);
  }

  lemma FreshRank(caching: bool, num: nat) returns (k: RankState)
    ensures k.Caching? == caching && SoundRank(k, num) && Offered(k) == num
  {
    if caching {
      var cfg := Config(0, num, 1, (p, t, e) => 1);
      InitialInv(cfg);
      k := Caching(Initial(cfg));
    } else {
      var cfg := Hashless.Config(0, num, 1);
      var memory := map id | id in IdsFrom(0, num) :: [0];
      HashlessProofs.InitialInv(cfg, memory);
      k := Plain(HashlessProofs.Initial(cfg, memory));
    }
  }

  /** Reserved blocks count once in the threshold but on every rank in the capacity. */
  lemma LessCapacity(npu: nat, reserved: nat, ranks: nat)
    requires reserved <= npu && ranks > 0
    ensures (npu - reserved) * ranks <= npu * ranks - reserved
    ensures (npu - reserved) * ranks == npu * ranks - reserved <==> ranks == 1 || reserved == 0
  {
    assert (npu - reserved) * ranks == npu * ranks - reserved * ranks;
    if ranks > 1 && reserved > 0 { Scaled(2, ranks, reserved); }
  }

  /** NEVER is right: no state of the ranks could answer OK. */
  lemma NeverIsFinal(caching: bool, required: nat, npu: nat, reserved: nat, ranks: nat, free: nat)
    requires reserved <= npu && ranks > 0 && Answer(required, npu, reserved, ranks, free) == NEVER
    ensures !CanEverBeOk(caching, required, npu, reserved, ranks)
  {
    LessCapacity(npu, reserved, ranks);
    OkReachable(caching, required, npu, reserved, ranks);
  }

  /** NEVER is said of every hopeless request exactly for a single rank or without a reserve; otherwise
      some request waits for ever. */
  lemma NeverIsExact(caching: bool, npu: nat, reserved: nat, ranks: nat)
    requires reserved <= npu && ranks > 0
    ensures
      (forall required: nat, free: nat :: !CanEverBeOk(caching, required, npu, reserved, ranks) ==>
        Answer(required, npu, reserved, ranks, free) == NEVER)
      <==> ranks == 1 || reserved == 0
  {
    LessCapacity(npu, reserved, ranks);
    if ranks == 1 || reserved == 0 {
      forall required: nat, free: nat | !CanEverBeOk(caching, required, npu, reserved, ranks)
        ensures Answer(required, npu, reserved, ranks, free) == NEVER
      {
        OkReachable(caching, required, npu, reserved, ranks);
      }
    } else {
      var required: nat := npu * ranks - reserved;
      OkReachable(caching, required, npu, reserved, ranks);
      assert Answer(required, npu, reserved, ranks, 0) != NEVER;
    }
  }
}
