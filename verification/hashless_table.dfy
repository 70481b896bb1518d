/** Block tables over the allocator without prefix caching: each operation of a table is a run of operations
    of the allocator. */
module HashlessTables {
  import opened Basics
  import opened Arithmetic
  import opened Chunking
  import opened HashlessSpec
  import opened HashlessProofs

  type Plain = map<Obj, seq<TokenId>>  // every object's own list

  /** The table `objs` holds exactly `tokens`: full blocks, at most one partial, then empty ones. */
  ghost predicate Tabled(m: Plain, size: nat, objs: seq<Obj>, tokens: seq<TokenId>) {
    && |tokens| <= |objs| * size
    && (forall j, k :: 0 <= j < k < |objs| ==> objs[j] != objs[k])
    && (forall k :: 0 <= k < |objs| ==> BlockHolds(m, size, objs, tokens, k))
  }

  predicate BlockHolds(m: Plain, size: nat, objs: seq<Obj>, tokens: seq<TokenId>, k: nat)
    requires k < |objs|
  {
    objs[k] in m && m[objs[k]] == Chunk(tokens, size, k)
  }

  // ---------- runs on separate lists ----------

  /** What an operation that only adds tokens demands. */
  predicate MayGrow(m: Plain, size: nat, op: Op) {
    match op
    case OpAllocate(o, ts) => o !in m && |ts| <= size
    case OpAppend(o, ts) => o in m && |m[o]| + |ts| <= size
    case _ => false
  }

  predicate GrowingRun(m: Plain, size: nat, ops: seq<Op>)
    decreases |ops|
  {
    ops != [] ==> MayGrow(m, size, ops[0]) && GrowingRun(PlainApply(m, ops[0]), size, ops[1..])
  }

  lemma {:induction false} GrowingSplit(m: Plain, size: nat, a: seq<Op>, b: seq<Op>)
    ensures PlainRun(m, a + b) == PlainRun(PlainRun(m, a), b)
    ensures GrowingRun(m, size, a + b) <==> GrowingRun(m, size, a) && GrowingRun(PlainRun(m, a), size, b)
    decreases |a|
  {
    if a == [] {
      assert a + b == b;
    } else {
      assert (a + b)[0] == a[0] && (a + b)[1..] == a[1..] + b;
      GrowingSplit(PlainApply(m, a[0]), size, a[1..], b);
    }
  }

  // ---------- what growing costs ----------

  function Allocations(ops: seq<Op>): nat {
    if ops == [] then 0 else (if ops[0].OpAllocate? then 1 else 0) + Allocations(ops[1..])
  }

  lemma {:induction false} AllocationsSplit(a: seq<Op>, b: seq<Op>)
    ensures Allocations(a + b) == Allocations(a) + Allocations(b)
    decreases |a|
  {
    if a == [] {
      assert a + b == b;
    } else {
      assert (a + b)[0] == a[0] && (a + b)[1..] == a[1..] + b;
      AllocationsSplit(a[1..], b);
    }
  }

  /** Whether writing `o` takes a copy: its id, `at[o]`, has other users. An object not in `at` is alone on its id. */
  predicate Copies(at: map<Obj, BlockId>, uses: map<BlockId, int>, o: Obj) {
    o in at && at[o] in uses && uses[at[o]] > 1
  }

  /** The copies a growing run takes: of the sharers of an id, the last one that writes keeps it. */
  function CopiesIn(at: map<Obj, BlockId>, uses: map<BlockId, int>, ops: seq<Op>): nat
    decreases |ops|
  {
    if ops == [] then 0
    else if ops[0].OpAppend? && Copies(at, uses, ops[0].o) then
      1 + CopiesIn(at - {ops[0].o}, uses[at[ops[0].o] := uses[at[ops[0].o]] - 1], ops[1..])
    else CopiesIn(at, uses, ops[1..])
  }

  /** `at` and `uses` say who shares what. */
  ghost predicate Tracks(s: State, at: map<Obj, BlockId>, uses: map<BlockId, int>) {
    && (forall o :: o in at ==> o in s.blocks)
    && (forall o :: o in s.blocks ==> if o in at then TrackedAt(s, at, uses, o) else Alone(s, o))
  }

  ghost predicate Alone(s: State, o: Obj)
    requires o in s.blocks
  {
    s.blocks[o].id in s.refs && s.refs[s.blocks[o].id] == 1
  }

  ghost predicate TrackedAt(s: State, at: map<Obj, BlockId>, uses: map<BlockId, int>, o: Obj)
    requires o in s.blocks && o in at
  {
    at[o] == s.blocks[o].id && at[o] in s.refs && at[o] in uses && uses[at[o]] == s.refs[at[o]]
  }

  /** One growing operation: what it costs, and that the books stay right. */
  lemma GrowStep(s: State, at: map<Obj, BlockId>, uses: map<BlockId, int>, op: Op)
    requires Base(s) && Tracks(s, at, uses) && Legal(s, op) && (op.OpAllocate? || op.OpAppend?)
    ensures
      var copies := op.OpAppend? && Copies(at, uses, op.o);
      match Apply(s, op)
      case Err(e) => e == Exhausted && s.free == [] && (op.OpAllocate? || copies)
      case Ok(t) =>
        && |t.free| == |s.free| - (if op.OpAllocate? || copies then 1 else 0)
        && if copies then Tracks(t, at - {op.o}, uses[at[op.o] := uses[at[op.o]] - 1]) else Tracks(t, at, uses)
  {
    match op
    case OpAllocate(o, ts) =>
      AllocateCorrect(s, o, ts);
      if s.free != [] {
        var t := Apply(s, op).value;
        NewIdUnheld(s, s.free[0]) by { assert s.free[0] in s.free; }
        forall p | p in t.blocks ensures if p in at then TrackedAt(t, at, uses, p) else Alone(t, p) {}
      }
    case OpAppend(o, ts) =>
      AppendCorrect(s, o, ts);
      HolderUses(s, o);
      if Apply(s, op).Ok? { AppendTracks(s, at, uses, o, ts, Apply(s, op).value); }
  }

  lemma AppendTracks(s: State, at: map<Obj, BlockId>, uses: map<BlockId, int>, o: Obj, ts: seq<TokenId>, t: State)
    requires Base(s) && Tracks(s, at, uses) && o in s.blocks && s.blocks[o].id in s.refs
    requires AppendOutcome(s, o, Longer(s.blocks[o], ts), Ok(t))
    ensures Copies(at, uses, o) <==> Shared(s, o)
    ensures
      if Copies(at, uses, o) then Tracks(t, at - {o}, uses[at[o] := uses[at[o]] - 1]) else Tracks(t, at, uses)
  {
    hide Moved, Undisturbed, InOrder, Agreeing, MemoryShape, CowsOk;
    assert if o in at then TrackedAt(s, at, uses, o) else Alone(s, o);
    if Shared(s, o) {
      assert s.free[0] in s.free;
      NewIdUnheld(s, s.free[0]);
      forall p | p in t.blocks
        ensures if p in at - {o} then TrackedAt(t, at - {o}, uses[at[o] := uses[at[o]] - 1], p) else Alone(t, p)
      {
        assert if p in at then TrackedAt(s, at, uses, p) else Alone(s, p);
        if p != o && p !in at && s.blocks[p].id == s.blocks[o].id { SoleHolder(s, p, o); }
      }
    } else {
      forall p | p in t.blocks ensures if p in at then TrackedAt(t, at, uses, p) else Alone(t, p) {
        assert if p in at then TrackedAt(s, at, uses, p) else Alone(s, p);
      }
    }
  }

  /** A growing run succeeds exactly if the free ids cover its new blocks and its copies, and uses just
      these. */
  lemma {:induction false} GrowExact(s: State, at: map<Obj, BlockId>, uses: map<BlockId, int>, ops: seq<Op>)
    requires Base(s) && Tracks(s, at, uses) && GrowingRun(Lists(s.blocks), s.cfg.blockSize, ops)
    ensures LegalRun(s, ops)
    ensures
      var cost := Allocations(ops) + CopiesIn(at, uses, ops);
      match Run(s, ops)
      case Err(e) => e == Exhausted && |s.free| < cost
      case Ok(t) =>
        && |t.free| == |s.free| - cost && Base(t) && t.cfg == s.cfg
        && Lists(t.blocks) == PlainRun(Lists(s.blocks), ops)
    decreases |ops|
  {
    if ops != [] {
      hide Base, Tracks, Legal, MayGrow, AllocateMutableBlock, AppendTokenIds;
      GrowIsLegal(s, ops[0]);
      GrowStep(s, at, uses, ops[0]);
      ApplyCorrect(s, ops[0]);
      if Apply(s, ops[0]).Ok? {
        var t := Apply(s, ops[0]).value;
        if ops[0].OpAppend? && Copies(at, uses, ops[0].o) {
          GrowExact(t, at - {ops[0].o}, uses[at[ops[0].o] := uses[at[ops[0].o]] - 1], ops[1..]);
        } else {
          GrowExact(t, at, uses, ops[1..]);
        }
      }
    }
  }

  lemma GrowIsLegal(s: State, op: Op)
    requires MayGrow(Lists(s.blocks), s.cfg.blockSize, op)
    ensures Legal(s, op) && (op.OpAllocate? || op.OpAppend?)
  {
  }

  /** Who shares what, as the allocator sees it. */
  function Ids(s: State): map<Obj, BlockId> {
    map o | o in s.blocks :: s.blocks[o].id
  }

  lemma TracksItself(s: State)
    requires Base(s)
    ensures Tracks(s, Ids(s), s.refs)
  {
  }

  // ---------- the operations of a table ----------

  /** `ts`, cut behind the first `empty` tokens and then at every block's size. */
  function ChunksFor(ts: seq<TokenId>, empty: nat, size: nat): seq<seq<TokenId>>
    requires size > 0 && empty > 0
    decreases |ts|
  {
    if ts == [] then [] else [ts[..Min(empty, |ts|)]] + ChunksFor(ts[Min(empty, |ts|)..], size, size)
  }

  /** EnsureEnoughSlots: an empty block for each new object. */
  function AllocOps(added: seq<Obj>): seq<Op> {
    seq(|added|, k requires 0 <= k < |added| => OpAllocate(added[k], []))
  }

  /** The chunks go into consecutive blocks from `first` on. */
  function FillOps(objs: seq<Obj>, first: nat, chunks: seq<seq<TokenId>>): seq<Op>
    requires first + |chunks| <= |objs|
  {
    seq(|chunks|, i requires 0 <= i < |chunks| => OpAppend(objs[first + i], chunks[i]))
  }

  lemma {:induction false} ChunksFit(ts: seq<TokenId>, empty: nat, size: nat, first: nat, blocks: nat)
    requires size > 0 && 0 < empty <= size && (first + 1) * size - empty + |ts| <= blocks * size
    ensures first + |ChunksFor(ts, empty, size)| <= blocks || ts == []
    decreases |ts|
  {
    if ts != [] {
      BlocksLeft(first, blocks, size, empty, |ts|);
      assert (first + 2) * size == (first + 1) * size + size;
      if |ts| > empty { ChunksFit(ts[empty..], size, size, first + 1, blocks); }
    }
  }

  lemma BlocksLeft(first: nat, blocks: nat, size: nat, empty: nat, length: nat)
    requires size > 0 && 0 < empty <= size && (first + 1) * size - empty + length <= blocks * size && length > 0
    ensures first < blocks
  {
    assert (first + 1) * size == first * size + size;
    assert first * size < blocks * size;
    if blocks <= first { Scaled(blocks, first, size); }
  }

  /** What BlockTable::AppendTokenIds asks of the allocator. */
  function TableOps(size: nat, objs: seq<Obj>, n: nat, added: seq<Obj>, ts: seq<TokenId>): seq<Op>
    requires size > 0 && n + |ts| <= (|objs| + |added|) * size
  {
    AllocOps(added) + FillOps(objs + added, FirstWritten(size, objs, n, added, ts),
      ChunksFor(ts, size - n % size, size))
  }

  /** The block that the first chunk continues. */
  function FirstWritten(size: nat, objs: seq<Obj>, n: nat, added: seq<Obj>, ts: seq<TokenId>): (first: nat)
    requires size > 0 && n + |ts| <= (|objs| + |added|) * size
    ensures first + |ChunksFor(ts, size - n % size, size)| <= |objs| + |added|
    ensures ts != [] ==> first == n / size
  {
    var first := n / size;
    BlockBounds(n, size);
    assert (first + 1) * size == first * size + size;
    ChunksFit(ts, size - n % size, size, first, |objs| + |added|);
    if ts == [] then 0 else first
  }

  lemma {:induction false} AllocRun(m: Plain, size: nat, objs: seq<Obj>, tokens: seq<TokenId>, added: seq<Obj>)
    requires size > 0 && Tabled(m, size, objs, tokens)
    requires NoDup(added) && forall k :: 0 <= k < |added| ==> added[k] !in m
    ensures GrowingRun(m, size, AllocOps(added)) && Allocations(AllocOps(added)) == |added|
    ensures Tabled(PlainRun(m, AllocOps(added)), size, objs + added, tokens)
    ensures Untouched(m, PlainRun(m, AllocOps(added)), added)
    decreases |added|
  {
    var ops := AllocOps(added);
    if added == [] {
      assert objs + added == objs;
    } else {
      var m' := m[added[0] := []];
      assert ops[1..] == AllocOps(added[1..]);
      EmptyTabled(m, size, objs, tokens, added[0]);
      AllocRun(m', size, objs + [added[0]], tokens, added[1..]);
      assert objs + [added[0]] + added[1..] == objs + added;
    }
  }

  /** A run, its first operation taken off. */
  lemma RunCons(m: Plain, size: nat, ops: seq<Op>)
    requires ops != []
    ensures PlainRun(m, ops) == PlainRun(PlainApply(m, ops[0]), ops[1..])
    ensures GrowingRun(m, size, ops) <==> MayGrow(m, size, ops[0]) && GrowingRun(PlainApply(m, ops[0]), size, ops[1..])
    ensures Allocations(ops) == (if ops[0].OpAllocate? then 1 else 0) + Allocations(ops[1..])
  {
  }

  lemma UntouchedThen(m: Plain, u: Plain, t: Plain, a: seq<Obj>, b: seq<Obj>, all: seq<Obj>)
    requires Untouched(m, u, a) && Untouched(u, t, b)
    requires forall p :: p in a || p in b ==> p in all
    ensures Untouched(m, t, all)
  {
  }

  /** Lists of objects other than `mine` stay; no others appear. */
  ghost predicate Untouched(m: Plain, t: Plain, mine: seq<Obj>) {
    && (forall p :: p in m && p !in mine ==> p in t && t[p] == m[p])
    && (forall p :: p in t ==> p in m || p in mine)
  }

  lemma EmptyTabled(m: Plain, size: nat, objs: seq<Obj>, tokens: seq<TokenId>, o: Obj)
    requires size > 0 && Tabled(m, size, objs, tokens) && o !in m
    ensures Tabled(m[o := []], size, objs + [o], tokens)
  {
    hide Chunk;
    var more, t := objs + [o], m[o := []];
    assert |more| * size == |objs| * size + size;
    ChunkSize(tokens, size, |objs|);
    forall k | 0 <= k < |more| ensures BlockHolds(t, size, more, tokens, k) && (k < |objs| ==> more[k] != o) {
      var p := more[k];
      if k < |objs| { assert BlockHolds(m, size, objs, tokens, k) && p in m; }
    }
  }

  lemma ChunkTabled(m: Plain, size: nat, objs: seq<Obj>, tokens: seq<TokenId>, ts: seq<TokenId>, k: nat)
    requires size > 0 && Tabled(m, size, objs, tokens) && k < |objs| && Continues(tokens, ts, size, k)
    ensures MayGrow(m, size, OpAppend(objs[k], ts))
    ensures Tabled(PlainApply(m, OpAppend(objs[k], ts)), size, objs, tokens + ts)
  {
    assert BlockHolds(m, size, objs, tokens, k);
    ChunkAppend(tokens, ts, size, k, k);
    ChunkSize(tokens + ts, size, k);
    Scaled(k + 1, |objs|, size);
    var t := PlainApply(m, OpAppend(objs[k], ts));
    forall i | 0 <= i < |objs| ensures BlockHolds(t, size, objs, tokens + ts, i) {
      assert BlockHolds(m, size, objs, tokens, i);
      ChunkAppend(tokens, ts, size, k, i);
    }
  }

  /** The first chunk is one operation, the others follow in the next block. */
  lemma FillStep(objs: seq<Obj>, first: nat, ts: seq<TokenId>, empty: nat, size: nat)
    requires ts != [] && size > 0 && empty > 0 && first + |ChunksFor(ts, empty, size)| <= |objs|
    ensures
      var ops := FillOps(objs, first, ChunksFor(ts, empty, size));
      var c, rest := ts[..Min(empty, |ts|)], ts[Min(empty, |ts|)..];
      && ops != [] && ops[0] == OpAppend(objs[first], c) && c + rest == ts && |rest| < |ts|
      && first + 1 + |ChunksFor(rest, size, size)| <= |objs|
      && ops[1..] == FillOps(objs, first + 1, ChunksFor(rest, size, size))
      && (|ts| <= empty ==> rest == []) && (empty < |ts| ==> |c| == empty)
  {
    FirstChunk(ts, empty, size);
    FillTail(objs, first, ChunksFor(ts, empty, size));
  }

  lemma FillTail(objs: seq<Obj>, first: nat, chunks: seq<seq<TokenId>>)
    requires first + |chunks| <= |objs| && chunks != []
    ensures
      var ops := FillOps(objs, first, chunks);
      ops != [] && ops[0] == OpAppend(objs[first], chunks[0]) && ops[1..] == FillOps(objs, first + 1, chunks[1..])
  {
  }

  lemma {:induction false} FillRun(m: Plain, size: nat, objs: seq<Obj>, tokens: seq<TokenId>, ts: seq<TokenId>,
                                   first: nat, empty: nat)
    requires size > 0 && Tabled(m, size, objs, tokens)
    requires 0 < empty <= size && |tokens| + empty == (first + 1) * size
    requires first + |ChunksFor(ts, empty, size)| <= |objs|
    ensures
      var ops := FillOps(objs, first, ChunksFor(ts, empty, size));
      && GrowingRun(m, size, ops) && Allocations(ops) == 0
      && Tabled(PlainRun(m, ops), size, objs, tokens + ts) && Untouched(m, PlainRun(m, ops), objs)
    decreases |ts|
  {
    if ts == [] {
      assert tokens + ts == tokens;
    } else {
      hide Tabled, FillOps, ChunksFor;
      FillStep(objs, first, ts, empty, size);
      var ops := FillOps(objs, first, ChunksFor(ts, empty, size));
      var c, rest := ts[..Min(empty, |ts|)], ts[Min(empty, |ts|)..];
      assert (first + 1) * size == first * size + size;
      ChunkTabled(m, size, objs, tokens, c, first);
      assert tokens + c + rest == tokens + ts;
      var m' := PlainApply(m, ops[0]);
      if rest == [] {
        FillNone(m', size, objs, first + 1);
        assert tokens + c == tokens + ts;
      } else {
        assert (first + 1 + 1) * size == (first + 1) * size + size;
        FillRun(m', size, objs, tokens + c, rest, first + 1, size);
      }
    }
  }

  lemma FillNone(m: Plain, size: nat, objs: seq<Obj>, first: nat)
    requires size > 0 && first <= |objs|
    ensures
      var ops := FillOps(objs, first, ChunksFor([], size, size));
      GrowingRun(m, size, ops) && Allocations(ops) == 0 && PlainRun(m, ops) == m
  {
  }

  /** Appending makes the table hold the longer list and touches nobody else's. */
  lemma TableRun(m: Plain, size: nat, objs: seq<Obj>, tokens: seq<TokenId>, added: seq<Obj>, ts: seq<TokenId>)
    requires size > 0 && Tabled(m, size, objs, tokens) && |tokens| + |ts| <= (|objs| + |added|) * size
    requires NoDup(added) && forall k :: 0 <= k < |added| ==> added[k] !in m
    ensures
      var ops := TableOps(size, objs, |tokens|, added, ts);
      && GrowingRun(m, size, ops) && Allocations(ops) == |added|
      && Tabled(PlainRun(m, ops), size, objs + added, tokens + ts)
      && Untouched(m, PlainRun(m, ops), objs + added)
  {
    hide Tabled, GrowingRun, PlainRun, FillOps, ChunksFor;
    var n := |tokens|;
    var a := AllocOps(added);
    var b := FillOps(objs + added, FirstWritten(size, objs, n, added, ts), ChunksFor(ts, size - n % size, size));
    AllocRun(m, size, objs, tokens, added);
    GrowingSplit(m, size, a, b);
    AllocationsSplit(a, b);
    if ts == [] {
      assert tokens + ts == tokens;
      NoFill(PlainRun(m, a), size, objs + added, n);
    } else {
      BlockBounds(n, size);
      assert (n / size + 1) * size == n / size * size + size;
      FillRun(PlainRun(m, a), size, objs + added, tokens, ts, n / size, size - n % size);
    }
  }

  lemma NoFill(m: Plain, size: nat, objs: seq<Obj>, n: nat)
    requires size > 0
    ensures ChunksFor([], size - n % size, size) == []
    ensures
      var b := FillOps(objs, 0, []);
      GrowingRun(m, size, b) && Allocations(b) == 0 && PlainRun(m, b) == m
  {
  }

  // ---------- a group of sequences ----------

  /** A sequence's table, what its sequence has come to, and the objects for its new blocks. */
  datatype Job = Job(objs: seq<Obj>, tokens: seq<TokenId>, all: seq<TokenId>, added: seq<Obj>)

  /** New blocks, as many as the tokens and the lookahead need. */
  predicate JobOk(job: Job, size: nat, lookahead: nat) {
    && size > 0 && job.tokens <= job.all && |job.tokens| <= |job.objs| * size
    && |job.added| == NewBlocks(|job.objs|, |job.tokens|, |job.all| - |job.tokens| + lookahead, size)
  }

  lemma JobFits(job: Job, size: nat, lookahead: nat)
    requires JobOk(job, size, lookahead)
    ensures |job.all| <= (|job.objs| + |job.added|) * size
    ensures |job.tokens| + |job.all[|job.tokens|..]| == |job.all|
    ensures job.tokens + job.all[|job.tokens|..] == job.all
  {
    NewBlocksEnough(|job.objs|, |job.tokens|, |job.all| - |job.tokens| + lookahead, size);
  }

  function JobOps(job: Job, size: nat, lookahead: nat): seq<Op>
    requires JobOk(job, size, lookahead)
  {
    JobFits(job, size, lookahead);
    TableOps(size, job.objs, |job.tokens|, job.added, job.all[|job.tokens|..])
  }

  predicate JobsOk(jobs: seq<Job>, size: nat, lookahead: nat) {
    forall j :: 0 <= j < |jobs| ==> JobOk(jobs[j], size, lookahead)
  }

  /** AppendSlot for every sequence of the group, in turn. */
  function GroupOps(jobs: seq<Job>, size: nat, lookahead: nat): seq<Op>
    requires JobsOk(jobs, size, lookahead)
  {
    if jobs == [] then [] else JobOps(jobs[0], size, lookahead) + GroupOps(jobs[1..], size, lookahead)
  }

  /** The tables hold what they should, and no object serves twice. */
  ghost predicate Waiting(m: Plain, size: nat, jobs: seq<Job>) {
    && (forall j :: 0 <= j < |jobs| ==> JobWaits(m, size, jobs[j]))
    && (forall i, j :: 0 <= i < j < |jobs| ==> Disjoint(jobs[i], jobs[j]))
  }

  ghost predicate JobWaits(m: Plain, size: nat, job: Job) {
    && Tabled(m, size, job.objs, job.tokens) && NoDup(job.added)
    && (forall k :: 0 <= k < |job.added| ==> job.added[k] !in m)
  }

  ghost predicate Disjoint(a: Job, b: Job) {
    forall p :: p in a.objs + a.added ==> p !in b.objs + b.added
  }

  lemma OthersWait(m: Plain, t: Plain, size: nat, a: Job, b: Job)
    requires Untouched(m, t, a.objs + a.added) && Disjoint(a, b) && JobWaits(m, size, b)
    ensures JobWaits(t, size, b)
  {
    forall k | 0 <= k < |b.objs| ensures BlockHolds(t, size, b.objs, b.tokens, k) {
      assert BlockHolds(m, size, b.objs, b.tokens, k);
      assert b.objs[k] in b.objs + b.added;
    }
    forall k | 0 <= k < |b.added| ensures b.added[k] !in t { assert b.added[k] in b.objs + b.added; }
  }

  lemma OthersHold(m: Plain, t: Plain, size: nat, mine: seq<Obj>, objs: seq<Obj>, tokens: seq<TokenId>)
    requires Untouched(m, t, mine) && Tabled(m, size, objs, tokens)
    requires forall p :: p in objs ==> p !in mine
    ensures Tabled(t, size, objs, tokens)
  {
    forall k | 0 <= k < |objs| ensures BlockHolds(t, size, objs, tokens, k) {
      assert BlockHolds(m, size, objs, tokens, k);
      var p := objs[k];
      assert p in m && p in objs;
    }
  }

  /** The blocks the group adds. */
  function AddedIn(jobs: seq<Job>): nat {
    if jobs == [] then 0 else |jobs[0].added| + AddedIn(jobs[1..])
  }

  /** All objects of the group. */
  function AllObjs(jobs: seq<Job>): seq<Obj> {
    if jobs == [] then [] else jobs[0].objs + jobs[0].added + AllObjs(jobs[1..])
  }

  lemma {:induction false} ApartFromAll(jobs: seq<Job>, a: Job)
    requires forall j :: 0 <= j < |jobs| ==> Disjoint(a, jobs[j])
    ensures forall p :: p in a.objs + a.added ==> p !in AllObjs(jobs)
    decreases |jobs|
  {
    if jobs != [] {
      assert forall j :: 0 <= j < |jobs[1..]| ==> jobs[1..][j] == jobs[j + 1];
      ApartFromAll(jobs[1..], a);
      forall p | p in a.objs + a.added ensures p !in AllObjs(jobs) {
        assert Disjoint(a, jobs[0]) && p !in jobs[0].objs + jobs[0].added;
      }
    }
  }

  /** The group without its first sequence waits once that is served. */
  lemma RestWaits(m: Plain, t: Plain, size: nat, jobs: seq<Job>, lookahead: nat)
    requires JobsOk(jobs, size, lookahead) && Waiting(m, size, jobs) && jobs != []
    requires Untouched(m, t, jobs[0].objs + jobs[0].added)
    ensures JobOk(jobs[0], size, lookahead) && JobWaits(m, size, jobs[0])
    ensures JobsOk(jobs[1..], size, lookahead) && Waiting(t, size, jobs[1..])
    ensures forall p :: p in jobs[0].objs + jobs[0].added ==> p !in AllObjs(jobs[1..])
  {
    var a, rest := jobs[0], jobs[1..];
    assert forall j :: 0 <= j < |rest| ==> rest[j] == jobs[j + 1];
    forall j | 0 <= j < |rest| ensures JobWaits(t, size, rest[j]) && Disjoint(a, rest[j]) {
      assert JobWaits(m, size, jobs[j + 1]) && Disjoint(jobs[0], jobs[j + 1]);
      OthersWait(m, t, size, a, rest[j]);
    }
    ApartFromAll(rest, a);
  }

  lemma FirstWaits(m: Plain, size: nat, jobs: seq<Job>, lookahead: nat)
    requires JobsOk(jobs, size, lookahead) && Waiting(m, size, jobs) && jobs != []
    ensures JobOk(jobs[0], size, lookahead) && JobsOk(jobs[1..], size, lookahead)
    ensures
      var a := jobs[0];
      && size > 0 && Tabled(m, size, a.objs, a.tokens) && NoDup(a.added)
      && forall k :: 0 <= k < |a.added| ==> a.added[k] !in m
  {
    assert JobOk(jobs[0], size, lookahead) && JobWaits(m, size, jobs[0]);
    assert forall j :: 0 <= j < |jobs[1..]| ==> jobs[1..][j] == jobs[j + 1];
  }

  lemma GroupStep(jobs: seq<Job>, size: nat, lookahead: nat)
    requires jobs != [] && JobsOk(jobs, size, lookahead)
    requires JobOk(jobs[0], size, lookahead) && JobsOk(jobs[1..], size, lookahead)
    ensures
      var a := jobs[0];
      && |a.tokens| + |a.all[|a.tokens|..]| <= (|a.objs| + |a.added|) * size && a.tokens <= a.all
      && JobOps(a, size, lookahead) == TableOps(size, a.objs, |a.tokens|, a.added, a.all[|a.tokens|..])
      && a.tokens + a.all[|a.tokens|..] == a.all
    ensures GroupOps(jobs, size, lookahead) == JobOps(jobs[0], size, lookahead) + GroupOps(jobs[1..], size, lookahead)
    ensures AddedIn(jobs) == |jobs[0].added| + AddedIn(jobs[1..])
    ensures AllObjs(jobs) == jobs[0].objs + jobs[0].added + AllObjs(jobs[1..])
  {
    JobFits(jobs[0], size, lookahead);
  }

  lemma GroupNone(m: Plain, size: nat, lookahead: nat)
    requires JobsOk([], size, lookahead)
    ensures
      var ops := GroupOps([], size, lookahead);
      && GrowingRun(m, size, ops) && Allocations(ops) == AddedIn([]) && PlainRun(m, ops) == m
      && Untouched(m, m, AllObjs([]))
  {
  }

  /** Serving the group makes every table hold its sequence. */
  lemma {:induction false} GroupRun(m: Plain, size: nat, jobs: seq<Job>, lookahead: nat)
    requires JobsOk(jobs, size, lookahead) && Waiting(m, size, jobs)
    ensures
      var ops := GroupOps(jobs, size, lookahead);
      && GrowingRun(m, size, ops) && Allocations(ops) == AddedIn(jobs)
      && Untouched(m, PlainRun(m, ops), AllObjs(jobs))
      && forall j :: 0 <= j < |jobs| ==> Tabled(PlainRun(m, ops), size, jobs[j].objs + jobs[j].added, jobs[j].all)
    decreases |jobs|
  {
    hide *;
    if jobs == [] {
      GroupNone(m, size, lookahead);
    } else {
      FirstWaits(m, size, jobs, lookahead);
      GroupStep(jobs, size, lookahead);
      var a, rest := jobs[0], jobs[1..];
      var first, later := JobOps(a, size, lookahead), GroupOps(rest, size, lookahead);
      TableRun(m, size, a.objs, a.tokens, a.added, a.all[|a.tokens|..]);
      var m' := PlainRun(m, first);
      RestWaits(m, m', size, jobs, lookahead);
      GroupRun(m', size, rest, lookahead);
      GrowingSplit(m, size, first, later);
      AllocationsSplit(first, later);
      var t := PlainRun(m', later);
      assert forall p :: p in a.objs + a.added ==> p !in AllObjs(rest);
      OthersHold(m', t, size, AllObjs(rest), a.objs + a.added, a.all);
      UntouchedThen(m, m', t, a.objs + a.added, AllObjs(rest), AllObjs(jobs));
      forall j | 0 <= j < |jobs| ensures Tabled(t, size, jobs[j].objs + jobs[j].added, jobs[j].all) {
        if j > 0 { assert jobs[j] == rest[j - 1]; }
      }
    }
  }

  /** What CanAppendSlot adds up. */
  function Estimate(jobs: seq<Job>, size: nat, lookahead: nat): nat
    requires JobsOk(jobs, size, lookahead)
  {
    if jobs == [] then 0
    else
      var a := jobs[0];
      RelatedBlocks(|a.tokens|, |a.all| - |a.tokens| + lookahead, size) + Estimate(jobs[1..], size, lookahead)
  }

  /** No table holds blocks beyond its tokens. */
  predicate NoSpare(jobs: seq<Job>, size: nat)
    requires size > 0
  {
    forall j :: 0 <= j < |jobs| ==> |jobs[j].objs| == CeilDiv(|jobs[j].tokens|, size)
  }

  lemma {:induction false} EstimateCovers(jobs: seq<Job>, size: nat, lookahead: nat)
    requires JobsOk(jobs, size, lookahead) && size > 0
    ensures AddedIn(jobs) <= Estimate(jobs, size, lookahead)
    ensures NoSpare(jobs, size) ==> AddedIn(jobs) == Estimate(jobs, size, lookahead)
    decreases |jobs|
  {
    if jobs != [] {
      var a := jobs[0];
      assert JobOk(a, size, lookahead);
      RelatedBound(|a.objs|, |a.tokens|, |a.all| - |a.tokens| + lookahead, size);
      assert forall j :: 0 <= j < |jobs[1..]| ==> jobs[1..][j] == jobs[j + 1];
      EstimateCovers(jobs[1..], size, lookahead);
    }
  }

  /** A scheduling round of a group: every AppendSlot succeeds, and every table ends up holding its sequence,
      exactly if the free ids cover the new blocks and the copies of shared blocks that are written. */
  lemma AppendGroup(s: State, jobs: seq<Job>, lookahead: nat)
    requires Base(s) && JobsOk(jobs, s.cfg.blockSize, lookahead) && Waiting(Lists(s.blocks), s.cfg.blockSize, jobs)
    ensures
      var ops := GroupOps(jobs, s.cfg.blockSize, lookahead);
      var cost := AddedIn(jobs) + CopiesIn(Ids(s), s.refs, ops);
      && LegalRun(s, ops)
      && match Run(s, ops)
         case Err(e) => e == Exhausted && |s.free| < cost
         case Ok(t) =>
           && Base(t) && |t.free| == |s.free| - cost
           && (forall j :: 0 <= j < |jobs| ==>
                 Tabled(Lists(t.blocks), s.cfg.blockSize, jobs[j].objs + jobs[j].added, jobs[j].all))
           && Untouched(Lists(s.blocks), Lists(t.blocks), AllObjs(jobs))
  {
    var ops := GroupOps(jobs, s.cfg.blockSize, lookahead);
    GroupRun(Lists(s.blocks), s.cfg.blockSize, jobs, lookahead);
    TracksItself(s);
    GrowExact(s, Ids(s), s.refs, ops);
  }

  /** CanAppendSlot's estimate is enough if no copy is taken, and without spare blocks it is wrong exactly if
      the ids it leaves do not cover the copies. */
  lemma EstimateExact(s: State, jobs: seq<Job>, lookahead: nat)
    requires Base(s) && JobsOk(jobs, s.cfg.blockSize, lookahead) && Waiting(Lists(s.blocks), s.cfg.blockSize, jobs)
    requires s.cfg.blockSize > 0 && Estimate(jobs, s.cfg.blockSize, lookahead) <= |s.free|
    ensures
      var ops := GroupOps(jobs, s.cfg.blockSize, lookahead);
      var copies := CopiesIn(Ids(s), s.refs, ops);
      && (Estimate(jobs, s.cfg.blockSize, lookahead) + copies <= |s.free| ==> Run(s, ops).Ok?)
      && (NoSpare(jobs, s.cfg.blockSize) ==>
            (Run(s, ops).Ok? <==> Estimate(jobs, s.cfg.blockSize, lookahead) + copies <= |s.free|))
  {
    AppendGroup(s, jobs, lookahead);
    EstimateCovers(jobs, s.cfg.blockSize, lookahead);
  }

  /** Without sharing among the blocks that are written, no copy is taken. */
  lemma {:induction false} UnsharedNeedsNoCopy(at: map<Obj, BlockId>, uses: map<BlockId, int>, ops: seq<Op>)
    requires forall k :: 0 <= k < |ops| && ops[k].OpAppend? ==> !Copies(at, uses, ops[k].o)
    ensures CopiesIn(at, uses, ops) == 0
    decreases |ops|
  {
    if ops != [] {
      assert forall k :: 0 <= k < |ops[1..]| ==> ops[1..][k] == ops[k + 1];
      UnsharedNeedsNoCopy(at, uses, ops[1..]);
    }
  }

  // ---------- a round, seen on the device ----------

  /** Nobody owes anything to an id that others use. */
  ghost predicate SharesSettled(s: State) {
    forall o :: o in s.blocks && s.blocks[o].id in s.refs && Shared(s, o) ==> Settled(s, o)
  }

  /** Where only settled blocks are shared, growing is careful and leaves it so. */
  lemma GrowCareful(s: State, op: Op)
    requires Inv(s) && SharesSettled(s) && Legal(s, op) && (op.OpAllocate? || op.OpAppend?) && Apply(s, op).Ok?
    ensures Careful(s, op) && Inv(Apply(s, op).value) && SharesSettled(Apply(s, op).value)
  {
    hide InOrder;
    var t := Apply(s, op).value;
    match op
    case OpAllocate(o, ts) =>
      AllocateCorrect(s, o, ts);
      NewIdUnheld(s, s.free[0]) by { assert s.free[0] in s.free; }
      assert !Shared(t, o);
    case OpAppend(o, ts) =>
      AppendCorrect(s, o, ts);
      if Shared(s, o) {
        SettledIsCareful(s, o, ts);
        NewIdUnheld(s, s.free[0]) by { assert s.free[0] in s.free; }
      } else {
        AloneOnId(s, o);
      }
    CarefulExact(s, op);
    forall p | p in t.blocks && t.blocks[p].id in t.refs && Shared(t, p) ensures Settled(t, p) {
      StaysSettled(s, t, op.o, p);
    }
  }

  lemma StaysSettled(s: State, t: State, o: Obj, p: Obj)
    requires SharesSettled(s) && p in s.blocks && p in t.blocks && p != o && t.blocks[p] == s.blocks[p]
    requires s.blocks[p].id in s.refs && Shared(s, p) && o in t.blocks && t.blocks[o].id != s.blocks[p].id
    requires forall q :: q in t.blocks && q != o ==> q in s.blocks && t.blocks[q] == s.blocks[q]
    ensures Settled(t, p)
  {
  }

  lemma {:induction false} RoundCareful(s: State, ops: seq<Op>)
    requires Inv(s) && SharesSettled(s) && GrowingRun(Lists(s.blocks), s.cfg.blockSize, ops)
    ensures CarefulRun(s, ops)
    ensures Run(s, ops).Ok? ==> Inv(Run(s, ops).value) && SharesSettled(Run(s, ops).value)
    decreases |ops|
  {
    if ops != [] {
      GrowIsLegal(s, ops[0]);
      ApplyCorrect(s, ops[0]);
      if Apply(s, ops[0]).Ok? {
        GrowCareful(s, ops[0]);
        RoundCareful(Apply(s, ops[0]).value, ops[1..]);
      }
    }
  }

  /** What reading the blocks of a table through their ids yields. */
  ghost function ReadThrough(s: State, objs: seq<Obj>): seq<TokenId>
    requires forall k :: 0 <= k < |objs| ==> objs[k] in s.blocks && Gathers(s, objs[k])
  {
    Concat(seq(|objs|, k requires 0 <= k < |objs| => Shown(s, objs[k])))
  }

  /** What the memory of the object's id shows in place of its tokens. */
  ghost function Shown(s: State, o: Obj): seq<TokenId>
    requires o in s.blocks && Gathers(s, o)
  {
    s.memory[s.blocks[o].id][..|s.blocks[o].tokens|]
  }

  /** The table of the sequence reads as the sequence. */
  ghost predicate Reads(s: State, job: Job) {
    var objs := job.objs + job.added;
    && (forall k :: 0 <= k < |objs| ==> objs[k] in s.blocks && Gathers(s, objs[k]))
    && ReadThrough(s, objs) == job.all
  }

  /** A round of appending, from a state in which shared blocks are settled, and the device pass behind it: read
      through its ids, every table of the group shows its sequence, whoever shares its blocks. */
  lemma RoundReads(s: State, jobs: seq<Job>, lookahead: nat, order: seq<Obj>)
    requires Inv(s) && SharesSettled(s) && s.cfg.blockSize > 0
    requires JobsOk(jobs, s.cfg.blockSize, lookahead) && Waiting(Lists(s.blocks), s.cfg.blockSize, jobs)
    ensures
      var r := Run(s, GroupOps(jobs, s.cfg.blockSize, lookahead));
      r.Ok? && (forall o :: o in r.value.blocks ==> o in order) ==>
        var t := DevicePass(r.value, order);
        Inv(t) && SharesSettled(t) && forall j :: 0 <= j < |jobs| ==> Reads(t, jobs[j])
  {
    hide Waiting, Tabled, JobsOk, GroupOps, InOrder, Gathers, Base, SharesSettled;
    var ops := GroupOps(jobs, s.cfg.blockSize, lookahead);
    AppendGroup(s, jobs, lookahead);
    GroupRun(Lists(s.blocks), s.cfg.blockSize, jobs, lookahead);
    RoundCareful(s, ops);
    var r := Run(s, ops);
    if r.Ok? && forall o :: o in r.value.blocks ==> o in order {
      RunCorrect(s, ops);
      PassCorrect(r.value, order);
      var t := DevicePass(r.value, order);
      PassSettles(t);
      forall j | 0 <= j < |jobs| ensures Reads(t, jobs[j]) {
        TableGathers(r.value, t, jobs[j].objs + jobs[j].added, jobs[j].all);
      }
    }
  }

  lemma PassSettles(t: State)
    requires forall o :: o in t.blocks ==> Settled(t, o)
    ensures SharesSettled(t)
  {
  }

  lemma TableGathers(s: State, t: State, objs: seq<Obj>, tokens: seq<TokenId>)
    requires s.cfg.blockSize > 0 && Tabled(Lists(s.blocks), s.cfg.blockSize, objs, tokens)
    requires forall o :: o in s.blocks ==> o in t.blocks && t.blocks[o].tokens == s.blocks[o].tokens && Gathers(t, o)
    ensures forall k :: 0 <= k < |objs| ==> objs[k] in t.blocks && Gathers(t, objs[k])
    ensures ReadThrough(t, objs) == tokens
  {
    var size := s.cfg.blockSize;
    forall k | 0 <= k < |objs|
      ensures objs[k] in t.blocks && Gathers(t, objs[k]) && t.blocks[objs[k]].tokens == Chunk(tokens, size, k)
    {
      var p := objs[k];
      assert BlockHolds(Lists(s.blocks), size, objs, tokens, k) && p in s.blocks;
    }
    var parts := seq(|objs|, k requires 0 <= k < |objs| => Shown(t, objs[k]));
    assert parts == Chunks(tokens, size, |objs|);
    ConcatChunks(tokens, size, |objs|);
  }

  // ---------- allocating, forking and freeing a table ----------

  /** A block of its own for every chunk. */
  function AllocateOps(added: seq<Obj>, chunks: seq<seq<TokenId>>): seq<Op>
    requires |added| == |chunks|
  {
    seq(|added|, k requires 0 <= k < |added| => OpAllocate(added[k], chunks[k]))
  }

  lemma {:induction false} ChunkCount(ts: seq<TokenId>, size: nat)
    requires size > 0
    ensures |ChunksFor(ts, size, size)| == CeilDiv(|ts|, size)
    decreases |ts|
  {
    if ts == [] {
      DivIs(size - 1, size, 0);
    } else if |ts| <= size {
      assert ts[|ts|..] == [];
      DivIs(|ts| + size - 1, size, 1);
    } else {
      ChunkCount(ts[size..], size);
      CeilBounds(|ts| - size, size);
      var q := CeilDiv(|ts| - size, size);
      assert (q + 1) * size == q * size + size;
      CeilBounds(|ts|, size);
      BlockBounds(|ts| - size + size - 1, size);
      assert (q + 2) * size == q * size + 2 * size;
      DivIs(|ts| + size - 1, size, q + 1);
    }
  }

  lemma AllocateStep(added: seq<Obj>, ts: seq<TokenId>, size: nat)
    requires size > 0 && ts != [] && |added| == |ChunksFor(ts, size, size)|
    ensures
      var c, rest := ts[..Min(size, |ts|)], ts[Min(size, |ts|)..];
      var ops := AllocateOps(added, ChunksFor(ts, size, size));
      && 0 <= Min(size, |ts|) <= |ts| && added != [] && 0 < |c| <= size && c + rest == ts && |rest| < |ts|
      && (rest != [] ==> |c| == size)
      && |added[1..]| == |ChunksFor(rest, size, size)|
      && ops != [] && ops[0] == OpAllocate(added[0], c)
      && ops[1..] == AllocateOps(added[1..], ChunksFor(rest, size, size))
  {
    FirstChunk(ts, size, size);
    AllocateTail(added, ChunksFor(ts, size, size));
  }

  lemma AllocateTail(added: seq<Obj>, chunks: seq<seq<TokenId>>)
    requires |added| == |chunks| > 0
    ensures
      var ops := AllocateOps(added, chunks);
      ops != [] && ops[0] == OpAllocate(added[0], chunks[0]) && ops[1..] == AllocateOps(added[1..], chunks[1..])
  {
  }

  lemma FirstChunk(ts: seq<TokenId>, empty: nat, size: nat)
    requires size > 0 && ts != [] && empty > 0
    ensures
      var chunks := ChunksFor(ts, empty, size);
      && 0 < Min(empty, |ts|) <= |ts| && chunks != [] && chunks[0] == ts[..Min(empty, |ts|)]
      && chunks[1..] == ChunksFor(ts[Min(empty, |ts|)..], size, size)
  {
  }

  lemma AllocateNone(m: Plain, size: nat)
    requires size > 0
    ensures ChunksFor([], size, size) == []
    ensures
      var ops := AllocateOps([], ChunksFor([], size, size));
      GrowingRun(m, size, ops) && Allocations(ops) == 0 && PlainRun(m, ops) == m && Untouched(m, m, [])
  {
  }

  lemma {:induction false} AllocateRun(m: Plain, size: nat, objs: seq<Obj>, tokens: seq<TokenId>, added: seq<Obj>,
                                       ts: seq<TokenId>)
    requires size > 0 && Tabled(m, size, objs, tokens) && |tokens| == |objs| * size
    requires |added| == |ChunksFor(ts, size, size)| && NoDup(added) && forall k :: 0 <= k < |added| ==> added[k] !in m
    ensures
      var ops := AllocateOps(added, ChunksFor(ts, size, size));
      && GrowingRun(m, size, ops) && Allocations(ops) == |added|
      && Tabled(PlainRun(m, ops), size, objs + added, tokens + ts) && Untouched(m, PlainRun(m, ops), added)
    decreases |ts|
  {
    hide *;
    AllocateNone(m, size);
    if ts == [] {
      assert tokens + ts == tokens && objs + added == objs;
      assert added == [];
    } else {
      AllocateStep(added, ts, size);
      var c, rest := ts[..Min(size, |ts|)], ts[Min(size, |ts|)..];
      var ops := AllocateOps(added, ChunksFor(ts, size, size));
      RunCons(m, size, ops);
      FirstPlaced(m, size, added, c);
      PlacedTabled(m, size, objs, tokens, added[0], c);
      assert tokens + c + rest == tokens + ts && objs + [added[0]] + added[1..] == objs + added;
      var m' := m[added[0] := c];
      AllocateNone(m', size);
      if rest == [] {
        assert added[1..] == [] && objs + [added[0]] == objs + added && tokens + c == tokens + ts;
        assert [added[0]] == added;
      } else {
        assert (|objs| + 1) * size == |objs| * size + size;
        AllocateRun(m', size, objs + [added[0]], tokens + c, added[1..], rest);
        UntouchedThen(m, m', PlainRun(m', ops[1..]), [added[0]], added[1..], added);
      }
    }
  }

  lemma FirstPlaced(m: Plain, size: nat, added: seq<Obj>, c: seq<TokenId>)
    requires added != [] && |c| <= size && NoDup(added) && forall k :: 0 <= k < |added| ==> added[k] !in m
    ensures
      var op := OpAllocate(added[0], c);
      && op.OpAllocate? && MayGrow(m, size, op) && PlainApply(m, op) == m[added[0] := c]
      && Untouched(m, m[added[0] := c], [added[0]])
      && NoDup(added[1..]) && forall k :: 0 <= k < |added[1..]| ==> added[1..][k] !in m[added[0] := c]
  {
  }

  lemma PlacedTabled(m: Plain, size: nat, objs: seq<Obj>, tokens: seq<TokenId>, o: Obj, c: seq<TokenId>)
    requires size > 0 && Tabled(m, size, objs, tokens) && |tokens| == |objs| * size && o !in m && 0 < |c| <= size
    ensures Tabled(m[o := c], size, objs + [o], tokens + c)
  {
    EmptyTabled(m, size, objs, tokens, o);
    var n := |objs|;
    assert (n + 1) * size == n * size + size;
    ChunkTabled(m[o := []], size, objs + [o], tokens, c, n);
    assert m[o := []][o := c] == m[o := c];
    assert (objs + [o])[n] == o;
    assert [] + c == c;
  }

  ghost predicate AllocateOutcome(s: State, added: seq<Obj>, ts: seq<TokenId>, r: Result<State>) {
    match r
    case Err(e) => e == Exhausted && |s.free| < |added|
    case Ok(t) =>
      && Base(t) && |t.free| == |s.free| - |added|
      && Tabled(Lists(t.blocks), s.cfg.blockSize, added, ts)
      && Untouched(Lists(s.blocks), Lists(t.blocks), added)
  }

  /** Allocating a table succeeds exactly if the free ids cover its blocks; it then holds the tokens. */
  lemma AllocateTable(s: State, added: seq<Obj>, ts: seq<TokenId>)
    requires Base(s) && s.cfg.blockSize > 0 && |added| == |ChunksFor(ts, s.cfg.blockSize, s.cfg.blockSize)|
    requires NoDup(added) && forall k :: 0 <= k < |added| ==> added[k] !in s.blocks
    ensures
      var ops := AllocateOps(added, ChunksFor(ts, s.cfg.blockSize, s.cfg.blockSize));
      && LegalRun(s, ops) && |added| == CeilDiv(|ts|, s.cfg.blockSize)
      && AllocateOutcome(s, added, ts, Run(s, ops))
  {
    hide Base, Tracks, CopiesIn, GrowingRun, ChunksFor, LegalRun, Run;
    var size := s.cfg.blockSize;
    var ops := AllocateOps(added, ChunksFor(ts, size, size));
    ChunkCount(ts, size);
    assert Tabled(Lists(s.blocks), size, [], []);
    AllocateRun(Lists(s.blocks), size, [], [], added, ts);
    assert [] + added == added && [] + ts == ts;
    TracksItself(s);
    GrowExact(s, Ids(s), s.refs, ops);
    UnsharedNeedsNoCopy(Ids(s), s.refs, ops);
  }

  /** What forking a table leaves behind. */
  ghost predicate Forked(s: State, t: State, sources: seq<Obj>, copies: seq<Obj>) {
    && |sources| == |copies|
    && Base(t) && t.cfg == s.cfg && t.free == s.free && t.cows == s.cows && t.memory == s.memory
    && (Inv(s) ==> Inv(t))
    && (forall p :: p in s.blocks ==> p in t.blocks && t.blocks[p] == s.blocks[p])
    && (forall k :: 0 <= k < |copies| ==> CopyOf(s, t, sources[k], copies[k]))
  }

  /** Forking a table needs no id and cannot fail: the copies have the sources' ids and tokens, and nobody's
      list changes; and everything stays computed or owed. Both tables hold the list. */
  lemma ForkTable(s: State, sources: seq<Obj>, copies: seq<Obj>, tokens: seq<TokenId>)
    requires Base(s) && |sources| == |copies| && NoDup(copies)
    requires forall k :: 0 <= k < |sources| ==> sources[k] in s.blocks && copies[k] !in s.blocks
    requires Tabled(Lists(s.blocks), s.cfg.blockSize, sources, tokens)
    ensures LegalRun(s, ForkOps(sources, copies)) && Run(s, ForkOps(sources, copies)).Ok?
    ensures
      var t := Run(s, ForkOps(sources, copies)).value;
      && Forked(s, t, sources, copies)
      && Tabled(Lists(t.blocks), s.cfg.blockSize, sources, tokens)
      && Tabled(Lists(t.blocks), s.cfg.blockSize, copies, tokens)
  {
    hide Base, Inv, Run, LegalRun;
    ForkRun(s, sources, copies);
    ForkedTabled(s, Run(s, ForkOps(sources, copies)).value, sources, copies, tokens, s.cfg.blockSize);
  }

  lemma {:induction false} ForkRun(s: State, sources: seq<Obj>, copies: seq<Obj>)
    requires Base(s) && |sources| == |copies| && NoDup(copies)
    requires forall k :: 0 <= k < |sources| ==> sources[k] in s.blocks && copies[k] !in s.blocks
    ensures LegalRun(s, ForkOps(sources, copies)) && Run(s, ForkOps(sources, copies)).Ok?
    ensures Forked(s, Run(s, ForkOps(sources, copies)).value, sources, copies)
    decreases |sources|
  {
    if sources != [] {
      hide Inv, Base, ForkBlock, Forked, Legal;
      var ops := ForkOps(sources, copies);
      ForkOne(s, sources, copies);
      var u := ForkBlock(s, sources[0], copies[0]).value;
      assert ops[0] == OpFork(sources[0], copies[0]) && ops[1..] == ForkOps(sources[1..], copies[1..]);
      ForkRun(u, sources[1..], copies[1..]);
      ForkedThen(s, u, Run(s, ops).value, sources, copies);
    } else {
      assert Run(s, []) == Ok(s);
    }
  }

  lemma ForkOne(s: State, sources: seq<Obj>, copies: seq<Obj>)
    requires Base(s) && |sources| == |copies| > 0 && NoDup(copies)
    requires forall k :: 0 <= k < |sources| ==> sources[k] in s.blocks && copies[k] !in s.blocks
    ensures Legal(s, OpFork(sources[0], copies[0])) && ForkBlock(s, sources[0], copies[0]).Ok?
    ensures
      var u := ForkBlock(s, sources[0], copies[0]).value;
      && Base(u) && Forked(s, u, [sources[0]], [copies[0]]) && NoDup(copies[1..])
      && forall k :: 0 <= k < |sources[1..]| ==> sources[1..][k] in u.blocks && copies[1..][k] !in u.blocks
  {
    ForkCorrect(s, sources[0], copies[0]);
  }

  lemma ForkedThen(s: State, u: State, t: State, sources: seq<Obj>, copies: seq<Obj>)
    requires |sources| == |copies| > 0 && forall k :: 0 <= k < |sources| ==> sources[k] in s.blocks
    requires Forked(s, u, [sources[0]], [copies[0]]) && Forked(u, t, sources[1..], copies[1..])
    ensures Forked(s, t, sources, copies)
  {
    hide Inv, Base;
    assert CopyOf(s, u, [sources[0]][0], [copies[0]][0]);
    forall k | 0 <= k < |copies| ensures CopyOf(s, t, sources[k], copies[k]) {
      if k > 0 { assert CopyOf(u, t, sources[1..][k - 1], copies[1..][k - 1]); }
    }
  }

  ghost predicate CopyOf(s: State, t: State, source: Obj, copy: Obj) {
    && source in s.blocks && copy in t.blocks
    && t.blocks[copy].id == s.blocks[source].id && t.blocks[copy].tokens == s.blocks[source].tokens
  }

  lemma ForkedTabled(s: State, t: State, sources: seq<Obj>, copies: seq<Obj>, tokens: seq<TokenId>, size: nat)
    requires NoDup(copies) && Tabled(Lists(s.blocks), size, sources, tokens) && Forked(s, t, sources, copies)
    ensures Tabled(Lists(t.blocks), size, sources, tokens) && Tabled(Lists(t.blocks), size, copies, tokens)
  {
    forall k | 0 <= k < |copies|
      ensures BlockHolds(Lists(t.blocks), size, copies, tokens, k)
      ensures BlockHolds(Lists(t.blocks), size, sources, tokens, k)
    {
      assert BlockHolds(Lists(s.blocks), size, sources, tokens, k);
      assert CopyOf(s, t, sources[k], copies[k]);
    }
  }

  function FreeOps(objs: seq<Obj>): seq<Op> {
    seq(|objs|, k requires 0 <= k < |objs| => OpFree(objs[k]))
  }

  /** What freeing a table leaves behind. */
  ghost predicate Freed(s: State, t: State, objs: seq<Obj>) {
    && Base(t) && t.cfg == s.cfg && t.cows == s.cows && t.memory == s.memory
    && |s.free| <= |t.free| <= |s.free| + |objs|
    && (forall p :: p in t.blocks <==> p in s.blocks && p !in objs)
    && (forall p :: p in t.blocks ==> t.blocks[p] == s.blocks[p])
  }

  /** Freeing a table cannot fail; its objects go, nobody else's list changes. */
  lemma {:induction false} FreeTable(s: State, objs: seq<Obj>)
    requires Base(s) && NoDup(objs) && forall k :: 0 <= k < |objs| ==> objs[k] in s.blocks
    ensures LegalRun(s, FreeOps(objs)) && Run(s, FreeOps(objs)).Ok?
    ensures Freed(s, Run(s, FreeOps(objs)).value, objs)
    decreases |objs|
  {
    if objs != [] {
      hide Base, Free, Freed, Legal;
      var ops := FreeOps(objs);
      FreeOne(s, objs);
      var u := Free(s, objs[0]).value;
      assert ops[0] == OpFree(objs[0]) && ops[1..] == FreeOps(objs[1..]);
      FreeTable(u, objs[1..]);
      FreedThen(s, u, Run(s, ops).value, objs);
    } else {
      assert Run(s, []) == Ok(s);
    }
  }

  lemma FreeOne(s: State, objs: seq<Obj>)
    requires Base(s) && objs != [] && NoDup(objs) && forall k :: 0 <= k < |objs| ==> objs[k] in s.blocks
    ensures Legal(s, OpFree(objs[0])) && Free(s, objs[0]).Ok?
    ensures
      var u := Free(s, objs[0]).value;
      && Base(u) && Freed(s, u, [objs[0]]) && NoDup(objs[1..])
      && forall k :: 0 <= k < |objs[1..]| ==> objs[1..][k] in u.blocks
  {
    FreeCorrect(s, objs[0]);
  }

  lemma FreedThen(s: State, u: State, t: State, objs: seq<Obj>)
    requires objs != [] && Freed(s, u, [objs[0]]) && Freed(u, t, objs[1..])
    ensures Freed(s, t, objs)
  {
    hide Base;
    assert objs == [objs[0]] + objs[1..];
    assert forall p :: p in objs <==> p == objs[0] || p in objs[1..];
  }

  /** Where only settled blocks are shared, freeing a table loses nothing of anybody else's. */
  lemma {:induction false} FreeTableKeeps(s: State, objs: seq<Obj>)
    requires Inv(s) && SharesSettled(s) && NoDup(objs) && forall k :: 0 <= k < |objs| ==> objs[k] in s.blocks
    ensures Run(s, FreeOps(objs)).Ok? && CarefulRun(s, FreeOps(objs))
    ensures Inv(Run(s, FreeOps(objs)).value) && SharesSettled(Run(s, FreeOps(objs)).value)
    decreases |objs|
  {
    if objs != [] {
      hide Inv, SharesSettled, Free, Careful;
      var ops := FreeOps(objs);
      FreeOneKeeps(s, objs);
      assert ops[0] == OpFree(objs[0]) && ops[1..] == FreeOps(objs[1..]);
      FreeTableKeeps(Free(s, objs[0]).value, objs[1..]);
    } else {
      assert Run(s, []) == Ok(s);
    }
  }

  lemma FreeOneKeeps(s: State, objs: seq<Obj>)
    requires Inv(s) && SharesSettled(s) && objs != [] && NoDup(objs)
    requires forall k :: 0 <= k < |objs| ==> objs[k] in s.blocks
    ensures Free(s, objs[0]).Ok? && Careful(s, OpFree(objs[0]))
    ensures
      var u := Free(s, objs[0]).value;
      && Inv(u) && SharesSettled(u) && NoDup(objs[1..])
      && forall k :: 0 <= k < |objs[1..]| ==> objs[1..][k] in u.blocks
  {
    hide InOrder, Dispensable;
    var o := objs[0];
    FreeOne(s, objs);
    FreeCorrect(s, o);
    if Shared(s, o) { SettledIsCareful(s, o, []); }
    FreeExact(s, o);
    var u := Free(s, o).value;
    forall p | p in u.blocks && u.blocks[p].id in u.refs && Shared(u, p) ensures Settled(u, p) {
      assert Shared(s, p);
    }
  }
}
