/** The block table over the allocator without prefix caching, updated in place: appending issues exactly the
    operations of HashlessTables.TableOps. */
module HashlessBlockTables {
  import opened Basics
  import opened Arithmetic
  import opened Chunking
  import opened HashlessSpec
  import opened HashlessProofs
  import opened HashlessAllocator
  import opened HashlessTables

  function Last(objs: seq<HashLessBlockObj>): HashLessBlockObj? {
    if objs == [] then null else objs[|objs| - 1]
  }

  lemma AddressesPush(objs: seq<HashLessBlockObj>, b: HashLessBlockObj)
    ensures Addresses(objs + [b]) == Addresses(objs) + [b.address] && |Addresses(objs)| == |objs|
  {
  }

  /** Every object that was live still is. */
  ghost predicate Extends(live: map<Obj, HashLessBlockObj>, more: map<Obj, HashLessBlockObj>) {
    forall a :: a in live ==> a in more && more[a] == live[a]
  }

  /** A failing operation ends the run. */
  lemma RunFails(s: State, ops: seq<Op>, i: nat)
    requires i < |ops| && Run(s, ops[..i + 1]).Err?
    ensures Run(s, ops) == Run(s, ops[..i + 1])
  {
    assert ops == ops[..i + 1] + ops[i + 1..];
    RunSplit(s, ops[..i + 1], ops[i + 1..]);
  }

  lemma AtOwnAddress(alloc: HashLessBlockAllocator, a: Obj)
    requires alloc.Valid() && a in alloc.live
    ensures alloc.live[a].address == a
  {
  }

  class HashLessBlockTable {
    const alloc: HashLessBlockAllocator
    var objs: seq<HashLessBlockObj>
    var ids: seq<BlockId>           // the mirror handed to the device
    var numFull: nat
    ghost var tokens: seq<TokenId>  // what the table holds

    constructor (alloc: HashLessBlockAllocator)
      requires alloc.Valid() && alloc.cfg.blockSize > 0
      ensures Valid() && tokens == [] && objs == [] && this.alloc == alloc
    {
      this.alloc := alloc;
      objs, ids, numFull, tokens := [], [], 0, [];
    }

    ghost predicate Mirrored()
      reads this`objs, this`ids, objs
    {
      |ids| == |objs| && forall k :: 0 <= k < |objs| ==> ids[k] == objs[k].blockId
    }

    ghost predicate Owned()
      reads this`objs, alloc`live
    {
      forall k :: 0 <= k < |objs| ==> alloc.Has(objs[k])
    }

    ghost predicate Holds(held: seq<TokenId>)
      reads this`objs, this`ids, objs, alloc, alloc.live.Values
    {
      && alloc.Valid() && alloc.cfg.blockSize > 0 && Owned() && Mirrored()
      && Tabled(Lists(alloc.Abs().blocks), alloc.cfg.blockSize, Addresses(objs), held)
    }

    ghost predicate Valid()
      reads this, objs, alloc, alloc.live.Values
    {
      Holds(tokens) && numFull == |tokens|
    }

    lemma Facts(held: seq<TokenId>)
      requires Holds(held)
      ensures Base(alloc.Abs()) && alloc.cfg.blockSize > 0 && alloc.Abs().cfg == alloc.cfg
        && |Addresses(objs)| == |objs|
      ensures Tabled(Lists(alloc.Abs().blocks), alloc.cfg.blockSize, Addresses(objs), held)
      ensures |held| <= |objs| * alloc.cfg.blockSize && Lists(alloc.Abs().blocks).Keys == alloc.live.Keys
      ensures forall k :: 0 <= k < |objs| ==> objs[k].address == Addresses(objs)[k] && alloc.Has(objs[k])
      ensures forall k :: 0 <= k < |objs| ==> objs[k].tokens == Chunk(held, alloc.cfg.blockSize, k)
      ensures forall i, j :: 0 <= i < j < |objs| ==> objs[i] != objs[j]
    {
      assert Lists(alloc.Abs().blocks).Keys == alloc.live.Keys;
      forall k | 0 <= k < |objs| ensures objs[k].tokens == Chunk(held, alloc.cfg.blockSize, k) {
        assert alloc.Has(objs[k]) && alloc.Blocks()[objs[k].address] == objs[k].Value();
        assert BlockHolds(Lists(alloc.Abs().blocks), alloc.cfg.blockSize, Addresses(objs), held, k);
      }
      forall i, j | 0 <= i < j < |objs| ensures objs[i] != objs[j] {
        assert Addresses(objs)[i] != Addresses(objs)[j];
      }
    }

    /** One more empty block at the end. */
    method AddEmptyBlock(ghost a: Obj) returns (r: Result<()>)
      requires Holds(tokens) && a !in alloc.live
      modifies this`objs, this`ids, alloc
      ensures match r
        case Err(e) => Apply(old(alloc.Abs()), OpAllocate(a, [])) == Err(e)
        case Ok(_) =>
          && Apply(old(alloc.Abs()), OpAllocate(a, [])) == Ok(alloc.Abs()) && Holds(tokens)
          && Addresses(objs) == Addresses(old(objs)) + [a] && old(objs) <= objs && |objs| == |old(objs)| + 1
          && alloc.live.Keys == old(alloc.live.Keys) + {a} && Extends(old(alloc.live), alloc.live)
          && fresh(objs[|old(objs)|])
    {
      hide Base, Tabled, HashlessSpec.AllocateMutableBlock, HashLessBlockAllocator.Valid;
      Facts(tokens);
      ghost var s, addresses := alloc.Abs(), Addresses(objs);
      AllocReady(s, addresses, tokens, a);
      var b := alloc.AllocateMutableBlock([], Last(objs), a);
      if b.Err? {
        return Err(b.error);
      }
      AtOwnAddress(alloc, a);
      AddressesPush(objs, b.value);
      objs := objs + [b.value];
      ids := ids + [b.value.blockId];
      return Ok(());
    }

    /** `ts` into block `k`; the mirror follows where copy-on-write moves it. */
    method AppendChunk(k: nat, ts: seq<TokenId>) returns (r: Result<()>)
      requires Holds(tokens) && k < |objs| && Continues(tokens, ts, alloc.cfg.blockSize, k)
      modifies this`ids, this`tokens, alloc, objs[k]
      ensures match r
        case Err(e) => Apply(old(alloc.Abs()), OpAppend(objs[k].address, ts)) == Err(e)
        case Ok(_) =>
          && Apply(old(alloc.Abs()), OpAppend(objs[k].address, ts)) == Ok(alloc.Abs()) && Holds(tokens)
          && tokens == old(tokens) + ts && alloc.live == old(alloc.live)
    {
      hide Base, Tabled, AppendOutcome, HashlessSpec.AppendTokenIds;
      Facts(tokens);
      ghost var s, addresses := alloc.Abs(), Addresses(objs);
      AppendReady(s, addresses, tokens, ts, k);
      Lengths(k, ts);
      r := alloc.AppendTokenIds(objs[k], ts);
      if r.Ok? {
        ids := ids[k := objs[k].blockId];
        tokens := tokens + ts;
      }
    }

    lemma Lengths(k: nat, ts: seq<TokenId>)
      requires Holds(tokens) && k < |objs| && Continues(tokens, ts, alloc.cfg.blockSize, k)
      ensures |objs[k].tokens| + |ts| <= alloc.cfg.blockSize
    {
      Facts(tokens);
      ChunkAppend(tokens, ts, alloc.cfg.blockSize, k, k);
      ChunkSize(tokens + ts, alloc.cfg.blockSize, k);
    }

    lemma FullBlock(k: nat)
      requires Holds(tokens) && k < |objs| && (k + 1) * alloc.cfg.blockSize <= |tokens|
      ensures |objs[k].tokens| == alloc.cfg.blockSize
    {
      Facts(tokens);
      ChunkSize(tokens, alloc.cfg.blockSize, k);
    }

    /** The same, with the check that a block before the last one is full afterwards. */
    method FillBlock(k: nat, ts: seq<TokenId>, last: bool) returns (r: Result<()>)
      requires Holds(tokens) && k < |objs| && Continues(tokens, ts, alloc.cfg.blockSize, k)
      requires !last ==> (k + 1) * alloc.cfg.blockSize <= |tokens| + |ts|
      modifies this`ids, this`tokens, alloc, objs[k]
      ensures match r
        case Err(e) => Apply(old(alloc.Abs()), OpAppend(objs[k].address, ts)) == Err(e)
        case Ok(_) =>
          && Apply(old(alloc.Abs()), OpAppend(objs[k].address, ts)) == Ok(alloc.Abs()) && Holds(tokens)
          && tokens == old(tokens) + ts && alloc.live == old(alloc.live)
    {
      hide *;
      r := AppendChunk(k, ts);
      if r.Ok? && !last {
        FullBlock(k);
        if |objs[k].tokens| != alloc.cfg.blockSize {
          r := Err(Internal);
        }
      }
    }

    // ---------- appending ----------

    /** New empty blocks, one at each of the addresses. */
    method AddBlocks(count: nat, ghost added: seq<Obj>) returns (r: Result<()>)
      requires Holds(tokens) && count == |added| && NoDup(added)
      requires forall k :: 0 <= k < |added| ==> added[k] !in alloc.live
      modifies this`objs, this`ids, alloc
      ensures match r
        case Err(e) => Run(old(alloc.Abs()), AllocOps(added)) == Err(e)
        case Ok(_) =>
          && Run(old(alloc.Abs()), AllocOps(added)) == Ok(alloc.Abs()) && Holds(tokens)
          && Addresses(objs) == Addresses(old(objs)) + added && old(objs) <= objs && |objs| == |old(objs)| + count
          && Extends(old(alloc.live), alloc.live)
          && forall k :: |old(objs)| <= k < |objs| ==> fresh(objs[k])
    {
      hide *;
      ghost var ops := AllocOps(added);
      AllocOpsAre(added);
      RunNone(alloc.Abs(), ops);
      ExtendsSelf(alloc.live);
      for i := 0 to count
        invariant Holds(tokens) && Run(old(alloc.Abs()), ops[..i]) == Ok(alloc.Abs())
        invariant Addresses(objs) == Addresses(old(objs)) + added[..i] && old(objs) <= objs
        invariant |objs| == |old(objs)| + i && Extends(old(alloc.live), alloc.live)
        invariant forall k :: i <= k < |added| ==> added[k] !in alloc.live
        invariant forall k :: |old(objs)| <= k < |objs| ==> fresh(objs[k])
      {
        ghost var s, live := alloc.Abs(), alloc.live;
        NoDupAt(added, i);
        r := AddEmptyBlock(added[i]);
        RunPush(old(alloc.Abs()), ops, i, s);
        if r.Err? {
          RunFails(old(alloc.Abs()), ops, i);
          return;
        }
        ExtendsThen(old(alloc.live), live, alloc.live);
        assert added[..i + 1] == added[..i] + [added[i]];
      }
      assert added[..count] == added && ops[..count] == ops;
      return Ok(());
    }

    /** The chunks go into consecutive blocks from `first` on. */
    method FillChunks(chunks: seq<seq<TokenId>>, first: nat, ghost ts: seq<TokenId>, ghost empty: nat)
      returns (r: Result<()>)
      requires Holds(tokens) && 0 < empty <= alloc.cfg.blockSize && chunks == ChunksFor(ts, empty, alloc.cfg.blockSize)
      requires |tokens| + empty == (first + 1) * alloc.cfg.blockSize && first + |chunks| <= |objs|
      modifies this`ids, this`tokens, alloc, objs
      ensures
        var ops := FillOps(Addresses(objs), first, chunks);
        match r
        case Err(e) => Run(old(alloc.Abs()), ops) == Err(e)
        case Ok(_) =>
          && Run(old(alloc.Abs()), ops) == Ok(alloc.Abs()) && Holds(tokens) && tokens == old(tokens) + ts
          && alloc.live == old(alloc.live)
    {
      hide *;
      ghost var size, n := alloc.cfg.blockSize, tokens;
      Facts(tokens);
      ghost var ops := FillOps(Addresses(objs), first, chunks);
      FillOpsAre(Addresses(objs), first, chunks);
      RunNone(alloc.Abs(), ops);
      FilledNone(n, ts, empty, size);
      for i := 0 to |chunks|
        invariant Holds(tokens) && Run(old(alloc.Abs()), ops[..i]) == Ok(alloc.Abs())
        invariant tokens == FilledTo(n, ts, empty, size, i) && alloc.live == old(alloc.live)
      {
        ghost var s := alloc.Abs();
        Facts(tokens);
        ChunkContinues(n, ts, empty, size, first, i);
        if i + 1 < |chunks| { ChunkContinues(n, ts, empty, size, first, i + 1); }
        NextBegins(chunks, tokens, FilledTo(n, ts, empty, size, i + 1), size, first, i);
        r := FillBlock(first + i, chunks[i], i + 1 == |chunks|);
        RunPush(old(alloc.Abs()), ops, i, s);
        if r.Err? {
          RunFails(old(alloc.Abs()), ops, i);
          return;
        }
      }
      FilledAll(n, ts, empty, size);
      assert ops[..|chunks|] == ops;
      return Ok(());
    }

    method ChunkTokensForAppend(ts: seq<TokenId>) returns (chunks: seq<seq<TokenId>>)
      requires alloc.cfg.blockSize > 0
      ensures chunks == ChunksFor(ts, alloc.cfg.blockSize - numFull % alloc.cfg.blockSize, alloc.cfg.blockSize)
    {
      chunks := [];
      if ts == [] {
        return;
      }
      var size := alloc.cfg.blockSize;
      var empty := size - numFull % size;
      chunks := [ts[..Min(empty, |ts|)]];
      var i := Min(empty, |ts|);
      while i < |ts|
        invariant 0 < i <= |ts| && chunks + ChunksFor(ts[i..], size, size) == ChunksFor(ts, empty, size)
      {
        var end := Min(i + size, |ts|);
        NextChunk(ts, i, size);
        assert chunks + ([ts[i..end]] + ChunksFor(ts[end..], size, size))
            == chunks + [ts[i..end]] + ChunksFor(ts[end..], size, size);
        chunks := chunks + [ts[i..end]];
        i := end;
      }
      assert ts[i..] == [];
    }

    /** The part of AppendTokenIds behind EnsureEnoughSlots. */
    method FillSlots(ts: seq<TokenId>, first: nat, ghost before: seq<Obj>, ghost added: seq<Obj>)
      returns (r: Result<()>)
      requires Valid() && Addresses(objs) == before + added && first == numFull / alloc.cfg.blockSize
      requires |tokens| + |ts| <= (|before| + |added|) * alloc.cfg.blockSize
      modifies this`ids, this`tokens, alloc, objs
      ensures alloc.cfg.blockSize > 0
      ensures
        var ops := TableFill(alloc.cfg.blockSize, before, |old(tokens)|, added, ts);
        match r
        case Err(e) => Run(old(alloc.Abs()), ops) == Err(e)
        case Ok(_) =>
          && Run(old(alloc.Abs()), ops) == Ok(alloc.Abs()) && Holds(tokens) && tokens == old(tokens) + ts
          && alloc.live == old(alloc.live)
    {
      hide *;
      Sizes();
      ghost var n, size := tokens, alloc.cfg.blockSize;
      TableOpsAre(size, before, |n|, added, ts);
      var chunks := ChunkTokensForAppend(ts);
      if ts == [] {
        NothingToFill(alloc.Abs(), size, before, |n|, added);
        assert n + ts == n;
        return Ok(());
      }
      r := FillChunks(chunks, first, ts, alloc.cfg.blockSize - numFull % alloc.cfg.blockSize);
    }

    /** Appends to the table: it runs exactly the allocator operations of TableOps, and stops where they stop. */
    method AppendTokenIds(ts: seq<TokenId>, lookahead: nat, ghost added: seq<Obj>) returns (r: Result<()>)
      requires Valid() && NoDup(added) && forall k :: 0 <= k < |added| ==> added[k] !in alloc.live
      requires |added| == NewBlocks(|objs|, |tokens|, |ts| + lookahead, alloc.cfg.blockSize)
      modifies this, alloc, objs
      ensures old(objs) == [] ==> r == Err(Misuse)
      ensures |old(tokens)| + |ts| <= (|Addresses(old(objs))| + |added|) * alloc.cfg.blockSize
      ensures old(objs) != [] ==>
        var ops := TableOps(alloc.cfg.blockSize, Addresses(old(objs)), |old(tokens)|, added, ts);
        match r
        case Err(e) => Run(old(alloc.Abs()), ops) == Err(e)
        case Ok(_) =>
          && Run(old(alloc.Abs()), ops) == Ok(alloc.Abs()) && Valid() && tokens == old(tokens) + ts
          && Addresses(objs) == Addresses(old(objs)) + added && Extends(old(alloc.live), alloc.live)
    {
      hide *;
      ghost var s0, before, n, size := alloc.Abs(), Addresses(objs), tokens, alloc.cfg.blockSize;
      Sizes();
      NewBlocksEnough(|objs|, numFull, |ts| + lookahead, size);
      TableOpsAre(size, before, |n|, added, ts);
      if objs == [] {
        return Err(Misuse);
      }
      var first := numFull / alloc.cfg.blockSize;
      r := AddBlocks(NewBlocks(|objs|, numFull, |ts| + lookahead, alloc.cfg.blockSize), added);
      RunSplit(s0, AllocOps(added), TableFill(size, before, |n|, added, ts));
      if r.Ok? {
        Settled();
        r := FillSlots(ts, first, before, added);
      }
      if r.Ok? {
        numFull := numFull + |ts|;
        Settled();
      }
    }

    lemma Sizes()
      requires Valid()
      ensures Holds(tokens) && alloc.cfg.blockSize > 0 && alloc.Abs().cfg == alloc.cfg && |Addresses(objs)| == |objs|
      ensures numFull == |tokens| <= |objs| * alloc.cfg.blockSize
    {
      Facts(tokens);
    }

    lemma Settled()
      requires Holds(tokens) && numFull == |tokens|
      ensures Valid()
    {
    }
  }

  lemma AllocReady(s: State, objs: seq<Obj>, tokens: seq<TokenId>, a: Obj)
    requires Base(s) && s.cfg.blockSize > 0 && Tabled(Lists(s.blocks), s.cfg.blockSize, objs, tokens)
    requires a !in s.blocks
    ensures
      var r := Apply(s, OpAllocate(a, []));
      if s.free == [] then r == Err(Exhausted)
      else
        && r.Ok? && Base(r.value) && r.value.cfg == s.cfg
        && Tabled(Lists(r.value.blocks), s.cfg.blockSize, objs + [a], tokens)
  {
    AllocateCorrect(s, a, []);
    ApplyCorrect(s, OpAllocate(a, []));
    EmptyTabled(Lists(s.blocks), s.cfg.blockSize, objs, tokens, a);
  }

  lemma AppendReady(s: State, objs: seq<Obj>, tokens: seq<TokenId>, ts: seq<TokenId>, k: nat)
    requires Base(s) && s.cfg.blockSize > 0 && Tabled(Lists(s.blocks), s.cfg.blockSize, objs, tokens)
    requires k < |objs| && Continues(tokens, ts, s.cfg.blockSize, k)
    ensures Legal(s, OpAppend(objs[k], ts))
    ensures
      var r := Apply(s, OpAppend(objs[k], ts));
      r.Ok? ==>
        Base(r.value) && r.value.cfg == s.cfg && Tabled(Lists(r.value.blocks), s.cfg.blockSize, objs, tokens + ts)
  {
    ChunkTabled(Lists(s.blocks), s.cfg.blockSize, objs, tokens, ts, k);
    GrowIsLegal(s, OpAppend(objs[k], ts));
    ApplyCorrect(s, OpAppend(objs[k], ts));
  }

  lemma ExtendsSelf(live: map<Obj, HashLessBlockObj>)
    ensures Extends(live, live)
  {
  }

  lemma ExtendsThen(a: map<Obj, HashLessBlockObj>, b: map<Obj, HashLessBlockObj>, c: map<Obj, HashLessBlockObj>)
    requires Extends(a, b) && Extends(b, c)
    ensures Extends(a, c)
  {
  }

  lemma NoDupAt(q: seq<Obj>, i: nat)
    requires NoDup(q) && i < |q|
    ensures forall k :: i < k < |q| ==> q[k] != q[i]
  {
  }

  lemma AllocOpsAre(added: seq<Obj>)
    ensures |AllocOps(added)| == |added|
    ensures forall k :: 0 <= k < |added| ==> AllocOps(added)[k] == OpAllocate(added[k], [])
  {
  }

  lemma FillOpsAre(objs: seq<Obj>, first: nat, chunks: seq<seq<TokenId>>)
    requires first + |chunks| <= |objs|
    ensures
      var ops := FillOps(objs, first, chunks);
      |ops| == |chunks| && forall i :: 0 <= i < |chunks| ==> ops[i] == OpAppend(objs[first + i], chunks[i])
  {
  }

  /** The tokens once `i` chunks are in. */
  ghost function FilledTo(n: seq<TokenId>, ts: seq<TokenId>, empty: nat, size: nat, i: nat): seq<TokenId>
    requires size > 0 && empty > 0
    decreases |ts|
  {
    if i == 0 || ts == [] then n
    else FilledTo(n + ts[..Min(empty, |ts|)], ts[Min(empty, |ts|)..], size, size, i - 1)
  }

  lemma FilledNone(n: seq<TokenId>, ts: seq<TokenId>, empty: nat, size: nat)
    requires size > 0 && empty > 0
    ensures FilledTo(n, ts, empty, size, 0) == n
  {
  }

  lemma {:induction false} FilledAll(n: seq<TokenId>, ts: seq<TokenId>, empty: nat, size: nat)
    requires size > 0 && empty > 0
    ensures FilledTo(n, ts, empty, size, |ChunksFor(ts, empty, size)|) == n + ts
    decreases |ts|
  {
    if ts == [] {
      assert n + ts == n;
    } else {
      FirstChunk(ts, empty, size);
      var c, rest := ts[..Min(empty, |ts|)], ts[Min(empty, |ts|)..];
      FilledAll(n + c, rest, size, size);
      assert n + c + rest == n + ts;
    }
  }

  /** Chunk `i` continues block `first + i`. */
  lemma {:induction false} ChunkContinues(n: seq<TokenId>, ts: seq<TokenId>, empty: nat, size: nat, first: nat, i: nat)
    requires size > 0 && 0 < empty <= size && |n| + empty == (first + 1) * size && i < |ChunksFor(ts, empty, size)|
    ensures
      var c := ChunksFor(ts, empty, size)[i];
      && Continues(FilledTo(n, ts, empty, size, i), c, size, first + i)
      && FilledTo(n, ts, empty, size, i) + c == FilledTo(n, ts, empty, size, i + 1)
    decreases |ts|
  {
    FirstChunk(ts, empty, size);
    var c, rest := ts[..Min(empty, |ts|)], ts[Min(empty, |ts|)..];
    assert (first + 1) * size == first * size + size;
    if i == 0 {
      FilledNone(n + c, rest, size, size);
    } else {
      assert (first + 1 + 1) * size == (first + 1) * size + size;
      SomeChunks(rest, size, size);
      assert |c| == empty;
      ChunkContinues(n + c, rest, size, size, first + 1, i - 1);
    }
  }

  /** Where the next chunk begins the block before is full. */
  lemma NextBegins(chunks: seq<seq<TokenId>>, held: seq<TokenId>, more: seq<TokenId>, size: nat, first: nat, i: nat)
    requires i < |chunks| && held + chunks[i] == more
    requires i + 1 < |chunks| ==> Continues(more, chunks[i + 1], size, first + i + 1)
    ensures i + 1 < |chunks| ==> (first + i + 1) * size <= |held| + |chunks[i]|
  {
  }

  lemma SomeChunks(ts: seq<TokenId>, empty: nat, size: nat)
    requires size > 0 && empty > 0
    ensures ChunksFor(ts, empty, size) == [] <==> ts == []
  {
  }

  lemma NextChunk(ts: seq<TokenId>, i: nat, size: nat)
    requires size > 0 && i < |ts|
    ensures
      var end := Min(i + size, |ts|);
      i < end <= |ts| && ChunksFor(ts[i..], size, size) == [ts[i..end]] + ChunksFor(ts[end..], size, size)
  {
    var rest := ts[i..];
    FirstChunk(rest, size, size);
    var end := Min(i + size, |ts|);
    assert rest[..Min(size, |rest|)] == ts[i..end] && rest[Min(size, |rest|)..] == ts[end..];
  }

  /** The second half of TableOps. */
  ghost function TableFill(size: nat, objs: seq<Obj>, n: nat, added: seq<Obj>, ts: seq<TokenId>): seq<Op>
    requires size > 0 && n + |ts| <= (|objs| + |added|) * size
  {
    FillOps(objs + added, FirstWritten(size, objs, n, added, ts), ChunksFor(ts, size - n % size, size))
  }

  lemma TableOpsAre(size: nat, objs: seq<Obj>, n: nat, added: seq<Obj>, ts: seq<TokenId>)
    requires size > 0 && n + |ts| <= (|objs| + |added|) * size
    ensures TableOps(size, objs, n, added, ts) == AllocOps(added) + TableFill(size, objs, n, added, ts)
    ensures 0 < size - n % size <= size && n + (size - n % size) == (n / size + 1) * size
    ensures ts != [] ==>
      && n / size + |ChunksFor(ts, size - n % size, size)| <= |objs + added|
      && TableFill(size, objs, n, added, ts) == FillOps(objs + added, n / size, ChunksFor(ts, size - n % size, size))
  {
    BlockBounds(n, size);
    assert (n / size + 1) * size == n / size * size + size;
  }

  lemma NothingToFill(s: State, size: nat, objs: seq<Obj>, n: nat, added: seq<Obj>)
    requires size > 0 && n <= (|objs| + |added|) * size
    ensures Run(s, TableFill(size, objs, n, added, [])) == Ok(s)
  {
  }
}
