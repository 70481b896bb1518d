/** The memo of a block's prefix hash, and what it yields when a table is freed front to back. */
module LazyHash {
  import opened Basics
  import opened PrefixChain
  import Spec = PrefixCacheSpec
  import Steps = PrefixCacheSteps
  import Operations = PrefixCacheOperations
  import Runs = PrefixCacheRuns

  function Previous(line: seq<CachingBlock>): CachingBlock? {
    if line == [] then null else line[|line| - 1]
  }

  class CachingBlock {
    const mix: Mixer
    const size: nat
    const prev: CachingBlock?
    const tokens: seq<TokenId>
    var extra: HashValue
    var memo: HashValue
    ghost const before: seq<CachingBlock>  // the blocks prevBlock_ leads to, oldest first

    constructor (mix: Mixer, size: nat, prev: CachingBlock?, tokens: seq<TokenId>, extra: HashValue)
      requires prev != null ==> prev.Linked() && prev.mix == mix && prev.size == size
      ensures Linked() && this.mix == mix && this.size == size && this.prev == prev && this.tokens == tokens
      ensures this.extra == extra && memo == INVALID_HASH_VALUE
      ensures before == if prev == null then [] else prev.before + [prev]
    {
      this.mix, this.size, this.prev, this.tokens, this.extra := mix, size, prev, tokens, extra;
      memo := INVALID_HASH_VALUE;
      before := if prev == null then [] else prev.before + [prev];
    }

    ghost predicate Linked() {
      && prev == Previous(before)
      && forall k :: 0 <= k < |before| ==>
          && before[k].before == before[..k] && before[k].prev == Previous(before[..k])
          && before[k].mix == mix && before[k].size == size
    }

    /** The chain as the objects show it now. */
    ghost function Chain(): Chain
      requires Linked()
      reads this`extra, before`extra
      decreases |before|
    {
      LinkedBefore();
      Link(if prev == null then Root else prev.Chain(), tokens, extra)
    }

    lemma LinkedBefore()
      requires Linked()
      ensures prev != null ==> prev.Linked() && |prev.before| < |before| && before == prev.before + [prev]
      ensures forall k :: 0 <= k < |before| ==> before[k].Linked() && before[k] != this
    {
      forall k | 0 <= k < |before| ensures before[k].Linked() && before[k] != this {
        forall j | 0 <= j < k
          ensures before[..k][j].before == before[..k][..j] && before[..k][j].prev == Previous(before[..k][..j])
        {
          assert before[..k][..j] == before[..j];
        }
      }
    }

    ghost function Hash(): HashValue
      requires Linked()
      reads this`extra, before`extra
    {
      PrefixChain.PrefixHash(mix, size, Chain())
    }

    predicate IsReadyToCalcPrefixHash() {
      |tokens| == size > 0 && tokens[|tokens| - 1] != PLACEHOLDER_TOKEN
    }

    /** A memo that is set is right. */
    ghost predicate Right()
      requires Linked()
      reads this`extra, before`extra, this`memo
    {
      memo == INVALID_HASH_VALUE || memo == Hash()
    }

    /** All blocks before this one have right memos. */
    ghost predicate RightBefore()
      requires Linked()
      reads before`extra, before`memo
    {
      LinkedBefore();
      forall k :: 0 <= k < |before| ==> before[k].Right()
    }

    /** The hash of a chain from that of the chain before. */
    lemma HashStep()
      requires Linked() && CollisionFree(mix)
      ensures prev != null ==> prev.Linked()
      ensures Hash() ==
        if !IsReadyToCalcPrefixHash() then INVALID_HASH_VALUE
        else if prev == null then mix(INVALID_HASH_VALUE, tokens, extra)
        else if prev.Hash() == INVALID_HASH_VALUE then INVALID_HASH_VALUE
        else mix(prev.Hash(), tokens, extra)
    {
      LinkedBefore();
      if prev != null {
        assert prev == before[|before| - 1];
        var c := prev.Chain();
        assert Chain() == Link(c, tokens, extra);
        assert ChainHash(mix, c) == mix(ChainHash(mix, c.before), c.tokens, c.extra);
        assert ChainHash(mix, Chain()) == mix(ChainHash(mix, c), tokens, extra);
      } else {
        assert ChainHash(mix, Link(Root, tokens, extra)) == mix(ChainHash(mix, Root), tokens, extra);
      }
    }

    lemma RightAbove()
      requires Linked() && RightBefore() && prev != null
      ensures prev.Linked() && prev.RightBefore() && prev.Right() && before == prev.before + [prev]
        && |prev.before| < |before|
    {
      LinkedBefore();
      assert before[|before| - 1].Right();
      forall k | 0 <= k < |prev.before| ensures prev.before[k] == before[k] {}
    }

    lemma RightHere()
      requires Linked() && (prev != null ==> prev.Linked() && prev.Right() && prev.RightBefore())
      ensures RightBefore()
    {
      LinkedBefore();
      forall k | 0 <= k < |before| ensures before[k].Linked() && before[k].Right() {
        if k < |before| - 1 { assert before[k] == prev.before[k]; }
      }
    }

    method PrevHash() returns (p: HashValue)
      requires Linked() && RightBefore() && CollisionFree(mix) && prev != null
      modifies before`memo
      ensures RightBefore() && prev.Linked() && p == prev.Hash()
      decreases |before|, 0
    {
      RightAbove();
      p := prev.PrefixHash();
      RightHere();
    }

    /** What the pool does to a freed object: its tokens and prevBlock_ stay. */
    method Reset()
      modifies this`extra, this`memo
      ensures extra == INVALID_HASH_VALUE && memo == INVALID_HASH_VALUE
    {
      extra, memo := INVALID_HASH_VALUE, INVALID_HASH_VALUE;
    }

    /** A set memo is believed; otherwise the hash is computed from the chain as it is now, and kept. */
    method PrefixHash() returns (h: HashValue)
      requires Linked() && RightBefore() && CollisionFree(mix)
      modifies this`memo, before`memo
      ensures RightBefore()
      ensures h == if old(memo) != INVALID_HASH_VALUE then old(memo) else Hash()
      ensures memo == h
      decreases |before|, 1
    {
      hide Linked; hide Hash; hide RightBefore;
      if memo != INVALID_HASH_VALUE {
        return memo;
      }
      HashStep();
      LinkedBefore();
      if !IsReadyToCalcPrefixHash() {
        return INVALID_HASH_VALUE;
      }
      var p := INVALID_HASH_VALUE;
      if prev != null {
        p := PrevHash();
        if p == INVALID_HASH_VALUE {
          return INVALID_HASH_VALUE;
        }
      }
      h := mix(p, tokens, extra);
      memo := h;
    }
  }

  // ---------- freeing a table front to back ----------

  /** The chain with every extra hash reset. */
  function Stripped(c: Chain): Chain {
    match c
    case Root => Root
    case Link(before, tokens, _) => Link(Stripped(before), tokens, INVALID_HASH_VALUE)
  }

  predicate NoExtra(c: Chain) {
    c.Link? ==> c.extra == INVALID_HASH_VALUE && NoExtra(c.before)
  }

  lemma {:induction false} StrippedIs(c: Chain)
    ensures Stripped(c) == c <==> NoExtra(c)
  {
    if c.Link? { StrippedIs(c.before); }
  }

  lemma {:induction false} StrippedReady(size: nat, c: Chain)
    ensures Ready(size, Stripped(c)) <==> Ready(size, c)
  {
    if c.Link? { StrippedReady(size, c.before); }
  }

  /** A hash recomputed behind reset blocks is the block's own hash exactly when none of them had an extra hash. */
  lemma LazyHashRight(mix: Mixer, size: nat, c: Chain)
    requires CollisionFree(mix) && Ready(size, c)
    ensures Recomputed(mix, size, c) == PrefixChain.PrefixHash(mix, size, c) <==> NoExtra(c.before)
  {
    var d := Link(Stripped(c.before), c.tokens, c.extra);
    StrippedReady(size, c.before);
    StrippedIs(c.before);
    if ChainHash(mix, d) == ChainHash(mix, c) { ChainHashInjective(mix, size, d, c); }
  }

  /** The objects of a table, each behind the ones before it. */
  ghost predicate Line(blocks: seq<CachingBlock>, mix: Mixer, size: nat) {
    forall k :: 0 <= k < |blocks| ==>
      blocks[k].Linked() && blocks[k].before == blocks[..k] && blocks[k].mix == mix && blocks[k].size == size
  }

  lemma LineChain(blocks: seq<CachingBlock>, mix: Mixer, size: nat, k: nat)
    requires Line(blocks, mix, size) && k < |blocks|
    ensures blocks[k].Chain() == Link(if k == 0 then Root else blocks[k - 1].Chain(), blocks[k].tokens, blocks[k].extra)
    ensures forall j :: 0 <= j < |blocks| && j != k ==> blocks[j] != blocks[k]
  {
    if k > 0 { assert blocks[..k][k - 1] == blocks[k - 1]; }
    forall j | 0 <= j < |blocks| && j != k ensures blocks[j] != blocks[k] {
      assert |blocks[j].before| == j;
    }
  }

  /** The hash that is computed for the last block of `c` once all blocks before it are reset. */
  function Recomputed(mix: Mixer, size: nat, c: Chain): HashValue {
    match c
    case Root => INVALID_HASH_VALUE
    case Link(before, tokens, extra) => PrefixChain.PrefixHash(mix, size, Link(Stripped(before), tokens, extra))
  }

  /** The first `i` objects are reset: they show their chains without extra hashes. */
  ghost predicate ResetTo(blocks: seq<CachingBlock>, mix: Mixer, size: nat, chains: seq<Chain>, i: nat)
    reads blocks
  {
    && Line(blocks, mix, size) && |chains| == |blocks|
    && forall k :: 0 <= k < i && k < |blocks| ==> ResetAt(blocks[k], chains[k])
  }

  ghost predicate ResetAt(b: CachingBlock, c: Chain)
    reads b, b.before
  {
    b.Linked() && b.Chain() == Stripped(c) && b.Right()
  }

  lemma BeforeFreeing(blocks: seq<CachingBlock>, mix: Mixer, size: nat, chains: seq<Chain>, i: nat)
    requires ResetTo(blocks, mix, size, chains, i) && i < |blocks|
    requires chains[i] == Link(if i == 0 then Root else chains[i - 1], blocks[i].tokens, blocks[i].extra)
    ensures blocks[i].Linked() && blocks[i].RightBefore() && blocks[i].mix == mix && blocks[i].before == blocks[..i]
    ensures blocks[i].Hash() == Recomputed(mix, size, chains[i])
    ensures Line(blocks, mix, size) && |chains| == |blocks|
    ensures forall k :: 0 <= k < i ==>
      blocks[k].Linked() && blocks[k].before == blocks[..k] && blocks[k].Chain() == Stripped(chains[k])
    ensures forall j, k :: 0 <= j < k < |blocks| ==> blocks[j] != blocks[k]
  {
    forall j, k | 0 <= j < k < |blocks| ensures blocks[j] != blocks[k] { LineChain(blocks, mix, size, k); }
    LineChain(blocks, mix, size, i);
    forall k | 0 <= k < i
      ensures blocks[k].Linked() && blocks[k].Chain() == Stripped(chains[k])
      ensures blocks[i].before[k].Linked() && blocks[i].before[k].Right()
    {
      assert ResetAt(blocks[k], chains[k]);
    }
  }

  /** Only block `i` has been reset since; memos may have been filled in, rightly. */
  lemma AfterFreeing(blocks: seq<CachingBlock>, mix: Mixer, size: nat, chains: seq<Chain>, i: nat)
    requires Line(blocks, mix, size) && |chains| == |blocks| && i < |blocks|
    requires blocks[i].Linked() && blocks[i].RightBefore() && blocks[i].extra == INVALID_HASH_VALUE == blocks[i].memo
    requires chains[i].Link? && chains[i].before == (if i == 0 then Root else chains[i - 1])
      && chains[i].tokens == blocks[i].tokens
    requires forall k :: 0 <= k < i ==> blocks[k].Linked() && blocks[k].Chain() == Stripped(chains[k])
    ensures ResetTo(blocks, mix, size, chains, i + 1)
  {
    LineChain(blocks, mix, size, i);
    forall k | 0 <= k <= i ensures ResetAt(blocks[k], chains[k]) {
      if k < i { assert blocks[i].before[k] == blocks[k]; }
    }
  }

  method FreeOne(blocks: seq<CachingBlock>, ghost mix: Mixer, ghost size: nat, i: nat, ghost chains: seq<Chain>)
    returns (h: HashValue)
    requires CollisionFree(mix) && ResetTo(blocks, mix, size, chains, i) && i < |blocks|
    requires chains[i] == Link(if i == 0 then Root else chains[i - 1], blocks[i].tokens, blocks[i].extra)
    modifies blocks[i], blocks[i].before
    ensures ResetTo(blocks, mix, size, chains, i + 1)
    ensures h == if old(blocks[i].memo) != INVALID_HASH_VALUE then old(blocks[i].memo)
      else Recomputed(mix, size, chains[i])
  {
    hide *;
    BeforeFreeing(blocks, mix, size, chains, i);
    h := blocks[i].PrefixHash();
    blocks[i].Reset();
    AfterFreeing(blocks, mix, size, chains, i);
  }

  lemma StartFreeing(blocks: seq<CachingBlock>, mix: Mixer, size: nat, chains: seq<Chain>)
    requires Line(blocks, mix, size) && |chains| == |blocks|
    requires forall k :: 0 <= k < |blocks| ==> chains[k] == blocks[k].Chain()
    ensures ResetTo(blocks, mix, size, chains, 0)
    ensures forall k :: 0 <= k < |blocks| ==>
      && blocks[k].before == blocks[..k]
      && chains[k] == Link(if k == 0 then Root else chains[k - 1], blocks[k].tokens, blocks[k].extra)
    ensures forall j, k :: 0 <= j < |blocks| && 0 <= k < |blocks| && j != k ==> blocks[j] != blocks[k]
  {
    forall k | 0 <= k < |blocks|
      ensures chains[k] == Link(if k == 0 then Root else chains[k - 1], blocks[k].tokens, blocks[k].extra)
      ensures forall j :: 0 <= j < |blocks| && j != k ==> blocks[j] != blocks[k]
    {
      LineChain(blocks, mix, size, k);
    }
  }

  /** The hashes under which freeing a table looks its blocks up: the memo where one is set, otherwise a
      hash over what the already reset objects show. */
  method FreedHashes(blocks: seq<CachingBlock>, ghost mix: Mixer, ghost size: nat, ghost chains: seq<Chain>)
    returns (hashes: seq<HashValue>)
    requires CollisionFree(mix) && Line(blocks, mix, size) && |chains| == |blocks|
    requires forall k :: 0 <= k < |blocks| ==> chains[k] == blocks[k].Chain()
    modifies blocks
    ensures |hashes| == |blocks|
    ensures forall k :: 0 <= k < |blocks| ==>
      hashes[k] == if old(blocks[k].memo) != INVALID_HASH_VALUE then old(blocks[k].memo)
        else Recomputed(mix, size, chains[k])
  {
    hide *;
    hashes := [];
    StartFreeing(blocks, mix, size, chains);
    for i := 0 to |blocks|
      invariant |hashes| == i && ResetTo(blocks, mix, size, chains, i)
      invariant forall k :: i <= k < |blocks| ==>
        blocks[k].memo == old(blocks[k].memo) && blocks[k].extra == old(blocks[k].extra)
      invariant forall k :: 0 <= k < i ==>
        hashes[k] == if old(blocks[k].memo) != INVALID_HASH_VALUE then old(blocks[k].memo)
          else Recomputed(mix, size, chains[k])
    {
      var h := FreeOne(blocks, mix, size, i, chains);
      hashes := hashes + [h];
    }
  }

  // ---------- what a wrong hash does to the allocator ----------

  /** Freeing a hashed block whose hash is recomputed behind reset blocks ends in the allocator's own error exactly
      if it is the last holder and a block before it had an extra hash; otherwise it does what Free does. */
  lemma LateFreeFails(s: Spec.State, o: Obj)
    requires CollisionFree(s.cfg.mix) && Spec.Inv(s) && o in s.blocks
    requires Ready(s.cfg.blockSize, Spec.ChainOf(s.blocks[o]))
    ensures
      var b := s.blocks[o];
      var r := Spec.FreeUnder(s, o, Recomputed(s.cfg.mix, s.cfg.blockSize, Spec.ChainOf(b)));
      && (r == Err(Internal) <==> Operations.Alone(s, o) && !NoExtra(b.before))
      && (r != Err(Internal) ==> r == Spec.Free(s, o))
  {
    var b := s.blocks[o];
    var c := Spec.ChainOf(b);
    var h := Recomputed(s.cfg.mix, s.cfg.blockSize, c);
    LazyHashRight(s.cfg.mix, s.cfg.blockSize, c);
    RecomputedSet(s.cfg.mix, s.cfg.blockSize, c);
    Steps.HolderUses(s, None, o);
    Steps.BlockFact(s, None, o);
    if h in s.cached && s.cached[h] == b.id { Steps.EntryFact(s, None, h); }
    Steps.EntryFact(s, None, Spec.HashOf(s.cfg, b));
    Operations.FreeCorrect(s, o);
  }

  lemma RecomputedSet(mix: Mixer, size: nat, c: Chain)
    requires CollisionFree(mix) && Ready(size, c)
    ensures Recomputed(mix, size, c) != INVALID_HASH_VALUE && PrefixChain.PrefixHash(mix, size, c) != INVALID_HASH_VALUE
  {
    StrippedReady(size, c.before);
    var d := Link(Stripped(c.before), c.tokens, c.extra);
    assert ChainHash(mix, d) == mix(ChainHash(mix, d.before), d.tokens, d.extra);
    assert ChainHash(mix, c) == mix(ChainHash(mix, c.before), c.tokens, c.extra);
  }

  // ---------- a run that ends there ----------

  /** Two full blocks with an extra hash are allocated, forked, and freed; then the first copy is. */
  function ForkedThenFreed(): seq<Runs.Op> {
    [Runs.OpAllocateMutable(0, Root, [1, 2], 7, 0), Runs.OpAllocateMutable(1, Link(Root, [1, 2], 7), [5, 6], 7, 0),
     Runs.OpFork(0, 2), Runs.OpFork(1, 3), Runs.OpFree(0), Runs.OpFree(1), Runs.OpFree(2)]
  }

  function First(): Spec.Block {
    Spec.Block(Root, [1, 2], 7, 0)
  }

  function Second(): Spec.Block {
    Spec.Block(Link(Root, [1, 2], 7), [5, 6], 7, 0)
  }

  /** The objects hold the first and the second block. */
  ghost predicate Holding(s: Spec.State, a: Obj, b: Obj) {
    a in s.blocks && b in s.blocks && Runs.Bare(s.blocks[a]) == First() && Runs.Bare(s.blocks[b]) == Second()
  }

  lemma Placed(s: Spec.State, o: Obj, b: Spec.Block) returns (t: Spec.State)
    requires CollisionFree(s.cfg.mix) && Spec.Inv(s) && Operations.MayPlace(s, o, b.before, b.tokens, b.extra)
    requires Spec.Available(s) > 0
    ensures
      var op := Runs.OpAllocateMutable(o, b.before, b.tokens, b.extra, 0);
      Runs.Legal(s, op) && Runs.Apply(s, op) == Ok(t)
    ensures Spec.Inv(t) && t.cfg == s.cfg && Spec.Available(t) >= Spec.Available(s) - 1
    ensures o in t.blocks && t.blocks == s.blocks[o := b.(id := t.blocks[o].id)]
  {
    hide Spec.InvHeld, CollisionFree, Spec.AllocateMutableBlock, Operations.MayPlace;
    Operations.AllocateMutableBlockCorrect(s, o, b.before, b.tokens, b.extra, 0);
    t := Runs.Apply(s, Runs.OpAllocateMutable(o, b.before, b.tokens, b.extra, 0)).value;
  }

  lemma ForkedOn(s: Spec.State, o: Obj, copy: Obj) returns (t: Spec.State)
    requires Spec.Inv(s) && o in s.blocks && copy !in s.blocks
    ensures Runs.Legal(s, Runs.OpFork(o, copy)) && Runs.Apply(s, Runs.OpFork(o, copy)) == Ok(t)
    ensures Spec.Inv(t) && t.cfg == s.cfg && t.blocks == s.blocks[copy := s.blocks[o]]
  {
    hide Spec.InvHeld, Spec.ForkBlock;
    Operations.UsesOf(s, o);
    Steps.Copy(s, o, copy);
    t := Steps.Copied(s, o, copy);
  }

  lemma FreedOn(s: Spec.State, o: Obj) returns (t: Spec.State)
    requires Spec.Inv(s) && o in s.blocks
    ensures Runs.Legal(s, Runs.OpFree(o)) && Runs.Apply(s, Runs.OpFree(o)) == Ok(t)
    ensures Spec.Inv(t) && t.cfg == s.cfg && t.blocks == s.blocks - {o}
  {
    hide Spec.InvHeld, Spec.Free;
    Operations.FreeCorrect(s, o);
    t := Runs.Apply(s, Runs.OpFree(o)).value;
  }

  /** Both blocks are allocated; the second stands behind the first. */
  lemma TwoAllocated(mix: Mixer) returns (t: Spec.State)
    requires CollisionFree(mix)
    ensures
      var s, ops := Runs.Initial(Spec.Config(0, 2, 2, mix)), ForkedThenFreed()[..2];
      && Runs.LegalRun(s, ops) && Runs.Run(s, ops) == Ok(t)
    ensures Spec.Inv(t) && t.cfg == Spec.Config(0, 2, 2, mix) && t.blocks.Keys == {0, 1} && Holding(t, 0, 1)
  {
    hide Spec.InvHeld, Runs.Apply, CollisionFree;
    var s, ops := Runs.Initial(Spec.Config(0, 2, 2, mix)), ForkedThenFreed()[..2];
    Runs.InitialInv(s.cfg);
    var r := Placed(s, 0, First());
    t := Placed(r, 1, Second());
    Runs.RunTwo(s, ops[0], r, ops[1], t);
    assert ops == [ops[0], ops[1]];
  }

  /** Both are forked, and the originals freed. */
  lemma OnlyCopies(s: Spec.State) returns (t: Spec.State)
    requires Spec.Inv(s) && s.blocks.Keys == {0, 1} && Holding(s, 0, 1)
    ensures Runs.LegalRun(s, ForkedThenFreed()[2..6]) && Runs.Run(s, ForkedThenFreed()[2..6]) == Ok(t)
    ensures Spec.Inv(t) && t.cfg == s.cfg && t.blocks.Keys == {2, 3} && Holding(t, 2, 3)
  {
    hide Spec.InvHeld, Runs.Legal, Runs.Apply, Runs.LegalRun, Runs.Run, First, Second;
    var a := ForkedOn(s, 0, 2);
    var b := ForkedOn(a, 1, 3);
    var c := FreedOn(b, 0);
    t := FreedOn(c, 1);
    var f, g := [Runs.OpFork(0, 2), Runs.OpFork(1, 3)], [Runs.OpFree(0), Runs.OpFree(1)];
    Runs.RunTwo(s, f[0], a, f[1], b);
    Runs.RunTwo(b, g[0], c, g[1], t);
    Runs.RunApart(s, f, b, g);
    assert f + g == ForkedThenFreed()[2..6];
  }

  /** The first copy is freed under its right hash, the second under a wrong one. */
  lemma CopiesFreed(t: Spec.State) returns (u: Spec.State)
    requires CollisionFree(t.cfg.mix) && Spec.Inv(t) && t.cfg.blockSize == 2
    requires t.blocks.Keys == {2, 3} && Holding(t, 2, 3)
    ensures Runs.Legal(t, Runs.OpFree(2)) && Runs.Apply(t, Runs.OpFree(2)) == Ok(u)
    ensures Spec.FreeUnder(t, 2, Recomputed(t.cfg.mix, 2, Spec.ChainOf(t.blocks[2]))) == Ok(u)
    ensures 3 in u.blocks
    ensures Spec.FreeUnder(u, 3, Recomputed(t.cfg.mix, 2, Spec.ChainOf(u.blocks[3]))) == Err(Internal)
  {
    hide Spec.InvHeld, Spec.FreeUnder, CollisionFree, Recomputed;
    u := FreedOn(t, 2);
    LateFreeFails(t, 2);
    Runs.SoleAlone(u, 3);
    LateFreeFails(u, 3);
  }

  lemma OpsApart()
    ensures
      var ops := ForkedThenFreed();
      && |ops| == 7 && ops[6] == Runs.OpFree(2)
      && ops[..2] + ops[2..6] == ops[..6] && ops[..6] + ([ops[6]] + []) == ops
  {
  }

  lemma NothingRuns(s: Spec.State)
    ensures Runs.LegalRun(s, []) && Runs.Run(s, []) == Ok(s)
  {
  }

  /** Freeing the copies front to back under the hashes that FreedHashes yields for them, the first is freed as any
      block is, and the second ends in the allocator's own error. */
  lemma LateFreeReached(mix: Mixer)
    requires CollisionFree(mix)
    ensures
      var s, ops := Runs.Initial(Spec.Config(0, 2, 2, mix)), ForkedThenFreed();
      && Runs.LegalRun(s, ops) && Runs.Run(s, ops[..6]).Ok? && Runs.Run(s, ops).Ok?
      && var t, u := Runs.Run(s, ops[..6]).value, Runs.Run(s, ops).value;
      && 2 in t.blocks && Spec.FreeUnder(t, 2, Recomputed(mix, 2, Spec.ChainOf(t.blocks[2]))) == Ok(u)
      && 3 in u.blocks && Spec.FreeUnder(u, 3, Recomputed(mix, 2, Spec.ChainOf(u.blocks[3]))) == Err(Internal)
  {
    hide *;
    var s0, ops := Runs.Initial(Spec.Config(0, 2, 2, mix)), ForkedThenFreed();
    var s := TwoAllocated(mix);
    var t := OnlyCopies(s);
    var u := CopiesFreed(t);
    OpsApart();
    NothingRuns(u);
    Runs.RunApart(s0, ops[..2], s, ops[2..6]);
    Runs.RunStep(t, ops[6], u, []);
    Runs.RunApart(s0, ops[..6], t, [ops[6]] + []);
  }
}
