/** The allocator without prefix caching, updated in place; each method is proved against
    the function of the same name in HashlessSpec. */
module HashlessAllocator {
  import opened Basics
  import opened HashlessSpec
  import Spec = HashlessSpec
  import opened HashlessProofs

  class HashLessBlockObj {
    ghost const address: Obj
    const prev: HashLessBlockObj?
    var tokens: seq<TokenId>
    var blockId: BlockId
    ghost var todo: nat  // the first token the device has yet to write

    constructor (ghost address: Obj, prev: HashLessBlockObj?, tokens: seq<TokenId>, blockId: BlockId, ghost todo: nat)
      ensures this.address == address && this.prev == prev && Value() == Block(tokens, blockId, todo)
    {
      this.address, this.prev := address, prev;
      this.tokens, this.blockId, this.todo := tokens, blockId, todo;
    }

    ghost function Value(): Block
      reads this
    {
      Block(tokens, blockId, todo)
    }
  }

  ghost function Addresses(chain: seq<HashLessBlockObj>): seq<Obj> {
    seq(|chain|, k requires 0 <= k < |chain| => chain[k].address)
  }

  /** The objects at `addresses` form a chain of their own. */
  ghost predicate Copies(live: map<Obj, HashLessBlockObj>, copies: seq<HashLessBlockObj>, addresses: seq<Obj>) {
    && |copies| == |addresses|
    && (copies != [] ==> copies[0].prev == null)
    && (forall j, k :: 0 <= j < k < |copies| && k == j + 1 ==> copies[k].prev == copies[j])
    && (forall k :: 0 <= k < |copies| ==>
          copies[k].address == addresses[k] && addresses[k] in live && live[addresses[k]] == copies[k])
  }

  lemma NoCopies(live: map<Obj, HashLessBlockObj>, addresses: seq<Obj>)
    ensures Copies(live, [], addresses[..0])
  {
  }

  lemma CopiesPush(live: map<Obj, HashLessBlockObj>, copies: seq<HashLessBlockObj>, addresses: seq<Obj>,
                   b: HashLessBlockObj)
    requires |copies| < |addresses| && Copies(live, copies, addresses[..|copies|])
    requires b.address == addresses[|copies|] && b.address !in live
    requires b.prev == if copies == [] then null else copies[|copies| - 1]
    ensures Copies(live[b.address := b], copies + [b], addresses[..|copies| + 1])
  {
  }

  class HashLessBlockAllocator {
    const cfg: Config
    var free: seq<BlockId>
    var refs: map<BlockId, int>
    var cows: seq<(BlockId, BlockId)>
    ghost var live: map<Obj, HashLessBlockObj>
    ghost var memory: map<BlockId, seq<TokenId>>

    ghost predicate Linked()
      reads this, live.Values
    {
      forall a :: a in live ==> live[a].address == a
    }

    ghost function Blocks(): map<Obj, Block>
      reads this`live, live.Values
    {
      map a | a in live :: live[a].Value()
    }

    ghost function Abs(): State
      reads this, live.Values
    {
      State(cfg, free, refs, cows, Blocks(), memory)
    }

    ghost predicate Valid()
      reads this, live.Values
    {
      Linked() && Base(Abs())
    }

    ghost predicate Has(b: HashLessBlockObj)
      reads this`live
    {
      b.address in live && live[b.address] == b
    }

    constructor (cfg: Config, ghost memory: map<BlockId, seq<TokenId>>)
      requires forall id :: InRange(cfg, id) ==> id in memory && |memory[id]| == cfg.blockSize
      ensures Valid() && Abs() == Initial(cfg, memory) && live == map[]
    {
      this.cfg := cfg;
      free, refs, cows, live, this.memory := [], map[], [], map[], memory;
      new;
      for k := 0 to cfg.num
        invariant free == IdsFrom(cfg.begin, cfg.num)[..k] && cows == [] && live == map[] && this.memory == memory
        invariant refs == map id | id in IdsFrom(cfg.begin, cfg.num)[..k] :: 0
      {
        var id := cfg.begin + k;
        assert IdsFrom(cfg.begin, cfg.num)[..k + 1] == IdsFrom(cfg.begin, cfg.num)[..k] + [id];
        free := free + [id];
        refs := refs[id := 0];
      }
      assert IdsFrom(cfg.begin, cfg.num)[..cfg.num] == IdsFrom(cfg.begin, cfg.num);
      assert Abs().blocks == map[];
      InitialInv(cfg, memory);
    }

    function GetNumFreeBlock(): nat
      reads this`free
    {
      |free|
    }

    // ---------- the steps ----------

    method Increase(id: BlockId) returns (r: Result<int>)
      modifies this`refs
      ensures match r
        case Ok(count) => Spec.Increase(old(Abs()), id) == Ok(Abs()) && id in refs && count == refs[id]
        case Err(e) => Spec.Increase(old(Abs()), id) == Err(e)
    {
      if id !in refs || refs[id] < 0 {
        return Err(Internal);
      }
      refs := refs[id := refs[id] + 1];
      return Ok(refs[id]);
    }

    method Decrease(id: BlockId) returns (r: Result<int>)
      modifies this`refs
      ensures match r
        case Ok(count) => Spec.Decrease(old(Abs()), id) == Ok(Abs()) && id in refs && count == refs[id]
        case Err(e) => Spec.Decrease(old(Abs()), id) == Err(e)
    {
      if id !in refs || refs[id] <= 0 {
        return Err(Internal);
      }
      refs := refs[id := refs[id] - 1];
      return Ok(refs[id]);
    }

    method AllocateBlockId() returns (r: Result<BlockId>)
      modifies this`free, this`refs
      ensures match r
        case Ok(id) => Spec.AllocateBlockId(old(Abs())) == Ok((id, Abs()))
        case Err(e) => Spec.AllocateBlockId(old(Abs())) == Err(e)
    {
      if free == [] {
        return Err(Exhausted);
      }
      var id := free[0];
      free := free[1..];
      var c := Increase(id);
      r := if c.Ok? then Ok(id) else Err(c.error);
    }

    lemma OneAddress(b: HashLessBlockObj)
      requires Linked()
      ensures forall a :: a in live && a != b.address ==> live[a] != b
    {
      forall a | a in live && a != b.address ensures live[a] != b { assert live[a].address == a; }
    }

    method FreeBlockId(b: HashLessBlockObj) returns (r: Result<()>)
      requires Linked() && Has(b)
      modifies this`refs, this`free, this`live, b`blockId
      ensures Linked() && live == old(live) - {b.address}
      ensures match r
        case Ok(_) => Spec.FreeBlockId(old(Abs()), b.address) == Ok(Abs())
        case Err(e) => Spec.FreeBlockId(old(Abs()), b.address) == Err(e)
    {
      OneAddress(b);
      live := live - {b.address};
      assert Blocks() == old(Blocks()) - {b.address};
      assert Spec.FreeBlockId(old(Abs()), b.address) ==
        var t := Spec.Decrease(Abs(), b.blockId);
        if t.Err? then Err(t.error)
        else Ok(if t.value.refs[b.blockId] == 0 then t.value.(free := t.value.free + [b.blockId]) else t.value);
      var c := Decrease(b.blockId);
      if c.Err? {
        b.blockId := INVALID_BLOCKID;
        return Err(c.error);
      }
      if c.value == 0 {
        free := free + [b.blockId];
      }
      b.blockId := INVALID_BLOCKID;
      forall a | a in live ensures live[a].Value() == old(live[a].Value()) {}
      assert Blocks() == old(Blocks()) - {b.address};
      return Ok(());
    }

    /** The object's fields and its place among the live ones. */
    method Put(b: HashLessBlockObj, tokens: seq<TokenId>, id: BlockId, ghost todo: nat)
      requires Linked() && (b.address in live ==> live[b.address] == b)
      modifies this`live, b
      ensures Linked() && live == old(live)[b.address := b] && b.Value() == Block(tokens, id, todo)
      ensures Abs() == old(Abs()).(blocks := old(Blocks())[b.address := b.Value()])
    {
      OneAddress(b);
      ghost var before := Blocks();
      b.tokens, b.blockId, b.todo := tokens, id, todo;
      live := live[b.address := b];
      forall a | a in live && a != b.address ensures a in before && live[a].Value() == before[a] {}
      assert Blocks() == before[b.address := b.Value()];
    }

    method CowBlockIfNotAppendable(b: HashLessBlockObj) returns (r: Result<()>)
      requires Linked() && Has(b)
      modifies this, b
      ensures Linked() && (r.Ok? ==> live == old(live))
      ensures match r
        case Ok(_) => Spec.CowBlockIfNotAppendable(old(Abs()), b.address) == Ok(Abs())
        case Err(e) => Spec.CowBlockIfNotAppendable(old(Abs()), b.address) == Err(e)
    {
      hide Spec.FreeBlockId; hide Spec.AllocateBlockId;
      var src := b.blockId;
      assert Blocks()[b.address] == b.Value();
      if src !in refs {
        return Err(Internal);
      }
      if refs[src] <= 1 {
        return Ok(());
      }
      r := FreeBlockId(b);
      if r.Ok? {
        var a := AllocateBlockId();
        if a.Err? {
          return Err(a.error);
        }
        cows := cows + [(src, a.value)];
        Put(b, b.tokens, a.value, b.todo);
      }
    }

    // ---------- the interface ----------

    method AllocateMutableBlock(ts: seq<TokenId>, prev: HashLessBlockObj?, ghost address: Obj)
      returns (r: Result<HashLessBlockObj>)
      requires Valid() && address !in live && |ts| <= cfg.blockSize
      modifies this
      ensures r.Ok? ==>
        Valid() && fresh(r.value) && live == old(live)[address := r.value] && r.value.prev == prev
      ensures match r
        case Ok(_) => Spec.AllocateMutableBlock(old(Abs()), address, ts) == Ok(Abs())
        case Err(e) => e == Exhausted && old(free) == []
    {
      assert address !in Blocks();
      AllocateCorrect(Abs(), address, ts);
      hide Base;
      var id := AllocateBlockId();
      if id.Err? {
        return Err(id.error);
      }
      var b := new HashLessBlockObj(address, prev, ts, id.value, 0);
      Put(b, ts, id.value, 0);
      return Ok(b);
    }

    /** Only a shared block without a spare id makes appending fail; a copy is recorded for the device then. */
    method AppendTokenIds(b: HashLessBlockObj, ts: seq<TokenId>) returns (r: Result<()>)
      requires Valid() && Has(b) && |b.tokens| + |ts| <= cfg.blockSize
      modifies this, b
      ensures r.Ok? ==> Valid() && live == old(live)
      ensures match r
        case Ok(_) => Spec.AppendTokenIds(old(Abs()), b.address, ts) == Ok(Abs())
        case Err(e) => Spec.AppendTokenIds(old(Abs()), b.address, ts) == Err(e)
      ensures b.address in old(Abs()).blocks && old(b.blockId in refs)
      ensures AppendOutcome(old(Abs()), b.address, old(Longer(b.Value(), ts)),
                            if r.Ok? then Ok(Abs()) else Err(r.error))
    {
      assert Abs().blocks[b.address] == b.Value();
      AppendCorrect(Abs(), b.address, ts);
      hide Base; hide AppendOutcome;
      Put(b, b.tokens + ts, b.blockId, b.todo);
      assert live == old(live);
      r := CowBlockIfNotAppendable(b);
    }

    method ReplaceToken(b: HashLessBlockObj, i: nat, token: TokenId)
      requires Valid() && Has(b) && b.address in Abs().blocks && Legal(Abs(), OpReplace(b.address, i, token))
      modifies this`live, b
      ensures Valid() && live == old(live) && Spec.ReplaceToken(old(Abs()), b.address, i, token) == Ok(Abs())
    {
      assert Abs().blocks[b.address] == b.Value();
      ReplaceCorrect(Abs(), b.address, i, token);
      hide Base;
      Put(b, b.tokens[i := token], b.blockId, Min(b.todo, i));
      assert live == old(live);
    }

    method Free(b: HashLessBlockObj)
      requires Valid() && Has(b)
      modifies this`refs, this`free, this`live, b`blockId
      ensures Valid() && live == old(live) - {b.address} && Spec.Free(old(Abs()), b.address) == Ok(Abs())
    {
      assert b.address in Blocks();
      FreeCorrect(Abs(), b.address);
      hide Base;
      var r := FreeBlockId(b);
    }

    /** The copy shares the id, so it needs none. */
    method ForkBlock(b: HashLessBlockObj, prev: HashLessBlockObj?, ghost address: Obj) returns (copy: HashLessBlockObj)
      requires Valid() && Has(b) && address !in live
      modifies this`refs, this`live
      ensures Valid() && fresh(copy) && live == old(live)[address := copy]
      ensures copy.address == address && copy.prev == prev
      ensures Spec.ForkBlock(old(Abs()), b.address, address) == Ok(Abs())
    {
      assert Blocks()[b.address] == b.Value() && address !in Blocks();
      ForkCorrect(Abs(), b.address, address);
      hide Base;
      var c := Increase(b.blockId);
      copy := new HashLessBlockObj(address, prev, b.tokens, b.blockId, |b.tokens|);
      Put(copy, b.tokens, b.blockId, |b.tokens|);
    }

    /** `chain` is what walking back from `last` over prevBlock_ yields, oldest first. */
    ghost predicate ChainTo(chain: seq<HashLessBlockObj>, last: HashLessBlockObj)
      reads this`live, chain
    {
      && chain != [] && chain[|chain| - 1] == last && chain[0].prev == null
      && (forall j, k :: 0 <= j < k < |chain| && k == j + 1 ==> chain[k].prev == chain[j])
      && (forall k :: 0 <= k < |chain| ==> chain[k].address in live && live[chain[k].address] == chain[k])
    }

    method CollectChain(last: HashLessBlockObj, ghost chain: seq<HashLessBlockObj>)
      returns (sources: seq<HashLessBlockObj>)
      requires ChainTo(chain, last)
      ensures sources == chain
    {
      sources := [];
      var visit: HashLessBlockObj? := last;
      ghost var k := |chain|;
      while visit != null
        invariant 0 <= k <= |chain| && sources == chain[k..]
        invariant visit == if k == 0 then null else chain[k - 1]
        decreases k
      {
        sources := [visit] + sources;
        visit := visit.prev;
        k := k - 1;
      }
    }

    /** Forks a whole chain: a copy for every block, chained in the same order, each on its source's id. */
    method Fork(last: HashLessBlockObj, ghost addresses: seq<Obj>, ghost chain: seq<HashLessBlockObj>)
      returns (copies: seq<HashLessBlockObj>)
      requires Valid() && ChainTo(chain, last) && |addresses| == |chain|
      requires forall k :: 0 <= k < |addresses| ==> addresses[k] !in live
      requires forall j, k :: 0 <= j < k < |addresses| ==> addresses[j] != addresses[k]
      modifies this`refs, this`live
      ensures Valid() && Run(old(Abs()), ForkOps(Addresses(chain), addresses)) == Ok(Abs())
      ensures Copies(live, copies, addresses) && forall k :: 0 <= k < |copies| ==> fresh(copies[k])
      ensures forall a :: a in old(live) ==> a in live && live[a] == old(live)[a]
    {
      hide Base, Copies, Run, Spec.ForkBlock;
      var sources := CollectChain(last, chain);
      copies := [];
      ghost var ops := ForkOps(Addresses(chain), addresses);
      NoCopies(live, addresses);
      RunNone(Abs(), ops);
      for i := 0 to |sources|
        invariant Valid() && |copies| == i
        invariant forall a :: a in old(live) ==> a in live && live[a] == old(live)[a]
        invariant forall k :: i <= k < |addresses| ==> addresses[k] !in live
        invariant Run(old(Abs()), ops[..i]) == Ok(Abs())
        invariant Copies(live, copies, addresses[..i])
        invariant forall k :: 0 <= k < |copies| ==> fresh(copies[k])
      {
        ghost var before, s := live, Abs();
        var prev := if i == 0 then null else copies[i - 1];
        var c := ForkBlock(sources[i], prev, addresses[i]);
        RunPush(old(Abs()), ops, i, s);
        CopiesPush(before, copies, addresses, c);
        copies := copies + [c];
      }
      assert addresses[..|sources|] == addresses && ops[..|sources|] == ops;
    }

    method ClearCopyOnWrites() returns (pairs: seq<(BlockId, BlockId)>)
      modifies this`cows
      ensures pairs == old(cows) && Abs() == old(Abs()).(cows := [])
    {
      pairs := cows;
      cows := [];
    }
  }
}
