/** Swapping a table's blocks between the allocators of two devices, without prefix caching. */
module HashlessSwap {
  import opened Basics
  import opened HashlessSpec
  import opened HashlessProofs
  import opened HashlessTables

  /** SwapIn: for each block a new one on the device, which takes its tokens. */
  function SwapInOps(m: Plain, objs: seq<Obj>): seq<Op>
  {
    if objs == [] || objs[0] !in m then []
    else [OpAllocate(objs[0], []), OpAppend(objs[0], m[objs[0]])] + SwapInOps(m, objs[1..])
  }

  /** Every block is on the device. */
  ghost predicate AllOn(s: State, objs: seq<Obj>, device: DeviceType, beginCpuBlockId: BlockId)
    requires forall k :: 0 <= k < |objs| ==> objs[k] in s.blocks
  {
    forall k :: 0 <= k < |objs| ==> DeviceOf(s.blocks[objs[k]].id, beginCpuBlockId) == device
  }

  function IdOf(s: State, o: Obj): BlockId {
    if o in s.blocks then s.blocks[o].id else INVALID_BLOCKID
  }

  /** The mapping from old ids to new ones, by position. */
  function Pairs(src: State, dst: State, objs: seq<Obj>): seq<(BlockId, BlockId)> {
    seq(|objs|, k requires 0 <= k < |objs| => (IdOf(src, objs[k]), IdOf(dst, objs[k])))
  }

  datatype Swapped = Swapped(src: State, dst: State, pairs: seq<(BlockId, BlockId)>)

  /** Frees all ids on the one device and allocates on the other. */
  ghost function Swap(src: State, dst: State, objs: seq<Obj>, srcDevice: DeviceType, beginCpuBlockId: BlockId)
    : Result<Swapped>
    requires forall k :: 0 <= k < |objs| ==> objs[k] in src.blocks
  {
    if !AllOn(src, objs, srcDevice, beginCpuBlockId) then Err(Misuse)
    else
      var s :- Run(src, FreeOps(objs));
      var d :- Run(dst, SwapInOps(Lists(src.blocks), objs));
      Ok(Swapped(s, d, Pairs(src, d, objs)))
  }

  /** The blocks have arrived: each on the next free id, alone, with its tokens; nothing else changed. */
  ghost predicate Arrived(s: State, t: State, m: Plain, objs: seq<Obj>) {
    && Base(t) && t.cfg == s.cfg && t.memory == s.memory && t.cows == s.cows
    && |objs| <= |s.free| && t.free == s.free[|objs|..]
    && (forall p :: p in s.blocks ==> p in t.blocks && t.blocks[p] == s.blocks[p])
    && (forall p :: p in t.blocks ==> p in s.blocks || p in objs)
    && (forall k :: 0 <= k < |objs| ==> ArrivedAt(s, t, m, objs, k))
  }

  ghost predicate ArrivedAt(s: State, t: State, m: Plain, objs: seq<Obj>, k: nat)
    requires k < |objs| <= |s.free|
  {
    objs[k] in m && objs[k] in t.blocks && t.blocks[objs[k]] == Block(m[objs[k]], s.free[k], 0)
  }

  lemma ArriveOne(s: State, o: Obj, ts: seq<TokenId>)
    requires Base(s) && o !in s.blocks && |ts| <= s.cfg.blockSize
    ensures Legal(s, OpAllocate(o, []))
    ensures s.free == [] ==> Apply(s, OpAllocate(o, [])) == Err(Exhausted)
    ensures s.free != [] ==> Apply(s, OpAllocate(o, [])).Ok?
    ensures s.free != [] ==>
      var u := Apply(s, OpAllocate(o, [])).value;
      && Legal(u, OpAppend(o, ts)) && Apply(u, OpAppend(o, ts)).Ok?
      && var t := Apply(u, OpAppend(o, ts)).value;
      && Base(t) && t.cfg == s.cfg && t.memory == s.memory && t.cows == s.cows
      && t.free == s.free[1..] && t.blocks == s.blocks[o := Block(ts, s.free[0], 0)]
  {
    AllocateCorrect(s, o, []);
    if s.free != [] {
      var u := Apply(s, OpAllocate(o, [])).value;
      AppendCorrect(u, o, ts);
      assert [] + ts == ts;
    }
  }

  lemma RunTwoMore(s: State, a: Op, b: Op, rest: seq<Op>)
    ensures
      var ops := [a, b] + rest;
      Run(s, ops) ==
        var u := Apply(s, a);
        if u.Err? then Err(u.error)
        else
          var t := Apply(u.value, b);
          if t.Err? then Err(t.error) else Run(t.value, rest)
  {
    var ops := [a, b] + rest;
    assert ops[1..] == [b] + rest && ops[1..][1..] == rest;
  }

  /** Arriving needs one id for each block, and nothing else can stop it. */
  lemma {:induction false} ArriveRun(s: State, m: Plain, objs: seq<Obj>)
    requires Base(s) && NoDup(objs)
    requires forall k :: 0 <= k < |objs| ==> objs[k] in m && |m[objs[k]]| <= s.cfg.blockSize && objs[k] !in s.blocks
    ensures
      match Run(s, SwapInOps(m, objs))
      case Err(e) => e == Exhausted && |s.free| < |objs|
      case Ok(t) => Arrived(s, t, m, objs)
    decreases |objs|
  {
    if objs != [] {
      hide Base, Legal, Apply;
      var o, rest := objs[0], objs[1..];
      ArriveOne(s, o, m[o]);
      RunTwoMore(s, OpAllocate(o, []), OpAppend(o, m[o]), SwapInOps(m, rest));
      if s.free != [] {
        var t := Apply(Apply(s, OpAllocate(o, [])).value, OpAppend(o, m[o])).value;
        ArriveRun(t, m, rest);
        var r := Run(t, SwapInOps(m, rest));
        if r.Ok? { ArrivedThen(s, t, r.value, m, objs); }
      }
    }
  }

  lemma ArrivedThen(s: State, u: State, t: State, m: Plain, objs: seq<Obj>)
    requires objs != [] && objs[0] in m && objs[0] !in s.blocks && s.free != []
    requires u.cfg == s.cfg && u.memory == s.memory && u.cows == s.cows && u.free == s.free[1..]
    requires u.blocks == s.blocks[objs[0] := Block(m[objs[0]], s.free[0], 0)]
    requires Arrived(u, t, m, objs[1..])
    ensures Arrived(s, t, m, objs)
  {
    hide Base;
    assert objs == [objs[0]] + objs[1..];
    forall k | 0 <= k < |objs| ensures ArrivedAt(s, t, m, objs, k) {
      var p := objs[k];
      if k > 0 { assert ArrivedAt(u, t, m, objs[1..], k - 1); } else { assert p in u.blocks; }
    }
  }

  /** A swap is refused exactly if a block is elsewhere, and else succeeds exactly if the other device has an id
      for each block. Objects, order and tokens stay; the old ids are given up; the new ones are the first free
      ids of the other device, in order; nobody else is touched. */
  lemma SwapCorrect(src: State, dst: State, objs: seq<Obj>, tokens: seq<TokenId>, srcDevice: DeviceType,
                    dstDevice: DeviceType, beginCpuBlockId: BlockId)
    requires Base(src) && Base(dst) && src.cfg.blockSize == dst.cfg.blockSize
    requires Tabled(Lists(src.blocks), src.cfg.blockSize, objs, tokens)
    requires forall k :: 0 <= k < |objs| ==> objs[k] in src.blocks && objs[k] !in dst.blocks
    requires IdsBelong(dst.cfg.begin, dst.cfg.num, dstDevice, beginCpuBlockId)
    ensures Swap(src, dst, objs, srcDevice, beginCpuBlockId) == Err(Misuse) <==>
      !AllOn(src, objs, srcDevice, beginCpuBlockId)
    ensures AllOn(src, objs, srcDevice, beginCpuBlockId) ==>
      match Swap(src, dst, objs, srcDevice, beginCpuBlockId)
      case Err(e) => e == Exhausted && |dst.free| < |objs|
      case Ok(w) => SwapDone(src, dst, objs, tokens, dstDevice, beginCpuBlockId, w)
  {
    hide *;
    TabledObjs(Lists(src.blocks), src.cfg.blockSize, objs, tokens);
    FreeTable(src, objs);
    ListsFit(src, objs);
    ArriveRun(dst, Lists(src.blocks), objs);
    SwapIs(src, dst, objs, srcDevice, beginCpuBlockId);
    var r := Run(dst, SwapInOps(Lists(src.blocks), objs));
    if r.Ok? && AllOn(src, objs, srcDevice, beginCpuBlockId) {
      SwapEnds(src, dst, objs, tokens, dstDevice, beginCpuBlockId, Run(src, FreeOps(objs)).value, r.value);
    }
  }

  lemma SwapIs(src: State, dst: State, objs: seq<Obj>, srcDevice: DeviceType, beginCpuBlockId: BlockId)
    requires forall k :: 0 <= k < |objs| ==> objs[k] in src.blocks
    requires Run(src, FreeOps(objs)).Ok?
    ensures
      var r := Run(dst, SwapInOps(Lists(src.blocks), objs));
      Swap(src, dst, objs, srcDevice, beginCpuBlockId) ==
        if !AllOn(src, objs, srcDevice, beginCpuBlockId) then Err(Misuse)
        else if r.Err? then Err(r.error)
        else Ok(Swapped(Run(src, FreeOps(objs)).value, r.value, Pairs(src, r.value, objs)))
  {
    hide Run, SwapInOps, FreeOps, AllOn, Pairs;
  }

  lemma SwapEnds(src: State, dst: State, objs: seq<Obj>, tokens: seq<TokenId>, dstDevice: DeviceType,
                 beginCpuBlockId: BlockId, s: State, d: State)
    requires Base(dst) && src.cfg.blockSize == dst.cfg.blockSize && Freed(src, s, objs)
    requires Tabled(Lists(src.blocks), src.cfg.blockSize, objs, tokens)
    requires forall k :: 0 <= k < |objs| ==> objs[k] in src.blocks
    requires Arrived(dst, d, Lists(src.blocks), objs)
    requires IdsBelong(dst.cfg.begin, dst.cfg.num, dstDevice, beginCpuBlockId)
    ensures SwapDone(src, dst, objs, tokens, dstDevice, beginCpuBlockId, Swapped(s, d, Pairs(src, d, objs)))
  {
    hide Base, Tabled, Freed;
    ArrivedTabled(dst, d, Lists(src.blocks), objs, tokens) by { assert d.cfg == dst.cfg; }
    ArrivedIds(dst, d, Lists(src.blocks), objs, dstDevice, beginCpuBlockId);
  }

  ghost predicate SwapDone(src: State, dst: State, objs: seq<Obj>, tokens: seq<TokenId>, dstDevice: DeviceType,
                           beginCpuBlockId: BlockId, w: Swapped) {
    && |objs| <= |dst.free| && (forall k :: 0 <= k < |objs| ==> objs[k] in src.blocks)
    && Freed(src, w.src, objs) && Base(w.dst)
    && Arrived(dst, w.dst, Lists(src.blocks), objs)
    && Tabled(Lists(w.dst.blocks), dst.cfg.blockSize, objs, tokens)
    && |w.pairs| == |objs|
    && (forall k :: 0 <= k < |objs| ==>
          && objs[k] in w.dst.blocks
          && w.pairs[k] == (src.blocks[objs[k]].id, w.dst.blocks[objs[k]].id)
          && w.pairs[k].1 == dst.free[k] && DeviceOf(w.pairs[k].1, beginCpuBlockId) == dstDevice)
  }

  lemma TabledObjs(m: Plain, size: nat, objs: seq<Obj>, tokens: seq<TokenId>)
    requires Tabled(m, size, objs, tokens)
    ensures NoDup(objs)
  {
  }

  lemma ListsFit(s: State, objs: seq<Obj>)
    requires Base(s) && forall k :: 0 <= k < |objs| ==> objs[k] in s.blocks
    ensures forall k :: 0 <= k < |objs| ==> objs[k] in Lists(s.blocks) && |Lists(s.blocks)[objs[k]]| <= s.cfg.blockSize
  {
    forall k | 0 <= k < |objs|
      ensures objs[k] in Lists(s.blocks) && |Lists(s.blocks)[objs[k]]| <= s.cfg.blockSize
    {
      var p := objs[k];
      assert p in s.blocks;
    }
  }

  lemma ArrivedTabled(s: State, t: State, m: Plain, objs: seq<Obj>, tokens: seq<TokenId>)
    requires Arrived(s, t, m, objs) && Tabled(m, s.cfg.blockSize, objs, tokens)
    ensures Tabled(Lists(t.blocks), s.cfg.blockSize, objs, tokens)
  {
    forall k | 0 <= k < |objs| ensures BlockHolds(Lists(t.blocks), s.cfg.blockSize, objs, tokens, k) {
      assert BlockHolds(m, s.cfg.blockSize, objs, tokens, k) && ArrivedAt(s, t, m, objs, k);
    }
  }

  lemma ArrivedIds(s: State, t: State, m: Plain, objs: seq<Obj>, device: DeviceType, beginCpuBlockId: BlockId)
    requires Base(s) && Arrived(s, t, m, objs) && IdsBelong(s.cfg.begin, s.cfg.num, device, beginCpuBlockId)
    ensures forall k :: 0 <= k < |objs| ==>
      && objs[k] in t.blocks && t.blocks[objs[k]].id == s.free[k]
      && DeviceOf(s.free[k], beginCpuBlockId) == device
  {
    forall k | 0 <= k < |objs|
      ensures objs[k] in t.blocks && t.blocks[objs[k]].id == s.free[k] && DeviceOf(s.free[k], beginCpuBlockId) == device
    {
      assert ArrivedAt(s, t, m, objs, k);
      assert s.free[k] in s.free && s.free[k] in s.refs;
    }
  }

  // ---------- what the mapping is for ----------

  /** Carrying the pairs over puts every block that was computed before the swap where its new id leads,
      and overwrites nobody else's memory. */
  lemma SwapCarries(src: State, dst: State, objs: seq<Obj>, tokens: seq<TokenId>, dstDevice: DeviceType,
                    beginCpuBlockId: BlockId, w: Swapped)
    requires Base(src) && Base(dst) && SwapDone(src, dst, objs, tokens, dstDevice, beginCpuBlockId, w)
    ensures
      var t := w.dst.(memory := Carried(src.memory, dst.memory, w.pairs));
      && (forall k :: 0 <= k < |objs| ==>
            objs[k] in src.blocks && objs[k] in t.blocks && (Gathers(src, objs[k]) ==> Gathers(t, objs[k])))
      && (forall p :: p in dst.blocks ==> p in t.blocks && (Gathers(dst, p) <==> Gathers(t, p)))
  {
    hide Base, Tabled, Freed, Gathers;
    var t := w.dst.(memory := Carried(src.memory, dst.memory, w.pairs));
    forall k | 0 <= k < |objs|
      ensures objs[k] in src.blocks && objs[k] in t.blocks && (Gathers(src, objs[k]) ==> Gathers(t, objs[k]))
    {
      ArrivedShows(src, dst, objs, tokens, dstDevice, beginCpuBlockId, w, k);
    }
    forall p | p in dst.blocks ensures p in t.blocks && (Gathers(dst, p) <==> Gathers(t, p)) {
      OtherShows(src, dst, objs, tokens, dstDevice, beginCpuBlockId, w, p);
    }
  }

  /** The targets are different ids, none of them in use before. */
  lemma TargetsFresh(src: State, dst: State, objs: seq<Obj>, tokens: seq<TokenId>, dstDevice: DeviceType,
                     beginCpuBlockId: BlockId, w: Swapped)
    requires Base(dst) && SwapDone(src, dst, objs, tokens, dstDevice, beginCpuBlockId, w)
    ensures forall i, j :: 0 <= i < j < |w.pairs| ==> w.pairs[i].1 != w.pairs[j].1
    ensures forall k :: 0 <= k < |w.pairs| ==> w.pairs[k].1 in dst.free
  {
    hide Base, Tabled, Freed, Arrived;
    FreeApart(dst);
  }

  lemma FreeApart(s: State)
    requires Base(s)
    ensures forall i, j :: 0 <= i < j < |s.free| ==> s.free[i] != s.free[j]
  {
  }

  lemma NoneOnFree(s: State, id: BlockId, p: Obj)
    requires Base(s) && id in s.free && p in s.blocks
    ensures s.blocks[p].id != id
  {
    NoneFree(s, id, p);
  }

  lemma ArrivedShows(src: State, dst: State, objs: seq<Obj>, tokens: seq<TokenId>, dstDevice: DeviceType,
                     beginCpuBlockId: BlockId, w: Swapped, k: nat)
    requires Base(dst) && SwapDone(src, dst, objs, tokens, dstDevice, beginCpuBlockId, w) && k < |objs|
    ensures
      var t := w.dst.(memory := Carried(src.memory, dst.memory, w.pairs));
      objs[k] in src.blocks && objs[k] in t.blocks && (Gathers(src, objs[k]) ==> Gathers(t, objs[k]))
  {
    hide Base, Tabled, Freed, Carried;
    TargetsFresh(src, dst, objs, tokens, dstDevice, beginCpuBlockId, w);
    assert ArrivedAt(dst, w.dst, Lists(src.blocks), objs, k);
    if Gathers(src, objs[k]) { CarriedAt(src.memory, dst.memory, w.pairs, k); }
  }

  lemma OtherShows(src: State, dst: State, objs: seq<Obj>, tokens: seq<TokenId>, dstDevice: DeviceType,
                   beginCpuBlockId: BlockId, w: Swapped, p: Obj)
    requires Base(dst) && SwapDone(src, dst, objs, tokens, dstDevice, beginCpuBlockId, w) && p in dst.blocks
    ensures
      var t := w.dst.(memory := Carried(src.memory, dst.memory, w.pairs));
      p in t.blocks && (Gathers(dst, p) <==> Gathers(t, p))
  {
    hide Base, Tabled, Freed, Carried;
    TargetsFresh(src, dst, objs, tokens, dstDevice, beginCpuBlockId, w);
    forall k | 0 <= k < |w.pairs| ensures w.pairs[k].1 != dst.blocks[p].id { NoneOnFree(dst, w.pairs[k].1, p); }
    CarriedElsewhere(src.memory, dst.memory, w.pairs, dst.blocks[p].id);
  }

  /** Out and in again, with the pairs carried over each time: the table is back, it holds and shows the same tokens,
      and the second mapping starts from the ids the first one led to. */
  lemma SwapOutAndIn(npu: State, cpu: State, objs: seq<Obj>, tokens: seq<TokenId>, beginCpuBlockId: BlockId)
    requires Base(npu) && Base(cpu) && npu.cfg.blockSize == cpu.cfg.blockSize
    requires Tabled(Lists(npu.blocks), npu.cfg.blockSize, objs, tokens)
    requires forall k :: 0 <= k < |objs| ==> objs[k] in npu.blocks && objs[k] !in cpu.blocks && Gathers(npu, objs[k])
    requires IdsBelong(npu.cfg.begin, npu.cfg.num, NPU, beginCpuBlockId)
    requires IdsBelong(cpu.cfg.begin, cpu.cfg.num, CPU, beginCpuBlockId)
    ensures
      var out := Swap(npu, cpu, objs, NPU, beginCpuBlockId);
      && (out.Ok? <==> |objs| <= |cpu.free|)
      && (out.Ok? ==>
            var away := out.value.dst.(memory := Carried(npu.memory, cpu.memory, out.value.pairs));
            && (forall k :: 0 <= k < |objs| ==> objs[k] in away.blocks)
            && var back := Swap(away, out.value.src, objs, CPU, beginCpuBlockId);
            (back.Ok? <==> |objs| <= |out.value.src.free|)
            && (back.Ok? ==> Returned(npu, out.value, away, objs, tokens, back.value)))
  {
    hide Base, Tabled, Gathers, Swap;
    AllOnDevice(npu, objs, NPU, beginCpuBlockId);
    SwapCorrect(npu, cpu, objs, tokens, NPU, CPU, beginCpuBlockId);
    var out := Swap(npu, cpu, objs, NPU, beginCpuBlockId);
    if out.Ok? {
      SwapCarries(npu, cpu, objs, tokens, CPU, beginCpuBlockId, out.value);
      var away := out.value.dst.(memory := Carried(npu.memory, cpu.memory, out.value.pairs));
      CarriedBase(npu, cpu, objs, tokens, CPU, beginCpuBlockId, out.value);
      AllOnDevice(away, objs, CPU, beginCpuBlockId);
      SwapCorrect(away, out.value.src, objs, tokens, CPU, NPU, beginCpuBlockId);
      var back := Swap(away, out.value.src, objs, CPU, beginCpuBlockId);
      if back.Ok? {
        SwapCarries(away, out.value.src, objs, tokens, NPU, beginCpuBlockId, back.value);
      }
    }
  }

  ghost predicate Returned(npu: State, out: Swapped, away: State, objs: seq<Obj>, tokens: seq<TokenId>, back: Swapped) {
    var t := back.dst.(memory := Carried(away.memory, out.src.memory, back.pairs));
    && Tabled(Lists(t.blocks), npu.cfg.blockSize, objs, tokens)
    && |out.pairs| == |back.pairs| == |objs|
    && forall k :: 0 <= k < |objs| ==>
         objs[k] in t.blocks && Gathers(t, objs[k]) && back.pairs[k].0 == out.pairs[k].1
  }

  lemma AllOnDevice(s: State, objs: seq<Obj>, device: DeviceType, beginCpuBlockId: BlockId)
    requires Base(s) && IdsBelong(s.cfg.begin, s.cfg.num, device, beginCpuBlockId)
    requires forall k :: 0 <= k < |objs| ==> objs[k] in s.blocks
    ensures AllOn(s, objs, device, beginCpuBlockId)
  {
    forall k | 0 <= k < |objs| ensures DeviceOf(s.blocks[objs[k]].id, beginCpuBlockId) == device {
      var p := objs[k];
      assert s.blocks[p].id in s.refs;
    }
  }

  /** What is carried over has the size of a block. */
  lemma CarriedBase(src: State, dst: State, objs: seq<Obj>, tokens: seq<TokenId>, dstDevice: DeviceType,
                    beginCpuBlockId: BlockId, w: Swapped)
    requires Base(src) && Base(dst) && src.cfg.blockSize == dst.cfg.blockSize
    requires SwapDone(src, dst, objs, tokens, dstDevice, beginCpuBlockId, w)
    ensures Base(w.dst.(memory := Carried(src.memory, dst.memory, w.pairs)))
    ensures Base(w.src) && w.src.cfg == src.cfg && w.dst.cfg == dst.cfg
    ensures forall k :: 0 <= k < |objs| ==> objs[k] !in w.src.blocks
  {
    hide Ledger, Agreeing, Tabled, Carried, ArrivedAt;
    forall k | 0 <= k < |w.pairs|
      ensures w.pairs[k].0 in src.memory && |src.memory[w.pairs[k].0]| == dst.cfg.blockSize
    {
      var p := objs[k];
      HolderShape(src, p);
    }
    CarriedShape(w.dst, src.memory, dst.memory, w.pairs);
    BaseWith(w.dst, Carried(src.memory, dst.memory, w.pairs));
    forall k | 0 <= k < |objs| ensures objs[k] !in w.src.blocks {
      var p := objs[k];
      assert p in objs;
    }
  }

  lemma BaseWith(s: State, m: map<BlockId, seq<TokenId>>)
    requires Base(s) && MemoryShape(s, m)
    ensures Base(s.(memory := m))
  {
  }

  lemma HolderShape(s: State, p: Obj)
    requires Base(s) && p in s.blocks
    ensures s.blocks[p].id in s.memory && |s.memory[s.blocks[p].id]| == s.cfg.blockSize
  {
  }

  lemma {:induction false} CarriedShape(s: State, from: map<BlockId, seq<TokenId>>, to: map<BlockId, seq<TokenId>>,
                                        pairs: seq<(BlockId, BlockId)>)
    requires MemoryShape(s, to)
    requires forall k :: 0 <= k < |pairs| ==> pairs[k].0 in from && |from[pairs[k].0]| == s.cfg.blockSize
    ensures MemoryShape(s, Carried(from, to, pairs))
    decreases |pairs|
  {
    if pairs != [] { CarriedShape(s, from, to, pairs[..|pairs| - 1]); }
  }
}
