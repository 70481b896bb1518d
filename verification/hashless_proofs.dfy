/** Paged memory with sharing and copy-on-write behaves like a separate token list per object. */
module HashlessProofs {
  import opened Basics
  import opened HashlessSpec

  lemma HoldersGain(blocks: map<Obj, Block>, o: Obj, b: Block, id: BlockId)
    requires o !in blocks
    ensures |Holders(blocks[o := b], id)| == |Holders(blocks, id)| + (if b.id == id then 1 else 0)
  {
    assert Holders(blocks[o := b], id) == Holders(blocks, id) + (if b.id == id then {o} else {});
  }

  lemma HoldersLose(blocks: map<Obj, Block>, o: Obj, id: BlockId)
    requires o in blocks
    ensures |Holders(blocks - {o}, id)| == |Holders(blocks, id)| - (if blocks[o].id == id then 1 else 0)
  {
    assert Holders(blocks - {o}, id) == Holders(blocks, id) - {o};
  }

  lemma HolderUses(s: State, o: Obj)
    requires Ledger(s) && o in s.blocks
    ensures s.refs[s.blocks[o].id] >= 1
  {
    assert o in Holders(s.blocks, s.blocks[o].id);
  }

  /** The sole holder of an id is the only object there. */
  lemma SoleHolder(s: State, o: Obj, p: Obj)
    requires Ledger(s) && o in s.blocks && p in s.blocks && s.blocks[o].id == s.blocks[p].id && !Shared(s, o)
    ensures p == o
  {
    var h := Holders(s.blocks, s.blocks[o].id);
    assert o in h && p in h;
    assert |h - {o}| == 0;
    assert p !in h - {o};
  }

  lemma NoneFree(s: State, id: BlockId, o: Obj)
    requires Ledger(s) && id in s.refs && s.refs[id] == 0 && o in s.blocks
    ensures s.blocks[o].id != id
  {
    HolderUses(s, o);
  }

  // ---------- the ledger ----------

  /** The state after an id left the free deque for a new object. */
  function Placed(s: State, o: Obj, b: Block): State
    requires s.free != [] && b.id in s.refs
  {
    s.(free := s.free[1..], refs := s.refs[b.id := s.refs[b.id] + 1], blocks := s.blocks[o := b])
  }

  lemma PlacedLedger(s: State, o: Obj, b: Block)
    requires Ledger(s) && s.free != [] && o !in s.blocks && b.id == s.free[0]
    ensures b.id in s.refs && Ledger(Placed(s, o, b))
  {
    assert s.free[0] in s.free;
    var t := Placed(s, o, b);
    assert forall k :: k in t.free ==> k in s.free;
    forall k | k in s.free && k != b.id ensures k in t.free {
      var i :| 0 <= i < |s.free| && s.free[i] == k;
      assert t.free[i - 1] == k;
    }
    forall id | id in s.refs ensures t.refs[id] == |Holders(t.blocks, id)| { HoldersGain(s.blocks, o, b, id); }
  }

  lemma FreedLedger(s: State, o: Obj)
    requires Ledger(s) && o in s.blocks
    ensures Free(s, o).Ok? && Ledger(Free(s, o).value)
    ensures
      var t := Free(s, o).value;
      && t == s.(free := t.free, refs := s.refs[s.blocks[o].id := s.refs[s.blocks[o].id] - 1], blocks := s.blocks - {o})
      && |t.free| == |s.free| + (if Shared(s, o) then 0 else 1)
      && (Shared(s, o) ==> t.free == s.free)
  {
    HolderUses(s, o);
    var t := Free(s, o).value;
    assert forall k :: k in t.free <==> k in s.free || (k == s.blocks[o].id && t.refs[k] == 0);
    forall id | id in s.refs ensures t.refs[id] == |Holders(t.blocks, id)| { HoldersLose(s.blocks, o, id); }
  }

  lemma CopiedLedger(s: State, o: Obj, copy: Obj)
    requires Ledger(s) && o in s.blocks && copy !in s.blocks
    ensures ForkBlock(s, o, copy).Ok? && Ledger(ForkBlock(s, o, copy).value)
  {
    HolderUses(s, o);
    var t := ForkBlock(s, o, copy).value;
    forall id | id in s.refs ensures t.refs[id] == |Holders(t.blocks, id)| {
      HoldersGain(s.blocks, copy, t.blocks[copy], id);
    }
  }

  // ---------- the memory ----------

  lemma CopyKeepsShape(s: State, m: map<BlockId, seq<TokenId>>, src: BlockId, trg: BlockId)
    requires MemoryShape(s, m) && src in s.refs
    ensures src in m && MemoryShape(s, m[trg := m[src]])
  {
  }

  lemma {:induction false} CowsKeepShape(s: State, cows: seq<(BlockId, BlockId)>)
    requires MemoryShape(s, s.memory) && CowsOk(s, cows)
    ensures MemoryShape(s, ApplyCows(s.memory, cows))
    decreases |cows|
  {
    if cows != [] {
      var n := |cows| - 1;
      CowsKeepShape(s, cows[..n]);
      CopyKeepsShape(s, ApplyCows(s.memory, cows[..n]), cows[n].0, cows[n].1);
    }
  }

  lemma AfterCopiesShape(s: State)
    requires Base(s)
    ensures MemoryShape(s, AfterCopies(s))
  {
    CowsKeepShape(s, s.cows);
  }

  // ---------- what an operation does to the others ----------

  /** The same objects hold `id`, and owe it the same. */
  ghost predicate SameOwed(s: State, t: State, id: BlockId) {
    forall q, i :: Owes(s, q, id, i) <==> Owes(t, q, id, i)
  }

  /** An object whose id keeps its memory and its debts is in order if and only if it was. */
  lemma OrderKept(s: State, t: State, p: Obj)
    requires p in s.blocks && p in t.blocks && t.blocks[p] == s.blocks[p]
    requires SameMemory(s, t, s.blocks[p].id) && SameOwed(s, t, s.blocks[p].id)
    ensures InOrder(t, p) <==> InOrder(s, p)
  {
    forall i | 0 <= i < |s.blocks[p].tokens| ensures SlotOk(t, p, i) <==> SlotOk(s, p, i) {}
  }

  /** Objects outside `ids` keep their blocks and are in order if and only if they were. */
  ghost predicate Undisturbed(s: State, t: State, ids: set<BlockId>) {
    forall p :: p in s.blocks && s.blocks[p].id !in ids ==>
      p in t.blocks && t.blocks[p] == s.blocks[p] && (InOrder(t, p) <==> InOrder(s, p))
  }

  ghost predicate SameMemory(s: State, t: State, id: BlockId) {
    id in AfterCopies(s) && id in AfterCopies(t) && AfterCopies(t)[id] == AfterCopies(s)[id]
  }

  /** An operation that changes holders and memory of `ids` only disturbs nobody else. */
  lemma OthersUndisturbed(s: State, t: State, ids: set<BlockId>)
    requires Base(s) && Base(t) && t.refs.Keys == s.refs.Keys
    requires forall id :: id in s.refs && id !in ids ==> SameMemory(s, t, id)
    requires forall p :: p in s.blocks && s.blocks[p].id !in ids ==> p in t.blocks && t.blocks[p] == s.blocks[p]
    requires forall p :: p in t.blocks && t.blocks[p].id !in ids ==> p in s.blocks && t.blocks[p] == s.blocks[p]
    ensures Undisturbed(s, t, ids)
  {
    forall p | p in s.blocks && s.blocks[p].id !in ids ensures InOrder(t, p) <==> InOrder(s, p) {
      OrderKept(s, t, p);
    }
  }

  // ---------- the operations ----------

  lemma AllocateCorrect(s: State, o: Obj, ts: seq<TokenId>)
    requires Base(s) && o !in s.blocks && |ts| <= s.cfg.blockSize
    ensures s.free == [] <==> AllocateMutableBlock(s, o, ts) == Err(Exhausted)
    ensures s.free != [] ==> AllocateMutableBlock(s, o, ts).Ok?
    ensures s.free != [] ==>
      var t := AllocateMutableBlock(s, o, ts).value;
      && Base(t) && t.cfg == s.cfg && t.blocks == s.blocks[o := Block(ts, s.free[0], 0)]
      && t.free == s.free[1..] && t.cows == s.cows && t.memory == s.memory
      && s.free[0] in s.refs && t.refs == s.refs[s.free[0] := 1]
      && InOrder(t, o) && Undisturbed(s, t, {s.free[0]})
  {
    if s.free != [] {
      var id := s.free[0];
      assert id in s.free;
      var b := Block(ts, id, 0);
      PlacedLedger(s, o, b);
      var t := AllocateMutableBlock(s, o, ts).value;
      assert t == Placed(s, o, b);
      AfterCopiesShape(s);
      forall p | p in s.blocks ensures s.blocks[p].id != id { NoneFree(s, id, p); }
      OthersUndisturbed(s, t, {id});
      forall i | 0 <= i < |ts| ensures SlotOk(t, o, i) { assert Owes(t, o, id, i); }
    }
  }

  /** Freeing removes one holder and cannot fail. The sharers it leaves stay in order exactly if they can do
      without what it owed. */
  lemma FreeCorrect(s: State, o: Obj)
    requires Base(s) && o in s.blocks
    ensures s.blocks[o].id in s.refs && Free(s, o).Ok? && Base(Free(s, o).value)
    ensures
      var t := Free(s, o).value;
      && t.blocks == s.blocks - {o} && t.cfg == s.cfg && t.cows == s.cows && t.memory == s.memory
      && t.refs == s.refs[s.blocks[o].id := s.refs[s.blocks[o].id] - 1]
      && t.free == (if Shared(s, o) then s.free else s.free + [s.blocks[o].id])
      && Undisturbed(s, t, {s.blocks[o].id})
      && forall p :: p in t.blocks && t.blocks[p].id == s.blocks[o].id ==>
           (InOrder(t, p) <==> InOrder(s, p) && Dispensable(s, o))
  {
    FreedLedger(s, o);
    AfterCopiesShape(s);
    var t := Free(s, o).value;
    OthersUndisturbed(s, t, {s.blocks[o].id});
    forall p | p in t.blocks && t.blocks[p].id == s.blocks[o].id
      ensures InOrder(t, p) <==> InOrder(s, p) && Dispensable(s, o)
    {
      LeftBehind(s, t, o, p);
    }
  }

  /** A sharer that `o` leaves, its memory unchanged. */
  lemma LeftBehind(s: State, t: State, o: Obj, p: Obj)
    requires Agreeing(s) && o in s.blocks && p in s.blocks && p != o && s.blocks[p].id == s.blocks[o].id
    requires p in t.blocks && t.blocks[p] == s.blocks[p]
    requires SameMemory(s, t, s.blocks[o].id)
    requires forall q, i :: Owes(t, q, s.blocks[o].id, i) <==> q != o && Owes(s, q, s.blocks[o].id, i)
    ensures InOrder(t, p) <==> InOrder(s, p) && Dispensable(s, o)
  {
    var b := s.blocks[o];
    forall i | 0 <= i < |b.tokens|
      ensures SlotOk(t, p, i) <==> Written(AfterCopies(s), b, i) || OwedByOther(s, o, i)
      ensures SlotOk(s, p, i) <==> Written(AfterCopies(s), b, i) || OwedByOther(s, o, i) || b.todo <= i
    {
      assert b.todo <= i ==> Owes(s, o, b.id, i);
    }
    if InOrder(t, p) {
      forall i | b.todo <= i < |b.tokens| ensures Written(AfterCopies(s), b, i) || OwedByOther(s, o, i) {
        assert SlotOk(t, p, i);
      }
      forall i | 0 <= i < |b.tokens| ensures SlotOk(s, p, i) { assert SlotOk(t, p, i); }
    }
    if InOrder(s, p) && Dispensable(s, o) {
      forall i | 0 <= i < |b.tokens| ensures SlotOk(t, p, i) { assert SlotOk(s, p, i); }
    }
  }

  /** The copy shares the id and owes nothing. */
  lemma ForkCorrect(s: State, o: Obj, copy: Obj)
    requires Base(s) && o in s.blocks && copy !in s.blocks
    ensures ForkBlock(s, o, copy).Ok? && Base(ForkBlock(s, o, copy).value)
    ensures s.blocks[o].id in s.refs
    ensures
      var t := ForkBlock(s, o, copy).value;
      && t.cfg == s.cfg && t.blocks == s.blocks[copy := s.blocks[o].(todo := |s.blocks[o].tokens|)]
      && t.free == s.free && t.cows == s.cows && t.memory == s.memory
      && t.refs == s.refs[s.blocks[o].id := s.refs[s.blocks[o].id] + 1]
      && (forall p :: p in s.blocks ==> (InOrder(t, p) <==> InOrder(s, p)))
      && (InOrder(t, copy) <==> InOrder(s, o))
  {
    HolderUses(s, o);
    CopiedLedger(s, o, copy);
    var t := ForkBlock(s, o, copy).value;
    var id := s.blocks[o].id;
    forall p, i | p in s.blocks && 0 <= i < |s.blocks[p].tokens| ensures SlotOk(t, p, i) <==> SlotOk(s, p, i) {
      ForkOwes(s, t, o, copy, p, i);
    }
    forall i | 0 <= i < |s.blocks[o].tokens| ensures SlotOk(t, copy, i) <==> SlotOk(s, o, i) {
      ForkOwes(s, t, o, copy, o, i);
    }
    assert forall p :: p in s.blocks ==> t.blocks[p] == s.blocks[p];
  }

  /** The copy owes none of the slots there are. */
  lemma ForkOwes(s: State, t: State, o: Obj, copy: Obj, p: Obj, i: nat)
    requires Agreeing(s) && o in s.blocks && copy !in s.blocks && p in s.blocks && i < |s.blocks[p].tokens|
    requires t.blocks == s.blocks[copy := s.blocks[o].(todo := |s.blocks[o].tokens|)]
    ensures forall q :: Owes(t, q, s.blocks[p].id, i) <==> Owes(s, q, s.blocks[p].id, i)
  {
  }

  lemma RewriteLedger(s: State, o: Obj, b: Block)
    requires Ledger(s) && o in s.blocks && b.id == s.blocks[o].id
    ensures Ledger(s.(blocks := s.blocks[o := b]))
  {
    forall id | id in s.refs ensures Holders(s.blocks[o := b], id) == Holders(s.blocks, id) {}
  }

  /** An object alone on its id changes its tokens from its first pending one on. */
  lemma RewriteAlone(s: State, o: Obj, b: Block)
    requires Base(s) && o in s.blocks && !Shared(s, o) && b.id == s.blocks[o].id
    requires b.todo <= |b.tokens| <= s.cfg.blockSize
    ensures Base(s.(blocks := s.blocks[o := b])) && Undisturbed(s, s.(blocks := s.blocks[o := b]), {b.id})
    ensures InOrder(s.(blocks := s.blocks[o := b]), o) <==>
      forall i :: 0 <= i < b.todo ==> Written(AfterCopies(s), b, i)
  {
    var t := s.(blocks := s.blocks[o := b]);
    RewriteLedger(s, o, b);
    AfterCopiesShape(s);
    forall p | p in s.blocks && p != o ensures s.blocks[p].id != b.id {
      if s.blocks[p].id == b.id { SoleHolder(s, o, p); }
    }
    OthersUndisturbed(s, t, {b.id});
    forall i | 0 <= i < |b.tokens|
      ensures SlotOk(t, o, i) <==> b.todo <= i || Written(AfterCopies(s), b, i)
    {
      assert b.todo <= i ==> Owes(t, o, b.id, i);
      assert forall q :: Owes(t, q, b.id, i) ==> q == o;
    }
    if InOrder(t, o) {
      forall i | 0 <= i < b.todo ensures Written(AfterCopies(s), b, i) { assert SlotOk(t, o, i); }
    }
  }

  /** An unshared object in order holds everything before its first pending token. */
  lemma AloneInOrder(s: State, o: Obj)
    requires Base(s) && o in s.blocks && !Shared(s, o)
    ensures InOrder(s, o) <==> CopyReady(s, o)
  {
    var b := s.blocks[o];
    assert s.blocks[o := b] == s.blocks;
    assert s.(blocks := s.blocks) == s;
    RewriteAlone(s, o, b);
  }

  lemma ReplaceCorrect(s: State, o: Obj, i: nat, token: TokenId)
    requires Base(s) && o in s.blocks && !Shared(s, o) && i < |s.blocks[o].tokens|
    ensures ReplaceToken(s, o, i, token).Ok? && Base(ReplaceToken(s, o, i, token).value)
    ensures
      var t := ReplaceToken(s, o, i, token).value;
      && t == s.(blocks := s.blocks[o := Replaced(s.blocks[o], i, token)])
      && Undisturbed(s, t, {s.blocks[o].id}) && (InOrder(s, o) ==> InOrder(t, o))
  {
    var b := Replaced(s.blocks[o], i, token);
    RewriteAlone(s, o, b);
    AloneInOrder(s, o);
    forall j | 0 <= j < b.todo ensures Written(AfterCopies(s), s.blocks[o], j) ==> Written(AfterCopies(s), b, j) {}
  }

  /** How appending ends: it fails exactly when a shared block finds no id for its copy. */
  ghost predicate AppendOutcome(s: State, o: Obj, b: Block, r: Result<State>)
    requires o in s.blocks && s.blocks[o].id in s.refs
  {
    match r
    case Err(e) => e == Exhausted && Shared(s, o) && s.free == []
    case Ok(t) =>
      && Base(t) && t.cfg == s.cfg && o in t.blocks && t.memory == s.memory
      && t.blocks == s.blocks[o := b.(id := t.blocks[o].id)]
      && (if Shared(s, o) then
            && s.free != [] && s.free[0] in s.refs && t.free == s.free[1..] && t.blocks[o].id == s.free[0]
            && t.cows == s.cows + [(s.blocks[o].id, s.free[0])]
            && t.refs == s.refs[s.blocks[o].id := s.refs[s.blocks[o].id] - 1][s.free[0] := 1]
            && Moved(s, t, o)
          else
            && t.free == s.free && t.cows == s.cows && t.refs == s.refs && t.blocks[o].id == s.blocks[o].id
            && (InOrder(t, o) <==> InOrder(s, o)) && Undisturbed(s, t, {s.blocks[o].id}))
  }

  /** What moving to a copy does: the object is in order exactly if everything it does not write itself was
      there to be copied, and the sharers it leaves exactly if they can do without what it owed. */
  ghost predicate Moved(s: State, t: State, o: Obj)
    requires o in s.blocks && o in t.blocks
  {
    && (InOrder(t, o) <==> CopyReady(s, o))
    && (forall p :: p in s.blocks && p != o && s.blocks[p].id == s.blocks[o].id ==>
          p in t.blocks && t.blocks[p] == s.blocks[p] && (InOrder(t, p) <==> InOrder(s, p) && Dispensable(s, o)))
    && Undisturbed(s, t, {s.blocks[o].id, t.blocks[o].id})
  }

  lemma AppendCorrect(s: State, o: Obj, ts: seq<TokenId>)
    requires Base(s) && o in s.blocks && |s.blocks[o].tokens| + |ts| <= s.cfg.blockSize
    ensures s.blocks[o].id in s.refs
    ensures AppendOutcome(s, o, Longer(s.blocks[o], ts), AppendTokenIds(s, o, ts))
  {
    var b := Longer(s.blocks[o], ts);
    HolderUses(s, o);
    if Shared(s, o) {
      AppendShared(s, o, b);
    } else {
      RewriteAlone(s, o, b);
      AloneInOrder(s, o);
      forall i | 0 <= i < b.todo ensures Written(AfterCopies(s), s.blocks[o], i) <==> Written(AfterCopies(s), b, i) {}
    }
  }

  lemma AppendShared(s: State, o: Obj, b: Block)
    requires Base(s) && o in s.blocks && Shared(s, o)
    requires s.blocks[o].tokens <= b.tokens && b.todo == s.blocks[o].todo && |b.tokens| <= s.cfg.blockSize
    requires b.id == s.blocks[o].id
    ensures AppendOutcome(s, o, b, CowBlockIfNotAppendable(s.(blocks := s.blocks[o := b]), o))
  {
    FreedLedger(s, o);
    var f := Free(s, o).value;
    var u := s.(blocks := s.blocks[o := b]);
    PutBack(s.blocks, o, b);
    assert FreeBlockId(u, o) == Ok(f);
    if s.free != [] {
      assert s.free[0] in s.free;
      var b' := b.(id := s.free[0]);
      PlacedLedger(f, o, b');
      PutBack(s.blocks, o, b');
      var t := Placed(f, o, b').(cows := s.cows + [(b.id, b'.id)]);
      assert CowBlockIfNotAppendable(u, o) == Ok(t);
      AfterCopiesShape(s);
      CowMemory(s, t, b.id, b'.id);
      CowAgrees(s, t, o, b');
      CowOrder(s, t, o, b');
    }
  }

  /** One recorded copy more. */
  lemma CowMemory(s: State, t: State, src: BlockId, trg: BlockId)
    requires Base(s) && src in s.refs && t.memory == s.memory && t.cows == s.cows + [(src, trg)]
    ensures src in AfterCopies(s) && AfterCopies(t) == AfterCopies(s)[trg := AfterCopies(s)[src]]
  {
    AfterCopiesShape(s);
    assert t.cows[..|s.cows|] == s.cows;
  }

  lemma CowAgrees(s: State, t: State, o: Obj, b: Block)
    requires Base(s) && o in s.blocks && b.id in s.refs && s.refs[b.id] == 0
    requires b.todo <= |b.tokens| <= s.cfg.blockSize && s.blocks[o].id in s.refs
    requires Ledger(t) && t.cfg == s.cfg && t.refs.Keys == s.refs.Keys && t.blocks == s.blocks[o := b]
    requires t.memory == s.memory && t.cows == s.cows + [(s.blocks[o].id, b.id)]
    ensures Base(t)
  {
    forall p | p in s.blocks ensures s.blocks[p].id != b.id { NoneFree(s, b.id, p); }
  }

  lemma CowOrder(s: State, t: State, o: Obj, b: Block)
    requires Base(s) && Base(t) && o in s.blocks && b.id in s.refs && s.refs[b.id] == 0
    requires s.blocks[o].tokens <= b.tokens && b.todo == s.blocks[o].todo
    requires t.refs.Keys == s.refs.Keys && t.blocks == s.blocks[o := b] && s.blocks[o].id in AfterCopies(s)
    requires MemoryShape(s, AfterCopies(s))
    requires AfterCopies(t) == AfterCopies(s)[b.id := AfterCopies(s)[s.blocks[o].id]]
    ensures Moved(s, t, o)
  {
    var a := s.blocks[o];
    forall p | p in s.blocks ensures s.blocks[p].id != b.id { NoneFree(s, b.id, p); }
    OthersUndisturbed(s, t, {a.id, b.id});
    forall p | p in s.blocks && p != o && s.blocks[p].id == a.id
      ensures InOrder(t, p) <==> InOrder(s, p) && Dispensable(s, o)
    {
      LeftBehind(s, t, o, p);
    }
    forall i | 0 <= i < |b.tokens|
      ensures SlotOk(t, o, i) <==> b.todo <= i || Written(AfterCopies(s), a, i)
    {
      assert b.todo <= i ==> Owes(t, o, b.id, i);
      assert forall q :: Owes(t, q, b.id, i) ==> q == o;
    }
    if InOrder(t, o) {
      forall i | 0 <= i < a.todo ensures Written(AfterCopies(s), a, i) { assert SlotOk(t, o, i); }
    }
  }

  // ---------- the device pass ----------

  /** Some object of `order` writes slot `i` of `id`. */
  ghost predicate Writes(blocks: map<Obj, Block>, order: seq<Obj>, id: BlockId, i: nat) {
    exists k :: 0 <= k < |order| && WriterAt(blocks, order, id, i, k)
  }

  ghost predicate WriterAt(blocks: map<Obj, Block>, order: seq<Obj>, id: BlockId, i: nat, k: nat)
    requires k < |order|
  {
    order[k] in blocks && blocks[order[k]].id == id && blocks[order[k]].todo <= i
  }

  /** Afterwards a slot shows its token exactly if it did before or one of the writers owed it. */
  lemma {:induction false} WriteAllExact(s: State, m: map<BlockId, seq<TokenId>>, order: seq<Obj>, o: Obj, i: nat)
    requires Ledger(s) && Agreeing(s) && MemoryShape(s, m) && o in s.blocks && i < |s.blocks[o].tokens|
    ensures MemoryShape(s, WriteAll(m, s.blocks, order))
    ensures Written(WriteAll(m, s.blocks, order), s.blocks[o], i) <==>
      Written(m, s.blocks[o], i) || Writes(s.blocks, order, s.blocks[o].id, i)
    decreases |order|
  {
    if order != [] {
      var n := |order| - 1;
      WriteAllExact(s, m, order[..n], o, i);
      WritesPush(s.blocks, order, s.blocks[o].id, i);
      WriteOne(s, WriteAll(m, s.blocks, order[..n]), order[n], o, i);
    }
  }

  lemma WritesPush(blocks: map<Obj, Block>, order: seq<Obj>, id: BlockId, i: nat)
    requires order != []
    ensures
      var n := |order| - 1;
      Writes(blocks, order, id, i) <==> Writes(blocks, order[..n], id, i) || WriterAt(blocks, order, id, i, n)
  {
    var n := |order| - 1;
    assert forall k :: 0 <= k < n ==> (WriterAt(blocks, order[..n], id, i, k) <==> WriterAt(blocks, order, id, i, k));
  }

  lemma WriteOne(s: State, m: map<BlockId, seq<TokenId>>, q: Obj, o: Obj, i: nat)
    requires Ledger(s) && Agreeing(s) && MemoryShape(s, m) && o in s.blocks && i < |s.blocks[o].tokens|
    ensures
      var m' := if q in s.blocks then WriteBlock(m, s.blocks[q]) else m;
      && MemoryShape(s, m')
      && (Written(m', s.blocks[o], i) <==> Written(m, s.blocks[o], i) || Owes(s, q, s.blocks[o].id, i))
  {
    if q in s.blocks {
      var b := s.blocks[q];
      assert b.id in m && |m[b.id]| == s.cfg.blockSize;
    }
  }

  /** What reading the object's id through the page table yields. */
  ghost predicate Gathers(s: State, o: Obj)
    requires o in s.blocks
  {
    var b := s.blocks[o];
    b.id in s.memory && |b.tokens| <= |s.memory[b.id]| && s.memory[b.id][..|b.tokens|] == b.tokens
  }

  lemma GathersAll(s: State, o: Obj)
    requires MemoryShape(s, s.memory) && o in s.blocks && s.blocks[o].id in s.refs
    requires |s.blocks[o].tokens| <= s.cfg.blockSize
    ensures Gathers(s, o) <==> forall i :: 0 <= i < |s.blocks[o].tokens| ==> Written(s.memory, s.blocks[o], i)
  {
    var b := s.blocks[o];
    assert |s.memory[b.id]| == s.cfg.blockSize;
    var shown := s.memory[b.id][..|b.tokens|];
    assert forall i :: 0 <= i < |b.tokens| ==> (Written(s.memory, b, i) <==> shown[i] == b.tokens[i]);
    if forall i :: 0 <= i < |b.tokens| ==> Written(s.memory, b, i) {
      assert shown == b.tokens;
    }
  }

  /** After the recorded copies, in order, and the pending writes, in any order, an object's id holds
      exactly its own tokens if and only if each of them was computed or owed. */
  lemma PassCorrect(s: State, order: seq<Obj>)
    requires Base(s) && forall o :: o in s.blocks ==> o in order
    ensures
      var t := DevicePass(s, order);
      && Base(t) && t.cfg == s.cfg && t.refs == s.refs && t.free == s.free && t.blocks.Keys == s.blocks.Keys
      && forall o :: o in s.blocks ==>
           && t.blocks[o] == s.blocks[o].(todo := |s.blocks[o].tokens|) && Settled(t, o)
           && (Gathers(t, o) <==> InOrder(s, o)) && (InOrder(t, o) <==> InOrder(s, o))
  {
    var t := DevicePass(s, order);
    AfterCopiesShape(s);
    PassShape(s, AfterCopies(s), order);
    hide MemoryShape;
    forall id | id in s.refs ensures Holders(t.blocks, id) == Holders(s.blocks, id) {}
    forall o | o in s.blocks
      ensures (Gathers(t, o) <==> InOrder(s, o)) && (InOrder(t, o) <==> InOrder(s, o))
    {
      PassShows(s, order, o);
    }
  }

  /** What the pass leaves under an object's id. */
  lemma PassShows(s: State, order: seq<Obj>, o: Obj)
    requires Base(s) && (forall p :: p in s.blocks ==> p in order) && o in s.blocks
    ensures
      var t := DevicePass(s, order);
      o in t.blocks && (Gathers(t, o) <==> InOrder(s, o)) && (InOrder(t, o) <==> InOrder(s, o))
  {
    var m := AfterCopies(s);
    var t := DevicePass(s, order);
    AfterCopiesShape(s);
    PassShape(s, m, order);
    hide Ledger, Agreeing, CowsOk;
    assert AfterCopies(t) == t.memory;
    GathersAll(t, o);
    forall i | 0 <= i < |s.blocks[o].tokens|
      ensures Written(t.memory, t.blocks[o], i) <==> SlotOk(s, o, i)
      ensures SlotOk(t, o, i) <==> Written(t.memory, t.blocks[o], i)
    {
      WriteAllExact(s, m, order, o, i);
      WritesAreOwed(s, order, s.blocks[o].id, i);
      PassOwesNothing(s, t, o, i);
    }
  }

  lemma {:induction false} PassShape(s: State, m: map<BlockId, seq<TokenId>>, order: seq<Obj>)
    requires Ledger(s) && MemoryShape(s, m)
    ensures MemoryShape(s, WriteAll(m, s.blocks, order))
    decreases |order|
  {
    if order != [] { PassShape(s, m, order[..|order| - 1]); }
  }

  lemma WritesAreOwed(s: State, order: seq<Obj>, id: BlockId, i: nat)
    requires forall o :: o in s.blocks ==> o in order
    ensures Writes(s.blocks, order, id, i) <==> exists q :: Owes(s, q, id, i)
  {
    if Writes(s.blocks, order, id, i) {
      var k :| 0 <= k < |order| && WriterAt(s.blocks, order, id, i, k);
      assert Owes(s, order[k], id, i);
    }
    forall q | Owes(s, q, id, i) ensures Writes(s.blocks, order, id, i) {
      assert q in order;
      var k :| 0 <= k < |order| && order[k] == q;
      assert WriterAt(s.blocks, order, id, i, k);
    }
  }

  lemma PassOwesNothing(s: State, t: State, o: Obj, i: nat)
    requires Agreeing(s) && o in s.blocks && i < |s.blocks[o].tokens| && t.blocks.Keys == s.blocks.Keys
    requires forall q :: q in s.blocks ==> t.blocks[q] == s.blocks[q].(todo := |s.blocks[q].tokens|)
    ensures !exists q :: Owes(t, q, t.blocks[o].id, i)
  {
  }

  // ---------- runs ----------

  datatype Op =
    | OpAllocate(o: Obj, ts: seq<TokenId>)
    | OpAppend(o: Obj, ts: seq<TokenId>)
    | OpReplace(o: Obj, i: nat, token: TokenId)
    | OpFork(o: Obj, copy: Obj)
    | OpFree(o: Obj)
    | OpPass(order: seq<Obj>)

  function Apply(s: State, op: Op): Result<State> {
    match op
    case OpAllocate(o, ts) => AllocateMutableBlock(s, o, ts)
    case OpAppend(o, ts) => AppendTokenIds(s, o, ts)
    case OpReplace(o, i, token) => ReplaceToken(s, o, i, token)
    case OpFork(o, copy) => ForkBlock(s, o, copy)
    case OpFree(o) => Free(s, o)
    case OpPass(order) => Ok(DevicePass(s, order))
  }

  /** What the callers guarantee. */
  ghost predicate Legal(s: State, op: Op) {
    match op
    case OpAllocate(o, ts) => o !in s.blocks && |ts| <= s.cfg.blockSize
    case OpAppend(o, ts) => o in s.blocks && |s.blocks[o].tokens| + |ts| <= s.cfg.blockSize
    case OpReplace(o, i, _) => o in s.blocks && i < |s.blocks[o].tokens| && s.blocks[o].id in s.refs && !Shared(s, o)
    case OpFork(o, copy) => o in s.blocks && copy !in s.blocks
    case OpFree(o) => o in s.blocks
    case OpPass(order) => forall o :: o in s.blocks ==> o in order
  }

  /** When a copy is taken, or an object leaves, nothing pending gets lost. */
  ghost predicate Careful(s: State, op: Op) {
    match op
    case OpAppend(o, _) =>
      o in s.blocks && s.blocks[o].id in s.refs && Shared(s, o) ==> CopyReady(s, o) && Dispensable(s, o)
    case OpFree(o) => o in s.blocks && s.blocks[o].id in s.refs && Shared(s, o) ==> Dispensable(s, o)
    case _ => true
  }

  /** The same operation where every object simply owns a token list. */
  function PlainApply(m: map<Obj, seq<TokenId>>, op: Op): map<Obj, seq<TokenId>> {
    match op
    case OpAllocate(o, ts) => m[o := ts]
    case OpAppend(o, ts) => if o in m then m[o := m[o] + ts] else m
    case OpReplace(o, i, token) => if o in m && i < |m[o]| then m[o := m[o][i := token]] else m
    case OpFork(o, copy) => if o in m then m[copy := m[o]] else m
    case OpFree(o) => m - {o}
    case OpPass(_) => m
  }

  function Lists(blocks: map<Obj, Block>): map<Obj, seq<TokenId>> {
    map o | o in blocks :: blocks[o].tokens
  }

  function Run(s: State, ops: seq<Op>): Result<State>
    decreases |ops|
  {
    if ops == [] then Ok(s)
    else
      var t :- Apply(s, ops[0]);
      Run(t, ops[1..])
  }

  ghost predicate LegalRun(s: State, ops: seq<Op>)
    decreases |ops|
  {
    ops != [] ==> Legal(s, ops[0]) && (Apply(s, ops[0]).Ok? ==> LegalRun(Apply(s, ops[0]).value, ops[1..]))
  }

  function PlainRun(m: map<Obj, seq<TokenId>>, ops: seq<Op>): map<Obj, seq<TokenId>>
    decreases |ops|
  {
    if ops == [] then m else PlainRun(PlainApply(m, ops[0]), ops[1..])
  }

  lemma ListsPut(blocks: map<Obj, Block>, o: Obj, b: Block)
    ensures Lists(blocks[o := b]) == Lists(blocks)[o := b.tokens]
  {
  }

  lemma ListsDrop(blocks: map<Obj, Block>, o: Obj)
    ensures Lists(blocks - {o}) == Lists(blocks) - {o}
  {
  }

  /** Every legal operation keeps ledger and lists; only exhaustion stops it. */
  lemma ApplyCorrect(s: State, op: Op)
    requires Base(s) && Legal(s, op)
    ensures
      match Apply(s, op)
      case Err(e) => e == Exhausted && s.free == []
      case Ok(t) => Base(t) && t.cfg == s.cfg && Lists(t.blocks) == PlainApply(Lists(s.blocks), op)
  {
    hide Base;
    match op
    case OpAllocate(o, ts) =>
      AllocateCorrect(s, o, ts);
      if s.free != [] { ListsPut(s.blocks, o, Block(ts, s.free[0], 0)); }
    case OpAppend(o, ts) =>
      AppendCorrect(s, o, ts);
      if Apply(s, op).Ok? { ListsPut(s.blocks, o, Apply(s, op).value.blocks[o]); }
    case OpReplace(o, i, token) =>
      ReplaceCorrect(s, o, i, token);
      ListsPut(s.blocks, o, Replaced(s.blocks[o], i, token));
    case OpFork(o, copy) =>
      ForkCorrect(s, o, copy);
      ListsPut(s.blocks, copy, s.blocks[o].(todo := |s.blocks[o].tokens|));
    case OpFree(o) =>
      FreeCorrect(s, o);
      ListsDrop(s.blocks, o);
    case OpPass(order) =>
      PassCorrect(s, order);
  }

  /** From a state in which everything is computed or owed, an operation leads to another such state if and
      only if it is careful. */
  lemma CarefulExact(s: State, op: Op)
    requires Inv(s) && Legal(s, op) && Apply(s, op).Ok?
    ensures Inv(Apply(s, op).value) <==> Careful(s, op)
  {
    ApplyCorrect(s, op);
    match op
    case OpAllocate(o, ts) =>
      AllocateCorrect(s, o, ts);
      NewIdUnheld(s, s.free[0]);
    case OpAppend(o, ts) =>
      AppendExact(s, o, ts);
    case OpReplace(o, i, token) =>
      ReplaceCorrect(s, o, i, token);
      AloneOnId(s, o);
    case OpFork(o, copy) =>
      ForkCorrect(s, o, copy);
    case OpFree(o) =>
      FreeExact(s, o);
    case OpPass(order) =>
      PassCorrect(s, order);
  }

  lemma NewIdUnheld(s: State, id: BlockId)
    requires Ledger(s) && id in s.refs && s.refs[id] == 0
    ensures forall p :: p in s.blocks ==> s.blocks[p].id != id
  {
    forall p | p in s.blocks ensures s.blocks[p].id != id { NoneFree(s, id, p); }
  }

  lemma AloneOnId(s: State, o: Obj)
    requires Ledger(s) && o in s.blocks && !Shared(s, o)
    ensures forall p :: p in s.blocks && s.blocks[p].id == s.blocks[o].id ==> p == o
  {
    forall p | p in s.blocks && s.blocks[p].id == s.blocks[o].id ensures p == o { SoleHolder(s, o, p); }
  }

  lemma OtherHolder(s: State, o: Obj) returns (p: Obj)
    requires Ledger(s) && o in s.blocks && Shared(s, o)
    ensures p in s.blocks && p != o && s.blocks[p].id == s.blocks[o].id
  {
    var h := Holders(s.blocks, s.blocks[o].id);
    var rest := h - {o};
    assert o in h && h == rest + {o};
    assert |rest| > 0;
    assert rest != {};
    p := AnyOf(rest);
  }

  lemma AppendExact(s: State, o: Obj, ts: seq<TokenId>)
    requires Inv(s) && Legal(s, OpAppend(o, ts)) && AppendTokenIds(s, o, ts).Ok?
    ensures Inv(AppendTokenIds(s, o, ts).value) <==> Careful(s, OpAppend(o, ts))
  {
    AppendCorrect(s, o, ts);
    var t := AppendTokenIds(s, o, ts).value;
    if Shared(s, o) {
      var p := OtherHolder(s, o);
      NewIdUnheld(s, s.free[0]) by { assert s.free[0] in s.free; }
    } else {
      AloneOnId(s, o);
    }
  }

  lemma FreeExact(s: State, o: Obj)
    requires Inv(s) && o in s.blocks
    ensures Free(s, o).Ok? && (Inv(Free(s, o).value) <==> Careful(s, OpFree(o)))
  {
    FreeCorrect(s, o);
    if Shared(s, o) {
      var p := OtherHolder(s, o);
    } else {
      AloneOnId(s, o);
    }
  }

  /** Waiting for the device before sharing ends is careful. */
  lemma SettledIsCareful(s: State, o: Obj, ts: seq<TokenId>)
    requires Inv(s) && o in s.blocks && Settled(s, o)
    ensures Careful(s, OpAppend(o, ts)) && Careful(s, OpFree(o))
  {
    var b := s.blocks[o];
    forall i | 0 <= i < |b.tokens| ensures Written(AfterCopies(s), b, i) { assert SlotOk(s, o, i); }
  }

  lemma {:induction false} RunCorrect(s: State, ops: seq<Op>)
    requires Base(s) && LegalRun(s, ops)
    ensures
      match Run(s, ops)
      case Err(e) => e == Exhausted
      case Ok(t) => Base(t) && t.cfg == s.cfg && Lists(t.blocks) == PlainRun(Lists(s.blocks), ops)
    decreases |ops|
  {
    if ops != [] {
      ApplyCorrect(s, ops[0]);
      if Apply(s, ops[0]).Ok? { RunCorrect(Apply(s, ops[0]).value, ops[1..]); }
    }
  }

  lemma RunNone(s: State, ops: seq<Op>)
    ensures Run(s, ops[..0]) == Ok(s)
  {
  }

  lemma {:induction false} RunSplit(s: State, a: seq<Op>, b: seq<Op>)
    ensures Run(s, a + b) == if Run(s, a).Ok? then Run(Run(s, a).value, b) else Run(s, a)
    decreases |a|
  {
    if a == [] {
      assert a + b == b;
    } else {
      assert (a + b)[0] == a[0] && (a + b)[1..] == a[1..] + b;
      if Apply(s, a[0]).Ok? { RunSplit(Apply(s, a[0]).value, a[1..], b); }
    }
  }

  /** The next operation of a run. */
  lemma RunPush(s: State, ops: seq<Op>, i: nat, t: State)
    requires i < |ops| && Run(s, ops[..i]) == Ok(t)
    ensures Run(s, ops[..i + 1]) == Apply(t, ops[i])
  {
    assert ops[..i + 1] == ops[..i] + [ops[i]];
    RunSplit(s, ops[..i], [ops[i]]);
    assert [ops[i]][1..] == [];
    if Apply(t, ops[i]).Ok? { assert Run(Apply(t, ops[i]).value, []) == Apply(t, ops[i]); }
  }

  /** Forking a chain, block by block. */
  function ForkOps(sources: seq<Obj>, copies: seq<Obj>): seq<Op>
    requires |sources| == |copies|
  {
    seq(|sources|, k requires 0 <= k < |sources| => OpFork(sources[k], copies[k]))
  }

  /** Every operation of the run is careful. */
  ghost predicate CarefulRun(s: State, ops: seq<Op>)
    decreases |ops|
  {
    ops != [] && Apply(s, ops[0]).Ok? ==> Careful(s, ops[0]) && CarefulRun(Apply(s, ops[0]).value, ops[1..])
  }

  /** In every state of the run, everything is computed or owed. */
  ghost predicate SoundRun(s: State, ops: seq<Op>)
    decreases |ops|
  {
    Inv(s) && (ops != [] && Apply(s, ops[0]).Ok? ==> SoundRun(Apply(s, ops[0]).value, ops[1..]))
  }

  /** Nothing is lost anywhere in a run exactly if every operation in it is careful. */
  lemma {:induction false} CarefulRunExact(s: State, ops: seq<Op>)
    requires Inv(s) && LegalRun(s, ops)
    ensures SoundRun(s, ops) <==> CarefulRun(s, ops)
    ensures CarefulRun(s, ops) && Run(s, ops).Ok? ==> Inv(Run(s, ops).value)
    decreases |ops|
  {
    if ops != [] && Apply(s, ops[0]).Ok? {
      CarefulExact(s, ops[0]);
      if Careful(s, ops[0]) {
        CarefulRunExact(Apply(s, ops[0]).value, ops[1..]);
      } else {
        assert !SoundRun(Apply(s, ops[0]).value, ops[1..]);
      }
    }
  }

  /** All ids free, any content in memory. */
  ghost function Initial(cfg: Config, memory: map<BlockId, seq<TokenId>>): State {
    State(cfg, IdsFrom(cfg.begin, cfg.num), map id | id in IdsFrom(cfg.begin, cfg.num) :: 0, [], map[], memory)
  }

  lemma InitialInv(cfg: Config, memory: map<BlockId, seq<TokenId>>)
    requires MemoryShape(Initial(cfg, memory), memory)
    ensures Inv(Initial(cfg, memory))
  {
    var s := Initial(cfg, memory);
    forall id | InRange(cfg, id) ensures id in s.free { assert IdsFrom(cfg.begin, cfg.num)[id - cfg.begin] == id; }
    forall id | id in s.refs ensures Holders(s.blocks, id) == {} {}
  }

  /** Paged memory against separate token lists: after any legal run the objects have the lists they would
      own alone, and after a device pass reading one through its id shows that list exactly if each of its
      tokens was computed or owed; a careful run leaves that so for all of them. */
  lemma PagedMemoryRefines(cfg: Config, memory: map<BlockId, seq<TokenId>>, ops: seq<Op>, order: seq<Obj>)
    requires MemoryShape(Initial(cfg, memory), memory)
    requires LegalRun(Initial(cfg, memory), ops)
    ensures
      match Run(Initial(cfg, memory), ops)
      case Err(e) => e == Exhausted
      case Ok(s) =>
        var plain := PlainRun(map[], ops);
        && s.blocks.Keys == plain.Keys
        && ((forall o :: o in plain ==> o in order) ==>
              var t := DevicePass(s, order);
              forall o :: o in plain ==>
                && o in t.blocks && t.blocks[o].tokens == plain[o] && (Gathers(t, o) <==> InOrder(s, o))
                && (CarefulRun(Initial(cfg, memory), ops) ==> Gathers(t, o)))
  {
    InitialInv(cfg, memory);
    RunCorrect(Initial(cfg, memory), ops);
    CarefulRunExact(Initial(cfg, memory), ops);
    assert Lists(map[]) == map[];
    var r := Run(Initial(cfg, memory), ops);
    if r.Ok? {
      var s := r.value;
      assert Lists(s.blocks) == PlainRun(map[], ops);
      assert s.blocks.Keys == Lists(s.blocks).Keys;
      if forall o :: o in s.blocks ==> o in order { PassCorrect(s, order); }
    }
  }

  // ---------- what carelessness costs ----------

  /** Object 10 got token 7 and was forked to object 20 before the device computed it. */
  function EarlyFork(): seq<Op> {
    [OpAllocate(10, [7]), OpFork(10, 20)]
  }

  /** Two ids of two slots, with something else in memory. */
  ghost function TwoIds(): State {
    Initial(Config(0, 2, 2), map[0 := [5, 5], 1 := [5, 5]])
  }

  lemma RunTwo(s: State, a: Op, t: State, b: Op, u: State)
    requires Legal(s, a) && Apply(s, a) == Ok(t) && Legal(t, b) && Apply(t, b) == Ok(u)
    ensures LegalRun(s, [a, b]) && Run(s, [a, b]) == Ok(u)
  {
    hide Apply; hide Legal;
    assert [a, b][1..] == [b] && [b][1..] == [];
    assert Run(u, []) == Ok(u) && LegalRun(u, []);
    assert Run(t, [b]) == Ok(u) && LegalRun(t, [b]);
  }

  lemma EarlyForkIs()
    ensures LegalRun(TwoIds(), EarlyFork()) && Run(TwoIds(), EarlyFork()).Ok?
    ensures
      var s := Run(TwoIds(), EarlyFork()).value;
      && Inv(s) && s.blocks == map[10 := Block([7], 0, 0), 20 := Block([7], 0, 1)] && s.cfg.blockSize == 2
      && s.free == [1] && 0 in s.refs && s.refs[0] == 2 && AfterCopies(s) == map[0 := [5, 5], 1 := [5, 5]]
  {
    var s := TwoIds();
    InitialInv(s.cfg, s.memory);
    assert s.free == [0, 1];
    AllocateCorrect(s, 10, [7]);
    CarefulExact(s, OpAllocate(10, [7]));
    var t := AllocateMutableBlock(s, 10, [7]).value;
    ForkCorrect(t, 10, 20);
    CarefulExact(t, OpFork(10, 20));
    var u := ForkBlock(t, 10, 20).value;
    assert u.blocks == map[10 := Block([7], 0, 0), 20 := Block([7], 0, 1)];
    RunTwo(s, OpAllocate(10, [7]), t, OpFork(10, 20), u);
  }

  /** Carelessness is possible and costs tokens: when object 20 gets token 8, its copy misses token 7; when
      object 10, which owes that token, gets one itself or is freed, object 20 never sees it. */
  lemma CarelessnessLosesTokens(order: seq<Obj>)
    requires 10 in order && 20 in order
    ensures LegalRun(TwoIds(), EarlyFork()) && Run(TwoIds(), EarlyFork()).Ok?
    ensures
      var s := Run(TwoIds(), EarlyFork()).value;
      && Inv(s)
      && (forall op :: op in [OpAppend(20, [8]), OpAppend(10, [8]), OpFree(10)] ==>
            && Legal(s, op) && !Careful(s, op) && Apply(s, op).Ok?
            && 20 in Apply(s, op).value.blocks && 20 in DevicePass(Apply(s, op).value, order).blocks
            && !Gathers(DevicePass(Apply(s, op).value, order), 20))
  {
    EarlyForkIs();
    var s := Run(TwoIds(), EarlyFork()).value;
    assert !Written(AfterCopies(s), s.blocks[20], 0) && !Written(AfterCopies(s), s.blocks[10], 0);
    assert !CopyReady(s, 20);
    assert !OwedByOther(s, 10, 0);
    assert !Dispensable(s, 10);
    forall op | op in [OpAppend(20, [8]), OpAppend(10, [8]), OpFree(10)]
      ensures
        && Legal(s, op) && !Careful(s, op) && Apply(s, op).Ok?
        && 20 in Apply(s, op).value.blocks && 20 in DevicePass(Apply(s, op).value, order).blocks
        && !Gathers(DevicePass(Apply(s, op).value, order), 20)
    {
      LostBy(s, op, order);
    }
  }

  lemma LostBy(s: State, op: Op, order: seq<Obj>)
    requires Inv(s) && s.blocks == map[10 := Block([7], 0, 0), 20 := Block([7], 0, 1)] && s.cfg.blockSize == 2
    requires s.free == [1] && 0 in s.refs && s.refs[0] == 2 && 10 in order && 20 in order
    requires !CopyReady(s, 20) && !Dispensable(s, 10)
    requires op in [OpAppend(20, [8]), OpAppend(10, [8]), OpFree(10)]
    ensures Legal(s, op) && !Careful(s, op) && Apply(s, op).Ok?
    ensures 20 in Apply(s, op).value.blocks && 20 in DevicePass(Apply(s, op).value, order).blocks
    ensures !Gathers(DevicePass(Apply(s, op).value, order), 20)
  {
    hide CopyReady, Dispensable, InOrder, Gathers, Undisturbed, AppendTokenIds, Free, DevicePass;
    assert 20 in s.blocks && s.blocks[20].id == s.blocks[10].id == 0;
    if op == OpFree(10) { FreeCorrect(s, 10); }
    if op == OpAppend(20, [8]) { AppendCorrect(s, 20, [8]); }
    if op == OpAppend(10, [8]) { AppendCorrect(s, 10, [8]); }
    var t := Apply(s, op).value;
    assert t.blocks.Keys <= {10, 20};
    PassCorrect(t, order);
  }
}
