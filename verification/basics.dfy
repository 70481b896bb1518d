/** Shared vocabulary of the block manager: identifiers, sentinels and results. */
module Basics {
  type TokenId = int
  type BlockId = int
  type HashValue = int
  type TimeStamp = int
  type Obj = int  // the address of a block object

  const PLACEHOLDER_TOKEN: TokenId := -1
  const INVALID_BLOCKID: BlockId := -1
  const INVALID_HASH_VALUE: HashValue := 0
  const DEFAULT_LAST_ACCESSED_TIME: TimeStamp := -1

  datatype Option<+T> = None | Some(value: T)

  /** What stands for a thrown exception: the device has no id left, the caller broke
      the interface, or the allocator's own bookkeeping contradicts itself. */
  datatype Error = Exhausted | Misuse | Internal

  datatype Result<+T> = Ok(value: T) | Err(error: Error) {
    predicate IsFailure() {
      Err?
    }

    function PropagateFailure<U>(): Result<U>
      requires Err?
    {
      Err(error)
    }

    function Extract(): T
      requires Ok?
    {
      value
    }
  }

  ghost function AnyOf<T>(s: set<T>): (x: T)
    requires s != {}
    ensures x in s
  {
    var x :| x in s; x
  }

  /** An address outside `used`. */
  ghost function FreshAddress(used: set<Obj>): (a: Obj)
    ensures a !in used
  {
    UpperBound(used) + 1
  }

  ghost function UpperBound(used: set<Obj>): (bound: Obj)
    ensures forall a :: a in used ==> a <= bound
  {
    if used == {} then 0
    else
      var a := AnyOf(used);
      var rest := UpperBound(used - {a});
      assert forall x :: x in used ==> x == a || x in used - {a};
      Max(a, rest)
  }

  ghost function FreshAddresses(used: set<Obj>, n: nat): (r: seq<Obj>)
    ensures |r| == n && forall k :: 0 <= k < n ==> r[k] !in used
    ensures forall j, k :: 0 <= j < k < n ==> r[j] != r[k]
  {
    seq(n, k => UpperBound(used) + 1 + k)
  }

  function Elements(q: seq<int>): set<int> {
    set x | x in q
  }

  /** `num` ids from `begin` on. */
  function IdsFrom(begin: BlockId, num: nat): seq<BlockId> {
    seq(num, i => begin + i)
  }

  ghost predicate NoDup(q: seq<int>) {
    forall i, j :: 0 <= i < j < |q| ==> q[i] != q[j]
  }

  lemma PutBack<V>(m: map<Obj, V>, o: Obj, v: V)
    ensures (m - {o})[o := v] == m[o := v]
    ensures m[o := v] - {o} == m - {o}
  {
  }

  function CeilDiv(n: nat, d: nat): nat
    requires d > 0
  {
    (n + d - 1) / d
  }

  function Min(a: int, b: int): int {
    if a < b then a else b
  }

  function Max(a: int, b: int): int {
    if a < b then b else a
  }

  datatype DeviceType = NPU | CPU

  function DeviceOf(id: BlockId, beginCpuBlockId: BlockId): DeviceType {
    if id < beginCpuBlockId then NPU else CPU
  }

  /** The `num` ids from `begin` on all belong to the device. */
  predicate IdsBelong(begin: BlockId, num: nat, device: DeviceType, beginCpuBlockId: BlockId) {
    if device == NPU then begin + num <= beginCpuBlockId else beginCpuBlockId <= begin
  }

  /** Another device's memory once each pair's source has been copied to its target, first to last. */
  function Carried<V>(from: map<BlockId, V>, to: map<BlockId, V>, pairs: seq<(BlockId, BlockId)>): map<BlockId, V> {
    if pairs == [] then to
    else
      var n := |pairs| - 1;
      var m := Carried(from, to, pairs[..n]);
      if pairs[n].0 in from then m[pairs[n].1 := from[pairs[n].0]] else m
  }

  lemma {:induction false} CarriedAt<V>(from: map<BlockId, V>, to: map<BlockId, V>, pairs: seq<(BlockId, BlockId)>,
                                        k: nat)
    requires k < |pairs| && pairs[k].0 in from
    requires forall i, j :: 0 <= i < j < |pairs| ==> pairs[i].1 != pairs[j].1
    ensures pairs[k].1 in Carried(from, to, pairs) && Carried(from, to, pairs)[pairs[k].1] == from[pairs[k].0]
    decreases |pairs|
  {
    var n := |pairs| - 1;
    if k < n { CarriedAt(from, to, pairs[..n], k); }
  }

  lemma {:induction false} CarriedElsewhere<V>(from: map<BlockId, V>, to: map<BlockId, V>,
                                               pairs: seq<(BlockId, BlockId)>, id: BlockId)
    requires forall k :: 0 <= k < |pairs| ==> pairs[k].1 != id
    ensures id in Carried(from, to, pairs) <==> id in to
    ensures id in to ==> Carried(from, to, pairs)[id] == to[id]
    decreases |pairs|
  {
    if pairs != [] { CarriedElsewhere(from, to, pairs[..|pairs| - 1], id); }
  }
}
