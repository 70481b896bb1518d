/** The dummy-batch quota protocol: N ranks whose scheduler and sync threads meet only in all-gathers. */
module DummyQuota {
  import opened Basics

  const MAX_ALLOWED_DUMMY_QUEUE_PENDINGS: nat := 1000

  /** What one rank puts into an all-gather; `sync` tells the quota kind from the wakeup kind. */
  datatype Contribution = Contribution(dummy: bool, quota: int, sync: bool, size: nat)

  /** AcquireQuota: between calls, waiting as a real request, past its check, or between push and subtraction. */
  datatype SchedulerPc = Idle | Waiting | Checked(isDummy: bool) | Pushed

  /** The sync thread: before the guard, in the quota branch (pulling, pulled), in the wakeup branch
      (about to read the flag, flag read), inside the all-gather, after it, or stopped. */
  datatype SyncPc =
    | AtGuard | Pulling | Pulled(dummy: bool) | Waking | WakeRead(dummy: bool)
    | Sent(c: Contribution) | Filling(v: seq<Contribution>) | Stopped

  /** `acquired` records every batch pushed so far, in order. */
  datatype Rank = Rank(
    quota: int, queue: seq<bool>, wake: bool, scheduler: SchedulerPc, sync: SyncPc, acquired: seq<bool>)

  /** `rounds` are the completed all-gathers. */
  datatype State = State(init: nat, ranks: seq<Rank>, rounds: seq<seq<Contribution>>)

  datatype Action =
    | CheckDummy(r: nat) | Ask(r: nat) | Wakeup(r: nat) | Proceed(r: nat) | Push(r: nat) | Subtract(r: nat)
    | Guard(r: nat) | Pull(r: nat) | ReadWake(r: nat) | Send(r: nat) | Complete | Fill(r: nat)

  // ---------- the scan of a gathered vector ----------

  datatype Scan = Scan(downgrade: bool, allDummy: bool, maxQuota: int)

  /** The scan after the first `i` entries, as long as none of them made it stop. */
  function ScanPrefix(v: seq<Contribution>, i: nat): Scan
    requires i <= |v|
  {
    if i == 0 then Scan(false, true, 0)
    else
      var p := ScanPrefix(v, i - 1);
      if p.downgrade then p
      else
        Scan((i > 1 && v[i - 2].sync != v[i - 1].sync) || MaxSize(v[..i]) > MAX_ALLOWED_DUMMY_QUEUE_PENDINGS,
             p.allDummy && v[i - 1].dummy, Max(p.maxQuota, v[i - 1].quota))
  }

  function MaxSize(v: seq<Contribution>): nat {
    if v == [] then 0 else Max(MaxSize(v[..|v| - 1]), v[|v| - 1].size)
  }

  function ScanOf(v: seq<Contribution>): Scan {
    ScanPrefix(v, |v|)
  }

  /** The loop of AllGather_ over the gathered tensors. */
  method ScanGathered(v: seq<Contribution>) returns (s: Scan)
    ensures s == ScanOf(v)
  {
    var maxSize, allDummy, maxQuota := 0, true, 0;
    for i := 0 to |v|
      invariant ScanPrefix(v, i) == Scan(false, allDummy, maxQuota) && maxSize == MaxSize(v[..i])
    {
      assert v[..i + 1][..i] == v[..i];
      allDummy := allDummy && v[i].dummy;
      maxSize := Max(maxSize, v[i].size);
      maxQuota := Max(maxQuota, v[i].quota);
      if (i > 0 && v[i - 1].sync != v[i].sync) || maxSize > MAX_ALLOWED_DUMMY_QUEUE_PENDINGS {
        ScanStops(v, i + 1, |v|);
        return Scan(true, allDummy, maxQuota);
      }
    }
    assert v[..|v|] == v;
    return Scan(false, allDummy, maxQuota);
  }

  lemma {:induction false} ScanStops(v: seq<Contribution>, i: nat, j: nat)
    requires i <= j <= |v| && ScanPrefix(v, i).downgrade
    ensures ScanPrefix(v, j) == ScanPrefix(v, i)
  {
    if i < j { ScanStops(v, i, j - 1); }
  }

  ghost predicate MixedKinds(v: seq<Contribution>) {
    exists j, k :: 0 <= j < k < |v| && k == j + 1 && v[j].sync != v[k].sync
  }

  ghost predicate Overlong(v: seq<Contribution>) {
    exists j :: 0 <= j < |v| && v[j].size > MAX_ALLOWED_DUMMY_QUEUE_PENDINGS
  }

  lemma MixedNext(v: seq<Contribution>, i: nat)
    requires 0 < i <= |v|
    ensures MixedKinds(v[..i]) <==> MixedKinds(v[..i - 1]) || (i > 1 && v[i - 2].sync != v[i - 1].sync)
  {
    var u, w := v[..i - 1], v[..i];
    if MixedKinds(u) {
      var j, k :| 0 <= j < k < |u| && k == j + 1 && u[j].sync != u[k].sync;
      assert w[j].sync != w[k].sync;
    } else if i > 1 && v[i - 2].sync != v[i - 1].sync {
      assert w[i - 2].sync != w[i - 1].sync;
    } else {
      forall j, k | 0 <= j < k < |w| && k == j + 1 ensures w[j].sync == w[k].sync {
        if k < i - 1 { assert u[j].sync == u[k].sync; }
      }
    }
  }

  lemma OverlongIs(v: seq<Contribution>)
    ensures Overlong(v) <==> MaxSize(v) > MAX_ALLOWED_DUMMY_QUEUE_PENDINGS
  {
    MaxSizeMeaning(v);
  }

  lemma MaxSizeNext(v: seq<Contribution>, i: nat)
    requires 0 < i <= |v|
    ensures MaxSize(v[..i]) >= MaxSize(v[..i - 1])
  {
    assert v[..i][..i - 1] == v[..i - 1];
  }

  /** The scan downgrades exactly on mixed kinds or an overlong queue; otherwise it yields the
      conjunction of the flags and the maximum of the quotas. */
  lemma {:induction false} ScanMeaning(v: seq<Contribution>, i: nat)
    requires i <= |v|
    ensures
      var s := ScanPrefix(v, i);
      && (s.downgrade <==> MixedKinds(v[..i]) || Overlong(v[..i]))
      && (!s.downgrade ==>
            && (s.allDummy <==> forall j :: 0 <= j < i ==> v[j].dummy)
            && s.maxQuota >= 0 && (forall j :: 0 <= j < i ==> v[j].quota <= s.maxQuota)
            && (s.maxQuota == 0 || exists j :: 0 <= j < i && v[j].quota == s.maxQuota))
  {
    OverlongIs(v[..i]);
    if i > 0 {
      hide MixedKinds, Overlong, MaxSize;
      ScanMeaning(v, i - 1);
      OverlongIs(v[..i - 1]);
      MixedNext(v, i);
      MaxSizeNext(v, i);
    }
  }

  lemma {:induction false} MaxSizeMeaning(v: seq<Contribution>)
    ensures forall j :: 0 <= j < |v| ==> v[j].size <= MaxSize(v)
    ensures v != [] ==> exists j :: 0 <= j < |v| && v[j].size == MaxSize(v)
  {
    if v != [] {
      var front := v[..|v| - 1];
      MaxSizeMeaning(front);
      if v[|v| - 1].size < MaxSize(front) {
        var j :| 0 <= j < |front| && front[j].size == MaxSize(front);
        assert v[j].size == MaxSize(v);
      } else {
        assert v[|v| - 1].size == MaxSize(v);
      }
    }
  }

  /** What every rank adds to its quota after a gather that did not downgrade. */
  function Refill(init: nat, v: seq<Contribution>): nat {
    if ScanOf(v).allDummy then 0 else Max(0, init - ScanOf(v).maxQuota)
  }

  // ---------- the steps ----------

  ghost predicate Enabled(s: State, a: Action) {
    match a
    case CheckDummy(r) => r < |s.ranks| && s.ranks[r].scheduler.Idle? && s.ranks[r].quota != 0
      && !s.ranks[r].sync.Stopped?
    case Ask(r) => r < |s.ranks| && s.ranks[r].scheduler.Idle? && !s.ranks[r].sync.Stopped?
    case Wakeup(r) => r < |s.ranks|
      && (s.ranks[r].scheduler.Idle? || (s.ranks[r].scheduler.Waiting? && s.ranks[r].quota == 0))
    case Proceed(r) => r < |s.ranks| && s.ranks[r].scheduler.Waiting?
      && (s.ranks[r].quota != 0 || s.ranks[r].sync.Stopped?)
    case Push(r) => r < |s.ranks| && s.ranks[r].scheduler.Checked?
    case Subtract(r) => r < |s.ranks| && s.ranks[r].scheduler.Pushed?
    case Guard(r) => r < |s.ranks| && s.ranks[r].sync.AtGuard?
    case Pull(r) => r < |s.ranks| && s.ranks[r].sync.Pulling? && s.ranks[r].queue != []
    case ReadWake(r) => r < |s.ranks| && s.ranks[r].sync.Waking?
    case Send(r) => r < |s.ranks| && (s.ranks[r].sync.Pulled? || s.ranks[r].sync.WakeRead?)
    case Complete => forall i :: 0 <= i < |s.ranks| ==> s.ranks[i].sync.Sent?
    case Fill(r) => r < |s.ranks| && s.ranks[r].sync.Filling?
  }

  function GuardOutcome(k: Rank): bool {
    (k.quota == 0 && |k.queue| != 0) || k.quota != 0
  }

  /** The step of one rank on its own state. */
  ghost function RankStep(init: nat, k: Rank, a: Action): Rank {
    match a
    case CheckDummy(_) => k.(scheduler := Checked(true))
    case Ask(_) => k.(scheduler := Waiting)
    case Wakeup(_) => k.(wake := true)
    case Proceed(_) => k.(scheduler := Checked(false))
    case Push(_) =>
      if k.scheduler.Checked? then
        k.(queue := k.queue + [k.scheduler.isDummy], acquired := k.acquired + [k.scheduler.isDummy],
          scheduler := Pushed)
      else k
    case Subtract(_) => k.(quota := k.quota - 1, scheduler := Idle)
    case Guard(_) => k.(sync := if GuardOutcome(k) then Pulling else Waking)
    case Pull(_) => if k.queue == [] then k else k.(sync := Pulled(k.queue[0]), queue := k.queue[1..])
    case ReadWake(_) => k.(sync := WakeRead(!k.wake), wake := false)
    case Send(_) =>
      if k.sync.Pulled? then k.(sync := Sent(Contribution(k.sync.dummy, k.quota, true, |k.queue|)))
      else if k.sync.WakeRead? then k.(sync := Sent(Contribution(k.sync.dummy, k.quota, false, |k.queue|)))
      else k
    case Complete => k
    case Fill(_) =>
      if k.sync.Filling? then
        var start := if ScanOf(k.sync.v).downgrade then init else k.quota;
        k.(quota := start + Refill(init, k.sync.v), sync := if ScanOf(k.sync.v).downgrade then Stopped else AtGuard)
      else k
  }

  /** What the blocking all-gather hands to every rank. */
  function Gathered(ranks: seq<Rank>): seq<Contribution>
    requires forall i :: 0 <= i < |ranks| ==> ranks[i].sync.Sent?
  {
    seq(|ranks|, i requires 0 <= i < |ranks| => ranks[i].sync.c)
  }

  ghost function Step(s: State, a: Action): State
    requires Enabled(s, a)
  {
    if a.Complete? then
      var v := Gathered(s.ranks);
      s.(rounds := s.rounds + [v],
         ranks := seq(|s.ranks|, i requires 0 <= i < |s.ranks| => s.ranks[i].(sync := Filling(v))))
    else s.(ranks := s.ranks[a.r := RankStep(s.init, s.ranks[a.r], a)])
  }

  ghost function Initial(n: nat, init: nat): State {
    State(init, seq(n, _ => Rank(init, [], false, Idle, AtGuard, [])), [])
  }
}
