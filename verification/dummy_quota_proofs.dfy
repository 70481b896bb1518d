/** Agreement, bounds and progress of the dummy-batch quota protocol, over all its runs. */
module DummyQuotaProofs {
  import opened Basics
  import opened DummyQuota

  // ---------- the common level ----------

  predicate SyncRound(v: seq<Contribution>) {
    v != [] && v[0].sync
  }

  /** Unmatched dummies after the completed rounds: what every rank's quota and queue add up to. */
  ghost function Level(init: nat, rounds: seq<seq<Contribution>>): int
    decreases |rounds|
  {
    if rounds == [] then init
    else
      var v := rounds[|rounds| - 1];
      Level(init, rounds[..|rounds| - 1]) - (if SyncRound(v) then 1 else 0) + Refill(init, v)
  }

  /** A rank's quota plus its queue, not counting a batch pushed but not yet subtracted. */
  function Account(k: Rank): int {
    k.quota + |k.queue| - (if k.scheduler.Pushed? then 1 else 0)
  }

  /** The dangerous window: a batch was pushed and already pulled, but not yet subtracted from the last quota. */
  predicate Stale(k: Rank) {
    k.scheduler.Pushed? && k.quota == 1 && k.queue == []
  }

  // ---------- the invariant ----------

  predicate Still(k: Rank) {
    k.quota == 0 && k.queue == [] && !k.scheduler.Checked? && !k.scheduler.Pushed?
  }

  predicate GoodContribution(init: nat, c: Contribution, sync: bool) {
    c.sync == sync && 0 <= c.quota <= init && (!sync ==> c.quota == 0 && c.size == 0)
  }

  ghost predicate RoundOk(init: nat, n: nat, rounds: seq<seq<Contribution>>, k: nat)
    requires k < |rounds|
  {
    && |rounds[k]| == n
    && forall i :: 0 <= i < n ==> GoodContribution(init, rounds[k][i], Level(init, rounds[..k]) > 0)
  }

  ghost predicate Ended(rounds: seq<seq<Contribution>>) {
    rounds != [] && ScanOf(rounds[|rounds| - 1]).downgrade
  }

  ghost predicate RankOk(init: nat, i: nat, k: Rank, rounds: seq<seq<Contribution>>) {
    var level := Level(init, rounds);
    && (!k.sync.Stopped? ==> 0 <= k.quota <= init && (k.scheduler.Checked? || k.scheduler.Pushed? ==> k.quota >= 1))
    && (if k.sync.Stopped? || k.sync.Filling? then rounds != [] else !Ended(rounds))
    && match k.sync
       case AtGuard => Account(k) == level
       case Pulling => Account(k) == level > 0
       case Pulled(_) => Account(k) == level - 1 && level > 0
       case Waking => level == 0 && Still(k)
       case WakeRead(_) => level == 0 && Still(k)
       case Sent(c) =>
         && GoodContribution(init, c, level > 0)
         && (if c.sync then Account(k) == level - 1 && k.quota <= c.quota else level == 0 && Still(k))
       case Filling(v) =>
         var front := Level(init, rounds[..|rounds| - 1]);
         && v == rounds[|rounds| - 1] && i < |v|
         && (if front > 0 then Account(k) == front - 1 && k.quota <= v[i].quota else front == 0 && Still(k))
       case Stopped => Ended(rounds)
  }

  ghost predicate Inv(s: State) {
    && s.ranks != []
    && (forall k :: 0 <= k < |s.rounds| ==> RoundOk(s.init, |s.ranks|, s.rounds, k))
    && (forall i :: 0 <= i < |s.ranks| ==> RankOk(s.init, i, s.ranks[i], s.rounds))
  }

  // ---------- every step keeps it ----------

  /** No guard is evaluated inside the dangerous window. */
  ghost predicate Timely(s: State, a: Action) {
    a.Guard? && a.r < |s.ranks| ==> !Stale(s.ranks[a.r])
  }

  lemma InitialOk(n: nat, init: nat)
    requires n > 0
    ensures Inv(Initial(n, init))
  {
  }

  lemma LocalStepOk(init: nat, i: nat, k: Rank, rounds: seq<seq<Contribution>>, s: State, a: Action)
    requires RankOk(init, i, k, rounds)
    requires Enabled(s, a) && !a.Complete? && !a.Fill? && a.r == i && s.init == init && s.ranks[i] == k && Timely(s, a)
    ensures RankOk(init, i, RankStep(init, k, a), rounds)
  {
  }

  lemma FillOk(init: nat, i: nat, k: Rank, rounds: seq<seq<Contribution>>, a: Action)
    requires RankOk(init, i, k, rounds) && k.sync.Filling? && a.Fill?
    requires RoundOk(init, |k.sync.v|, rounds, |rounds| - 1)
    ensures RankOk(init, i, RankStep(init, k, a), rounds)
  {
    var v := k.sync.v;
    ScanMeaning(v, |v|);
    assert v[..|v|] == v;
    assert GoodContribution(init, v[i], Level(init, rounds[..|rounds| - 1]) > 0);
    assert GoodContribution(init, v[0], Level(init, rounds[..|rounds| - 1]) > 0);
  }

  lemma CompleteOk(s: State)
    requires Inv(s) && Enabled(s, Complete)
    ensures Inv(Step(s, Complete))
  {
    var t := Step(s, Complete);
    var v := Gathered(s.ranks);
    assert t.rounds[..|s.rounds|] == s.rounds;
    forall k | 0 <= k < |t.rounds| ensures RoundOk(s.init, |t.ranks|, t.rounds, k) {
      if k < |s.rounds| {
        assert RoundOk(s.init, |s.ranks|, s.rounds, k);
        assert t.rounds[..k] == s.rounds[..k];
      } else {
        forall i | 0 <= i < |s.ranks| ensures GoodContribution(s.init, v[i], Level(s.init, s.rounds) > 0) {
          assert RankOk(s.init, i, s.ranks[i], s.rounds);
        }
      }
    }
    forall i | 0 <= i < |t.ranks| ensures RankOk(s.init, i, t.ranks[i], t.rounds) {
      assert RankOk(s.init, i, s.ranks[i], s.rounds);
    }
  }

  lemma StepOk(s: State, a: Action)
    requires Inv(s) && Enabled(s, a) && Timely(s, a)
    ensures Inv(Step(s, a))
  {
    if a.Complete? {
      CompleteOk(s);
    } else if a.Fill? {
      assert RankOk(s.init, a.r, s.ranks[a.r], s.rounds);
      assert RoundOk(s.init, |s.ranks|, s.rounds, |s.rounds| - 1);
      FillOk(s.init, a.r, s.ranks[a.r], s.rounds, a);
    } else {
      LocalStepOk(s.init, a.r, s.ranks[a.r], s.rounds, s, a);
    }
  }

  // ---------- runs ----------

  /** `actions` lead from `s` to `t`; if `timely`, no guard falls into the dangerous window. */
  ghost predicate Runs(s: State, actions: seq<Action>, t: State, timely: bool)
    decreases |actions|
  {
    if actions == [] then s == t
    else
      && Enabled(s, actions[0]) && (timely ==> Timely(s, actions[0]))
      && Runs(Step(s, actions[0]), actions[1..], t, timely)
  }

  lemma {:induction false} RunOk(s: State, actions: seq<Action>, t: State)
    requires Inv(s) && Runs(s, actions, t, true)
    ensures Inv(t) && t.init == s.init && |t.ranks| == |s.ranks|
    decreases |actions|
  {
    if actions != [] {
      StepOk(s, actions[0]);
      RunOk(Step(s, actions[0]), actions[1..], t);
    }
  }

  /** The kind of all-gather a rank has decided on since its guard. */
  function Decided(k: Rank): Option<bool> {
    match k.sync
    case Pulling => Some(true)
    case Pulled(_) => Some(true)
    case Waking => Some(false)
    case WakeRead(_) => Some(false)
    case Sent(c) => Some(c.sync)
    case _ => None
  }

  /** All-gather agreement: in every state of every timely run all ranks that decided chose the same kind
      of all-gather, no completed round mixes kinds, the ranks at their guards all have the same sum of quota and
      queue, less a batch pushed but not yet subtracted, and will follow it, and quotas stay within bounds. */
  lemma RanksAgree(n: nat, init: nat, actions: seq<Action>, t: State)
    requires n > 0 && Runs(Initial(n, init), actions, t, true)
    ensures |t.ranks| == n
    ensures forall i, j | 0 <= i < n && 0 <= j < n && Decided(t.ranks[i]).Some? && Decided(t.ranks[j]).Some? ::
      Decided(t.ranks[i]) == Decided(t.ranks[j])
    ensures forall i, j | 0 <= i < n && 0 <= j < n && t.ranks[i].sync.AtGuard? && t.ranks[j].sync.AtGuard? ::
      Account(t.ranks[i]) == Account(t.ranks[j])
    ensures forall k :: 0 <= k < |t.rounds| ==> !MixedKinds(t.rounds[k])
    ensures forall i | 0 <= i < n && t.ranks[i].sync.AtGuard? && !Stale(t.ranks[i]) ::
      GuardOutcome(t.ranks[i]) == (Level(init, t.rounds) > 0)
    ensures forall i | 0 <= i < n && !t.ranks[i].sync.Stopped? :: 0 <= t.ranks[i].quota <= init
  {
    InitialOk(n, init);
    RunOk(Initial(n, init), actions, t);
    forall i | 0 <= i < n ensures RankOk(init, i, t.ranks[i], t.rounds) {}
    forall k | 0 <= k < |t.rounds| ensures !MixedKinds(t.rounds[k]) {
      assert RoundOk(init, n, t.rounds, k);
    }
  }

  /** The downgrade is unanimous: once a rank has stopped, every rank has stopped or is about to, and the
      only reason is an overlong queue. */
  lemma DowngradeUnanimous(n: nat, init: nat, actions: seq<Action>, t: State, i: nat, j: nat)
    requires n > 0 && Runs(Initial(n, init), actions, t, true)
    requires i < |t.ranks| && j < |t.ranks| && t.ranks[i].sync.Stopped?
    ensures t.rounds != [] && Overlong(t.rounds[|t.rounds| - 1])
    ensures t.ranks[j].sync.Stopped?
      || (t.ranks[j].sync == Filling(t.rounds[|t.rounds| - 1]) && RankStep(init, t.ranks[j], Fill(j)).sync.Stopped?)
  {
    InitialOk(n, init);
    RunOk(Initial(n, init), actions, t);
    assert RankOk(init, i, t.ranks[i], t.rounds) && RankOk(init, j, t.ranks[j], t.rounds);
    var v := t.rounds[|t.rounds| - 1];
    RanksAgree(n, init, actions, t);
    ScanMeaning(v, |v|);
    assert v[..|v|] == v;
  }

  /** The guard follows the common level exactly outside the dangerous window. */
  lemma GuardExact(s: State, r: nat)
    requires Inv(s) && r < |s.ranks| && s.ranks[r].sync.AtGuard?
    ensures GuardOutcome(s.ranks[r]) == (Level(s.init, s.rounds) > 0) <==> !Stale(s.ranks[r])
  {
    assert RankOk(s.init, r, s.ranks[r], s.rounds);
  }

  /** The guard as written reads three times: the quota, the queue if that was 0, and the quota again. */
  predicate TornGuard(first: Rank, second: Rank, third: Rank) {
    (first.quota == 0 && |second.queue| != 0) || third.quota != 0
  }

  /** Meanwhile rank `r` stays before its guard; its scheduler and all other threads go on. */
  ghost predicate RunsBeforeGuard(s: State, actions: seq<Action>, t: State, r: nat) {
    Runs(s, actions, t, true) && Guard(r) !in actions
  }

  lemma {:induction false} BeforeGuard(s: State, actions: seq<Action>, t: State, r: nat)
    requires Inv(s) && r < |s.ranks| && s.ranks[r].sync.AtGuard? && RunsBeforeGuard(s, actions, t, r)
    ensures Inv(t) && t.init == s.init && t.rounds == s.rounds && |t.ranks| == |s.ranks|
    ensures t.ranks[r].sync.AtGuard? && t.ranks[r].quota <= s.ranks[r].quota
    decreases |actions|
  {
    if actions != [] {
      assert actions[0] in actions;
      StepOk(s, actions[0]);
      BeforeGuard(Step(s, actions[0]), actions[1..], t, r);
    }
  }

  /** With any steps of a timely run between the reads, the guard tells whether unmatched batches remain exactly
      if the last read is outside the window and the last quota was not subtracted since the first. */
  lemma TornGuardExact(s: State, first: seq<Action>, m: State, second: seq<Action>, t: State, r: nat)
    requires Inv(s) && r < |s.ranks| && s.ranks[r].sync.AtGuard?
    requires RunsBeforeGuard(s, first, m, r) && RunsBeforeGuard(m, second, t, r)
    ensures r < |m.ranks| && r < |t.ranks|
    ensures TornGuard(s.ranks[r], m.ranks[r], t.ranks[r]) == (Level(t.init, t.rounds) > 0) <==>
      !Stale(t.ranks[r]) && !(s.ranks[r].quota != 0 && t.ranks[r].quota == 0 && t.ranks[r].queue != [])
  {
    BeforeGuard(s, first, m, r);
    BeforeGuard(m, second, t, r);
    assert RankOk(s.init, r, s.ranks[r], s.rounds) && RankOk(m.init, r, m.ranks[r], m.rounds);
    assert RankOk(t.init, r, t.ranks[r], t.rounds);
  }

  // ---------- what a round gives back ----------

  /** Some rank has a real batch. */
  ghost predicate RealAmong(v: seq<Contribution>) {
    exists j :: 0 <= j < |v| && !v[j].dummy
  }

  /** The largest quota contributed. */
  ghost predicate Largest(v: seq<Contribution>, m: int) {
    (forall j :: 0 <= j < |v| ==> v[j].quota <= m) && (exists j :: 0 <= j < |v| && v[j].quota == m)
  }

  /** The facts about a round that a rank of a timely run is about to act on. */
  lemma FillingFacts(s: State, r: nat)
    requires Inv(s) && r < |s.ranks| && s.ranks[r].sync.Filling?
    ensures
      var v := s.ranks[r].sync.v;
      && s.rounds != [] && v == s.rounds[|s.rounds| - 1] && r < |v| == |s.ranks| && !MixedKinds(v)
      && (forall j :: 0 <= j < |v| ==> 0 <= v[j].quota <= s.init)
      && (!v[0].sync ==> !Overlong(v) && Largest(v, 0) && s.ranks[r].quota == 0)
  {
    var v := s.ranks[r].sync.v;
    assert RankOk(s.init, r, s.ranks[r], s.rounds);
    assert RoundOk(s.init, |s.ranks|, s.rounds, |s.rounds| - 1);
    var sync := Level(s.init, s.rounds[..|s.rounds| - 1]) > 0;
    forall j | 0 <= j < |v| ensures GoodContribution(s.init, v[j], sync) {}
    assert GoodContribution(s.init, v[0], sync);
  }

  /** After a round that did not downgrade every rank gains the same: what the largest quota lacks of the full one,
      if there was a real batch, and nothing otherwise. */
  lemma GainsEqual(s: State, r: nat, m: int)
    requires Inv(s) && r < |s.ranks| && s.ranks[r].sync.Filling?
    requires !Overlong(s.ranks[r].sync.v) && Largest(s.ranks[r].sync.v, m)
    ensures Step(s, Fill(r)).ranks[r].quota
         == s.ranks[r].quota + (if RealAmong(s.ranks[r].sync.v) then s.init - m else 0)
  {
    hide Inv, MixedKinds, Overlong;
    var v := s.ranks[r].sync.v;
    FillingFacts(s, r);
    ScanMeaning(v, |v|);
    assert v[..|v|] == v;
  }

  /** In every timely run, a rank that contributed the largest quota to a round with a real batch, and has not
      subtracted since, holds the full quota after its Fill. */
  lemma QuotaRestored(n: nat, init: nat, actions: seq<Action>, s: State, r: nat)
    requires n > 0 && Runs(Initial(n, init), actions, s, true) && r < |s.ranks| && s.ranks[r].sync.Filling?
    requires
      var v := s.ranks[r].sync.v;
      !Overlong(v) && RealAmong(v) && r < |v| && Largest(v, v[r].quota) && s.ranks[r].quota == v[r].quota
    ensures Step(s, Fill(r)).ranks[r].quota == init
  {
    hide Overlong, RealAmong, Largest, Step, Inv;
    InitialOk(n, init);
    RunOk(Initial(n, init), actions, s);
    GainsEqual(s, r, s.ranks[r].quota);
  }

  /** In every timely run, a wakeup round with a real request gives every rank the full quota. */
  lemma WakeupRestores(n: nat, init: nat, actions: seq<Action>, s: State, r: nat)
    requires n > 0 && Runs(Initial(n, init), actions, s, true) && r < |s.ranks| && s.ranks[r].sync.Filling?
    requires
      var v := s.ranks[r].sync.v;
      v != [] && !v[0].sync && RealAmong(v)
    ensures Step(s, Fill(r)).ranks[r].quota == init
  {
    hide Overlong, RealAmong, Largest, Step, Inv;
    InitialOk(n, init);
    RunOk(Initial(n, init), actions, s);
    FillingFacts(s, r);
    GainsEqual(s, r, 0);
  }

  // ---------- what a rank sends ----------

  /** What rank `i` has sent waits for the round, and is in it, whatever the others do. */
  lemma {:induction false} SentArrives(s: State, actions: seq<Action>, t: State, i: nat, timely: bool)
    requires Runs(s, actions, t, timely) && i < |s.ranks| && s.ranks[i].sync.Sent?
    ensures |t.ranks| == |s.ranks| && s.rounds <= t.rounds
    ensures
      if t.rounds == s.rounds then t.ranks[i].sync == s.ranks[i].sync
      else i < |t.rounds[|s.rounds|]| && t.rounds[|s.rounds|][i] == s.ranks[i].sync.c
    decreases |actions|
  {
    if actions != [] {
      var u := Step(s, actions[0]);
      if actions[0].Complete? {
        RoundsStay(u, actions[1..], t, timely);
        assert u.rounds[|s.rounds|] == Gathered(s.ranks);
      } else {
        SentArrives(u, actions[1..], t, i, timely);
      }
    }
  }

  lemma {:induction false} RoundsStay(s: State, actions: seq<Action>, t: State, timely: bool)
    requires Runs(s, actions, t, timely)
    ensures |t.ranks| == |s.ranks| && s.rounds <= t.rounds
    decreases |actions|
  {
    hide RankStep;
    if actions != [] { RoundsStay(Step(s, actions[0]), actions[1..], t, timely); }
  }

  /** The next round shows every rank as it was when it entered: its quota, its queue, the kind it decided on, and
      whether it brings a request. */
  lemma RoundShowsSender(s: State, i: nat, actions: seq<Action>, t: State, timely: bool)
    requires Enabled(s, Send(i)) && Runs(Step(s, Send(i)), actions, t, timely) && t.rounds != s.rounds
    ensures |t.rounds| > |s.rounds| && i < |t.rounds[|s.rounds|]|
    ensures
      var k, c := s.ranks[i], t.rounds[|s.rounds|][i];
      && c.quota == k.quota && c.size == |k.queue| && (c.sync <==> k.sync.Pulled?) && (c.dummy <==> k.sync.dummy)
  {
    SentArrives(Step(s, Send(i)), actions, t, i, timely);
  }

  /** A rank that enters the all-gather with too long a queue makes every rank stop after that round, and no request
      waits on a rank that has stopped. */
  lemma LongQueueStopsAll(s: State, i: nat, actions: seq<Action>, t: State, r: nat, timely: bool)
    requires Enabled(s, Send(i)) && |s.ranks[i].queue| > MAX_ALLOWED_DUMMY_QUEUE_PENDINGS
    requires Runs(Step(s, Send(i)), actions, t, timely) && |t.rounds| == |s.rounds| + 1
    requires r < |t.ranks| && t.ranks[r].sync == Filling(t.rounds[|s.rounds|])
    ensures
      var u := Step(t, Fill(r));
      && u.ranks[r].sync.Stopped? && u.ranks[r].quota >= t.init
      && (u.ranks[r].scheduler.Waiting? ==> Enabled(u, Proceed(r)))
  {
    RoundShowsSender(s, i, actions, t, timely);
    var v := t.rounds[|s.rounds|];
    assert v[i].size > MAX_ALLOWED_DUMMY_QUEUE_PENDINGS;
    ScanMeaning(v, |v|);
    assert v[..|v|] == v;
  }

  /** How often rank `i` was gathered with a request in a wakeup round. */
  ghost function RealWakeups(rounds: seq<seq<Contribution>>, i: nat): nat
    decreases |rounds|
  {
    if rounds == [] then 0
    else
      var v := rounds[|rounds| - 1];
      RealWakeups(rounds[..|rounds| - 1], i) + (if i < |v| && !v[i].sync && !v[i].dummy then 1 else 0)
  }

  /** Wakeups that rank `i` has yet to bring into a round. */
  function WakeupsInHand(k: Rank): nat {
    (if k.wake then 1 else 0)
    + (if k.sync == WakeRead(false) || (k.sync.Sent? && !k.sync.c.sync && !k.sync.c.dummy) then 1 else 0)
  }

  function CountWakeups(actions: seq<Action>, i: nat): nat {
    if actions == [] then 0 else (if actions[0] == Wakeup(i) then 1 else 0) + CountWakeups(actions[1..], i)
  }

  lemma WakeupStep(s: State, a: Action, i: nat)
    requires Enabled(s, a) && i < |s.ranks|
    ensures
      var t := Step(s, a);
      && |t.ranks| == |s.ranks|
      && RealWakeups(t.rounds, i) + WakeupsInHand(t.ranks[i])
         <= RealWakeups(s.rounds, i) + WakeupsInHand(s.ranks[i]) + (if a == Wakeup(i) then 1 else 0)
  {
    if a.Complete? { assert Step(s, a).rounds[..|s.rounds|] == s.rounds; }
  }

  /** Every wakeup is spent once: a rank is gathered with a request in no more wakeup rounds than it called Wakeup. */
  lemma {:induction false} WakeupsSpentOnce(s: State, actions: seq<Action>, t: State, i: nat, timely: bool)
    requires Runs(s, actions, t, timely) && i < |s.ranks|
    ensures |t.ranks| == |s.ranks|
    ensures RealWakeups(t.rounds, i) + WakeupsInHand(t.ranks[i])
         <= RealWakeups(s.rounds, i) + WakeupsInHand(s.ranks[i]) + CountWakeups(actions, i)
    decreases |actions|
  {
    hide Step, Enabled, RealWakeups, WakeupsInHand;
    if actions != [] {
      WakeupStep(s, actions[0], i);
      WakeupsSpentOnce(Step(s, actions[0]), actions[1..], t, i, timely);
    }
  }

  // ---------- batches are matched one to one ----------

  /** The dummy flags rank `i` has put into completed quota rounds. */
  ghost function Flags(rounds: seq<seq<Contribution>>, i: nat): seq<bool>
    requires forall k :: 0 <= k < |rounds| ==> i < |rounds[k]|
    decreases |rounds|
  {
    if rounds == [] then []
    else
      var c := rounds[|rounds| - 1][i];
      Flags(rounds[..|rounds| - 1], i) + (if c.sync then [c.dummy] else [])
  }

  /** The batch the sync thread has pulled but no completed round contains yet. */
  function InHand(k: Rank): seq<bool> {
    match k.sync
    case Pulled(d) => [d]
    case Sent(c) => if c.sync then [c.dummy] else []
    case _ => []
  }

  /** No batch is lost, repeated or reordered on its way from AcquireQuota to the all-gather. */
  ghost predicate Conserved(s: State) {
    && (forall k :: 0 <= k < |s.rounds| ==> |s.rounds[k]| == |s.ranks|)
    && forall i :: 0 <= i < |s.ranks| ==>
         s.ranks[i].acquired == Flags(s.rounds, i) + InHand(s.ranks[i]) + s.ranks[i].queue
  }

  /** A rank's own step moves batches between its scheduler, queue and hand, without loss. */
  lemma RankConserves(init: nat, k: Rank, a: Action, flags: seq<bool>)
    requires k.acquired == flags + InHand(k) + k.queue
    requires a.Guard? ==> k.sync.AtGuard?
    requires a.Pull? ==> k.sync.Pulling? && k.queue != []
    requires a.ReadWake? ==> k.sync.Waking?
    requires a.Fill? ==> k.sync.Filling?
    ensures var k' := RankStep(init, k, a); k'.acquired == flags + InHand(k') + k'.queue
  {
    hide ScanOf; hide Refill; hide GuardOutcome;
    if a.Pull? { assert [k.queue[0]] + k.queue[1..] == k.queue; }
  }

  lemma StepConserves(s: State, a: Action)
    requires Conserved(s) && Enabled(s, a)
    ensures Conserved(Step(s, a))
  {
    hide RankStep; hide ScanOf;
    var t := Step(s, a);
    if a.Complete? {
      assert t.rounds[..|s.rounds|] == s.rounds;
    } else {
      RankConserves(s.init, s.ranks[a.r], a, Flags(s.rounds, a.r));
    }
    forall i | 0 <= i < |t.ranks|
      ensures t.ranks[i].acquired == Flags(t.rounds, i) + InHand(t.ranks[i]) + t.ranks[i].queue
    {
      assert s.ranks[i].acquired == Flags(s.rounds, i) + InHand(s.ranks[i]) + s.ranks[i].queue;
    }
  }

  lemma {:induction false} RunConserves(s: State, actions: seq<Action>, t: State, timely: bool)
    requires Conserved(s) && Runs(s, actions, t, timely)
    ensures Conserved(t)
    decreases |actions|
  {
    if actions != [] {
      StepConserves(s, actions[0]);
      RunConserves(Step(s, actions[0]), actions[1..], t, timely);
    }
  }

  /** How many of the batches are dummies, or real. */
  function Labelled(flags: seq<bool>, dummy: bool): nat {
    if flags == [] then 0
    else Labelled(flags[..|flags| - 1], dummy) + (if flags[|flags| - 1] == dummy then 1 else 0)
  }

  /** The call of AcquireQuota under way has yet to push its batch. */
  function InCall(k: Rank, dummy: bool): nat {
    if k.scheduler == Checked(dummy) || (!dummy && k.scheduler.Waiting?) then 1 else 0
  }

  function CountCalls(actions: seq<Action>, r: nat, dummy: bool): nat {
    if actions == [] then 0
    else (if actions[0] == (if dummy then CheckDummy(r) else Ask(r)) then 1 else 0) + CountCalls(actions[1..], r, dummy)
  }

  lemma LabelledNext(flags: seq<bool>, b: bool, dummy: bool)
    ensures Labelled(flags + [b], dummy) == Labelled(flags, dummy) + (if b == dummy then 1 else 0)
  {
    assert (flags + [b])[..|flags|] == flags;
  }

  lemma CallStep(s: State, a: Action, r: nat, dummy: bool)
    requires Enabled(s, a) && r < |s.ranks|
    ensures
      var t := Step(s, a);
      && |t.ranks| == |s.ranks|
      && Labelled(t.ranks[r].acquired, dummy) + InCall(t.ranks[r], dummy)
         == Labelled(s.ranks[r].acquired, dummy) + InCall(s.ranks[r], dummy) + CountCalls([a], r, dummy)
  {
    if a.Push? && s.ranks[a.r].scheduler.Checked? {
      LabelledNext(s.ranks[a.r].acquired, s.ranks[a.r].scheduler.isDummy, dummy);
    }
  }

  /** Every call that AcquireQuota grants pushes one batch, of the kind that was asked for, and nothing else does. */
  lemma {:induction false} BatchesAsAsked(s: State, actions: seq<Action>, t: State, r: nat, dummy: bool, timely: bool)
    requires Runs(s, actions, t, timely) && r < |s.ranks|
    ensures |t.ranks| == |s.ranks|
    ensures Labelled(t.ranks[r].acquired, dummy) + InCall(t.ranks[r], dummy)
         == Labelled(s.ranks[r].acquired, dummy) + InCall(s.ranks[r], dummy) + CountCalls(actions, r, dummy)
    decreases |actions|
  {
    hide Step, Enabled, Labelled, InCall;
    if actions != [] {
      CallStep(s, actions[0], r, dummy);
      assert [actions[0]][1..] == [];
      BatchesAsAsked(Step(s, actions[0]), actions[1..], t, r, dummy, timely);
    }
  }

  /** The quota rounds among `rounds`. */
  ghost function QuotaRounds(rounds: seq<seq<Contribution>>): seq<nat>
    decreases |rounds|
  {
    if rounds == [] then []
    else
      var k := |rounds| - 1;
      QuotaRounds(rounds[..k]) + (if SyncRound(rounds[k]) then [k] else [])
  }

  lemma {:induction false} FlagsByRound(rounds: seq<seq<Contribution>>, i: nat, m: nat)
    requires forall k :: 0 <= k < |rounds| ==> i < |rounds[k]| && rounds[k][i].sync == SyncRound(rounds[k])
    requires m < |QuotaRounds(rounds)|
    ensures |Flags(rounds, i)| == |QuotaRounds(rounds)|
    ensures QuotaRounds(rounds)[m] < |rounds| && Flags(rounds, i)[m] == rounds[QuotaRounds(rounds)[m]][i].dummy
    decreases |rounds|
  {
    var front := rounds[..|rounds| - 1];
    if m < |QuotaRounds(front)| {
      FlagsByRound(front, i, m);
    } else {
      FlagsCount(front, i);
    }
    FlagsCount(rounds, i);
  }

  lemma {:induction false} FlagsCount(rounds: seq<seq<Contribution>>, i: nat)
    requires forall k :: 0 <= k < |rounds| ==> i < |rounds[k]| && rounds[k][i].sync == SyncRound(rounds[k])
    ensures |Flags(rounds, i)| == |QuotaRounds(rounds)|
    decreases |rounds|
  {
    if rounds != [] { FlagsCount(rounds[..|rounds| - 1], i); }
  }

  /** The m-th batch any rank acquired is gathered in the m-th quota round, the same for all ranks. */
  lemma BatchesMatched(n: nat, init: nat, actions: seq<Action>, t: State, i: nat, m: nat)
    requires n > 0 && Runs(Initial(n, init), actions, t, true)
    requires i < n && m < |QuotaRounds(t.rounds)|
    ensures i < |t.ranks| && m < |t.ranks[i].acquired|
    ensures var k := QuotaRounds(t.rounds)[m];
      k < |t.rounds| && i < |t.rounds[k]| && t.ranks[i].acquired[m] == t.rounds[k][i].dummy
  {
    InitialOk(n, init);
    RunOk(Initial(n, init), actions, t);
    RunConserves(Initial(n, init), actions, t, true);
    forall k | 0 <= k < |t.rounds| ensures i < |t.rounds[k]| && t.rounds[k][i].sync == SyncRound(t.rounds[k]) {
      assert RoundOk(init, n, t.rounds, k);
    }
    FlagsByRound(t.rounds, i, m);
    assert t.ranks[i].acquired == Flags(t.rounds, i) + InHand(t.ranks[i]) + t.ranks[i].queue;
  }

  // ---------- progress ----------

  /** While the level is positive, a rank waiting in `pull` always gets a batch: its own scheduler can
      finish what it is doing and push one, without any other thread. */
  lemma PullUnblocks(s: State, r: nat) returns (actions: seq<Action>, t: State)
    requires Inv(s) && r < |s.ranks| && s.ranks[r].sync.Pulling?
    ensures Runs(s, actions, t, true) && |actions| <= 3
    ensures r < |t.ranks| && t.ranks[r].sync.Pulling? && t.ranks[r].queue != []
    ensures t == s.(ranks := s.ranks[r := t.ranks[r]])
  {
    assert RankOk(s.init, r, s.ranks[r], s.rounds);
    actions, t := [], s;
    if s.ranks[r].queue == [] {
      if t.ranks[r].scheduler.Pushed? { actions, t := Extend(s, actions, t, Subtract(r), true); }
      if t.ranks[r].scheduler.Idle? { actions, t := Extend(s, actions, t, CheckDummy(r), true); }
      else if t.ranks[r].scheduler.Waiting? { actions, t := Extend(s, actions, t, Proceed(r), true); }
      actions, t := Extend(s, actions, t, Push(r), true);
    }
  }

  lemma {:induction false} RunJoin(s: State, a: seq<Action>, t: State, b: seq<Action>, u: State)
    requires Runs(s, a, t, true) && Runs(t, b, u, true)
    ensures Runs(s, a + b, u, true)
    decreases |a|
  {
    if a == [] {
      assert a + b == b;
    } else {
      assert (a + b)[0] == a[0] && (a + b)[1..] == a[1..] + b;
      RunJoin(Step(s, a[0]), a[1..], t, b, u);
    }
  }

  /** Only rank `r` differs. */
  ghost predicate OnlyRank(s: State, t: State, r: nat) {
    r < |s.ranks| && |t.ranks| == |s.ranks| && t == s.(ranks := s.ranks[r := t.ranks[r]])
  }

  /** Rank `r` gets from anywhere to its guard, outside the dangerous window, or beyond it. */
  lemma ToGuard(s: State, r: nat) returns (actions: seq<Action>, t: State)
    requires Inv(s) && !Ended(s.rounds) && r < |s.ranks|
    ensures Runs(s, actions, t, true) && Inv(t) && OnlyRank(s, t, r)
    ensures !t.ranks[r].sync.Filling? && (t.ranks[r].sync.AtGuard? ==> !Stale(t.ranks[r]))
  {
    assert RankOk(s.init, r, s.ranks[r], s.rounds);
    actions, t := [], s;
    if t.ranks[r].sync.Filling? { actions, t := Extend(s, actions, t, Fill(r), true); }
    if t.ranks[r].scheduler.Pushed? && t.ranks[r].sync.AtGuard? {
      actions, t := Extend(s, actions, t, Subtract(r), true);
    }
    RunOk(s, actions, t);
  }

  /** ... and from there, on its own, into the all-gather. */
  lemma ToSent(s: State, r: nat) returns (actions: seq<Action>, t: State)
    requires Inv(s) && !Ended(s.rounds) && r < |s.ranks|
    ensures Runs(s, actions, t, true) && Inv(t) && OnlyRank(s, t, r) && t.ranks[r].sync.Sent?
  {
    hide RankStep;
    var guard, u := ToGuard(s, r);
    var rest, v := FromGuard(u, r);
    actions, t := guard + rest, v;
    RunJoin(s, guard, u, rest, v);
  }

  lemma FromGuard(s: State, r: nat) returns (actions: seq<Action>, t: State)
    requires Inv(s) && !Ended(s.rounds) && r < |s.ranks|
    requires !s.ranks[r].sync.Filling? && (s.ranks[r].sync.AtGuard? ==> !Stale(s.ranks[r]))
    ensures Runs(s, actions, t, true) && Inv(t) && OnlyRank(s, t, r) && t.ranks[r].sync.Sent?
  {
    hide RankStep;
    var decide, u := ToDecision(s, r);
    var rest, v := FromDecision(u, r);
    actions, t := decide + rest, v;
    RunJoin(s, decide, u, rest, v);
  }

  lemma ToDecision(s: State, r: nat) returns (actions: seq<Action>, t: State)
    requires Inv(s) && !Ended(s.rounds) && r < |s.ranks|
    requires !s.ranks[r].sync.Filling? && (s.ranks[r].sync.AtGuard? ==> !Stale(s.ranks[r]))
    ensures Runs(s, actions, t, true) && Inv(t) && OnlyRank(s, t, r)
    ensures Decided(t.ranks[r]).Some? && (t.ranks[r].sync.Pulling? ==> t.ranks[r].queue != [])
  {
    assert RankOk(s.init, r, s.ranks[r], s.rounds);
    actions, t := [], s;
    if t.ranks[r].sync.AtGuard? { actions, t := Extend(s, actions, t, Guard(r), true); }
    RunOk(s, actions, t);
    if t.ranks[r].sync.Pulling? {
      var more, u := PullUnblocks(t, r);
      RunJoin(s, actions, t, more, u);
      actions, t := actions + more, u;
      RunOk(s, actions, t);
    }
  }

  lemma FromDecision(s: State, r: nat) returns (actions: seq<Action>, t: State)
    requires Inv(s) && r < |s.ranks|
    requires Decided(s.ranks[r]).Some? && (s.ranks[r].sync.Pulling? ==> s.ranks[r].queue != [])
    ensures Runs(s, actions, t, true) && Inv(t) && OnlyRank(s, t, r) && t.ranks[r].sync.Sent?
  {
    actions, t := [], s;
    if t.ranks[r].sync.Pulling? { actions, t := Extend(s, actions, t, Pull(r), true); }
    if t.ranks[r].sync.Waking? { actions, t := Extend(s, actions, t, ReadWake(r), true); }
    if !t.ranks[r].sync.Sent? { actions, t := Extend(s, actions, t, Send(r), true); }
    RunOk(s, actions, t);
  }

  /** The ranks from `r` on get into the all-gather, one after the other. */
  lemma {:induction false} AllToSent(s: State, r: nat) returns (actions: seq<Action>, t: State)
    requires Inv(s) && !Ended(s.rounds) && r <= |s.ranks|
    requires forall i :: 0 <= i < r ==> s.ranks[i].sync.Sent?
    ensures Runs(s, actions, t, true) && Inv(t) && t.rounds == s.rounds && |t.ranks| == |s.ranks|
    ensures forall i :: 0 <= i < |t.ranks| ==> t.ranks[i].sync.Sent?
    decreases |s.ranks| - r
  {
    actions, t := [], s;
    if r < |s.ranks| {
      hide Inv;
      var first, u := ToSent(s, r);
      var rest, v := AllToSent(u, r + 1);
      RunJoin(s, first, u, rest, v);
      actions, t := first + rest, v;
    }
  }

  /** Rounds go on: wherever a timely run has led, unless the ranks are about to stop, some timely continuation
      completes another round. */
  lemma RoundsGoOn(s: State) returns (actions: seq<Action>, t: State)
    requires Inv(s) && !Ended(s.rounds)
    ensures Runs(s, actions, t, true) && |t.rounds| == |s.rounds| + 1
  {
    var gather, u := AllToSent(s, 0);
    actions, t := Extend(s, gather, u, Complete, true);
  }

  lemma Extend(s: State, actions: seq<Action>, t: State, a: Action, timely: bool)
    returns (longer: seq<Action>, u: State)
    requires Runs(s, actions, t, timely) && Enabled(t, a) && (timely ==> Timely(t, a))
    ensures longer == actions + [a] && u == Step(t, a) && Runs(s, longer, u, timely)
  {
    longer, u := actions + [a], Step(t, a);
    RunAppend(s, actions, t, a, timely);
  }

  lemma {:induction false} RunAppend(s: State, actions: seq<Action>, t: State, a: Action, timely: bool)
    requires Runs(s, actions, t, timely) && Enabled(t, a) && (timely ==> Timely(t, a))
    ensures Runs(s, actions + [a], Step(t, a), timely)
    decreases |actions|
  {
    if actions != [] {
      RunAppend(Step(s, actions[0]), actions[1..], t, a, timely);
      assert (actions + [a])[1..] == actions[1..] + [a];
    } else {
      assert Runs(Step(t, a), [], Step(t, a), timely);
      assert ([a])[1..] == [];
    }
  }

  predicate AllDummy(v: seq<Contribution>) {
    !ScanOf(v).downgrade && forall i :: 0 <= i < |v| ==> v[i].dummy
  }

  /** Without real batches the level falls by one per round and stays at zero. */
  lemma {:induction false} DummiesDrain(init: nat, n: nat, rounds: seq<seq<Contribution>>, from: nat)
    requires n > 0 && from <= |rounds|
    requires forall k :: 0 <= k < |rounds| ==> RoundOk(init, n, rounds, k)
    requires forall k :: from <= k < |rounds| ==> AllDummy(rounds[k])
    requires Level(init, rounds[..from]) >= 0
    ensures Level(init, rounds) == Max(0, Level(init, rounds[..from]) - (|rounds| - from))
    decreases |rounds| - from
  {
    if from == |rounds| {
      assert rounds[..from] == rounds;
    } else {
      var front := rounds[..|rounds| - 1];
      forall k | 0 <= k < |front| ensures RoundOk(init, n, front, k) {
        assert RoundOk(init, n, rounds, k);
        assert front[..k] == rounds[..k];
      }
      assert front[..from] == rounds[..from];
      DummiesDrain(init, n, front, from);
      var v := rounds[|rounds| - 1];
      ScanMeaning(v, |v|);
      assert RoundOk(init, n, rounds, |rounds| - 1);
      assert GoodContribution(init, v[0], Level(init, front) > 0);
    }
  }

  /** At level zero no rank can acquire another dummy. */
  lemma NoDummyAtZero(s: State, r: nat)
    requires Inv(s) && r < |s.ranks| && Level(s.init, s.rounds) == 0
    requires !s.ranks[r].sync.Filling? && !s.ranks[r].sync.Stopped?
    ensures !Enabled(s, CheckDummy(r)) && !Enabled(s, Push(r))
  {
    assert RankOk(s.init, r, s.ranks[r], s.rounds);
  }

  // ---------- a waiting real request ----------

  /** Rank `r` is inside AcquireQuota(false) without quota. */
  ghost predicate Waits(s: State, r: nat) {
    r < |s.ranks| && s.ranks[r].scheduler.Waiting? && s.ranks[r].quota == 0 && !s.ranks[r].sync.Stopped?
  }

  /** Its next Fill gives it quota. */
  ghost predicate Owed(s: State, r: nat)
    requires r < |s.ranks|
  {
    var k := s.ranks[r];
    k.sync.Filling? && (Refill(s.init, k.sync.v) > 0 || ScanOf(k.sync.v).downgrade)
  }

  /** Its Wakeup is on the flag, or already on its way to the others. */
  ghost predicate Signalled(s: State, r: nat)
    requires r < |s.ranks|
  {
    var k := s.ranks[r];
    k.wake || k.sync == WakeRead(false) || (k.sync.Sent? && !k.sync.c.sync && !k.sync.c.dummy) || Owed(s, r)
  }

  /** 1 while the wakeup round under way was entered before the flag was set. */
  ghost function Late(s: State, r: nat): nat
    requires r < |s.ranks|
  {
    var k := s.ranks[r];
    if k.sync == WakeRead(true) || (k.sync.Sent? && !k.sync.c.sync && k.sync.c.dummy) then 1 else 0
  }

  ghost function Patience(s: State, r: nat): int
    requires r < |s.ranks|
  {
    if Owed(s, r) then |s.rounds| else |s.rounds| + Level(s.init, s.rounds) + 1 + Late(s, r)
  }

  lemma WaitStep(s: State, a: Action, r: nat)
    requires Inv(s) && s.init > 0 && Enabled(s, a) && Timely(s, a)
    requires Waits(s, r) && Signalled(s, r) && Waits(Step(s, a), r)
    ensures Signalled(Step(s, a), r) && Patience(Step(s, a), r) <= Patience(s, r)
  {
    assert RankOk(s.init, r, s.ranks[r], s.rounds);
    if a.Complete? {
      WaitComplete(s, r);
    }
  }

  lemma WaitComplete(s: State, r: nat)
    requires Inv(s) && s.init > 0 && Enabled(s, Complete) && Waits(s, r) && Signalled(s, r)
    ensures Signalled(Step(s, Complete), r) && Patience(Step(s, Complete), r) <= Patience(s, r)
  {
    var t := Step(s, Complete);
    var v := Gathered(s.ranks);
    assert t.rounds[..|s.rounds|] == s.rounds;
    assert RankOk(s.init, r, s.ranks[r], s.rounds);
    StepOk(s, Complete);
    assert RoundOk(s.init, |s.ranks|, t.rounds, |s.rounds|);
    ScanMeaning(v, |v|);
    assert v[..|v|] == v;
    assert GoodContribution(s.init, v[r], Level(s.init, s.rounds) > 0);
    assert GoodContribution(s.init, v[0], Level(s.init, s.rounds) > 0);
  }

  ghost predicate WaitsThroughout(s: State, actions: seq<Action>, r: nat)
    decreases |actions|
  {
    && Waits(s, r)
    && (actions != [] ==> Enabled(s, actions[0]) && WaitsThroughout(Step(s, actions[0]), actions[1..], r))
  }

  lemma {:induction false} PatienceFalls(s: State, actions: seq<Action>, t: State, r: nat)
    requires Inv(s) && s.init > 0 && Runs(s, actions, t, true) && WaitsThroughout(s, actions, r) && Signalled(s, r)
    ensures r < |t.ranks| && Inv(t) && Patience(t, r) <= Patience(s, r)
    decreases |actions|
  {
    if actions != [] {
      WaitStep(s, actions[0], r);
      StepOk(s, actions[0]);
      PatienceFalls(Step(s, actions[0]), actions[1..], t, r);
    }
  }

  /** A real request that has called Wakeup waits for at most Level + 2 rounds. */
  lemma WaitBounded(s: State, actions: seq<Action>, t: State, r: nat)
    requires Inv(s) && s.init > 0 && Runs(s, actions, t, true) && WaitsThroughout(s, actions, r) && s.ranks[r].wake
    ensures |t.rounds| <= |s.rounds| + Level(s.init, s.rounds) + 2
  {
    PatienceFalls(s, actions, t, r);
    assert RankOk(t.init, r, t.ranks[r], t.rounds);
    assert RankOk(s.init, r, s.ranks[r], s.rounds);
    LevelNonNegative(t.init, |t.ranks|, t.rounds);
    LevelNonNegative(s.init, |s.ranks|, s.rounds);
  }

  lemma {:induction false} LevelNonNegative(init: nat, n: nat, rounds: seq<seq<Contribution>>)
    requires n > 0 && forall k :: 0 <= k < |rounds| ==> RoundOk(init, n, rounds, k)
    ensures Level(init, rounds) >= 0
    decreases |rounds|
  {
    if rounds != [] {
      var front := rounds[..|rounds| - 1];
      forall k | 0 <= k < |front| ensures RoundOk(init, n, front, k) {
        assert RoundOk(init, n, rounds, k);
        assert front[..k] == rounds[..k];
      }
      LevelNonNegative(init, n, front);
      assert RoundOk(init, n, rounds, |rounds| - 1);
      assert GoodContribution(init, rounds[|rounds| - 1][0], Level(init, front) > 0);
    }
  }

  // ---------- the dangerous window is real ----------

  /** A rank that waits in `pull` while its scheduler has no quota to push a batch with. */
  ghost predicate Stuck(s: State, r: nat) {
    && r < |s.ranks|
    && var k := s.ranks[r];
    && k.sync.Pulling? && k.queue == [] && k.quota == 0 && (k.scheduler.Idle? || k.scheduler.Waiting?)
  }

  /** Nothing any rank does frees it, and no all-gather ever completes again. */
  lemma {:induction false} StuckForever(s: State, actions: seq<Action>, t: State, r: nat)
    requires Stuck(s, r) && Runs(s, actions, t, false)
    ensures Stuck(t, r) && t.rounds == s.rounds
    decreases |actions|
  {
    if actions != [] {
      StuckForever(Step(s, actions[0]), actions[1..], t, r);
    }
  }

  /** A rank whose guard took the stale quota for a batch to come. */
  ghost predicate Doomed(s: State, r: nat) {
    && r < |s.ranks|
    && var k := s.ranks[r];
    && k.sync.Pulling? && k.queue == []
    && ((k.scheduler.Pushed? && k.quota == 1) || (k.quota == 0 && (k.scheduler.Idle? || k.scheduler.Waiting?)))
  }

  lemma {:induction false} DoomedForever(s: State, actions: seq<Action>, t: State, r: nat)
    requires Doomed(s, r) && Runs(s, actions, t, false)
    ensures Doomed(t, r) && t.rounds == s.rounds
    decreases |actions|
  {
    if actions != [] {
      DoomedForever(Step(s, actions[0]), actions[1..], t, r);
    }
  }

  /** One guard evaluated inside the window is enough: whatever the number of ranks and the quota, no all-gather
      ever completes after it. So in a run that goes on completing rounds every guard is timely. */
  lemma StaleGuardEndsRounds(s: State, r: nat, actions: seq<Action>, t: State)
    requires r < |s.ranks| && s.ranks[r].sync.AtGuard? && Stale(s.ranks[r])
    requires Runs(Step(s, Guard(r)), actions, t, false)
    ensures t.rounds == s.rounds
  {
    DoomedForever(Step(s, Guard(r)), actions, t, r);
  }

  /** Timeliness is exact: behind a guard of a state that a timely run leads to, a round can still complete if and
      only if that guard is not inside the window, unless the ranks are about to stop anyway. */
  lemma TimelinessExact(s: State, r: nat)
    requires Inv(s) && !Ended(s.rounds) && r < |s.ranks| && s.ranks[r].sync.AtGuard?
    ensures Timely(s, Guard(r)) <==> AnotherRound(Step(s, Guard(r)))
  {
    var u := Step(s, Guard(r));
    if Timely(s, Guard(r)) {
      StepOk(s, Guard(r));
      var actions, t := RoundsGoOn(u);
      RunsAnyway(u, actions, t);
      assert Runs(u, actions, t, false) && |t.rounds| > |u.rounds|;
    } else {
      forall actions, t | Runs(u, actions, t, false) ensures t.rounds == u.rounds {
        StaleGuardEndsRounds(s, r, actions, t);
      }
    }
  }

  /** Some continuation completes a round. */
  ghost predicate AnotherRound(s: State) {
    exists actions, t :: Runs(s, actions, t, false) && |t.rounds| > |s.rounds|
  }

  lemma {:induction false} RunsAnyway(s: State, actions: seq<Action>, t: State)
    requires Runs(s, actions, t, true)
    ensures Runs(s, actions, t, false)
    decreases |actions|
  {
    if actions != [] { RunsAnyway(Step(s, actions[0]), actions[1..], t); }
  }

  const RACE_FIRST := Contribution(true, 1, true, 0)
  const RACE_SECOND := Contribution(true, 0, true, 0)

  lemma RaceOpens() returns (actions: seq<Action>, t: State)
    ensures Runs(Initial(2, 1), actions, t, false)
    ensures t == State(1, [Rank(1, [], false, Pushed, Sent(RACE_FIRST), [true]), Rank(1, [], false, Idle, AtGuard, [])],
      [])
  {
    actions, t := [], Initial(2, 1);
    actions, t := Extend(Initial(2, 1), actions, t, CheckDummy(0), false);
    actions, t := Extend(Initial(2, 1), actions, t, Push(0), false);
    actions, t := Extend(Initial(2, 1), actions, t, Guard(0), false);
    actions, t := Extend(Initial(2, 1), actions, t, Pull(0), false);
    assert t.ranks[0].queue == [] && t.ranks[0].acquired == [true];
    actions, t := Extend(Initial(2, 1), actions, t, Send(0), false);
    assert t.ranks[0] == Rank(1, [], false, Pushed, Sent(RACE_FIRST), [true]);
    assert t.ranks == [t.ranks[0], t.ranks[1]];
  }

  lemma RaceBatch() returns (actions: seq<Action>, t: State)
    ensures Runs(Initial(2, 1), actions, t, false)
    ensures t == State(1,
      [Rank(1, [], false, Pushed, Sent(RACE_FIRST), [true]), Rank(0, [true], false, Idle, AtGuard, [true])], [])
  {
    actions, t := RaceOpens();
    actions, t := Extend(Initial(2, 1), actions, t, CheckDummy(1), false);
    actions, t := Extend(Initial(2, 1), actions, t, Push(1), false);
    actions, t := Extend(Initial(2, 1), actions, t, Subtract(1), false);
    assert t.ranks[1].queue == [true] && t.ranks[1].acquired == [true];
    assert t.ranks == [t.ranks[0], t.ranks[1]];
  }

  lemma RaceFollows() returns (actions: seq<Action>, t: State)
    ensures Runs(Initial(2, 1), actions, t, false)
    ensures t == State(1, [Rank(1, [], false, Pushed, Sent(RACE_FIRST), [true]),
                           Rank(0, [], false, Idle, Sent(RACE_SECOND), [true])], [])
  {
    actions, t := RaceBatch();
    actions, t := Extend(Initial(2, 1), actions, t, Guard(1), false);
    actions, t := Extend(Initial(2, 1), actions, t, Pull(1), false);
    assert t.ranks[1].queue == [] && t.ranks[1].acquired == [true];
    actions, t := Extend(Initial(2, 1), actions, t, Send(1), false);
    assert t.ranks[1] == Rank(0, [], false, Idle, Sent(RACE_SECOND), [true]);
    assert t.ranks == [t.ranks[0], t.ranks[1]];
  }

  lemma RaceScan(v: seq<Contribution>)
    requires v == [RACE_FIRST, RACE_SECOND]
    ensures ScanOf(v) == Scan(false, true, 1)
  {
    ScanMeaning(v, 2);
    assert v[..2] == v && v[0].quota == 1;
  }

  /** Two ranks with one dummy each: rank 0's scheduler is held up between its push and its subtraction for
      a whole round, its sync thread takes the stale quota for another dummy, and rank 1 goes to the wakeup
      all-gather without it. */
  lemma StaleGuardDeadlocks() returns (actions: seq<Action>, t: State)
    ensures Runs(Initial(2, 1), actions, t, false)
    ensures Stuck(t, 0) && |t.ranks| == 2 && t.ranks[1].sync.Waking?
  {
    var s := Initial(2, 1);
    actions, t := RaceFollows();
    var v := [RACE_FIRST, RACE_SECOND];
    assert Gathered(t.ranks) == v;
    RaceScan(v);
    actions, t := Extend(s, actions, t, Complete, false);
    assert t.ranks == [Rank(1, [], false, Pushed, Filling(v), [true]), Rank(0, [], false, Idle, Filling(v), [true])];
    actions, t := Extend(s, actions, t, Fill(0), false);
    actions, t := Extend(s, actions, t, Fill(1), false);
    actions, t := Extend(s, actions, t, Guard(0), false);
    actions, t := Extend(s, actions, t, Subtract(0), false);
    actions, t := Extend(s, actions, t, Guard(1), false);
  }

  /** What rank 0 looks like after its scheduler has acquired `k` dummies. */
  function Drained(init: nat, k: nat): Rank {
    Rank(init - k, seq(k, _ => true), false, Idle, AtGuard, seq(k, _ => true))
  }

  /** Rank 0's scheduler acquires `k` dummies before its guard. */
  lemma Drain(n: nat, init: nat, k: nat) returns (actions: seq<Action>, t: State)
    requires n > 0 && k <= init
    ensures RunsBeforeGuard(Initial(n, init), actions, t, 0)
    ensures t == Initial(n, init).(ranks := Initial(n, init).ranks[0 := Drained(init, k)])
    decreases k
  {
    var s := Initial(n, init);
    if k == 0 {
      actions, t := [], s;
      assert s.ranks[0] == Drained(init, 0);
      assert s.ranks[0 := Drained(init, 0)] == s.ranks;
    } else {
      actions, t := Drain(n, init, k - 1);
      actions, t := Extend(s, actions, t, CheckDummy(0), true);
      actions, t := Extend(s, actions, t, Push(0), true);
      actions, t := Extend(s, actions, t, Subtract(0), true);
      assert seq(k - 1, _ => true) + [true] == seq(k, _ => true);
      assert t.ranks[0] == Drained(init, k);
      assert t.ranks == s.ranks[0 := Drained(init, k)];
    }
  }

  /** The guard can tear, whatever the number of ranks and the quota: between the two reads of the quota the
      scheduler uses all of it up, and rank 0 would go to the wakeup all-gather while all others wait for a batch. */
  lemma TornGuardReached(n: nat, init: nat) returns (actions: seq<Action>, t: State)
    requires n > 0 && init > 0
    ensures RunsBeforeGuard(Initial(n, init), actions, t, 0) && |t.ranks| == n
    ensures !TornGuard(Initial(n, init).ranks[0], t.ranks[0], t.ranks[0]) && Level(t.init, t.rounds) > 0
    ensures forall j :: 0 < j < n ==> t.ranks[j].sync.AtGuard? && GuardOutcome(t.ranks[j])
  {
    actions, t := Drain(n, init, init);
  }
}
