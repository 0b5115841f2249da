/** The manager's own self-check, clause by clause, and the proof that it never
    fails. */
module CapacityStated {
  import CapacityDispatch
  import opened LeaseAccounting
  import opened WaiterRing
  import opened StreamCapacity
  import opened ExternalLedger
  import opened CapacityRuns

  ghost predicate StatedBudgets(s: State)
  {
    && ConfigValid(s.cfg)
    && 0 <= s.use.total <= s.cfg.total
    && 0 <= s.use.public <= s.cfg.public
    && 0 <= s.use.pooled <= s.cfg.pooled
    && 0 <= s.use.control <= s.cfg.control
    && s.use.total == s.use.public + s.use.control
  }

  function SaturatingSum(counts: seq<int>): int
  {
    if counts == [] then 0 else SaturatingAdd(SaturatingSum(counts[..|counts| - 1]), counts[|counts| - 1])
  }

  ghost predicate StatedLedger(e: External)
  {
    && |e.ownerBytes| == |e.ownerFDs| == |e.ownerCount| == OWNERS
    && (forall o :: 0 <= o < OWNERS ==> 0 <= e.ownerBytes[o] && 0 <= e.ownerFDs[o] && 0 <= e.ownerCount[o])
    && SaturatingSum(e.ownerBytes) == e.bytes
    && SaturatingSum(e.ownerFDs) == e.fds
  }

  function RowSum(r: Phases): int { r.opening + r.live + r.closing }

  /** The active leases of one class in one phase. */
  function LeasesIn(active: map<nat, Lease>, c: Class, p: Phase): set<nat>
  {
    set id | id in active && active[id].cls == c && active[id].phase == p
  }

  ghost predicate StatedCells(g: Grid, active: map<nat, Lease>)
  {
    forall c, p :: 0 <= Cell(g, c, p) == |LeasesIn(active, c, p)|
  }

  ghost predicate StatedPhases(u: Usage)
  {
    && RowSum(u.states.pooled) + RowSum(u.states.oneShot) + RowSum(u.states.health) == u.total == |u.active|
    && RowSum(u.states.pooled) == u.pooled
    && RowSum(u.states.pooled) + RowSum(u.states.oneShot) == u.public
    && RowSum(u.states.health) == u.control
    && StatedCells(u.states, u.active)
    && u.granted - u.released == |u.active|
  }

  ghost predicate StatedSessions(s: State)
  {
    && (forall k :: k in s.use.opening ==> k != "" && 1 <= s.use.opening[k] <= s.cfg.maxOpening)
    && Sum(s.use.opening) == s.use.states.pooled.opening + s.use.states.oneShot.opening + s.use.states.health.opening
    && (forall k :: k in s.use.publicOpening ==>
          k != "" && 1 <= s.use.publicOpening[k] <= PublicOpeningLimit(s.cfg) &&
            s.use.publicOpening[k] <= Get(s.use.opening, k))
    && Sum(s.use.publicOpening) == s.use.states.pooled.opening + s.use.states.oneShot.opening
    && (forall k :: k in s.use.publicUse ==> k != "" && 1 <= s.use.publicUse[k] <= s.cfg.public)
    && Sum(s.use.publicUse) == s.use.public
    && (forall k :: k in s.use.totalUse ==>
          k != "" && 1 <= s.use.totalUse[k] <= s.cfg.total &&
            (k in s.registered ==> s.use.totalUse[k] <= SessionLimit(s, k)))
    && Sum(s.use.totalUse) == s.use.total
    && (forall k :: k in s.limits ==> k != "" && 1 <= s.limits[k] <= s.cfg.total && k in s.registered)
  }

  function HealthIn(q: seq<Waiter>): nat
  {
    if q == [] then 0 else HealthIn(q[..|q| - 1]) + if q[|q| - 1].cls == TrustedHealth then 1 else 0
  }

  ghost function QueuedHealth(queues: map<string, seq<Waiter>>, keys: seq<string>): nat
  {
    if keys == [] then 0 else QueuedHealth(queues, keys[..|keys| - 1]) + HealthIn(QueueOf(queues, keys[|keys| - 1]))
  }

  ghost predicate StatedQueues(s: State)
  {
    var r := s.ring;
    && Distinct(r.keys)
    && (forall k :: k in r.keys <==> k in r.queues)
    && (forall k :: k in r.keys ==> k != "" && 1 <= |QueueOf(r.queues, k)| <= s.cfg.maxWaitersPerKey)
    && (forall k, i :: k in r.queues && 0 <= i < |r.queues[k]| ==>
      r.queues[k][i].queueKey == k && r.queues[k][i].id in r.waiting)
    && QueuedLength(r.queues, r.keys) == r.count
    && QueuedLength(r.queues, r.keys) - QueuedHealth(r.queues, r.keys) <= s.cfg.maxWaiters
    && QueuedHealth(r.queues, r.keys) <= ControlWaiters(s.cfg)
    && (r.keys == [] ==> r.cursor == 0)
    && (r.keys != [] ==> r.cursor < |r.keys|)
  }

  // ---- The owner ledgers add up ----

  ghost function OwnedBytes(held: map<nat, Reservation>, n: nat): int
  {
    if n == 0 then 0 else OwnedBytes(held, n - 1) + Held(BytesOf(n - 1), held)
  }

  ghost function OwnedFDs(held: map<nat, Reservation>, n: nat): int
  {
    if n == 0 then 0 else OwnedFDs(held, n - 1) + Held(FDsOf(n - 1), held)
  }

  lemma {:induction false} OwnedWithout(held: map<nat, Reservation>, id: nat, n: nat)
    requires id in held
    ensures OwnedBytes(held, n) == OwnedBytes(held - {id}, n) + if held[id].owner < n then held[id].bytes else 0
    ensures OwnedFDs(held, n) == OwnedFDs(held - {id}, n) + if held[id].owner < n then held[id].fds else 0
  {
    if n > 0 {
      OwnedWithout(held, id, n - 1);
      HeldWithout(BytesOf(n - 1), held, id);
      HeldWithout(FDsOf(n - 1), held, id);
    }
  }

  lemma {:induction false} NothingOwned(n: nat)
    ensures OwnedBytes(map[], n) == 0 && OwnedFDs(map[], n) == 0
  {
    if n > 0 { NothingOwned(n - 1); }
  }

  lemma {:induction false} OwnersAddUp(held: map<nat, Reservation>)
    requires forall id :: id in held ==> held[id].owner < OWNERS
    ensures OwnedBytes(held, OWNERS) == Held(AllBytes, held)
    ensures OwnedFDs(held, OWNERS) == Held(AllFDs, held)
    decreases |held|
  {
    if held == map[] {
      NothingOwned(OWNERS);
    } else {
      var id :| id in held;
      OwnersAddUp(held - {id});
      OwnedWithout(held, id, OWNERS);
      HeldWithout(AllBytes, held, id);
      HeldWithout(AllFDs, held, id);
    }
  }

  lemma {:induction false} SaturatingSumExact(e: External, n: nat)
    requires LedgerExact(e) && n <= OWNERS
    ensures SaturatingSum(e.ownerBytes[..n]) == OwnedBytes(e.held, n) <= OwnedBytes(e.held, OWNERS)
    ensures SaturatingSum(e.ownerFDs[..n]) == OwnedFDs(e.held, n) <= OwnedFDs(e.held, OWNERS)
  {
    OwnedGrows(e, n, OWNERS);
    OwnersAddUp(e.held);
    if n > 0 {
      SaturatingSumExact(e, n - 1);
      OwnedGrows(e, n - 1, n);
      HeldNonNegative(BytesOf(n - 1), e);
      HeldNonNegative(FDsOf(n - 1), e);
      assert e.ownerBytes[..n][..n - 1] == e.ownerBytes[..n - 1];
      assert e.ownerFDs[..n][..n - 1] == e.ownerFDs[..n - 1];
    }
  }

  lemma {:induction false} OwnedGrows(e: External, m: nat, n: nat)
    requires HeldWellFormed(e) && m <= n
    ensures OwnedBytes(e.held, m) <= OwnedBytes(e.held, n)
    ensures OwnedFDs(e.held, m) <= OwnedFDs(e.held, n)
  {
    if m < n {
      OwnedGrows(e, m, n - 1);
      HeldNonNegative(BytesOf(n - 1), e);
      HeldNonNegative(FDsOf(n - 1), e);
    }
  }

  lemma LedgerPasses(e: External)
    requires LedgerExact(e)
    ensures StatedLedger(e)
  {
    SaturatingSumExact(e, OWNERS);
    OwnersAddUp(e.held);
    assert e.ownerBytes[..OWNERS] == e.ownerBytes && e.ownerFDs[..OWNERS] == e.ownerFDs;
    forall o: nat | o < OWNERS ensures 0 <= e.ownerBytes[o] && 0 <= e.ownerFDs[o] && 0 <= e.ownerCount[o] {
      HeldNonNegative(BytesOf(o), e);
      HeldNonNegative(FDsOf(o), e);
      HeldNonNegative(CountOf(o), e);
    }
  }

  // ---- Health waiters in the queues ----

  ghost function HealthOf(waiting: map<nat, Waiter>, key: string): set<nat>
  {
    set id | id in waiting && waiting[id].queueKey == key && waiting[id].cls == TrustedHealth
  }

  ghost function HealthAmong(waiting: map<nat, Waiter>, keys: seq<string>): set<nat>
  {
    set id | id in waiting && waiting[id].queueKey in keys && waiting[id].cls == TrustedHealth
  }

  ghost function HealthSet(q: seq<Waiter>): set<nat> { set w | w in q && w.cls == TrustedHealth :: w.id }

  lemma HealthSetStep(q: seq<Waiter>, w: Waiter)
    ensures HealthSet(q + [w]) == HealthSet(q) + if w.cls == TrustedHealth then {w.id} else {}
  {
    forall id | id in HealthSet(q + [w]) ensures id in HealthSet(q) + (if w.cls == TrustedHealth then {w.id} else {}) {
      var v :| v in q + [w] && v.cls == TrustedHealth && v.id == id;
      assert v in q || v == w;
    }
    forall id | id in HealthSet(q) ensures id in HealthSet(q + [w]) {
      var v :| v in q && v.cls == TrustedHealth && v.id == id;
      assert v in q + [w];
    }
    assert w in q + [w];
  }

  lemma {:induction false} HealthCounted(q: seq<Waiter>)
    requires forall i, j :: 0 <= i < j < |q| ==> q[i].id != q[j].id
    ensures |HealthSet(q)| == HealthIn(q)
  {
    if q != [] {
      var n := |q| - 1;
      HealthCounted(q[..n]);
      assert q == q[..n] + [q[n]];
      HealthSetStep(q[..n], q[n]);
      assert q[n].id !in HealthSet(q[..n]);
    }
  }

  lemma QueueHealth(queues: map<string, seq<Waiter>>, waiting: map<nat, Waiter>, key: string)
    requires QueuesWellFormed(queues, waiting) && AllQueued(queues, waiting) && key in queues
    requires forall id :: id in waiting ==> waiting[id].id == id
    ensures |HealthOf(waiting, key)| == HealthIn(queues[key])
  {
    var q := queues[key];
    assert QueueWellFormed(key, q, waiting);
    var ids := HealthSet(q);
    forall id | id in HealthOf(waiting, key) ensures id in ids {
      assert IsQueued(queues, waiting[id]);
    }
    assert HealthOf(waiting, key) == ids;
    HealthCounted(q);
  }

  lemma HealthAmongStep(waiting: map<nat, Waiter>, keys: seq<string>, key: string)
    requires key !in keys
    ensures |HealthAmong(waiting, keys + [key])| == |HealthAmong(waiting, keys)| + |HealthOf(waiting, key)|
  {
    assert HealthAmong(waiting, keys + [key]) == HealthAmong(waiting, keys) + HealthOf(waiting, key);
    assert HealthAmong(waiting, keys) !! HealthOf(waiting, key);
  }

  lemma {:induction false} HealthAddsUp(queues: map<string, seq<Waiter>>, waiting: map<nat, Waiter>, keys: seq<string>)
    requires QueuesWellFormed(queues, waiting) && AllQueued(queues, waiting)
    requires forall id :: id in waiting ==> waiting[id].id == id
    requires Distinct(keys) && forall k :: k in keys ==> k in queues
    ensures QueuedHealth(queues, keys) == |HealthAmong(waiting, keys)|
  {
    hide QueuesWellFormed, AllQueued;
    if keys == [] {
      assert HealthAmong(waiting, keys) == {};
    } else {
      var front, key := keys[..|keys| - 1], keys[|keys| - 1];
      HealthAddsUp(queues, waiting, front);
      QueueHealth(queues, waiting, key);
      HealthAmongStep(waiting, front, key);
      assert keys == front + [key];
    }
  }

  lemma RingHealth(r: Ring)
    requires RingWellFormed(r)
    ensures QueuedHealth(r.queues, r.keys) == |HealthIds(r.waiting)|
  {
    HealthAddsUp(r.queues, r.waiting, r.keys);
    hide *;
    EveryoneHasAKey(r);
    AllHealth(r.waiting, r.keys);
  }

  lemma EveryoneHasAKey(r: Ring)
    requires RingWellFormed(r)
    ensures forall id :: id in r.waiting ==> r.waiting[id].queueKey in r.keys
  {
    hide QueuesWellFormed, IdsWellFormed;
    forall id | id in r.waiting ensures r.waiting[id].queueKey in r.keys { assert IsQueued(r.queues, r.waiting[id]); }
  }

  lemma AllHealth(waiting: map<nat, Waiter>, keys: seq<string>)
    requires forall id :: id in waiting ==> waiting[id].queueKey in keys
    ensures HealthAmong(waiting, keys) == HealthIds(waiting)
  {
  }

  lemma KeysAreNamed(r: Ring, k: string)
    requires RingWellFormed(r) && k in r.queues
    ensures k != "" && r.queues[k] != []
  {
    assert QueueWellFormed(k, r.queues[k], r.waiting);
    assert r.waiting[r.queues[k][0].id].queueKey == k;
  }

  lemma QueuesPass(s: State)
    requires Valid(s)
    ensures StatedQueues(s)
  {
    hide Accounted, WithinBudgets, SessionsValid, ConfigValid, AllQueued, IdsWellFormed, QueuesWellFormed, HealthIds;
    RingHealth(s.ring);
    QueuesHoldTheCount(s.ring);
    forall k | k in s.ring.keys ensures k != "" && 1 <= |QueueOf(s.ring.queues, k)| <= s.cfg.maxWaitersPerKey {
      KeysAreNamed(s.ring, k);
    }
    forall k, i | k in s.ring.queues && 0 <= i < |s.ring.queues[k]|
      ensures s.ring.queues[k][i].queueKey == k && s.ring.queues[k][i].id in s.ring.waiting {
      CapacityDispatch.WaiterKnown(s.ring, k, i);
    }
  }

  // ---- Usage ----

  lemma CellsPass(g: Grid, active: map<nat, Lease>)
    requires PhaseMap(g, active)
    ensures StatedCells(g, active)
  {
    forall c: Class, p: Phase ensures 0 <= Cell(g, c, p) == |LeasesIn(active, c, p)| {
      assert Ids(active, InPhase(c, p)) == LeasesIn(active, c, p);
      assert Cell(g, c, p) == Tally(active, InPhase(c, p));
    }
  }

  lemma PhasesPass(u: Usage)
    requires Accounted(u)
    ensures StatedPhases(u)
  {
    hide Accounted, StatedCells, Sum;
    AccountedCells(u);
    UsageSplits(u);
    PhaseSums(u);
    GrantedLessReleased(u);
  }

  lemma AccountedCells(u: Usage)
    requires Accounted(u)
    ensures StatedCells(u.states, u.active)
  {
    hide StatedCells;
    CellsPass(u.states, u.active);
  }

  lemma GrantedLessReleased(u: Usage)
    requires Accounted(u)
    ensures u.granted - u.released == u.total
  {
  }

  lemma SessionIsNamed(u: Usage, kind: Kind, k: string)
    requires LeasesWellFormed(u) && Tally(u.active, OfSession(kind, k)) > 0
    ensures k != ""
  {
    var ids := Ids(u.active, OfSession(kind, k));
    assert ids != {};
    var id :| id in ids;
    assert u.active[id].sessionKey == k;
  }

  lemma SessionPasses(u: Usage, k: string)
    requires Accounted(u)
    ensures k in u.opening ==> k != "" && 1 <= u.opening[k]
    ensures k in u.publicOpening ==> k != "" && 1 <= u.publicOpening[k] <= Get(u.opening, k)
    ensures k in u.publicUse ==> k != "" && 1 <= u.publicUse[k] <= u.public
    ensures k in u.totalUse ==> k != "" && 1 <= u.totalUse[k] <= u.total
  {
    SessionNesting(u, k);
    assert Tallies(u.opening, k, Tally(u.active, OfSession(OpeningKind, k)));
    assert Tallies(u.publicOpening, k, Tally(u.active, OfSession(PublicOpeningKind, k)));
    assert Tallies(u.publicUse, k, Tally(u.active, OfSession(PublicKind, k)));
    assert Tallies(u.totalUse, k, Tally(u.active, OfSession(AnyKind, k)));
    if k in u.opening { SessionIsNamed(u, OpeningKind, k); }
    if k in u.publicOpening { SessionIsNamed(u, PublicOpeningKind, k); }
    if k in u.publicUse { SessionIsNamed(u, PublicKind, k); }
    if k in u.totalUse { SessionIsNamed(u, AnyKind, k); }
  }

  lemma SessionsPass(s: State)
    requires Valid(s) && WithinNegotiated(s)
    ensures StatedSessions(s)
  {
    hide Accounted, RingWellFormed, RingBounded, ConfigValid;
    var u := s.use;
    PhaseSums(u);
    UsageSplits(u);
    assert u.total <= s.cfg.total by { BudgetsAddUp(s); }
    forall k
      ensures k in u.opening ==> k != "" && 1 <= u.opening[k] <= s.cfg.maxOpening
      ensures k in u.publicOpening ==>
        k != "" && 1 <= u.publicOpening[k] <= PublicOpeningLimit(s.cfg) && u.publicOpening[k] <= Get(u.opening, k)
      ensures k in u.publicUse ==> k != "" && 1 <= u.publicUse[k] <= s.cfg.public
      ensures k in u.totalUse ==>
        k != "" && 1 <= u.totalUse[k] <= s.cfg.total && (k in s.registered ==> u.totalUse[k] <= SessionLimit(s, k))
    {
      SessionPasses(u, k);
      assert Get(u.opening, k) <= s.cfg.maxOpening && Get(u.publicOpening, k) <= PublicOpeningLimit(s.cfg);
      assert k in s.registered ==> Get(u.totalUse, k) <= SessionLimit(s, k);
    }
  }

  lemma BudgetsAddUp(s: State)
    requires Valid(s)
    ensures s.use.total <= s.cfg.total
  {
    hide Accounted, RingWellFormed, RingBounded;
    UsageSplits(s.use);
  }

  /** The self-check passes in every reachable state of every run in which each
      registration covers live usage and each reservation fits. */
  lemma SelfCheckNeverFails(requested: int, states: seq<State>, ops: seq<Op>)
    requires Run(states, ops) && states[0] == NewState(DefaultConfig(requested))
    requires forall i :: 0 <= i < |ops| ==> Covering(states[i], ops[i]) && Fitting(states[i], ops[i])
    ensures var s := states[|ops|];
      StatedBudgets(s) && StatedLedger(s.ext) && StatedPhases(s.use) && StatedSessions(s) && StatedQueues(s)
  {
    hide Apply, Enabled, LedgerWellFormed, Covering, Fitting, LedgerExact;
    hide Accounted, RingWellFormed, RingBounded, StatedLedger, StatedPhases, StatedSessions, StatedQueues,
      WithinNegotiated;
    var s := states[|ops|];
    EveryCarefulRunIsExact(requested, states, ops);
    LedgerPasses(s.ext);
    PhasesPass(s.use);
    SessionsPass(s);
    QueuesPass(s);
    UsageSplits(s.use);
  }
}
