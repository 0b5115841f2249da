/** What one call of the manager amounts to: a step of its own, then the
    dispatch steps it sets off. */
module CapacityCalls {
  import opened AdmissionLimit
  import opened LeaseAccounting
  import opened WaiterRing
  import opened StreamCapacity
  import opened ExternalLedger
  import opened CapacityDispatch
  import opened CapacityRuns

  ghost predicate Path(s: State, t: State, states: seq<State>, ops: seq<Op>)
  {
    Run(states, ops) && states[0] == s && states[|ops|] == t
  }

  ghost predicate OnlyScans(ops: seq<Op>) { forall i :: 0 <= i < |ops| ==> ops[i].Scanned? }

  /** Dispatch leads from `s` to `t`. */
  ghost predicate Dispatched(s: State, t: State)
  {
    exists states, ops :: Path(s, t, states, ops) && OnlyScans(ops)
  }

  /** `op`, then dispatch. */
  ghost predicate Stepped(s: State, op: Op, t: State)
  {
    LedgerWellFormed(s.ext) && Enabled(s, op) && Dispatched(Apply(s, op), t)
  }

  /** The lease is released, unless that has happened before. */
  ghost predicate GivesBack(s: State, lease: nat, t: State)
  {
    if lease in s.use.active then Stepped(s, Released(lease), t) else t == s
  }

  ghost predicate IsEntryOf(r: Ring, waiter: nat, index: nat, entry: nat)
  {
    index < |r.keys| && entry < |QueueOf(r.queues, r.keys[index])| && r.queues[r.keys[index]][entry].id == waiter
  }

  /** The queue entry of the waiter, and no other, is withdrawn. */
  ghost predicate Withdraws(s: State, waiter: nat, t: State)
  {
    exists index, entry :: IsEntryOf(s.ring, waiter, index, entry) && Stepped(s, Withdrawn(index, entry), t)
  }

  /** Whenever the lock is free: the invariant, and no waiter that could run
      unless a resource sample is in flight. */
  ghost predicate Settled(s: State) { Sound(s) && (s.sampling <= 0 ==> Quiet(s)) }

  lemma StepSound(s: State, op: Op)
    requires Sound(s) && Enabled(s, op)
    ensures LedgerWellFormed(s.ext) && Sound(Apply(s, op))
  {
    ApplySound(s, op);
  }

  lemma PathExtend(s: State, t: State, states: seq<State>, ops: seq<Op>, op: Op)
    requires Path(s, t, states, ops) && LedgerWellFormed(t.ext) && Enabled(t, op)
    ensures Path(s, Apply(t, op), states + [Apply(t, op)], ops + [op])
  {
    hide Enabled, Apply, LedgerWellFormed;
    var states', ops' := states + [Apply(t, op)], ops + [op];
    forall i | 0 <= i < |ops'|
      ensures LedgerWellFormed(states'[i].ext) && Enabled(states'[i], ops'[i]) &&
        states'[i + 1] == Apply(states'[i], ops'[i]) {
    }
  }

  lemma DispatchedNothing(s: State)
    ensures Dispatched(s, s)
  {
    assert Path(s, s, [s], []) && OnlyScans([]);
  }

  lemma ScanApplies(t: State, e: Event, u: State)
    requires Sound(t) && DispatchStep(t, e, u)
    ensures LedgerWellFormed(t.ext) && Enabled(t, Scanned(e)) && u == Apply(t, Scanned(e))
    ensures Sound(u) && u.ring.count == t.ring.count - 1
  {
    hide Valid, LedgerWellFormed, ReachedBy, PopAt, CanGrant, Grant, BlockingConstraint, WithinNegotiated;
    DispatchStepValid(t, e, u);
  }

  lemma DispatchedMore(s: State, t: State, e: Event, u: State)
    requires Dispatched(s, t) && Sound(t) && DispatchStep(t, e, u)
    ensures Dispatched(s, u) && Sound(u) && u.ring.count == t.ring.count - 1
  {
    hide Sound, DispatchStep, Enabled, Apply, LedgerWellFormed, Run;
    ScanApplies(t, e, u);
    var states, ops :| Path(s, t, states, ops) && OnlyScans(ops);
    PathExtend(s, t, states, ops, Scanned(e));
    assert OnlyScans(ops + [Scanned(e)]);
  }

  /** A call is a run of the step machine that starts with its own step, so
      whatever holds over every run holds over every sequence of calls. */
  lemma SteppedIsRun(s: State, op: Op, t: State)
    requires Stepped(s, op, t)
    ensures exists states, ops :: Path(s, t, states, [op] + ops) && OnlyScans(ops)
  {
    hide Enabled, Apply, LedgerWellFormed;
    var states, ops :| Path(Apply(s, op), t, states, ops) && OnlyScans(ops);
    var states', ops' := [s] + states, [op] + ops;
    forall i | 0 <= i < |ops'|
      ensures LedgerWellFormed(states'[i].ext) && Enabled(states'[i], ops'[i]) &&
        states'[i + 1] == Apply(states'[i], ops'[i]) {
      if i > 0 { assert ops'[i] == ops[i - 1] && states'[i] == states[i - 1] && states'[i + 1] == states[i]; }
    }
    assert Path(s, t, states', [op] + ops);
  }

  // ---- What dispatch leaves alone ----

  /** Finished waiters keep their result and no lease made so far ends. */
  ghost predicate Kept(s: State, t: State)
  {
    && (forall id :: id in s.ring.settled ==> id in t.ring.settled && t.ring.settled[id] == s.ring.settled[id])
    && s.use.nextLease <= t.use.nextLease
    && (forall id :: id <= s.use.nextLease ==> (id in t.use.active <==> id in s.use.active))
  }

  lemma SettlesOne(r: Ring, index: nat, i: nat, advance: bool, o: Outcome)
    requires RingWellFormed(r) && index < |r.keys| && i < |QueueOf(r.queues, r.keys[index])|
    ensures forall id :: id in r.settled ==>
      id in Pop(r, index, i, advance, o).settled && Pop(r, index, i, advance, o).settled[id] == r.settled[id]
  {
    WaiterKnown(r, r.keys[index], i);
  }

  lemma PopAtKeepsSettled(s: State, p: Position, advance: bool, o: Outcome)
    requires RingWellFormed(s.ring) && InRange(s, p)
    ensures forall id :: id in s.ring.settled ==>
      id in PopAt(s, p, advance, o).settled && PopAt(s, p, advance, o).settled[id] == s.ring.settled[id]
  {
    var index := Index(s.ring, p.passed);
    CursorMoved(s.ring, index);
    hide RingWellFormed, Pop;
    SettlesOne(s.ring.(cursor := index), index, p.entry, advance, o);
  }

  lemma StepKeeps(s: State, e: Event, t: State)
    requires RingWellFormed(s.ring) && DispatchStep(s, e, t)
    ensures Kept(s, t)
  {
    hide ReachedBy, BlockingConstraint, CanGrant, PopAt, RingWellFormed;
    var o := if e.Served? then Granted(s.use.nextLease + 1)
             else Canceled(BlockingConstraint(s, WaiterAt(s, e.at).cls, WaiterAt(s, e.at).sessionKey));
    PopAtKeepsSettled(s, e.at, e.Served?, o);
  }

  // ---- A scan that finds nothing ----

  lemma GrantableIgnoresCursor(s: State, cursor: nat, w: Waiter)
    ensures CanGrant(s.(ring := s.ring.(cursor := cursor)), w.cls, w.sessionKey) == Grantable(s, w)
    ensures BlockingConstraint(s.(ring := s.ring.(cursor := cursor)), w.cls, w.sessionKey) ==
      BlockingConstraint(s, w.cls, w.sessionKey)
  {
    var t := s.(ring := s.ring.(cursor := cursor));
    assert PublicSessionLimit(t, w.sessionKey) == PublicSessionLimit(s, w.sessionKey);
    assert SessionLimit(t, w.sessionKey) == SessionLimit(s, w.sessionKey);
  }

  lemma StuckQueue(s: State, key: string)
    requires forall j :: 0 <= j < |QueueOf(s.ring.queues, key)| ==> !Grantable(s, QueueOf(s.ring.queues, key)[j])
    ensures QueueStuck(s, key)
  {
  }

  /** Where the scan stands after passing `n` keys; after all of them it is back. */
  function Standing(r: Ring, n: nat): nat
    requires r.cursor < |r.keys| && n <= |r.keys|
  {
    if n == |r.keys| then r.cursor else Index(r, n)
  }

  lemma Successor(x: nat, n: nat)
    requires x < n
    ensures (x + 1) % n == if x + 1 == n then 0 else x + 1
  {
  }

  lemma StandsNext(r: Ring, n: nat)
    requires r.cursor < |r.keys| && n < |r.keys|
    ensures Standing(r, 0) == r.cursor == Standing(r, |r.keys|)
    ensures Standing(r, n) == Index(r, n) < |r.keys|
    ensures (Standing(r, n) + 1) % |r.keys| == Standing(r, n + 1)
  {
    hide Index;
    RotationAt(r, n);
    RotationAt(r, 0);
    Successor(Index(r, n), |r.keys|);
    if n + 1 < |r.keys| { RotationAt(r, n + 1); }
  }

  lemma AllStuckIsQuiet(s: State)
    requires RingWellFormed(s.ring) && s.ring.keys != []
    requires forall m :: 0 <= m < |s.ring.keys| ==> QueueStuck(s, s.ring.keys[Index(s.ring, m)])
    ensures Quiet(s)
  {
    hide QueueStuck, QueuesWellFormed, AllQueued, IdsWellFormed;
    forall k | k in s.ring.queues ensures QueueStuck(s, k) {
      var p :| 0 <= p < |s.ring.keys| && s.ring.keys[p] == k;
      var m := if p >= s.ring.cursor then p - s.ring.cursor else p + |s.ring.keys| - s.ring.cursor;
      RotationAt(s.ring, m);
    }
  }

  lemma QueuedIsCounted(r: Ring, k: string)
    requires RingWellFormed(r) && k in r.queues
    ensures r.count > 0 && r.keys != []
  {
    assert QueueWellFormed(k, r.queues[k], r.waiting);
    assert r.queues[k][0].id in r.waiting;
    assert r.waiting != map[] && k in r.keys;
  }

  lemma NothingQueuedIsQuiet(s: State)
    requires Sound(s) && (s.ring.count <= 0 || s.ring.keys == [])
    ensures Quiet(s)
  {
    hide RingWellFormed;
    if k :| k in s.ring.queues {
      QueuedIsCounted(s.ring, k);
      assert false;
    }
  }

  // ---- Steps that need no dispatch ----

  lemma GrantStaysSettled(s: State, c: Class, key: string, session: string)
    requires Settled(s) && Enabled(s, DirectGrant(c, key, session))
    ensures Settled(GrantLease(s, c, key, session))
  {
    StepSound(s, DirectGrant(c, key, session));
    if s.sampling <= 0 { DirectGrantOvertakesNobody(s, c, key, session); }
  }

  lemma ReserveStaysSettled(s: State, r: Reservation)
    requires Settled(s) && Enabled(s, Reserved(r))
    ensures Sound(s) && Settled(Apply(s, Reserved(r)))
  {
    StepSound(s, Reserved(r));
    var t := Apply(s, Reserved(r));
    if s.sampling <= 0 {
      ReserveWellFormed(s.ext, r);
      LimitNeverRises(s.snap, s.ext.bytes, s.ext.fds, t.ext.bytes, t.ext.fds);
      MoreUsedStaysQuiet(s, t);
    }
  }

  lemma ClosedIsQuiet(s: State)
    requires Adaptive(s) && s.snap.rejectNew
    ensures Quiet(s)
  {
  }

  lemma QuietIgnoresSampling(s: State, n: int)
    requires Quiet(s)
    ensures Quiet(s.(sampling := n))
  {
    var t := s.(sampling := n);
    forall k | k in t.ring.queues ensures QueueStuck(t, k) {
      assert QueueStuck(s, k);
      forall i | 0 <= i < |t.ring.queues[k]| ensures !Grantable(t, t.ring.queues[k][i]) {
        var w := t.ring.queues[k][i];
        assert QueueOf(s.ring.queues, k)[i] == w && !Grantable(s, w);
        assert PublicSessionLimit(t, w.sessionKey) == PublicSessionLimit(s, w.sessionKey);
        assert SessionLimit(t, w.sessionKey) == SessionLimit(s, w.sessionKey);
      }
    }
  }

  // ---- Competing waiters ----

  /** A queued waiter on the same side of the public/health split that could run. */
  ghost predicate Competing(s: State, c: Class)
  {
    exists id | id in s.ring.waiting ::
      (s.ring.waiting[id].cls == TrustedHealth <==> c == TrustedHealth) && Grantable(s, s.ring.waiting[id])
  }

  /** Once no sample is in flight nobody competes: dispatch has already served
      every waiter that could run, so a free slot is always a new caller's. */
  lemma NobodyCompetes(s: State, c: Class)
    requires Settled(s) && s.sampling <= 0
    ensures !Competing(s, c)
  {
    hide CanGrant;
    forall id | id in s.ring.waiting ensures !Grantable(s, s.ring.waiting[id]) {
      var w := s.ring.waiting[id];
      assert IsQueued(s.ring.queues, w) && QueueStuck(s, w.queueKey);
      var i :| 0 <= i < |s.ring.queues[w.queueKey]| && s.ring.queues[w.queueKey][i] == w;
      assert QueueOf(s.ring.queues, w.queueKey)[i] == w;
    }
  }
}
