/** Dispatching queued waiters: what one step of the scan does, work
    conservation, and round-robin fairness. */
module CapacityDispatch {
  import opened LeaseAccounting
  import opened WaiterRing
  import opened StreamCapacity

  // ---- One step of the scan ----

  predicate Grantable(s: State, w: Waiter) { CanGrant(s, w.cls, w.sessionKey) }

  ghost predicate QueueStuck(s: State, key: string)
  {
    forall i :: 0 <= i < |QueueOf(s.ring.queues, key)| ==> !Grantable(s, QueueOf(s.ring.queues, key)[i])
  }

  /** No queued waiter could run now. */
  ghost predicate Quiet(s: State)
  {
    forall k :: k in s.ring.queues ==> QueueStuck(s, k)
  }

  /** A scan position: `passed` keys from the cursor, then entry `entry` of the
      next key's queue. */
  datatype Position = Position(passed: nat, entry: nat)

  predicate InRange(s: State, p: Position)
  {
    && s.ring.cursor < |s.ring.keys|
    && p.passed < |s.ring.keys|
    && p.entry < |QueueOf(s.ring.queues, KeyAt(s, p))|
  }

  function KeyAt(s: State, p: Position): string
    requires s.ring.cursor < |s.ring.keys| && p.passed < |s.ring.keys|
  {
    s.ring.keys[Index(s.ring, p.passed)]
  }

  function WaiterAt(s: State, p: Position): Waiter
    requires InRange(s, p)
  {
    s.ring.queues[KeyAt(s, p)][p.entry]
  }

  /** Everything the scan met before this position could not run. */
  ghost predicate ReachedBy(s: State, p: Position)
    requires InRange(s, p)
  {
    && (forall m :: 0 <= m < p.passed ==> QueueStuck(s, s.ring.keys[Index(s.ring, m)]))
    && (forall i :: 0 <= i < p.entry ==> !Grantable(s, s.ring.queues[KeyAt(s, p)][i]))
  }

  function PopAt(s: State, p: Position, advance: bool, o: Outcome): Ring
    requires InRange(s, p)
  {
    var index := Index(s.ring, p.passed);
    Pop(s.ring.(cursor := index), index, p.entry, advance, o)
  }

  function Serve(s: State, p: Position): State
    requires InRange(s, p)
  {
    var w := WaiterAt(s, p);
    s.(ring := PopAt(s, p, true, Granted(s.use.nextLease + 1)), use := Grant(s.use, w.cls, w.queueKey, w.sessionKey))
  }

  function Discard(s: State, p: Position): State
    requires InRange(s, p)
  {
    var w := WaiterAt(s, p);
    s.(ring := PopAt(s, p, false, Canceled(BlockingConstraint(s, w.cls, w.sessionKey))))
  }

  datatype Event = Served(at: Position) | Dropped(at: Position)

  /** One iteration of dispatch: a scan from the cursor that ends by serving the
      first grantable waiter it meets, or by dropping a canceled one. */
  ghost predicate DispatchStep(s: State, e: Event, t: State)
  {
    && InRange(s, e.at) && ReachedBy(s, e.at)
    && (e.Served? ==> Grantable(s, WaiterAt(s, e.at)) && t == Serve(s, e.at))
    && (e.Dropped? ==> t == Discard(s, e.at))
  }

  ghost predicate DispatchRun(states: seq<State>, events: seq<Event>)
  {
    && |states| == |events| + 1
    && forall i :: 0 <= i < |events| ==> DispatchStep(states[i], events[i], states[i + 1])
  }

  lemma CursorMoved(r: Ring, index: nat)
    requires RingWellFormed(r) && index < |r.keys|
    ensures RingWellFormed(r.(cursor := index))
  {
    hide QueuesWellFormed, AllQueued, KeysWellFormed, IdsWellFormed;
  }

  lemma PopAtKeeps(s: State, p: Position, advance: bool, o: Outcome)
    requires RingWellFormed(s.ring) && InRange(s, p)
    requires RingBounded(s.ring, s.cfg.maxWaiters, ControlWaiters(s.cfg), s.cfg.maxWaitersPerKey)
    ensures RingWellFormed(PopAt(s, p, advance, o))
    ensures RingBounded(PopAt(s, p, advance, o), s.cfg.maxWaiters, ControlWaiters(s.cfg), s.cfg.maxWaitersPerKey)
    ensures PopAt(s, p, advance, o).count == s.ring.count - 1
  {
    var index := Index(s.ring, p.passed);
    CursorMoved(s.ring, index);
    var at := s.ring.(cursor := index);
    assert RingBounded(at, s.cfg.maxWaiters, ControlWaiters(s.cfg), s.cfg.maxWaitersPerKey);
    hide RingWellFormed, RingBounded, Pop;
    PopWellFormed(at, index, p.entry, advance, o);
    PopBounded(at, index, p.entry, advance, o, s.cfg.maxWaiters, ControlWaiters(s.cfg), s.cfg.maxWaitersPerKey);
  }

  lemma WaiterKnown(r: Ring, key: string, i: nat)
    requires RingWellFormed(r) && i < |QueueOf(r.queues, key)|
    ensures var w := r.queues[key][i];
      w.id in r.waiting && r.waiting[w.id] == w && w.queueKey == key && w.sessionKey != ""
  {
    assert QueueWellFormed(key, r.queues[key], r.waiting);
  }

  lemma NegotiatedIgnoresRing(s: State, r: Ring)
    requires WithinNegotiated(s)
    ensures WithinNegotiated(s.(ring := r))
  {
    assert forall k :: SessionLimit(s.(ring := r), k) == SessionLimit(s, k);
  }

  /** Every step of dispatch keeps the full invariant and settles one waiter. */
  lemma DispatchStepValid(s: State, e: Event, t: State)
    requires Valid(s) && DispatchStep(s, e, t)
    ensures Valid(t) && t.ring.count == s.ring.count - 1
    ensures WithinNegotiated(s) ==> WithinNegotiated(t)
  {
    hide Accounted, RingWellFormed, RingBounded, ReachedBy, WithinBudgets, SessionsValid, PopAt, CanGrant, Grant,
      BlockingConstraint;
    hide WithinNegotiated, ConfigValid;
    var w := WaiterAt(s, e.at);
    WaiterKnown(s.ring, KeyAt(s, e.at), e.at.entry);
    if e.Served? {
      GrantValid(s, w.cls, w.queueKey, w.sessionKey);
      PopAtKeeps(s, e.at, true, Granted(s.use.nextLease + 1));
    } else {
      PopAtKeeps(s, e.at, false, Canceled(BlockingConstraint(s, w.cls, w.sessionKey)));
    }
    if WithinNegotiated(s) {
      NegotiatedIgnoresRing(if e.Served? then GrantLease(s, w.cls, w.queueKey, w.sessionKey) else s, t.ring);
    }
  }

  lemma {:induction false} DispatchRunValid(states: seq<State>, events: seq<Event>)
    requires DispatchRun(states, events) && Valid(states[0])
    ensures Valid(states[|events|]) && states[|events|].ring.count == states[0].ring.count - |events|
    ensures WithinNegotiated(states[0]) ==> WithinNegotiated(states[|events|])
  {
    if events != [] {
      var n := |events| - 1;
      DispatchRunValid(states[..n + 1], events[..n]);
      assert DispatchStep(states[n], events[n], states[n + 1]);
      DispatchStepValid(states[n], events[n], states[n + 1]);
    }
  }

  // ---- Work conservation ----

  /** Everything but usage unchanged, and no counter smaller. */
  ghost predicate MoreUsed(s: State, t: State)
  {
    && t.cfg == s.cfg && t.controller == s.controller && t.snap == s.snap
    && t.registered == s.registered && t.limits == s.limits && t.ring == s.ring
    && EffectiveLimit(t) <= EffectiveLimit(s)
    && t.use.total >= s.use.total && t.use.public >= s.use.public && t.use.pooled >= s.use.pooled &&
      t.use.control >= s.use.control
    && (forall k :: Get(t.use.totalUse, k) >= Get(s.use.totalUse, k))
    && (forall k :: Get(t.use.opening, k) >= Get(s.use.opening, k))
    && (forall k :: Get(t.use.publicUse, k) >= Get(s.use.publicUse, k))
    && (forall k :: Get(t.use.publicOpening, k) >= Get(s.use.publicOpening, k))
  }

  lemma PublicLimitMonotone(cfg: Config, a: nat, b: nat)
    requires ConfigValid(cfg) && a <= b
    ensures PublicLimitOf(cfg, a) <= PublicLimitOf(cfg, b)
    ensures ProtectedOf(cfg, a) <= ProtectedOf(cfg, b)
  {
  }

  lemma MoreUsedTightens(s: State, t: State, c: Class, session: string)
    requires ConfigValid(s.cfg) && MoreUsed(s, t) && CanGrant(t, c, session)
    ensures CanGrant(s, c, session)
  {
    PublicLimitMonotone(s.cfg, EffectiveLimit(t), EffectiveLimit(s));
    assert PublicSessionLimit(t, session) == PublicSessionLimit(s, session);
    assert SessionLimit(t, session) == SessionLimit(s, session);
  }

  lemma MoreUsedStaysQuiet(s: State, t: State)
    requires ConfigValid(s.cfg) && Quiet(s) && MoreUsed(s, t)
    ensures Quiet(t)
  {
    forall k, i | k in t.ring.queues && 0 <= i < |t.ring.queues[k]| ensures !Grantable(t, t.ring.queues[k][i]) {
      var w := t.ring.queues[k][i];
      assert QueueStuck(s, k) && QueueOf(s.ring.queues, k)[i] == w;
      if Grantable(t, w) { MoreUsedTightens(s, t, w.cls, w.sessionKey); }
    }
  }

  lemma GrantUsesMore(s: State, c: Class, key: string, session: string)
    ensures MoreUsed(s, GrantLease(s, c, key, session))
  {
    BumpGet(s.use.totalUse, session);
    BumpGet(s.use.opening, session);
    BumpGet(s.use.publicUse, session);
    BumpGet(s.use.publicOpening, session);
  }

  /** A grant made outside dispatch leaves no queued waiter able to run, and at
      that moment none was able to: nobody is overtaken. */
  lemma DirectGrantOvertakesNobody(s: State, c: Class, key: string, session: string)
    requires Valid(s) && Quiet(s) && CanGrant(s, c, session)
    ensures Quiet(GrantLease(s, c, key, session))
    ensures forall k, i :: k in s.ring.queues && 0 <= i < |s.ring.queues[k]| ==> !Grantable(s, s.ring.queues[k][i])
  {
    GrantUsesMore(s, c, key, session);
    MoreUsedStaysQuiet(s, GrantLease(s, c, key, session));
    forall k, i | k in s.ring.queues && 0 <= i < |s.ring.queues[k]| ensures !Grantable(s, s.ring.queues[k][i]) {
      assert QueueStuck(s, k) && s.ring.queues[k][i] == QueueOf(s.ring.queues, k)[i];
    }
  }

  // ---- The order of a scan ----

  lemma RotationKeys(r: Ring)
    requires RingWellFormed(r)
    ensures Distinct(Rotation(r)) && forall k :: k in Rotation(r) <==> k in r.keys
  {
    hide QueuesWellFormed, AllQueued, IdsWellFormed;
    var rot := Rotation(r);
    forall k | k in r.keys ensures k in rot {
      var i :| 0 <= i < |r.keys| && r.keys[i] == k;
      if i < r.cursor { assert rot[|r.keys| - r.cursor + i] == k; } else { assert rot[i - r.cursor] == k; }
    }
  }

  lemma ScanOrder(s: State, e: Event, t: State)
    requires RingWellFormed(s.ring) && DispatchStep(s, e, t)
    ensures InRange(s, e.at) && e.at.passed < |Rotation(s.ring)| && Rotation(s.ring)[e.at.passed] == KeyAt(s, e.at)
    ensures Rotation(t.ring) ==
      OrderAfter(Rotation(s.ring), e.at.passed, |s.ring.queues[KeyAt(s, e.at)]| == 1, e.Served?)
    ensures forall k :: k in Rotation(s.ring)[..e.at.passed] ==> QueueStuck(s, k)
  {
    hide RingWellFormed, QueueStuck, Pop, Grant, BlockingConstraint, CanGrant, Rotation, OrderAfter;
    RotationAt(s.ring, e.at.passed);
    PopRotation(s.ring, e.at.passed, e.at.entry, e.Served?,
      if e.Served? then Granted(s.use.nextLease + 1)
      else Canceled(BlockingConstraint(s, WaiterAt(s, e.at).cls, WaiterAt(s, e.at).sessionKey)));
    var rot := Rotation(s.ring);
    forall k | k in rot[..e.at.passed] ensures QueueStuck(s, k) {
      var m :| 0 <= m < e.at.passed && rot[m] == k;
      RotationAt(s.ring, m);
    }
  }
}
