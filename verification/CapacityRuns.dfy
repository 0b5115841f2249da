/** Every interleaving of the manager's critical sections, and what holds over
    whole runs of them. */
module CapacityRuns {
  import opened AdmissionLimit
  import opened LeaseAccounting
  import opened WaiterRing
  import opened StreamCapacity
  import opened ExternalLedger
  import opened CapacityDispatch

  // ---- The steps ----

  /** One state change made while the manager's lock is held. */
  datatype Op =
    | DirectGrant(c: Class, key: string, session: string)
    | Enqueued(c: Class, key: string, session: string)
    | Scanned(e: Event)
    | Withdrawn(index: nat, entry: nat)
    | Advanced(lease: nat, phase: Phase)
    | Released(lease: nat)
    | Reserved(r: Reservation)
    | Unreserved(id: nat)
    | Registered(session: string, limit: int)
    | Unregistered(session: string)
    | SampleBegun
    | SampleEnded(counted: bool, next: Snapshot)
    | Published(next: Snapshot)
    | ControllerReplaced(by': nat)

  /** Before the first sample: nothing is known but the ceiling. */
  function Unsampled(rejectNew: bool, ceiling: int): Snapshot
  {
    Snapshot(0, rejectNew, false, ceiling, 0, 0, ceiling, 0, 0, Unspecified, 0, 0, 0, false, 0)
  }

  const CLOSED_SNAPSHOT: Snapshot := Unsampled(true, 0)

  function NewState(cfg: Config): State
  {
    State(cfg, NoController, Unsampled(false, cfg.total), 0,
          NO_USAGE, ExternalLedger.EMPTY, {}, map[], EMPTY_RING)
  }

  function ClampLimit(cfg: Config, limit: int): int { Min(Max(limit, 1), cfg.total) }

  /** The sampled floor for existing work is not spendable credit: a usable
      sample is cut back to its gross headroom. */
  function CutToHeadroom(n: Snapshot): Snapshot
  {
    if !(n.usageValid && n.chargeBytes > 0 && !n.rejectNew) then n
    else
      var memory := Min(n.memoryAdmission, n.headroomBytes / n.chargeBytes);
      var fds := if n.fdLimit > 0 &&
        n.chargeFDs > 0 then Min(n.fdAdmission, n.fdHeadroom / n.chargeFDs) else n.fdAdmission;
      n.(memoryAdmission := memory, fdAdmission := fds, admission := Min(n.admission, Min(memory, fds)))
  }

  /** A new controller starts closed, with nothing of the old one in flight. */
  function Replaced(s: State, c: nat): State
  {
    s.(controller := Controller(c), snap := CLOSED_SNAPSHOT, sampling := 0)
  }

  /** Health waiters and public waiters have limits of their own. */
  predicate MayWait(s: State, c: Class)
  {
    if c == TrustedHealth then |HealthIds(s.ring.waiting)| < ControlWaiters(s.cfg)
    else s.ring.count - |HealthIds(s.ring.waiting)| < s.cfg.maxWaiters
  }

  predicate MayEnqueue(s: State, c: Class, key: string)
  {
    MayWait(s, c) && |QueueOf(s.ring.queues, key)| < s.cfg.maxWaitersPerKey
  }

  ghost predicate Enabled(s: State, op: Op)
  {
    match op
    case DirectGrant(c, key, session) => key != "" && session != "" && CanGrant(s, c, session)
    case Enqueued(c, key, session) => key != "" && session != "" && MayEnqueue(s, c, key)
    case Scanned(e) => InRange(s, e.at) && ReachedBy(s, e.at) && (e.Served? ==> Grantable(s, WaiterAt(s, e.at)))
    case Withdrawn(index, entry) => index < |s.ring.keys| && entry < |QueueOf(s.ring.queues, s.ring.keys[index])|
    case Advanced(id, phase) =>
      && id in s.use.active
      && (if phase == Live then s.use.active[id].phase == Opening
          else phase == Closing && s.use.active[id].phase != Closing)
    case Released(id) => id in s.use.active
    case Reserved(r) => Adaptive(s) && CanReserve(s, r)
    case Unreserved(id) => id in s.ext.held
    case Registered(session, _) => session != ""
    case Unregistered(session) => session != ""
    case SampleBegun => Adaptive(s)
    case SampleEnded(_, _) => Adaptive(s)
    case Published(_) => true
    case ControllerReplaced(_) => true
  }

  function Apply(s: State, op: Op): State
    requires LedgerWellFormed(s.ext) && Enabled(s, op)
  {
    match op
    case DirectGrant(c, key, session) => GrantLease(s, c, key, session)
    case Enqueued(c, key, session) => s.(ring := Enqueue(s.ring, c, key, session))
    case Scanned(e) => if e.Served? then Serve(s, e.at) else Discard(s, e.at)
    case Withdrawn(index, entry) =>
      var w := s.ring.queues[s.ring.keys[index]][entry];
      s.(ring := Withdraw(s.ring, index, entry, Canceled(BlockingConstraint(s, w.cls, w.sessionKey))))
    case Advanced(id, phase) => AdvanceLease(s, id, phase)
    case Released(id) => ReleaseLease(s, id)
    case Reserved(r) => s.(ext := Reserve(s.ext, r))
    case Unreserved(id) => s.(ext := Unreserve(s.ext, id))
    case Registered(session, limit) =>
      s.(registered := s.registered + {session}, limits := s.limits[session := ClampLimit(s.cfg, limit)])
    case Unregistered(session) => s.(registered := s.registered - {session}, limits := s.limits - {session})
    case SampleBegun => s.(sampling := s.sampling + 1)
    case SampleEnded(counted, next) =>
      s.(sampling := if counted then s.sampling - 1 else s.sampling,
         snap := if next.generation >= s.snap.generation then CutToHeadroom(next) else s.snap)
    case Published(next) => s.(snap := if next.generation >= s.snap.generation then next else s.snap)
    case ControllerReplaced(c) => Replaced(s, c)
  }

  ghost predicate Sound(s: State) { Valid(s) && LedgerWellFormed(s.ext) }

  ghost predicate Run(states: seq<State>, ops: seq<Op>)
  {
    && |states| == |ops| + 1
    && forall i :: 0 <= i < |ops| ==>
         LedgerWellFormed(states[i].ext) && Enabled(states[i], ops[i]) && states[i + 1] == Apply(states[i], ops[i])
  }

  // ---- The full invariant ----

  lemma NoUsageWithinBudgets(cfg: Config)
    requires ConfigValid(cfg)
    ensures WithinBudgets(NO_USAGE, cfg)
  {
    assert PublicOpeningLimit(cfg) >= 0;
  }

  lemma NewStateSound(cfg: Config)
    requires ConfigValid(cfg)
    ensures Sound(NewState(cfg)) && WithinNegotiated(NewState(cfg))
    ensures LedgerExact(NewState(cfg).ext) && Quiet(NewState(cfg))
  {
    hide LedgerExact, Accounted, RingWellFormed, RingBounded, WithinBudgets, ConfigValid;
    EmptyAccounted();
    EmptyRingWellFormed(cfg);
    NoUsageWithinBudgets(cfg);
    EmptyExact();
  }

  lemma EmptyRingWellFormed(cfg: Config)
    requires ConfigValid(cfg)
    ensures RingWellFormed(EMPTY_RING) &&
      RingBounded(EMPTY_RING, cfg.maxWaiters, ControlWaiters(cfg), cfg.maxWaitersPerKey)
  {
    assert HealthIds(map[]) == {};
  }

  lemma EnqueueKeeps(s: State, c: Class, key: string, session: string)
    requires Valid(s) && key != "" && session != "" && MayEnqueue(s, c, key)
    ensures Valid(s.(ring := Enqueue(s.ring, c, key, session)))
  {
    hide Accounted, WithinBudgets, RingWellFormed, RingBounded, Enqueue;
    EnqueueWellFormed(s.ring, c, key, session);
    EnqueueBounded(s.ring, c, key, session, s.cfg.maxWaiters, ControlWaiters(s.cfg), s.cfg.maxWaitersPerKey);
  }

  lemma WithdrawKeeps(s: State, index: nat, entry: nat, o: Outcome)
    requires Valid(s) && index < |s.ring.keys| && entry < |QueueOf(s.ring.queues, s.ring.keys[index])|
    ensures Valid(s.(ring := Withdraw(s.ring, index, entry, o)))
  {
    hide Accounted, WithinBudgets, RingWellFormed, RingBounded, Withdraw;
    WithdrawWellFormed(s.ring, index, entry, o);
    WithdrawBounded(s.ring, index, entry, o, s.cfg.maxWaiters, ControlWaiters(s.cfg), s.cfg.maxWaitersPerKey);
  }

  /** Every critical section keeps the invariant. */
  lemma ApplySound(s: State, op: Op)
    requires Sound(s) && Enabled(s, op)
    ensures Sound(Apply(s, op))
  {
    hide Accounted, WithinBudgets, RingWellFormed, RingBounded, CanGrant, CanReserve, BlockingConstraint;
    match op {
      case DirectGrant(c, key, session) => GrantValid(s, c, key, session);
      case Enqueued(c, key, session) => EnqueueKeeps(s, c, key, session);
      case Scanned(e) => DispatchStepValid(s, e, Apply(s, op));
      case Withdrawn(index, entry) =>
        var w := s.ring.queues[s.ring.keys[index]][entry];
        WithdrawKeeps(s, index, entry, Canceled(BlockingConstraint(s, w.cls, w.sessionKey)));
      case Advanced(id, phase) => AdvanceValid(s, id, phase);
      case Released(id) => ReleaseValid(s, id);
      case Reserved(r) => ReserveKeeps(s, r);
      case Unreserved(id) => UnreserveWellFormed(s.ext, op.id);
      case _ =>
    }
  }

  lemma ReserveKeeps(s: State, r: Reservation)
    requires LedgerWellFormed(s.ext) && CanReserve(s, r)
    ensures LedgerWellFormed(Reserve(s.ext, r))
  {
    ReserveWellFormed(s.ext, r);
  }

  /** The stated invariant holds in every reachable state, whatever the ceiling
      the manager was started with. */
  lemma {:induction false} EveryRunIsSound(requested: int, states: seq<State>, ops: seq<Op>)
    requires Run(states, ops) && states[0] == NewState(DefaultConfig(requested))
    ensures Sound(states[|ops|])
  {
    if ops == [] {
      DefaultConfigValidates(requested);
      NewStateSound(DefaultConfig(requested));
    } else {
      var n := |ops| - 1;
      EveryRunIsSound(requested, states[..n + 1], ops[..n]);
      ApplySound(states[n], ops[n]);
    }
  }

  // ---- The two clauses that need a hypothesis ----

  /** Setting a session's limit keeps usage within negotiated limits exactly when
      the clamped limit covers the session's live usage. */
  lemma RegisterWithinIffCovers(s: State, session: string, limit: int)
    requires Sound(s) && WithinNegotiated(s) && session != ""
    ensures WithinNegotiated(Apply(s, Registered(session, limit))) <==>
      ClampLimit(s.cfg, limit) >= Get(s.use.totalUse, session)
  {
    var t := Apply(s, Registered(session, limit));
    SessionNesting(s.use, session);
    UsageSplits(s.use);
    hide Accounted, RingWellFormed, RingBounded;
    assert SessionLimit(t, session) == ClampLimit(s.cfg, limit);
    forall k | k != session ensures SessionLimit(t, k) == SessionLimit(s, k) { }
  }

  ghost predicate Covering(s: State, op: Op)
  {
    op.Registered? ==> ClampLimit(s.cfg, op.limit) >= Get(s.use.totalUse, op.session)
  }

  lemma ApplyWithinNegotiated(s: State, op: Op)
    requires Sound(s) && Enabled(s, op) && WithinNegotiated(s) && Covering(s, op)
    ensures WithinNegotiated(Apply(s, op))
  {
    if op.Scanned? {
      ScanWithin(s, op);
    } else if op.Registered? {
      RegisterWithinIffCovers(s, op.session, op.limit);
    } else if op.Unregistered? {
      UnregisterWithin(s, op.session);
    } else if op.DirectGrant? || op.Advanced? || op.Released? {
      LeaseWithin(s, op);
    } else {
      OtherWithin(s, op);
    }
    hide *;
  }

  lemma ScanWithin(s: State, op: Op)
    requires Sound(s) && Enabled(s, op) && WithinNegotiated(s) && op.Scanned?
    ensures WithinNegotiated(Apply(s, op))
  {
    hide Valid, WithinNegotiated, LedgerWellFormed, ReachedBy, PopAt, CanGrant, Grant, BlockingConstraint;
    DispatchStepValid(s, op.e, Apply(s, op));
  }

  lemma LeaseWithin(s: State, op: Op)
    requires Sound(s) && Enabled(s, op) && WithinNegotiated(s) && (op.DirectGrant? || op.Advanced? || op.Released?)
    ensures WithinNegotiated(Apply(s, op))
  {
    hide Valid, WithinNegotiated, LedgerWellFormed, CanGrant, Grant, Release, Advance;
    match op {
      case DirectGrant(c, key, session) => GrantValid(s, c, key, session);
      case Advanced(id, phase) => AdvanceValid(s, id, phase);
      case Released(id) => ReleaseValid(s, id);
    }
  }

  /** The remaining steps touch neither leases nor limits. */
  lemma OtherWithin(s: State, op: Op)
    requires LedgerWellFormed(s.ext) && Enabled(s, op) && WithinNegotiated(s)
    requires op.Enqueued? || op.Withdrawn? || op.Reserved? || op.Unreserved? || op.SampleBegun? || op.SampleEnded? ||
      op.Published? || op.ControllerReplaced?
    ensures WithinNegotiated(Apply(s, op))
  {
    hide WithinNegotiated, LedgerWellFormed, MayEnqueue, CanReserve, BlockingConstraint, CutToHeadroom;
    hide Reserve, Unreserve, Withdraw, Enqueue;
    SameSessions(s, Apply(s, op));
  }

  lemma SameSessions(s: State, t: State)
    requires WithinNegotiated(s)
    requires t.cfg == s.cfg && t.limits == s.limits && t.registered == s.registered && t.use == s.use
    ensures WithinNegotiated(t)
  {
    assert forall k :: SessionLimit(t, k) == SessionLimit(s, k);
  }

  lemma UnregisterWithin(s: State, session: string)
    requires Sound(s) && WithinNegotiated(s) && session != ""
    ensures WithinNegotiated(Apply(s, Unregistered(session)))
  {
    hide Valid;
    var t := Apply(s, Unregistered(session));
    forall k | k in t.registered ensures SessionLimit(t, k) == SessionLimit(s, k) { }
  }

  ghost predicate Fitting(s: State, op: Op)
  {
    op.Reserved? && op.r.owner < |s.ext.ownerCount| ==> Fits(s.ext, op.r)
  }

  lemma ApplyLedgerExact(s: State, op: Op)
    requires Sound(s) && Enabled(s, op) && LedgerExact(s.ext)
    ensures LedgerExact(Apply(s, op).ext) <==> Fitting(s, op)
  {
    hide Valid, LedgerExact;
    if op.Reserved? {
      ReserveExactIffFits(s.ext, op.r);
    } else if op.Unreserved? {
      UnreserveExact(s.ext, op.id);
    }
  }

  /** Over a whole run from the start, both clauses hold if every registration
      covers live usage and every reservation fits. */
  lemma {:induction false} EveryCarefulRunIsExact(requested: int, states: seq<State>, ops: seq<Op>)
    requires Run(states, ops) && states[0] == NewState(DefaultConfig(requested))
    requires forall i :: 0 <= i < |ops| ==> Covering(states[i], ops[i]) && Fitting(states[i], ops[i])
    ensures Sound(states[|ops|]) && WithinNegotiated(states[|ops|]) && LedgerExact(states[|ops|].ext)
  {
    hide Sound, WithinNegotiated, LedgerExact, Covering, Fitting, Enabled, Apply, LedgerWellFormed;
    if ops == [] {
      DefaultConfigValidates(requested);
      NewStateSound(DefaultConfig(requested));
    } else {
      var n := |ops| - 1;
      EveryCarefulRunIsExact(requested, states[..n + 1], ops[..n]);
      assert Covering(states[n], ops[n]) && Fitting(states[n], ops[n]);
      ApplySound(states[n], ops[n]);
      ApplyWithinNegotiated(states[n], ops[n]);
      ApplyLedgerExact(states[n], ops[n]);
    }
  }

  // ---- No overcommit between publications ----

  /** Usage exceeds neither its limit nor what is given, whichever is larger. */
  ghost predicate Within(s: State, total: int, public: int)
  {
    s.use.total <= Max(EffectiveLimit(s), total) && s.use.public <= Max(PublicLimit(s), public)
  }

  ghost predicate NoOvercommit(s: State) { Adaptive(s) ==> Within(s, 0, 0) }

  predicate PublishesLimit(op: Op) { op.SampleEnded? || op.Published? || op.ControllerReplaced? }

  /** A reservation is admitted only if everything in use fits the limit it
      leaves, health streams still owed included. */
  lemma ReserveLeavesRoom(s: State, r: Reservation)
    requires Sound(s) && CanReserve(s, r)
    ensures var t := s.(ext := Reserve(s.ext, r)); s.use.total <= EffectiveLimit(t) && s.use.public <= PublicLimit(t)
  {
    var t := s.(ext := Reserve(s.ext, r));
    UsageSplits(s.use);
    hide Accounted, RingWellFormed, RingBounded;
    ReserveWellFormed(s.ext, r);
    LimitNeverRises(s.snap, s.ext.bytes, s.ext.fds, t.ext.bytes, t.ext.fds);
    PublicLimitMonotone(s.cfg, EffectiveLimit(t), EffectiveLimit(s));
  }

  lemma UnreserveKeepsWithin(s: State, id: nat, total: int, public: int)
    requires Sound(s) && Within(s, total, public) && id in s.ext.held
    ensures Within(s.(ext := Unreserve(s.ext, id)), total, public)
  {
    var t := s.(ext := Unreserve(s.ext, id));
    UnreserveWellFormed(s.ext, id);
    LimitNeverRises(s.snap, t.ext.bytes, t.ext.fds, s.ext.bytes, s.ext.fds);
    PublicLimitMonotone(s.cfg, EffectiveLimit(s), EffectiveLimit(t));
  }

  lemma ApplyWithin(s: State, op: Op, total: int, public: int)
    requires Sound(s) && Enabled(s, op) && Adaptive(s) && Within(s, total, public) && !PublishesLimit(op)
    ensures Adaptive(Apply(s, op)) && Within(Apply(s, op), total, public)
  {
    hide Accounted, RingWellFormed, RingBounded, ReachedBy, BlockingConstraint, Pop, Withdraw;
    if op.Reserved? {
      ReserveLeavesRoom(s, op.r);
    } else if op.Unreserved? {
      UnreserveKeepsWithin(s, op.id, total, public);
    } else {
      assert EffectiveLimit(Apply(s, op)) == EffectiveLimit(s);
    }
  }

  /** Whatever is granted, released, reserved or returned in whatever order,
      until the next publication usage exceeds neither the limit nor what it was
      at the last one: a limit published below usage is only approached. */
  lemma {:induction false} OvercommitNeverGrows(states: seq<State>, ops: seq<Op>)
    requires Run(states, ops) && Sound(states[0]) && Adaptive(states[0])
    requires forall i :: 0 <= i < |ops| ==> !PublishesLimit(ops[i])
    ensures var s, t := states[0], states[|ops|];
      Sound(t) && Adaptive(t) && Within(t, s.use.total, s.use.public)
  {
    hide Sound, Enabled, Apply, LedgerWellFormed;
    if ops != [] {
      var n := |ops| - 1;
      OvercommitNeverGrows(states[..n + 1], ops[..n]);
      hide Within;
      ApplySound(states[n], ops[n]);
      ApplyWithin(states[n], ops[n], states[0].use.total, states[0].use.public);
    }
  }

  lemma ApplyNoOvercommit(s: State, op: Op)
    requires Sound(s) && Enabled(s, op) && NoOvercommit(s) && !PublishesLimit(op)
    ensures NoOvercommit(Apply(s, op))
  {
    hide Within, Valid;
    if Adaptive(s) { ApplyWithin(s, op, 0, 0); }
  }

  /** In particular, a limit that covered usage when it was published is not
      exceeded until the next one. */
  lemma {:induction false} NoOvercommitBetweenPublications(states: seq<State>, ops: seq<Op>)
    requires Run(states, ops) && Sound(states[0]) && NoOvercommit(states[0])
    requires forall i :: 0 <= i < |ops| ==> !PublishesLimit(ops[i])
    ensures Sound(states[|ops|]) && NoOvercommit(states[|ops|])
  {
    hide Sound, NoOvercommit, Enabled, Apply, LedgerWellFormed;
    if ops != [] {
      var n := |ops| - 1;
      NoOvercommitBetweenPublications(states[..n + 1], ops[..n]);
      ApplySound(states[n], ops[n]);
      ApplyNoOvercommit(states[n], ops[n]);
    }
  }

  /** Within its protected reserve a health stream never meets resource
      pressure, and within its structural budget never a full total. */
  lemma HealthIsNeverSqueezed(s: State, session: string)
    requires Sound(s) && NoOvercommit(s)
    ensures s.use.control < Protected(s) && !s.snap.rejectNew ==>
      BlockingConstraint(s, TrustedHealth, session) != ResourcePressure
    ensures s.use.control < s.cfg.control ==>
      s.use.total < s.cfg.total && BlockingConstraint(s, TrustedHealth, session) != TotalBudget
  {
    UsageSplits(s.use);
    hide Accounted, RingWellFormed, RingBounded, LedgerWellFormed;
  }
}
