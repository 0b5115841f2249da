/** The server's stream-capacity manager as a value: configuration, live limit,
    admission decision, and the invariant every operation keeps. */
module StreamCapacity {
  import opened AdmissionLimit
  import opened LeaseAccounting
  import opened WaiterRing

  // ---- Configuration ----

  datatype Config = Config(
    total: int,
    public: int,
    pooled: int,
    control: int,
    maxWaiters: int,
    maxWaitersPerKey: int,
    maxOpening: int,
    reservedPublic: int)

  const DEFAULT_CONTROL_STREAMS := 4
  const DEFAULT_TOTAL := 256
  const MAX_TOTAL := 65536
  const MIN_WAITERS := 64
  const ACCEPT_BACKLOG := 256

  predicate ConfigValid(c: Config)
  {
    && 1 <= c.total
    && 0 <= c.public <= c.total
    && 0 <= c.pooled <= c.public
    && 0 <= c.control <= c.total
    && c.public + c.control <= c.total
    && 0 <= c.maxWaiters
    && 0 <= c.maxWaitersPerKey <= c.maxWaiters
    && (c.maxWaiters > 0 ==> c.maxWaitersPerKey > 0)
    && 1 <= c.maxOpening
    && 0 <= c.reservedPublic
    && (c.public > 0 ==> c.reservedPublic < c.public)
  }

  function DefaultControl(total: int): int
  {
    if total <= 1 then 0
    else Min(Max(total / 16, 1), Min(Max(total / 64, DEFAULT_CONTROL_STREAMS), 64))
  }

  /** The partition of a configured ceiling; an out-of-range ceiling falls back
      to the default one. */
  function DefaultConfig(requested: int): Config
  {
    var total := if requested < 1 || requested > MAX_TOTAL then DEFAULT_TOTAL else requested;
    var control := DefaultControl(total);
    var public := total - control;
    var oneShot := if public > 1 then (public + 3) / 4 else 0;
    var pooled := if public > 1 then public - oneShot else 0;
    var waiters := Min(Max(total, MIN_WAITERS), MAX_TOTAL);
    Config(total, public, pooled, control, waiters, waiters, Min(ACCEPT_BACKLOG, total), oneShot)
  }

  /** Every requested ceiling yields a valid partition, whose one-shot headroom
      pooled connections cannot take. */
  lemma DefaultConfigValidates(requested: int)
    ensures var c := DefaultConfig(requested);
      && ConfigValid(c)
      && c.public >= 1
      && c.public + c.control == c.total
      && (c.total > 1 ==> 1 <= c.control <= 64)
      && (c.public > 1 ==> c.public - c.pooled == c.reservedPublic >= 1)
  {
  }

  // ---- State ----

  datatype Reservation = Reservation(owner: nat, bytes: int, fds: int, legacy: bool)

  const OWNERS: nat := 8

  /** The external ledger.  `held` are the reservations whose release has not
      run; a release runs at most once. */
  datatype External = External(
    bytes: int,
    fds: int,
    legacy: int,
    ownerBytes: seq<int>,
    ownerFDs: seq<int>,
    ownerCount: seq<int>,
    held: map<nat, Reservation>,
    nextHeld: nat)

  datatype Controller = NoController | Controller(id: nat)

  datatype State = State(
    cfg: Config,
    controller: Controller,
    snap: Snapshot,
    sampling: int,
    use: Usage,
    ext: External,
    registered: set<string>,
    limits: map<string, int>,
    ring: Ring)

  // ---- Limits ----

  predicate Adaptive(s: State) { s.controller != NoController }

  function EffectiveLimit(s: State): (n: nat)
  {
    Max(0, LimitWithExternal(s.snap, s.ext.bytes, s.ext.fds))
  }

  /** The part of an effective limit withheld from public work. */
  function ProtectedOf(cfg: Config, effective: int): int
  {
    var protected := Min(cfg.control, DEFAULT_CONTROL_STREAMS);
    if protected >= effective then Max(0, effective - 1) else protected
  }

  function Protected(s: State): int { ProtectedOf(s.cfg, EffectiveLimit(s)) }

  function PublicLimitOf(cfg: Config, effective: int): int
  {
    Max(0, Min(cfg.public, effective - ProtectedOf(cfg, effective)))
  }

  function PublicLimit(s: State): int { PublicLimitOf(s.cfg, EffectiveLimit(s)) }

  function SessionLimit(s: State, session: string): int
  {
    if 0 < Get(s.limits, session) < s.cfg.total then Get(s.limits, session) else s.cfg.total
  }

  predicate PublicWaiterElsewhere(r: Ring, session: string)
  {
    exists k | k in r.queues :: exists w | w in r.queues[k] :: w.sessionKey != session && IsPublic(w.cls)
  }

  function PublicSessionLimit(s: State, session: string): int
  {
    if s.cfg.reservedPublic <= 0 || |s.registered| <= 1 || !PublicWaiterElsewhere(s.ring, session) ||
      session !in s.registered
    then s.cfg.public
    else s.cfg.public - s.cfg.reservedPublic
  }

  function PublicOpeningLimit(cfg: Config): int
  {
    var limit := cfg.maxOpening;
    if limit >= cfg.total || cfg.control <= 0 || limit <= 1 then limit
    else limit - Min(Min(cfg.control, DEFAULT_CONTROL_STREAMS), limit - 1)
  }

  // ---- The admission decision, twice ----

  predicate ClassEnabled(cfg: Config, c: Class)
  {
    match c
    case PublicPooled => cfg.public > 0 && cfg.pooled > 0
    case PublicOneShot => cfg.public > 0
    case TrustedHealth => cfg.control > 0
  }

  predicate CanGrant(s: State, c: Class, session: string)
  {
    && !(Adaptive(s) &&
      (s.snap.rejectNew || s.use.total >= EffectiveLimit(s) || (IsPublic(c) && s.use.public >= PublicLimit(s))))
    && s.use.total < s.cfg.total
    && Get(s.use.totalUse, session) < SessionLimit(s, session)
    && Get(s.use.opening, session) < s.cfg.maxOpening
    && if IsPublic(c) then
         && s.use.public < s.cfg.public
         && (c == PublicPooled ==> s.use.pooled < s.cfg.pooled)
         && Get(s.use.publicUse, session) < PublicSessionLimit(s, session)
         && Get(s.use.publicOpening, session) < PublicOpeningLimit(s.cfg)
       else s.use.control < s.cfg.control
  }

  /** The reason reported to a refused caller; WaitTurn when nothing blocks. */
  function BlockingConstraint(s: State, c: Class, session: string): Constraint
  {
    if Adaptive(s) &&
       (s.snap.rejectNew
        || (EffectiveLimit(s) < s.cfg.total && s.use.total >= EffectiveLimit(s))
        || (IsPublic(c) && PublicLimit(s) < s.cfg.public && s.use.public >= PublicLimit(s)))
    then ResourcePressure
    else if s.use.total >= s.cfg.total then TotalBudget
    else if Get(s.use.totalUse, session) >= SessionLimit(s, session) then SessionBudget
    else if IsPublic(c) then
      if s.use.public >= s.cfg.public then PublicBudget
      else if Get(s.use.publicUse, session) >= PublicSessionLimit(s, session) then SessionBudget
      else if Get(s.use.opening, session) >= s.cfg.maxOpening
              || Get(s.use.publicOpening, session) >= PublicOpeningLimit(s.cfg) then SessionOpeningLimit
      else if c == PublicPooled && s.use.pooled >= s.cfg.pooled then PooledBudget
      else WaitTurn
    else if s.use.control >= s.cfg.control then ControlBudget
    else if Get(s.use.opening, session) >= s.cfg.maxOpening then SessionOpeningLimit
    else WaitTurn
  }

  /** The two decision procedures agree in every state, valid or not. */
  lemma GrantableIffOnlyTurnBlocks(s: State, c: Class, session: string)
    ensures CanGrant(s, c, session) <==> BlockingConstraint(s, c, session) == WaitTurn
  {
  }

  // ---- The invariant ----

  function ControlWaiters(cfg: Config): int { Max(cfg.control, 1) }

  ghost predicate WithinBudgets(u: Usage, cfg: Config)
  {
    && u.public <= cfg.public
    && u.pooled <= cfg.pooled
    && u.control <= cfg.control
    && (forall k :: Get(u.opening, k) <= cfg.maxOpening)
    && (forall k :: Get(u.publicOpening, k) <= PublicOpeningLimit(cfg))
  }

  ghost predicate SessionsValid(registered: set<string>, limits: map<string, int>, cfg: Config)
  {
    forall k :: k in limits ==> k != "" && 1 <= limits[k] <= cfg.total && k in registered
  }

  ghost predicate Valid(s: State)
  {
    && ConfigValid(s.cfg)
    && Accounted(s.use)
    && WithinBudgets(s.use, s.cfg)
    && RingWellFormed(s.ring)
    && RingBounded(s.ring, s.cfg.maxWaiters, ControlWaiters(s.cfg), s.cfg.maxWaitersPerKey)
    && SessionsValid(s.registered, s.limits, s.cfg)
  }

  /** No registered session uses more than it negotiated. */
  ghost predicate WithinNegotiated(s: State)
  {
    forall k :: k in s.registered ==> Get(s.use.totalUse, k) <= SessionLimit(s, k)
  }

  // ---- Granting ----

  function GrantLease(s: State, c: Class, key: string, session: string): State
  {
    s.(use := Grant(s.use, c, key, session))
  }

  lemma GrantKeepsBudgets(s: State, c: Class, key: string, session: string)
    requires WithinBudgets(s.use, s.cfg) && CanGrant(s, c, session)
    ensures WithinBudgets(Grant(s.use, c, key, session), s.cfg)
    ensures WithinNegotiated(s) ==> WithinNegotiated(GrantLease(s, c, key, session))
  {
    BumpGet(s.use.opening, session);
    BumpGet(s.use.publicOpening, session);
    BumpGet(s.use.totalUse, session);
    assert forall k :: SessionLimit(GrantLease(s, c, key, session), k) == SessionLimit(s, k);
  }

  lemma GrantValid(s: State, c: Class, key: string, session: string)
    requires Valid(s) && CanGrant(s, c, session) && session != ""
    ensures Valid(GrantLease(s, c, key, session))
    ensures WithinNegotiated(s) ==> WithinNegotiated(GrantLease(s, c, key, session))
  {
    GrantAccounted(s.use, c, key, session);
    GrantKeepsBudgets(s, c, key, session);
  }

  function ReleaseLease(s: State, id: nat): State
    requires id in s.use.active
  {
    s.(use := Release(s.use, id))
  }

  function AdvanceLease(s: State, id: nat, phase: Phase): State
    requires id in s.use.active
  {
    s.(use := Advance(s.use, id, phase))
  }

  /** Usage that is nowhere larger stays within every budget. */
  lemma ShrinkKeepsBudgets(s: State, u: Usage)
    requires WithinBudgets(s.use, s.cfg)
    requires u.public <= s.use.public && u.pooled <= s.use.pooled && u.control <= s.use.control
    requires forall k :: Get(u.opening, k) <= Get(s.use.opening, k)
    requires forall k :: Get(u.publicOpening, k) <= Get(s.use.publicOpening, k)
    requires forall k :: Get(u.totalUse, k) <= Get(s.use.totalUse, k)
    ensures WithinBudgets(u, s.cfg)
    ensures WithinNegotiated(s) ==> WithinNegotiated(s.(use := u))
  {
    assert forall k :: SessionLimit(s.(use := u), k) == SessionLimit(s, k);
  }

  lemma ReleaseShrinks(u: Usage, id: nat)
    requires Accounted(u) && id in u.active
    ensures var v := Release(u, id);
      && v.public <= u.public && v.pooled <= u.pooled && v.control <= u.control
      && (forall k :: Get(v.opening, k) <= Get(u.opening, k))
      && (forall k :: Get(v.publicOpening, k) <= Get(u.publicOpening, k))
      && (forall k :: Get(v.totalUse, k) <= Get(u.totalUse, k))
  {
    var k := u.active[id].sessionKey;
    SessionNesting(u, k);
    hide Accounted;
    DropGet(u.opening, k);
    DropGet(u.publicOpening, k);
    DropGet(u.totalUse, k);
  }

  lemma ReleaseValid(s: State, id: nat)
    requires Valid(s) && id in s.use.active
    ensures Valid(ReleaseLease(s, id))
    ensures WithinNegotiated(s) ==> WithinNegotiated(ReleaseLease(s, id))
  {
    ReleaseAccounted(s.use, id);
    ReleaseShrinks(s.use, id);
    hide Accounted, RingWellFormed, RingBounded;
    ShrinkKeepsBudgets(s, Release(s.use, id));
  }

  lemma AdvanceShrinks(u: Usage, id: nat, phase: Phase)
    requires Accounted(u) && id in u.active
    ensures var v := Advance(u, id, phase);
      && v.public == u.public && v.pooled == u.pooled && v.control == u.control && v.totalUse == u.totalUse
      && (forall k :: Get(v.opening, k) <= Get(u.opening, k))
      && (forall k :: Get(v.publicOpening, k) <= Get(u.publicOpening, k))
  {
    var k := u.active[id].sessionKey;
    SessionNesting(u, k);
    hide Accounted;
    DropGet(u.opening, k);
    DropGet(u.publicOpening, k);
  }

  lemma AdvanceValid(s: State, id: nat, phase: Phase)
    requires Valid(s) && id in s.use.active && phase != Opening && phase != s.use.active[id].phase
    ensures Valid(AdvanceLease(s, id, phase))
    ensures WithinNegotiated(s) ==> WithinNegotiated(AdvanceLease(s, id, phase))
  {
    AdvanceAccounted(s.use, id, phase);
    AdvanceShrinks(s.use, id, phase);
    hide Accounted, RingWellFormed, RingBounded;
    ShrinkKeepsBudgets(s, Advance(s.use, id, phase));
  }
}
