/** Stream leases and the counters kept beside them: class budgets, per-session
    tallies and lease phases.  Every counter is tied to the set of active leases
    it summarises. */
module LeaseAccounting {

  datatype Class = PublicPooled | PublicOneShot | TrustedHealth

  datatype Phase = Opening | Live | Closing

  datatype Lease = Lease(cls: Class, queueKey: string, sessionKey: string, phase: Phase)

  datatype Phases = Phases(opening: int, live: int, closing: int)

  /** One counter per class and phase. */
  datatype Grid = Grid(pooled: Phases, oneShot: Phases, health: Phases)

  function RowOf(g: Grid, c: Class): Phases
  {
    match c
    case PublicPooled => g.pooled
    case PublicOneShot => g.oneShot
    case TrustedHealth => g.health
  }

  function Cell(g: Grid, c: Class, p: Phase): int
  {
    match p
    case Opening => RowOf(g, c).opening
    case Live => RowOf(g, c).live
    case Closing => RowOf(g, c).closing
  }

  function ShiftRow(r: Phases, p: Phase, delta: int): Phases
  {
    match p
    case Opening => r.(opening := r.opening + delta)
    case Live => r.(live := r.live + delta)
    case Closing => r.(closing := r.closing + delta)
  }

  function Shift(g: Grid, c: Class, p: Phase, delta: int): Grid
  {
    match c
    case PublicPooled => g.(pooled := ShiftRow(g.pooled, p, delta))
    case PublicOneShot => g.(oneShot := ShiftRow(g.oneShot, p, delta))
    case TrustedHealth => g.(health := ShiftRow(g.health, p, delta))
  }

  /** The manager's usage counters and its active leases. */
  datatype Usage = Usage(
    total: int,
    public: int,
    pooled: int,
    control: int,
    states: Grid,
    opening: map<string, int>,
    publicOpening: map<string, int>,
    publicUse: map<string, int>,
    totalUse: map<string, int>,
    active: map<nat, Lease>,
    nextLease: nat,
    granted: int,
    released: int)

  predicate IsPublic(c: Class) { c != TrustedHealth }

  /** A missing key reads as zero. */
  function Get(m: map<string, int>, k: string): int { if k in m then m[k] else 0 }

  function Bump(m: map<string, int>, k: string): map<string, int> { m[k := Get(m, k) + 1] }

  /** Counts down and forgets the key when its count would reach zero. */
  function Drop(m: map<string, int>, k: string): map<string, int>
  {
    if Get(m, k) <= 1 then m - {k} else m[k := Get(m, k) - 1]
  }

  lemma BumpGet(m: map<string, int>, k: string)
    ensures forall j :: Get(Bump(m, k), j) == Get(m, j) + (if j == k then 1 else 0)
  {
  }

  lemma DropGet(m: map<string, int>, k: string)
    requires Get(m, k) >= 0
    ensures forall j ::
      Get(Drop(m, k), j) == if j == k then (if Get(m, k) <= 1 then 0 else Get(m, k) - 1) else Get(m, j)
  {
  }

  const NO_STATES: Grid := Grid(Phases(0, 0, 0), Phases(0, 0, 0), Phases(0, 0, 0))

  const NO_USAGE: Usage := Usage(0, 0, 0, 0, NO_STATES, map[], map[], map[], map[], map[], 0, 0, 0)

  // ---- The accounting operations ----

  function Grant(u: Usage, c: Class, queueKey: string, session: string): Usage
  {
    var id := u.nextLease + 1;
    var pub := IsPublic(c);
    u.(nextLease := id,
       total := u.total + 1,
       totalUse := Bump(u.totalUse, session),
       public := if pub then u.public + 1 else u.public,
       pooled := if c == PublicPooled then u.pooled + 1 else u.pooled,
       control := if pub then u.control else u.control + 1,
       publicUse := if pub then Bump(u.publicUse, session) else u.publicUse,
       publicOpening := if pub then Bump(u.publicOpening, session) else u.publicOpening,
       states := Shift(u.states, c, Opening, 1),
       opening := Bump(u.opening, session),
       active := u.active[id := Lease(c, queueKey, session, Opening)],
       granted := u.granted + 1)
  }

  function EndOpening(u: Usage, c: Class, session: string): Usage
  {
    u.(opening := Drop(u.opening, session),
       publicOpening := if IsPublic(c) then Drop(u.publicOpening, session) else u.publicOpening)
  }

  /** Moves lease `id` to `phase`; only an opening lease gives up its opening slot. */
  function Advance(u: Usage, id: nat, phase: Phase): Usage
    requires id in u.active
  {
    var l := u.active[id];
    var v := if l.phase == Opening then EndOpening(u, l.cls, l.sessionKey) else u;
    var w := v.(states := Shift(v.states, l.cls, l.phase, -1));
    w.(states := Shift(w.states, l.cls, phase, 1), active := u.active[id := l.(phase := phase)])
  }

  function Release(u: Usage, id: nat): Usage
    requires id in u.active
  {
    var l := u.active[id];
    var pub := IsPublic(l.cls);
    var v := if l.phase == Opening then EndOpening(u, l.cls, l.sessionKey) else u;
    v.(states := Shift(v.states, l.cls, l.phase, -1),
       total := u.total - 1,
       totalUse := Drop(u.totalUse, l.sessionKey),
       public := if pub then u.public - 1 else u.public,
       pooled := if l.cls == PublicPooled then u.pooled - 1 else u.pooled,
       control := if pub then u.control else u.control - 1,
       publicUse := if pub then Drop(u.publicUse, l.sessionKey) else u.publicUse,
       active := u.active - {id},
       released := u.released + 1)
  }

  // ---- What the counters mean ----

  /** Which leases of a session a per-session map counts. */
  datatype Kind = AnyKind | OpeningKind | PublicKind | PublicOpeningKind

  predicate OfKind(kind: Kind, l: Lease)
  {
    && (kind == OpeningKind || kind == PublicOpeningKind ==> l.phase == Opening)
    && (kind == PublicKind || kind == PublicOpeningKind ==> IsPublic(l.cls))
  }

  /** The families of leases that some counter summarises. */
  datatype Family = All(kind: Kind) | OfClass(c: Class) | InPhase(cls: Class, phase: Phase) | OfSession(k: Kind,
    s: string)

  predicate Member(f: Family, l: Lease)
  {
    match f
    case All(kind) => OfKind(kind, l)
    case OfClass(c) => l.cls == c
    case InPhase(c, p) => l.cls == c && l.phase == p
    case OfSession(kind, s) => l.sessionKey == s && OfKind(kind, l)
  }

  function Ids(active: map<nat, Lease>, f: Family): set<nat>
  {
    set id | id in active && Member(f, active[id])
  }

  function Tally(active: map<nat, Lease>, f: Family): nat { |Ids(active, f)| }

  /** A per-session map holds exactly the positive tallies. */
  ghost predicate Tallies(m: map<string, int>, k: string, n: nat)
  {
    Get(m, k) == n && (k in m <==> n > 0)
  }

  ghost predicate SessionMap(m: map<string, int>, active: map<nat, Lease>, kind: Kind)
  {
    forall k :: Tallies(m, k, Tally(active, OfSession(kind, k)))
  }

  ghost predicate PhaseMap(g: Grid, active: map<nat, Lease>)
  {
    forall c, p :: Cell(g, c, p) == Tally(active, InPhase(c, p))
  }

  ghost predicate BudgetCounts(u: Usage)
  {
    && u.total == Tally(u.active, All(AnyKind))
    && u.public == Tally(u.active, All(PublicKind))
    && u.pooled == Tally(u.active, OfClass(PublicPooled))
    && u.control == Tally(u.active, OfClass(TrustedHealth))
    && u.granted - u.released == u.total
  }

  ghost predicate SessionCounts(u: Usage)
  {
    && SessionMap(u.opening, u.active, OpeningKind)
    && SessionMap(u.publicOpening, u.active, PublicOpeningKind)
    && SessionMap(u.publicUse, u.active, PublicKind)
    && SessionMap(u.totalUse, u.active, AnyKind)
  }

  ghost predicate LeasesWellFormed(u: Usage)
  {
    forall id :: id in u.active ==> 0 < id <= u.nextLease && u.active[id].sessionKey != ""
  }

  ghost predicate Accounted(u: Usage)
  {
    BudgetCounts(u) && SessionCounts(u) && PhaseMap(u.states, u.active) && LeasesWellFormed(u)
  }

  function Unit(f: Family, l: Lease): nat { if Member(f, l) then 1 else 0 }

  lemma TallyInsert(active: map<nat, Lease>, id: nat, l: Lease, f: Family)
    requires id !in active
    ensures Tally(active[id := l], f) == Tally(active, f) + Unit(f, l)
  {
    assert Ids(active[id := l], f) == Ids(active, f) + (if Member(f, l) then {id} else {});
  }

  lemma TallyDelete(active: map<nat, Lease>, id: nat, f: Family)
    requires id in active
    ensures Tally(active, f) == Tally(active - {id}, f) + Unit(f, active[id])
  {
    TallyInsert(active - {id}, id, active[id], f);
    assert (active - {id})[id := active[id]] == active;
  }

  lemma TallyReplace(active: map<nat, Lease>, id: nat, l: Lease, f: Family)
    requires id in active
    ensures Tally(active[id := l], f) + Unit(f, active[id]) == Tally(active, f) + Unit(f, l)
  {
    TallyDelete(active, id, f);
    TallyInsert(active - {id}, id, l, f);
    assert (active - {id})[id := l] == active[id := l];
  }

  // ---- Per-session maps ----

  lemma SessionInsert(m: map<string, int>, active: map<nat, Lease>, kind: Kind, id: nat, l: Lease)
    requires SessionMap(m, active, kind) && id !in active
    ensures SessionMap(if OfKind(kind, l) then Bump(m, l.sessionKey) else m, active[id := l], kind)
  {
    forall k ensures Tally(active[id := l], OfSession(kind, k)) ==
      Tally(active, OfSession(kind, k)) + Unit(OfSession(kind, k), l)
    {
      TallyInsert(active, id, l, OfSession(kind, k));
    }
  }

  lemma SessionDelete(m: map<string, int>, active: map<nat, Lease>, kind: Kind, id: nat)
    requires SessionMap(m, active, kind) && id in active
    ensures SessionMap(if OfKind(kind, active[id]) then Drop(m, active[id].sessionKey) else m, active - {id}, kind)
  {
    forall k ensures Tally(active, OfSession(kind, k)) ==
      Tally(active - {id}, OfSession(kind, k)) + Unit(OfSession(kind, k), active[id])
    {
      TallyDelete(active, id, OfSession(kind, k));
    }
  }

  lemma SessionReplace(m: map<string, int>, active: map<nat, Lease>, kind: Kind, id: nat, phase: Phase)
    requires SessionMap(m, active, kind) && id in active && phase != Opening
    ensures var l := active[id];
      SessionMap(if OfKind(kind, l) && !OfKind(kind, l.(phase := phase)) then Drop(m, l.sessionKey) else m,
                 active[id := l.(phase := phase)], kind)
  {
    var l := active[id];
    forall k ensures Tally(active[id := l.(phase := phase)], OfSession(kind, k)) + Unit(OfSession(kind, k), l)
                  == Tally(active, OfSession(kind, k)) + Unit(OfSession(kind, k), l.(phase := phase))
    {
      TallyReplace(active, id, l.(phase := phase), OfSession(kind, k));
    }
  }

  // ---- Phase counters ----

  lemma PhaseInsert(g: Grid, active: map<nat, Lease>, id: nat, l: Lease)
    requires PhaseMap(g, active) && id !in active
    ensures PhaseMap(Shift(g, l.cls, l.phase, 1), active[id := l])
  {
    forall d: Class, p: Phase
      ensures Tally(active[id := l], InPhase(d, p)) == Tally(active, InPhase(d, p)) + Unit(InPhase(d, p), l) {
      TallyInsert(active, id, l, InPhase(d, p));
    }
  }

  lemma PhaseDelete(g: Grid, active: map<nat, Lease>, id: nat)
    requires PhaseMap(g, active) && id in active
    ensures PhaseMap(Shift(g, active[id].cls, active[id].phase, -1), active - {id})
  {
    forall d: Class, p: Phase
      ensures Tally(active, InPhase(d, p)) == Tally(active - {id}, InPhase(d, p)) + Unit(InPhase(d, p), active[id]) {
      TallyDelete(active, id, InPhase(d, p));
    }
  }

  // ---- The operations keep the accounts ----

  lemma NoLeases(f: Family)
    ensures Tally(map[], f) == 0
  {
    assert Ids(map[], f) == {};
  }

  lemma NoSessionLeases(kind: Kind)
    ensures SessionMap(map[], map[], kind)
  {
    forall k ensures Tallies(map[], k, Tally(map[], OfSession(kind, k))) {
      NoLeases(OfSession(kind, k));
    }
  }

  lemma EmptyAccounted()
    ensures Accounted(NO_USAGE)
  {
    NoSessionLeases(OpeningKind);
    NoSessionLeases(PublicOpeningKind);
    NoSessionLeases(PublicKind);
    NoSessionLeases(AnyKind);
    NoLeases(All(AnyKind));
    NoLeases(All(PublicKind));
    NoLeases(OfClass(PublicPooled));
    NoLeases(OfClass(TrustedHealth));
    forall c: Class, p: Phase ensures Cell(NO_STATES, c, p) == Tally(map[], InPhase(c, p)) {
      NoLeases(InPhase(c, p));
    }
  }

  lemma GrantAccounted(u: Usage, c: Class, queueKey: string, session: string)
    requires Accounted(u) && session != ""
    ensures Accounted(Grant(u, c, queueKey, session))
  {
    var l := Lease(c, queueKey, session, Opening);
    var id := u.nextLease + 1;
    SessionInsert(u.opening, u.active, OpeningKind, id, l);
    SessionInsert(u.publicOpening, u.active, PublicOpeningKind, id, l);
    SessionInsert(u.publicUse, u.active, PublicKind, id, l);
    SessionInsert(u.totalUse, u.active, AnyKind, id, l);
    TallyInsert(u.active, id, l, All(AnyKind));
    TallyInsert(u.active, id, l, All(PublicKind));
    TallyInsert(u.active, id, l, OfClass(PublicPooled));
    TallyInsert(u.active, id, l, OfClass(TrustedHealth));
    PhaseInsert(u.states, u.active, id, l);
  }

  lemma AdvanceAccounted(u: Usage, id: nat, phase: Phase)
    requires Accounted(u) && id in u.active
    requires phase != Opening && phase != u.active[id].phase
    ensures Accounted(Advance(u, id, phase))
  {
    var l := u.active[id];
    var l' := l.(phase := phase);
    SessionReplace(u.opening, u.active, OpeningKind, id, phase);
    SessionReplace(u.publicOpening, u.active, PublicOpeningKind, id, phase);
    SessionReplace(u.publicUse, u.active, PublicKind, id, phase);
    SessionReplace(u.totalUse, u.active, AnyKind, id, phase);
    TallyReplace(u.active, id, l', All(AnyKind));
    TallyReplace(u.active, id, l', All(PublicKind));
    TallyReplace(u.active, id, l', OfClass(PublicPooled));
    TallyReplace(u.active, id, l', OfClass(TrustedHealth));
    PhaseDelete(u.states, u.active, id);
    PhaseInsert(Shift(u.states, l.cls, l.phase, -1), u.active - {id}, id, l');
    assert (u.active - {id})[id := l'] == u.active[id := l'];
  }

  lemma ReleaseAccounted(u: Usage, id: nat)
    requires Accounted(u) && id in u.active
    ensures Accounted(Release(u, id))
  {
    SessionDelete(u.opening, u.active, OpeningKind, id);
    SessionDelete(u.publicOpening, u.active, PublicOpeningKind, id);
    SessionDelete(u.publicUse, u.active, PublicKind, id);
    SessionDelete(u.totalUse, u.active, AnyKind, id);
    TallyDelete(u.active, id, All(AnyKind));
    TallyDelete(u.active, id, All(PublicKind));
    TallyDelete(u.active, id, OfClass(PublicPooled));
    TallyDelete(u.active, id, OfClass(TrustedHealth));
    PhaseDelete(u.states, u.active, id);
  }

  // ---- How the counters nest ----

  lemma SubsetSize<T>(a: set<T>, b: set<T>)
    requires a <= b
    ensures |a| <= |b|
  {
    assert b == a + (b - a);
  }

  /** The budgets nest and add up, whatever was granted and released. */
  lemma UsageSplits(u: Usage)
    requires Accounted(u)
    ensures u.total == u.public + u.control == |u.active|
    ensures 0 <= u.pooled <= u.public && 0 <= u.control
  {
    var public, control := Ids(u.active, All(PublicKind)), Ids(u.active, OfClass(TrustedHealth));
    assert Ids(u.active, All(AnyKind)) == public + control == u.active.Keys;
    assert public !! control;
    SubsetSize(Ids(u.active, OfClass(PublicPooled)), public);
  }

  lemma SessionNesting(u: Usage, k: string)
    requires Accounted(u)
    ensures 0 <= Get(u.publicOpening, k) <= Get(u.opening, k) <= Get(u.totalUse, k) <= u.total
    ensures 0 <= Get(u.publicUse, k) <= u.public
  {
    var a := u.active;
    SubsetSize(Ids(a, OfSession(PublicOpeningKind, k)), Ids(a, OfSession(OpeningKind, k)));
    SubsetSize(Ids(a, OfSession(OpeningKind, k)), Ids(a, OfSession(AnyKind, k)));
    SubsetSize(Ids(a, OfSession(AnyKind, k)), Ids(a, All(AnyKind)));
    SubsetSize(Ids(a, OfSession(PublicKind, k)), Ids(a, All(PublicKind)));
    assert Tallies(u.publicOpening, k, Tally(a, OfSession(PublicOpeningKind, k)));
    assert Tallies(u.opening, k, Tally(a, OfSession(OpeningKind, k)));
    assert Tallies(u.totalUse, k, Tally(a, OfSession(AnyKind, k)));
    assert Tallies(u.publicUse, k, Tally(a, OfSession(PublicKind, k)));
  }

  // ---- Sums over sessions ----

  ghost function Sum(m: map<string, int>): int
    decreases |m|
  {
    if m == map[] then 0 else var k :| k in m; m[k] + Sum(m - {k})
  }

  function LeasesOutside(active: map<nat, Lease>, k: string): map<nat, Lease>
  {
    map id | id in active && active[id].sessionKey != k :: active[id]
  }

  /** A per-session map adds up to the number of leases of its kind. */
  lemma {:induction false} SessionSum(m: map<string, int>, active: map<nat, Lease>, kind: Kind)
    requires SessionMap(m, active, kind)
    ensures Sum(m) == Tally(active, All(kind))
    decreases |m|
  {
    if m == map[] {
      NoSessionNoLease(m, active, kind);
    } else {
      var k :| k in m && Sum(m) == m[k] + Sum(m - {k});
      WithoutSession(m, active, kind, k);
      hide SessionMap, Tally;
      SessionSum(m - {k}, LeasesOutside(active, k), kind);
    }
  }

  lemma NoSessionNoLease(m: map<string, int>, active: map<nat, Lease>, kind: Kind)
    requires SessionMap(m, active, kind) && m == map[]
    ensures Tally(active, All(kind)) == 0
  {
    forall id | id in active ensures !Member(All(kind), active[id]) {
      var k := active[id].sessionKey;
      assert Tallies(m, k, Tally(active, OfSession(kind, k)));
      assert Ids(active, OfSession(kind, k)) == {};
      assert id !in Ids(active, OfSession(kind, k));
    }
    assert Ids(active, All(kind)) == {};
  }

  /** Leaving one session out leaves its leases out. */
  lemma WithoutSession(m: map<string, int>, active: map<nat, Lease>, kind: Kind, k: string)
    requires SessionMap(m, active, kind) && k in m
    ensures SessionMap(m - {k}, LeasesOutside(active, k), kind)
    ensures Tally(active, All(kind)) == m[k] + Tally(LeasesOutside(active, k), All(kind))
  {
    var rest := LeasesOutside(active, k);
    forall j ensures Tallies(m - {k}, j, Tally(rest, OfSession(kind, j))) {
      assert Tallies(m, j, Tally(active, OfSession(kind, j)));
      if j == k {
        assert Ids(rest, OfSession(kind, j)) == {};
      } else {
        assert Ids(rest, OfSession(kind, j)) == Ids(active, OfSession(kind, j));
      }
    }
    assert Tallies(m, k, Tally(active, OfSession(kind, k)));
    assert Ids(active, All(kind)) == Ids(rest, All(kind)) + Ids(active, OfSession(kind, k));
    assert Ids(rest, All(kind)) !! Ids(active, OfSession(kind, k));
  }

  /** Phase counters of a class add up to the class; openings add up across classes. */
  lemma PhaseSums(u: Usage)
    requires Accounted(u)
    ensures u.pooled ==
      Cell(u.states, PublicPooled, Opening) + Cell(u.states, PublicPooled, Live) + Cell(u.states, PublicPooled, Closing)
    ensures u.control ==
      Cell(u.states, TrustedHealth, Opening) + Cell(u.states, TrustedHealth, Live) +
        Cell(u.states, TrustedHealth, Closing)
    ensures u.public - u.pooled ==
      Cell(u.states, PublicOneShot, Opening) + Cell(u.states, PublicOneShot, Live) +
        Cell(u.states, PublicOneShot, Closing)
    ensures Sum(u.opening) ==
      Cell(u.states, PublicPooled, Opening) + Cell(u.states, PublicOneShot, Opening) +
        Cell(u.states, TrustedHealth, Opening)
    ensures Sum(u.publicOpening) == Cell(u.states, PublicPooled, Opening) + Cell(u.states, PublicOneShot, Opening)
    ensures Sum(u.publicUse) == u.public && Sum(u.totalUse) == u.total
  {
    ClassPhases(u.active, PublicPooled);
    ClassPhases(u.active, PublicOneShot);
    ClassPhases(u.active, TrustedHealth);
    KindSums(u.active);
    SessionSum(u.opening, u.active, OpeningKind);
    SessionSum(u.publicOpening, u.active, PublicOpeningKind);
    SessionSum(u.publicUse, u.active, PublicKind);
    SessionSum(u.totalUse, u.active, AnyKind);
  }

  lemma KindSums(a: map<nat, Lease>)
    ensures Tally(a, All(PublicKind)) == Tally(a, OfClass(PublicPooled)) + Tally(a, OfClass(PublicOneShot))
    ensures Tally(a, All(PublicOpeningKind)) ==
      Tally(a, InPhase(PublicPooled, Opening)) + Tally(a, InPhase(PublicOneShot, Opening))
    ensures Tally(a, All(OpeningKind)) == Tally(a, All(PublicOpeningKind)) + Tally(a, InPhase(TrustedHealth, Opening))
  {
    Disjoint(a, All(PublicKind), OfClass(PublicPooled), OfClass(PublicOneShot));
    Disjoint(a, All(PublicOpeningKind), InPhase(PublicPooled, Opening), InPhase(PublicOneShot, Opening));
    Disjoint(a, All(OpeningKind), All(PublicOpeningKind), InPhase(TrustedHealth, Opening));
  }

  lemma Disjoint(a: map<nat, Lease>, f: Family, g: Family, h: Family)
    requires forall id :: id in a ==>
      (Member(f, a[id]) <==> Member(g, a[id]) || Member(h, a[id])) && !(Member(g, a[id]) && Member(h, a[id]))
    ensures Tally(a, f) == Tally(a, g) + Tally(a, h)
  {
    assert Ids(a, f) == Ids(a, g) + Ids(a, h);
    assert Ids(a, g) !! Ids(a, h);
  }

  lemma ClassPhases(a: map<nat, Lease>, c: Class)
    ensures Tally(a, OfClass(c)) ==
      Tally(a, InPhase(c, Opening)) + Tally(a, InPhase(c, Live)) + Tally(a, InPhase(c, Closing))
  {
    var open, live, closing := Ids(a, InPhase(c, Opening)), Ids(a, InPhase(c, Live)), Ids(a, InPhase(c, Closing));
    assert Ids(a, OfClass(c)) == open + live + closing;
    assert open !! live && open + live !! closing;
  }
}
