/** The agent's lifetime ledger: streams in use, slots prepaid by control
    sessions, and receive memory by owner. */
module AgentLedger {
  import opened AdmissionLimit
  import opened Widths

  const CONTROL_LIMIT: int := 4
  const MAX_STREAMS: int := 65536

  datatype Owner =
    | StreamGrowth | InitialPool | GrowthPool | SessionMetadata | ControlSupplement | SessionEnvelope | StreamSupplement

  /** Bytes by account.  Streams are charged to `window`, all others to `session`. */
  datatype Accounts = Accounts(
    window: int, session: int, initialPool: int, growthPool: int, metadata: int, control: int, envelope: int,
      supplement: int)

  datatype Session = Session(bytes: int, slots: int, active: int)

  datatype Owned = Owned(owner: Owner, bytes: int)

  /** Sessions and owned resources that are not released yet, by number; a
      release function works once, on its own number. */
  datatype Ledger = Ledger(
    controlled: bool,
    maximum: int,
    inUse: int,
    controlInUse: int,
    reservedSlots: int,
    accounts: Accounts,
    sessions: map<nat, Session>,
    owned: map<nat, Owned>,
    streams: set<nat>,
    controls: map<nat, nat>,
    next: nat)

  /** For steps that read no sample. */
  const NO_SAMPLE: Snapshot := Snapshot(0, true, false, 0, 0, 0, 0, 0, 0, Unspecified, 0, 0, 0, false, 0)

  const NO_BYTES := Accounts(0, 0, 0, 0, 0, 0, 0, 0)

  function ClampMaximum(maximum: int): int
  {
    if maximum < 1 then 1 else if maximum > MAX_STREAMS then MAX_STREAMS else maximum
  }

  function NewLedger(maximum: int, controlled: bool): Ledger
  {
    Ledger(controlled, ClampMaximum(maximum), 0, 0, 0, NO_BYTES, map[], map[], {}, map[], 0)
  }

  function ActualInUse(l: Ledger): int { l.inUse + l.controlInUse }

  function Charged(l: Ledger): int { l.inUse + l.reservedSlots }

  function External(l: Ledger): int { l.accounts.window + l.accounts.session }

  /** `bytes` more, or fewer when negative, on the owner's accounts. */
  function Booked(a: Accounts, owner: Owner, bytes: int): Accounts
  {
    match owner
    case StreamGrowth => a.(window := a.window + bytes)
    case InitialPool => a.(session := a.session + bytes, initialPool := a.initialPool + bytes)
    case GrowthPool => a.(session := a.session + bytes, growthPool := a.growthPool + bytes)
    case SessionMetadata => a.(session := a.session + bytes, metadata := a.metadata + bytes)
    case ControlSupplement => a.(session := a.session + bytes, control := a.control + bytes)
    case SessionEnvelope => a.(session := a.session + bytes, envelope := a.envelope + bytes)
    case StreamSupplement => a.(window := a.window + bytes, supplement := a.supplement + bytes)
  }

  // ---- Decisions ----

  predicate MayReserveSession(l: Ledger, snap: Snapshot, bytes: int, slots: int)
  {
    && bytes >= 0 && 1 <= slots <= CONTROL_LIMIT
    && bytes <= MAX_INT64 - External(l)
    && Charged(l) + slots <= MAX_STREAMS
    && (l.controlled ==> !snap.rejectNew && LimitWithExternal(snap, External(l) + bytes, 0) >= Charged(l) + slots)
  }

  predicate MayActivate(l: Ledger, id: nat, maximum: int, bytes: int, slots: int)
  {
    && maximum >= 1 && bytes >= 0 && 1 <= slots <= CONTROL_LIMIT
    && id in l.sessions && l.sessions[id].active == 0 && slots <= l.sessions[id].slots && bytes <= l.sessions[id].bytes
    && slots <= ClampMaximum(maximum)
  }

  predicate MayOpenControl(l: Ledger, id: nat)
  {
    && id in l.sessions && l.sessions[id].active < l.sessions[id].slots
    && l.controlInUse < Min(CONTROL_LIMIT, l.maximum) && ActualInUse(l) < l.maximum
  }

  predicate MayOwn(l: Ledger, snap: Snapshot, bytes: int)
  {
    bytes >= 0 && bytes <= MAX_INT64 - External(l) && !snap.rejectNew &&
      LimitWithExternal(snap, External(l) + bytes, 0) >= Charged(l)
  }

  /** The most ordinary streams that may be open, given the current sample. */
  function OrdinaryLimit(l: Ledger, snap: Snapshot): int
  {
    var structural := Max(0, Max(l.maximum, 1) - l.controlInUse);
    if !l.controlled then structural
    else if snap.rejectNew then Min(l.inUse, structural)
    else Min(Max(0, LimitWithExternal(snap, External(l), 0) - l.reservedSlots), structural)
  }

  predicate MayOpen(l: Ledger, snap: Snapshot) { ActualInUse(l) < l.maximum && l.inUse < OrdinaryLimit(l, snap) }

  // ---- Steps ----

  datatype Op =
    | MaximumSet(maximum: int)
    | SessionReserved(bytes: int, slots: int)
    | SessionActivated(id: nat, maximum: int, bytes: int, slots: int)
    | SessionReleased(id: nat)
    | ControlOpened(id: nat)
    | ControlClosed(handle: nat)
    | ResourceOwned(owner: Owner, bytes: int)
    | ResourceReleased(id: nat)
    | StreamOpened
    | StreamClosed(handle: nat)

  predicate Enabled(l: Ledger, op: Op, snap: Snapshot)
  {
    match op
    case MaximumSet(maximum) => maximum >= 1
    case SessionReserved(bytes, slots) => MayReserveSession(l, snap, bytes, slots)
    case SessionActivated(id, maximum, bytes, slots) => MayActivate(l, id, maximum, bytes, slots)
    case SessionReleased(id) => id in l.sessions && l.sessions[id].active == 0
    case ControlOpened(id) => MayOpenControl(l, id)
    case ControlClosed(handle) => handle in l.controls && l.controls[handle] in l.sessions
    case ResourceOwned(_, bytes) => l.controlled && MayOwn(l, snap, bytes)
    case ResourceReleased(id) => id in l.owned
    case StreamOpened => MayOpen(l, snap)
    case StreamClosed(handle) => handle in l.streams
  }

  function Apply(l: Ledger, op: Op): Ledger
    requires op.SessionActivated? || op.SessionReleased? || op.ControlOpened? ==> op.id in l.sessions
    requires op.ControlClosed? ==> op.handle in l.controls && l.controls[op.handle] in l.sessions
    requires op.ResourceReleased? ==> op.id in l.owned
  {
    match op
    case MaximumSet(maximum) => l.(maximum := ClampMaximum(maximum))
    case SessionReserved(bytes, slots) =>
      l.(accounts := Booked(l.accounts, ControlSupplement, bytes), reservedSlots := l.reservedSlots + slots,
         sessions := l.sessions[l.next := Session(bytes, slots, 0)], next := l.next + 1)
    case SessionActivated(id, maximum, bytes, slots) =>
      var s := l.sessions[id];
      l.(accounts := Booked(l.accounts, ControlSupplement, bytes - s.bytes),
        reservedSlots := l.reservedSlots - (s.slots - slots),
         sessions := l.sessions[id := s.(bytes := bytes, slots := slots)], maximum := ClampMaximum(maximum))
    case SessionReleased(id) =>
      var s := l.sessions[id];
      l.(accounts := Booked(l.accounts, ControlSupplement, -s.bytes), reservedSlots := l.reservedSlots - s.slots,
         sessions := l.sessions - {id})
    case ControlOpened(id) =>
      l.(sessions := l.sessions[id := l.sessions[id].(active := l.sessions[id].active + 1)],
        controlInUse := l.controlInUse + 1,
         controls := l.controls[l.next := id], next := l.next + 1)
    case ControlClosed(handle) =>
      var id := l.controls[handle];
      var s := l.sessions[id];
      l.(sessions := l.sessions[id := s.(active := if s.active > 0 then s.active - 1 else s.active)],
         controlInUse := if l.controlInUse > 0 then l.controlInUse - 1 else l.controlInUse,
         controls := l.controls - {handle})
    case ResourceOwned(owner, bytes) =>
      l.(accounts := Booked(l.accounts, owner, bytes), owned := l.owned[l.next := Owned(owner, bytes)],
        next := l.next + 1)
    case ResourceReleased(id) =>
      l.(accounts := Booked(l.accounts, l.owned[id].owner, -l.owned[id].bytes), owned := l.owned - {id})
    case StreamOpened => l.(inUse := l.inUse + 1, streams := l.streams + {l.next}, next := l.next + 1)
    case StreamClosed(handle) =>
      l.(inUse := if l.inUse > 0 then l.inUse - 1 else l.inUse, streams := l.streams - {handle})
  }

  // ---- Sums over what is not released ----

  ghost function Total(m: map<nat, int>): int
    decreases |m|
  {
    if m == map[] then 0 else var k :| k in m; m[k] + Total(m - {k})
  }

  lemma {:induction false} TotalWithout(m: map<nat, int>, k: nat)
    requires k in m
    ensures Total(m) == m[k] + Total(m - {k})
    decreases |m|
  {
    var j :| j in m && Total(m) == m[j] + Total(m - {j});
    if j != k {
      TotalWithout(m - {j}, k);
      TotalWithout(m - {k}, j);
      assert m - {j} - {k} == m - {k} - {j};
    }
  }

  lemma TotalWith(m: map<nat, int>, k: nat, v: int)
    ensures Total(m[k := v]) == Total(m) + v - (if k in m then m[k] else 0)
  {
    TotalWithout(m[k := v], k);
    assert m[k := v] - {k} == m - {k};
    if k in m { TotalWithout(m, k); } else { assert m - {k} == m; }
  }

  lemma {:induction false} TotalBelow(m: map<nat, int>, n: map<nat, int>)
    requires m.Keys == n.Keys && forall k :: k in m ==> m[k] <= n[k]
    ensures Total(m) <= Total(n)
    decreases |m|
  {
    if m == map[] {
      assert n == map[];
    } else {
      var k :| k in m;
      TotalWithout(m, k);
      TotalWithout(n, k);
      TotalBelow(m - {k}, n - {k});
    }
  }

  /** What a measure takes from each unreleased session. */
  datatype Part = BytesPart | SlotsPart | ActivePart

  function Take(part: Part, s: Session): int
  {
    match part
    case BytesPart => s.bytes
    case SlotsPart => s.slots
    case ActivePart => s.active
  }

  function PartOf(part: Part, sessions: map<nat, Session>): map<nat, int>
  {
    map id | id in sessions :: Take(part, sessions[id])
  }

  function OwnedBy(owner: Owner, owned: map<nat, Owned>): map<nat, int>
  {
    map id | id in owned :: if owned[id].owner == owner then owned[id].bytes else 0
  }

  function ControlsOf(controls: map<nat, nat>, id: nat): set<nat> { set h | h in controls && controls[h] == id }

  // ---- What the ledger means ----

  /** Each account is the sum of what its owners hold. */
  ghost predicate AccountsExact(a: Accounts, sessions: map<nat, Session>, owned: map<nat, Owned>)
  {
    && a.initialPool == Total(OwnedBy(InitialPool, owned))
    && a.growthPool == Total(OwnedBy(GrowthPool, owned))
    && a.metadata == Total(OwnedBy(SessionMetadata, owned))
    && a.control == Total(OwnedBy(ControlSupplement, owned)) + Total(PartOf(BytesPart, sessions))
    && a.envelope == Total(OwnedBy(SessionEnvelope, owned))
    && a.supplement == Total(OwnedBy(StreamSupplement, owned))
    && a.window == Total(OwnedBy(StreamGrowth, owned)) + a.supplement
    && a.session == a.initialPool + a.growthPool + a.metadata + a.control + a.envelope
  }

  ghost predicate SessionsOk(l: Ledger)
  {
    && (forall id :: id in l.sessions ==>
          var s := l.sessions[id];
          s.bytes >= 0 && 1 <= s.slots <= CONTROL_LIMIT && 0 <= s.active <= s.slots &&
            s.active == |ControlsOf(l.controls, id)|)
    && (forall h :: h in l.controls ==> l.controls[h] in l.sessions)
  }

  ghost predicate IdsOk(l: Ledger)
  {
    && (forall id :: id in l.sessions ==> id < l.next)
    && (forall id :: id in l.owned ==> id < l.next && l.owned[id].bytes >= 0)
    && (forall h :: h in l.controls ==> h < l.next)
    && (forall h :: h in l.streams ==> h < l.next)
  }

  ghost predicate CountsExact(l: Ledger)
  {
    && l.inUse == |l.streams|
    && l.reservedSlots == Total(PartOf(SlotsPart, l.sessions))
    && l.controlInUse == Total(PartOf(ActivePart, l.sessions))
  }

  ghost predicate Valid(l: Ledger)
  {
    && 1 <= l.maximum <= MAX_STREAMS
    && AccountsExact(l.accounts, l.sessions, l.owned)
    && SessionsOk(l) && IdsOk(l) && CountsExact(l)
    && External(l) <= MAX_INT64
  }

  // ---- How the sums move ----

  lemma OwnedAdd(o: Owner, owned: map<nat, Owned>, k: nat, x: Owned)
    requires k !in owned
    ensures Total(OwnedBy(o, owned[k := x])) == Total(OwnedBy(o, owned)) + (if x.owner == o then x.bytes else 0)
  {
    assert OwnedBy(o, owned[k := x]) == OwnedBy(o, owned)[k := if x.owner == o then x.bytes else 0];
    TotalWith(OwnedBy(o, owned), k, if x.owner == o then x.bytes else 0);
  }

  lemma OwnedRemove(o: Owner, owned: map<nat, Owned>, k: nat)
    requires k in owned
    ensures Total(OwnedBy(o, owned - {k})) ==
      Total(OwnedBy(o, owned)) - (if owned[k].owner == o then owned[k].bytes else 0)
  {
    assert OwnedBy(o, owned - {k}) == OwnedBy(o, owned) - {k};
    TotalWithout(OwnedBy(o, owned), k);
  }

  lemma PartSet(part: Part, sessions: map<nat, Session>, id: nat, s: Session)
    ensures Total(PartOf(part, sessions[id := s])) ==
      Total(PartOf(part, sessions)) + Take(part, s) - (if id in sessions then Take(part, sessions[id]) else 0)
  {
    assert PartOf(part, sessions[id := s]) == PartOf(part, sessions)[id := Take(part, s)];
    TotalWith(PartOf(part, sessions), id, Take(part, s));
  }

  lemma PartRemove(part: Part, sessions: map<nat, Session>, id: nat)
    requires id in sessions
    ensures Total(PartOf(part, sessions - {id})) == Total(PartOf(part, sessions)) - Take(part, sessions[id])
  {
    assert PartOf(part, sessions - {id}) == PartOf(part, sessions) - {id};
    TotalWithout(PartOf(part, sessions), id);
  }

  lemma ControlAdd(controls: map<nat, nat>, h: nat, id: nat, j: nat)
    requires h !in controls
    ensures |ControlsOf(controls[h := id], j)| == |ControlsOf(controls, j)| + (if j == id then 1 else 0)
  {
    assert ControlsOf(controls[h := id], j) == ControlsOf(controls, j) + (if j == id then {h} else {});
  }

  lemma ControlRemove(controls: map<nat, nat>, h: nat, j: nat)
    requires h in controls
    ensures |ControlsOf(controls - {h}, j)| == |ControlsOf(controls, j)| - (if j == controls[h] then 1 else 0)
    ensures |ControlsOf(controls, controls[h])| > 0
  {
    assert h in ControlsOf(controls, controls[h]);
    assert ControlsOf(controls - {h}, j) == ControlsOf(controls, j) - (if j == controls[h] then {h} else {});
  }

  // ---- Every step keeps the ledger exact ----

  lemma OwnExact(a: Accounts, sessions: map<nat, Session>, owned: map<nat, Owned>, k: nat, x: Owned)
    requires AccountsExact(a, sessions, owned) && k !in owned
    ensures AccountsExact(Booked(a, x.owner, x.bytes), sessions, owned[k := x])
  {
    hide OwnedBy, Total;
    OwnedAdd(StreamGrowth, owned, k, x);
    OwnedAdd(InitialPool, owned, k, x);
    OwnedAdd(GrowthPool, owned, k, x);
    OwnedAdd(SessionMetadata, owned, k, x);
    OwnedAdd(ControlSupplement, owned, k, x);
    OwnedAdd(SessionEnvelope, owned, k, x);
    OwnedAdd(StreamSupplement, owned, k, x);
  }

  lemma DisownExact(a: Accounts, sessions: map<nat, Session>, owned: map<nat, Owned>, k: nat)
    requires AccountsExact(a, sessions, owned) && k in owned
    ensures AccountsExact(Booked(a, owned[k].owner, -owned[k].bytes), sessions, owned - {k})
  {
    hide OwnedBy, Total;
    OwnedRemove(StreamGrowth, owned, k);
    OwnedRemove(InitialPool, owned, k);
    OwnedRemove(GrowthPool, owned, k);
    OwnedRemove(SessionMetadata, owned, k);
    OwnedRemove(ControlSupplement, owned, k);
    OwnedRemove(SessionEnvelope, owned, k);
    OwnedRemove(StreamSupplement, owned, k);
  }

  lemma SessionSetExact(a: Accounts, sessions: map<nat, Session>, owned: map<nat, Owned>, id: nat, s: Session)
    requires AccountsExact(a, sessions, owned)
    ensures AccountsExact(Booked(a, ControlSupplement, s.bytes - (if id in sessions then sessions[id].bytes else 0)),
      sessions[id := s], owned)
  {
    hide OwnedBy, Total;
    PartSet(BytesPart, sessions, id, s);
  }

  lemma SessionGoneExact(a: Accounts, sessions: map<nat, Session>, owned: map<nat, Owned>, id: nat)
    requires AccountsExact(a, sessions, owned) && id in sessions
    ensures AccountsExact(Booked(a, ControlSupplement, -sessions[id].bytes), sessions - {id}, owned)
  {
    hide OwnedBy, Total;
    PartRemove(BytesPart, sessions, id);
  }

  lemma AccountsKept(l: Ledger, op: Op, snap: Snapshot)
    requires Valid(l) && Enabled(l, op, snap)
    ensures AccountsExact(Apply(l, op).accounts, Apply(l, op).sessions, Apply(l, op).owned)
  {
    hide AccountsExact, SessionsOk, CountsExact, LimitWithExternal;
    match op {
      case SessionReserved(bytes, slots) =>
        SessionSetExact(l.accounts, l.sessions, l.owned, l.next, Session(bytes, slots, 0));
      case SessionActivated(id, _, bytes, slots) =>
        SessionSetExact(l.accounts, l.sessions, l.owned, id, l.sessions[id].(bytes := bytes, slots := slots));
      case SessionReleased(id) => SessionGoneExact(l.accounts, l.sessions, l.owned, id);
      case ControlOpened(id) =>
        SessionSetExact(l.accounts, l.sessions, l.owned, id, l.sessions[id].(active := l.sessions[id].active + 1));
      case ControlClosed(h) =>
        SessionSetExact(l.accounts, l.sessions, l.owned, l.controls[h], Apply(l, op).sessions[l.controls[h]]);
      case ResourceOwned(owner, bytes) => OwnExact(l.accounts, l.sessions, l.owned, l.next, Owned(owner, bytes));
      case ResourceReleased(_) => DisownExact(l.accounts, l.sessions, l.owned, op.id);
      case _ =>
    }
  }

  lemma CountsKept(l: Ledger, op: Op, snap: Snapshot)
    requires Valid(l) && Enabled(l, op, snap)
    ensures CountsExact(Apply(l, op))
  {
    hide AccountsExact, LimitWithExternal, Total, PartOf, Booked, ControlsOf;
    match op {
      case SessionReserved(bytes, slots) =>
        PartSet(SlotsPart, l.sessions, l.next, Session(bytes, slots, 0));
        PartSet(ActivePart, l.sessions, l.next, Session(bytes, slots, 0));
      case SessionActivated(id, _, bytes, slots) =>
        PartSet(SlotsPart, l.sessions, id, l.sessions[id].(bytes := bytes, slots := slots));
        PartSet(ActivePart, l.sessions, id, l.sessions[id].(bytes := bytes, slots := slots));
      case SessionReleased(id) =>
        PartRemove(SlotsPart, l.sessions, id);
        PartRemove(ActivePart, l.sessions, id);
      case ControlOpened(id) =>
        PartSet(SlotsPart, l.sessions, id, l.sessions[id].(active := l.sessions[id].active + 1));
        PartSet(ActivePart, l.sessions, id, l.sessions[id].(active := l.sessions[id].active + 1));
      case ControlClosed(h) =>
        var s := Apply(l, op).sessions[l.controls[h]];
        ControlRemove(l.controls, h, l.controls[h]);
        ActiveAreCounted(l, l.controls[h]);
        PartSet(SlotsPart, l.sessions, l.controls[h], s);
        PartSet(ActivePart, l.sessions, l.controls[h], s);
      case _ =>
    }
  }

  /** The streams of one session are among all control streams. */
  lemma ActiveAreCounted(l: Ledger, id: nat)
    requires SessionsOk(l) && CountsExact(l) && id in l.sessions
    ensures l.sessions[id].active <= l.controlInUse
  {
    PartRemove(ActivePart, l.sessions, id);
    NothingBelowZero(PartOf(ActivePart, l.sessions - {id}));
  }

  lemma NothingBelowZero(m: map<nat, int>)
    requires forall k :: k in m ==> m[k] >= 0
    ensures Total(m) >= 0
  {
    var zeros := map k | k in m :: 0;
    TotalBelow(zeros, m);
    AllZero(zeros);
  }

  lemma {:induction false} AllZero(m: map<nat, int>)
    requires forall k :: k in m ==> m[k] == 0
    ensures Total(m) == 0
    decreases |m|
  {
    if m != map[] {
      var k :| k in m;
      TotalWithout(m, k);
      AllZero(m - {k});
    }
  }

  lemma SessionsKept(l: Ledger, op: Op, snap: Snapshot)
    requires Valid(l) && Enabled(l, op, snap)
    ensures SessionsOk(Apply(l, op))
  {
    hide AccountsExact, CountsExact, LimitWithExternal, ControlsOf, Booked;
    var m := Apply(l, op);
    if op.SessionReserved? {
      NoControls(l.controls, l.next);
    } else if op.ControlOpened? {
      forall id | id in m.sessions
        ensures |ControlsOf(m.controls, id)| == |ControlsOf(l.controls, id)| + (if id == op.id then 1 else 0) {
        ControlAdd(l.controls, l.next, op.id, id);
      }
    } else if op.ControlClosed? {
      forall id | id in m.sessions
        ensures |ControlsOf(m.controls, id)| ==
          |ControlsOf(l.controls, id)| - (if id == l.controls[op.handle] then 1 else 0) {
        ControlRemove(l.controls, op.handle, id);
      }
    } else if op.SessionReleased? {
      NoneOpen(l.controls, op.id);
    }
  }

  lemma NoControls(controls: map<nat, nat>, id: nat)
    requires forall h :: h in controls ==> controls[h] != id
    ensures |ControlsOf(controls, id)| == 0
  {
    assert ControlsOf(controls, id) == {};
  }

  lemma NoneOpen(controls: map<nat, nat>, id: nat)
    requires |ControlsOf(controls, id)| == 0
    ensures forall h :: h in controls ==> controls[h] != id
  {
    forall h | h in controls ensures controls[h] != id { assert h in ControlsOf(controls, id) <==> controls[h] == id; }
  }

  lemma RestKept(l: Ledger, op: Op, snap: Snapshot)
    requires Valid(l) && Enabled(l, op, snap)
    ensures IdsOk(Apply(l, op)) && 1 <= Apply(l, op).maximum <= MAX_STREAMS && External(Apply(l, op)) <= MAX_INT64
  {
    hide AccountsExact, CountsExact, LimitWithExternal, ControlsOf;
  }

  lemma ApplyValid(l: Ledger, op: Op, snap: Snapshot)
    requires Valid(l) && Enabled(l, op, snap)
    ensures Valid(Apply(l, op))
  {
    AccountsKept(l, op, snap);
    CountsKept(l, op, snap);
    SessionsKept(l, op, snap);
    RestKept(l, op, snap);
    hide AccountsExact, CountsExact, SessionsOk, IdsOk, Apply, Enabled;
  }

  // ---- Runs ----

  ghost predicate Run(ledgers: seq<Ledger>, ops: seq<Op>, snaps: seq<Snapshot>)
  {
    && |ledgers| == |ops| + 1 && |snaps| == |ops|
    && forall i :: 0 <= i < |ops| ==>
      Enabled(ledgers[i], ops[i], snaps[i]) && ledgers[i + 1] == Apply(ledgers[i], ops[i])
  }

  lemma NewAccountsExact()
    ensures AccountsExact(NO_BYTES, map[], map[])
  {
    hide Total, OwnedBy, PartOf;
    NothingOwned(StreamGrowth);
    NothingOwned(InitialPool);
    NothingOwned(GrowthPool);
    NothingOwned(SessionMetadata);
    NothingOwned(ControlSupplement);
    NothingOwned(SessionEnvelope);
    NothingOwned(StreamSupplement);
    NoParts(BytesPart);
  }

  lemma NewLedgerValid(maximum: int, controlled: bool)
    ensures Valid(NewLedger(maximum, controlled))
  {
    hide Total, PartOf, AccountsExact, ControlsOf;
    NewAccountsExact();
    NoParts(SlotsPart);
    NoParts(ActivePart);
  }

  lemma NothingOwned(o: Owner)
    ensures Total(OwnedBy(o, map[])) == 0
  {
    assert OwnedBy(o, map[]) == map[];
  }

  lemma NoParts(part: Part)
    ensures Total(PartOf(part, map[])) == 0
  {
    assert PartOf(part, map[]) == map[];
  }

  /** Whatever is reserved, opened, closed and released in whatever order, every
      account and count is the sum over what is not released. */
  lemma {:induction false} EveryRunIsValid(maximum: int, controlled: bool, ledgers: seq<Ledger>, ops: seq<Op>,
      snaps: seq<Snapshot>)
    requires Run(ledgers, ops, snaps) && ledgers[0] == NewLedger(maximum, controlled)
    ensures Valid(ledgers[|ops|])
  {
    hide Valid, Enabled, Apply;
    if ops == [] {
      NewLedgerValid(maximum, controlled);
    } else {
      var n := |ops| - 1;
      EveryRunIsValid(maximum, controlled, ledgers[..n + 1], ops[..n], snaps[..n]);
      ApplyValid(ledgers[n], ops[n], snaps[n]);
    }
  }

  /** Control streams stay within the prepaid slots, so no more streams run than
      admissions are charged; no account is negative and no sum overflows. */
  lemma Covered(l: Ledger)
    requires Valid(l)
    ensures 0 <= l.controlInUse <= l.reservedSlots && 0 <= ActualInUse(l) <= Charged(l)
    ensures var a := l.accounts;
      && a.session == a.initialPool + a.growthPool + a.metadata + a.control + a.envelope
      && a.initialPool >= 0 && a.growthPool >= 0 && a.metadata >= 0 && a.control >= 0 && a.envelope >= 0 &&
        a.supplement >= 0
      && 0 <= a.session && a.supplement <= a.window && a.window + a.session <= MAX_INT64
  {
    TotalBelow(PartOf(ActivePart, l.sessions), PartOf(SlotsPart, l.sessions));
    NothingBelowZero(PartOf(ActivePart, l.sessions));
    NothingBelowZero(PartOf(BytesPart, l.sessions));
    OwnedPositive(l, InitialPool);
    OwnedPositive(l, GrowthPool);
    OwnedPositive(l, SessionMetadata);
    OwnedPositive(l, ControlSupplement);
    OwnedPositive(l, SessionEnvelope);
    OwnedPositive(l, StreamSupplement);
    OwnedPositive(l, StreamGrowth);
  }

  lemma OwnedPositive(l: Ledger, o: Owner)
    requires IdsOk(l)
    ensures Total(OwnedBy(o, l.owned)) >= 0
  {
    NothingBelowZero(OwnedBy(o, l.owned));
  }

  // ---- One sampled limit ----

  /** The charged admissions fit the sampled limit at the present memory use. */
  ghost predicate Within(l: Ledger, snap: Snapshot)
  {
    l.controlled ==> Charged(l) <= LimitWithExternal(snap, External(l), 0)
  }

  lemma InUsePositive(l: Ledger)
    requires CountsExact(l)
    ensures l.inUse >= 0
  {
    hide Total, PartOf;
  }

  lemma ApplyWithin(l: Ledger, op: Op, snap: Snapshot)
    requires Valid(l) && Enabled(l, op, snap) && Within(l, snap)
    ensures Within(Apply(l, op), snap)
  {
    hide AccountsExact, LimitWithExternal, ControlsOf, CountsExact;
    InUsePositive(l);
    var m := Apply(l, op);
    if External(m) <= External(l) { LimitNeverRises(snap, External(m), 0, External(l), 0); }
  }

  /** While one sample is in force, no interleaving of reservations, streams and
      releases charges more admissions than it allows. */
  lemma {:induction false} OneSampleIsNeverExceeded(ledgers: seq<Ledger>, ops: seq<Op>, snaps: seq<Snapshot>,
      snap: Snapshot)
    requires Run(ledgers, ops, snaps) && Valid(ledgers[0]) && Within(ledgers[0], snap)
    requires forall i :: 0 <= i < |ops| ==> snaps[i] == snap
    ensures Valid(ledgers[|ops|]) && Within(ledgers[|ops|], snap)
  {
    hide Valid, Enabled, Apply, Within;
    if ops != [] {
      var n := |ops| - 1;
      OneSampleIsNeverExceeded(ledgers[..n + 1], ops[..n], snaps[..n], snap);
      ApplyValid(ledgers[n], ops[n], snap);
      ApplyWithin(ledgers[n], ops[n], snap);
    }
  }

  lemma NewLedgerWithin(maximum: int, controlled: bool, snap: Snapshot)
    ensures Within(NewLedger(maximum, controlled), snap)
  {
  }

  /** In particular from the start: until a second sample is taken, no agent
      charges more than the first allows. */
  lemma FirstSampleIsNeverExceeded(
      maximum: int, controlled: bool, ledgers: seq<Ledger>, ops: seq<Op>, snaps: seq<Snapshot>, snap: Snapshot)
    requires Run(ledgers, ops, snaps) && ledgers[0] == NewLedger(maximum, controlled)
    requires forall i :: 0 <= i < |ops| ==> snaps[i] == snap
    ensures Valid(ledgers[|ops|]) && Within(ledgers[|ops|], snap)
  {
    hide Valid, Enabled, Apply, Within;
    NewLedgerValid(maximum, controlled);
    NewLedgerWithin(maximum, controlled, snap);
    OneSampleIsNeverExceeded(ledgers, ops, snaps, snap);
  }
}
