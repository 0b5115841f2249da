/** The external memory and descriptor ledger shared with stream admission. */
module ExternalLedger {
  import opened AdmissionLimit
  import opened StreamCapacity
  import opened Widths

  /** 64-bit addition that stops at the largest value. */
  function SaturatingAdd(a: int, b: int): int
  {
    if b <= 0 then a else if a > MAX_INT64 - b then MAX_INT64 else a + b
  }

  function AddOwner(counts: seq<int>, owner: nat, amount: int): seq<int>
    requires owner < |counts|
  {
    counts[owner := SaturatingAdd(counts[owner], amount)]
  }

  function TakeOwner(counts: seq<int>, owner: nat, amount: int): seq<int>
    requires owner < |counts|
  {
    counts[owner := Max(0, counts[owner] - amount)]
  }

  /** The control streams still owed to health probes. */
  function OwedControl(s: State): int { Max(0, Protected(s) - s.use.control) }

  predicate CanReserve(s: State, r: Reservation)
  {
    && r.owner < OWNERS && r.bytes >= 0 && r.fds >= 0
    && !s.snap.rejectNew && s.snap.usageValid && s.snap.chargeBytes > 0
    && LimitWithExternal(s.snap, SaturatingAdd(s.ext.bytes, r.bytes),
      SaturatingAdd(s.ext.fds, r.fds)) >= s.use.total + OwedControl(s)
  }

  function Reserve(e: External, r: Reservation): External
    requires r.owner < |e.ownerBytes| && r.owner < |e.ownerFDs| && r.owner < |e.ownerCount|
  {
    e.(bytes := SaturatingAdd(e.bytes, r.bytes),
       fds := SaturatingAdd(e.fds, r.fds),
       ownerBytes := AddOwner(e.ownerBytes, r.owner, r.bytes),
       ownerFDs := AddOwner(e.ownerFDs, r.owner, r.fds),
       ownerCount := AddOwner(e.ownerCount, r.owner, 1),
       legacy := if r.legacy then SaturatingAdd(e.legacy, r.bytes) else e.legacy,
       held := e.held[e.nextHeld := r],
       nextHeld := e.nextHeld + 1)
  }

  function Unreserve(e: External, id: nat): External
    requires id in e.held
    requires var o := e.held[id].owner; o < |e.ownerBytes| && o < |e.ownerFDs| && o < |e.ownerCount|
  {
    var r := e.held[id];
    e.(bytes := Max(0, e.bytes - r.bytes),
       fds := Max(0, e.fds - r.fds),
       ownerBytes := TakeOwner(e.ownerBytes, r.owner, r.bytes),
       ownerFDs := TakeOwner(e.ownerFDs, r.owner, r.fds),
       ownerCount := TakeOwner(e.ownerCount, r.owner, 1),
       legacy := Max(0, if r.legacy then e.legacy - r.bytes else e.legacy),
       held := e.held - {id})
  }

  // ---- What the ledger means ----

  datatype Measure = AllBytes | AllFDs | AllLegacy | BytesOf(owner: nat) | FDsOf(owner: nat) | CountOf(owner: nat)

  function Weight(m: Measure, r: Reservation): int
  {
    match m
    case AllBytes => r.bytes
    case AllFDs => r.fds
    case AllLegacy => if r.legacy then r.bytes else 0
    case BytesOf(o) => if r.owner == o then r.bytes else 0
    case FDsOf(o) => if r.owner == o then r.fds else 0
    case CountOf(o) => if r.owner == o then 1 else 0
  }

  ghost function Held(m: Measure, held: map<nat, Reservation>): int
    decreases |held|
  {
    if held == map[] then 0 else var id :| id in held; Weight(m, held[id]) + Held(m, held - {id})
  }

  lemma {:induction false} HeldWithout(m: Measure, held: map<nat, Reservation>, id: nat)
    requires id in held
    ensures Held(m, held) == Weight(m, held[id]) + Held(m, held - {id})
    decreases |held|
  {
    var j :| j in held && Held(m, held) == Weight(m, held[j]) + Held(m, held - {j});
    if j != id {
      HeldWithout(m, held - {j}, id);
      HeldWithout(m, held - {id}, j);
      assert held - {j} - {id} == held - {id} - {j};
    }
  }

  lemma HeldWith(m: Measure, held: map<nat, Reservation>, id: nat, r: Reservation)
    requires id !in held
    ensures Held(m, held[id := r]) == Weight(m, r) + Held(m, held)
  {
    HeldWithout(m, held[id := r], id);
    assert held[id := r] - {id} == held;
  }

  /** Always true of the ledger, saturated or not. */
  ghost predicate LedgerWellFormed(e: External)
  {
    && |e.ownerBytes| == |e.ownerFDs| == |e.ownerCount| == OWNERS
    && HeldWellFormed(e)
    && 0 <= e.bytes <= MAX_INT64 && 0 <= e.fds <= MAX_INT64
  }

  lemma ReserveWellFormed(e: External, r: Reservation)
    requires LedgerWellFormed(e) && r.owner < OWNERS && r.bytes >= 0 && r.fds >= 0
    ensures LedgerWellFormed(Reserve(e, r))
    ensures e.bytes <= Reserve(e, r).bytes && e.fds <= Reserve(e, r).fds
  {
  }

  lemma UnreserveWellFormed(e: External, id: nat)
    requires LedgerWellFormed(e) && id in e.held
    ensures LedgerWellFormed(Unreserve(e, id))
    ensures Unreserve(e, id).bytes <= e.bytes && Unreserve(e, id).fds <= e.fds
  {
  }

  ghost predicate HeldWellFormed(e: External)
  {
    forall id :: id in e.held ==>
      id < e.nextHeld && e.held[id].owner < OWNERS && e.held[id].bytes >= 0 && e.held[id].fds >= 0
  }

  lemma {:induction false} HeldNonNegative(m: Measure, e: External)
    requires HeldWellFormed(e)
    ensures Held(m, e.held) >= 0
    decreases |e.held|
  {
    if e.held != map[] {
      var id :| id in e.held;
      HeldWithout(m, e.held, id);
      HeldNonNegative(m, e.(held := e.held - {id}));
    }
  }

  /** The ledger equals the sum of its outstanding owners. */
  ghost predicate LedgerExact(e: External)
  {
    && |e.ownerBytes| == |e.ownerFDs| == |e.ownerCount| == OWNERS
    && HeldWellFormed(e)
    && e.bytes == Held(AllBytes, e.held) <= MAX_INT64
    && e.fds == Held(AllFDs, e.held) <= MAX_INT64
    && e.legacy == Held(AllLegacy, e.held)
    && (forall o :: 0 <= o < OWNERS ==> e.ownerBytes[o] == Held(BytesOf(o), e.held))
    && (forall o :: 0 <= o < OWNERS ==> e.ownerFDs[o] == Held(FDsOf(o), e.held))
    && (forall o :: 0 <= o < OWNERS ==> e.ownerCount[o] == Held(CountOf(o), e.held) <= MAX_INT64)
  }

  const EMPTY: External :=
    External(0, 0, 0, [0, 0, 0, 0, 0, 0, 0, 0], [0, 0, 0, 0, 0, 0, 0, 0], [0, 0, 0, 0, 0, 0, 0, 0], map[], 0)

  lemma {:induction false} OwnerAtMostAll(e: External, o: nat)
    requires HeldWellFormed(e)
    ensures Held(BytesOf(o), e.held) <= Held(AllBytes, e.held)
    ensures Held(FDsOf(o), e.held) <= Held(AllFDs, e.held)
    ensures Held(AllLegacy, e.held) <= Held(AllBytes, e.held)
    decreases |e.held|
  {
    if e.held != map[] {
      var id :| id in e.held;
      HeldWithout(BytesOf(o), e.held, id);
      HeldWithout(AllBytes, e.held, id);
      HeldWithout(FDsOf(o), e.held, id);
      HeldWithout(AllFDs, e.held, id);
      HeldWithout(AllLegacy, e.held, id);
      OwnerAtMostAll(e.(held := e.held - {id}), o);
    }
  }

  /** Checkable before the call: no 64-bit addition reaches its ceiling. */
  predicate Fits(e: External, r: Reservation)
    requires r.owner < |e.ownerCount|
  {
    e.bytes + r.bytes <= MAX_INT64 && e.fds + r.fds <= MAX_INT64 && e.ownerCount[r.owner] < MAX_INT64
  }

  /** A reservation keeps the ledger exact exactly when it fits. */
  lemma ReserveExactIffFits(e: External, r: Reservation)
    requires LedgerExact(e) && r.owner < OWNERS && r.bytes >= 0 && r.fds >= 0
    ensures LedgerExact(Reserve(e, r)) <==> Fits(e, r)
  {
    hide Held;
    var id, t := e.nextHeld, Reserve(e, r);
    HeldWith(AllBytes, e.held, id, r);
    HeldWith(AllFDs, e.held, id, r);
    HeldWith(AllLegacy, e.held, id, r);
    OwnerAtMostAll(e, r.owner);
    HeldNonNegative(AllBytes, e);
    HeldNonNegative(AllFDs, e);
    forall o: nat | o < OWNERS
      ensures Held(BytesOf(o), t.held) == Weight(BytesOf(o), r) + Held(BytesOf(o), e.held)
      ensures Held(FDsOf(o), t.held) == Weight(FDsOf(o), r) + Held(FDsOf(o), e.held)
      ensures Held(CountOf(o), t.held) == Weight(CountOf(o), r) + Held(CountOf(o), e.held)
    {
      HeldWith(BytesOf(o), e.held, id, r);
      HeldWith(FDsOf(o), e.held, id, r);
      HeldWith(CountOf(o), e.held, id, r);
    }
    HeldNonNegative(BytesOf(r.owner), e);
    HeldNonNegative(FDsOf(r.owner), e);
    HeldNonNegative(AllLegacy, e);
    if Fits(e, r) {
      assert HeldWellFormed(t);
      assert t.bytes == e.bytes + r.bytes && t.fds == e.fds + r.fds;
    } else if e.ownerCount[r.owner] >= MAX_INT64 {
      assert t.ownerCount[r.owner] != Held(CountOf(r.owner), t.held);
    }
  }

  lemma EmptyExact()
    ensures LedgerExact(EMPTY)
  {
  }

  /** Running a release returns exactly what was reserved, and no clamp fires. */
  lemma UnreserveExact(e: External, id: nat)
    requires LedgerExact(e) && id in e.held
    ensures LedgerExact(Unreserve(e, id))
    ensures Unreserve(e, id).bytes == e.bytes - e.held[id].bytes && Unreserve(e, id).fds == e.fds - e.held[id].fds
  {
    var t := Unreserve(e, id);
    forall m: Measure
      ensures Held(m, e.held) == Weight(m, e.held[id]) + Held(m, t.held) && Held(m, t.held) >= 0
    {
      HeldWithout(m, e.held, id);
      HeldNonNegative(m, t);
    }
  }

  /** A reservation that was never released is undone by its release. */
  lemma ReserveThenRelease(e: External, r: Reservation)
    requires LedgerExact(e) && r.owner < OWNERS && r.bytes >= 0 && r.fds >= 0 && Fits(e, r)
    ensures Unreserve(Reserve(e, r), e.nextHeld).(nextHeld := e.nextHeld) == e
  {
    ReserveExactIffFits(e, r);
    UnreserveExact(Reserve(e, r), e.nextHeld);
    OwnerAtMostAll(e, r.owner);
    HeldNonNegative(BytesOf(r.owner), e);
    HeldNonNegative(FDsOf(r.owner), e);
    HeldNonNegative(CountOf(r.owner), e);
    HeldNonNegative(AllLegacy, e);
    var t := Unreserve(Reserve(e, r), e.nextHeld);
    assert t.held == e.held;
    assert t.ownerBytes == e.ownerBytes && t.ownerFDs == e.ownerFDs && t.ownerCount == e.ownerCount;
  }
}
