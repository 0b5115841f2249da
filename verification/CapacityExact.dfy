/** When the external ledger stays exact: the reservation guard itself keeps every
    addition in range under any snapshot of a realistic size. */
module CapacityExact {
  import opened AdmissionLimit
  import opened LeaseAccounting
  import opened WaiterRing
  import opened StreamCapacity
  import opened ExternalLedger
  import opened CapacityDispatch
  import opened CapacityRuns
  import opened Widths

  /** The slots a snapshot offers, at their charge, stay below the 64-bit ceiling. */
  predicate Modest(n: Snapshot)
  {
    && MemoryBase(n) * n.chargeBytes < MAX_INT64
    && (if FDCharge(n) > 0 then FDBase(n) * FDCharge(n) < MAX_INT64 else n.fdLimit > 0 && n.fdHeadroom < MAX_INT64)
  }

  lemma WithinSlots(limit: int, amount: int, charge: nat)
    requires charge > 0 && !Overdraws(limit, amount, charge) && limit * charge < MAX_INT64
    ensures amount < MAX_INT64
  {
    if amount > 0 { ScaleMonotone(Slots(amount, charge), limit, charge); }
  }

  /** Under a modest snapshot the guard refuses whatever would saturate. */
  lemma GuardKeepsInRange(s: State, r: Reservation)
    requires Sound(s) && CanReserve(s, r) && Modest(s.snap)
    ensures s.ext.bytes + r.bytes < MAX_INT64 && s.ext.fds + r.fds < MAX_INT64
  {
    UsageSplits(s.use);
    hide Valid, Modest;
    WithinGuard(s.snap, SaturatingAdd(s.ext.bytes, r.bytes), SaturatingAdd(s.ext.fds, r.fds));
  }

  lemma WithinGuard(n: Snapshot, bytes: int, fds: int)
    requires Modest(n) && n.chargeBytes > 0 && LimitWithExternal(n, bytes, fds) >= 0
    ensures bytes < MAX_INT64 && fds < MAX_INT64
  {
    WithinSlots(MemoryBase(n), bytes, n.chargeBytes);
    if FDCharge(n) > 0 { WithinSlots(FDBase(n), fds, FDCharge(n)); }
  }

  // ---- Whole runs ----

  /** A sample under which reservations may be made at all. */
  predicate Usable(n: Snapshot) { n.usageValid && n.chargeBytes > 0 && !n.rejectNew }

  /** A snapshot under which reservations are refused, or a modest one. */
  predicate Harmless(n: Snapshot) { Usable(n) ==> Modest(n) }

  /** The snapshot this step puts in force, if any, is harmless. */
  predicate PublishesHarmless(op: Op)
  {
    (op.SampleEnded? ==> Harmless(CutToHeadroom(op.next))) && (op.Published? ==> Harmless(op.next))
  }

  /** Cutting a sample back to its headroom offers no more than the sample. */
  lemma CutIsModest(n: Snapshot)
    requires Modest(n)
    ensures Modest(CutToHeadroom(n))
  {
    var t := CutToHeadroom(n);
    assert n.chargeBytes > 0 ==> n.headroomBytes / n.chargeBytes >= 0;
    assert n.chargeFDs > 0 ==> n.fdHeadroom / n.chargeFDs >= 0;
    assert MemoryBase(t) <= MemoryBase(n) || MemoryBase(t) <= 0;
    assert FDBase(t) <= FDBase(n) || FDBase(t) <= 0;
    NoLarger(MemoryBase(t), MemoryBase(n), n.chargeBytes);
    NoLarger(FDBase(t), FDBase(n), FDCharge(n));
  }

  /** The headroom is a number of 64 bits, and the descriptor limit is known. */
  predicate Measured(n: Snapshot)
  {
    && n.headroomBytes < MAX_INT64 && n.fdHeadroom < MAX_INT64 && n.fdLimit > 0
    && (n.role == Unspecified ==> n.chargeFDs > 0)
  }

  lemma SlotsOfHeadroom(limit: int, headroom: nat, charge: nat)
    requires charge > 0 && headroom < MAX_INT64 && limit <= headroom / charge
    ensures limit * charge < MAX_INT64
  {
    assert headroom / charge * charge + headroom % charge == headroom;
    ScaleMonotone(limit, headroom / charge, charge);
  }

  /** Whatever slots a sample claims, after the cut it offers no more than it
      measured: only a sample without a descriptor limit can offer too much. */
  lemma CutIsHarmless(n: Snapshot)
    requires Measured(n)
    ensures Harmless(CutToHeadroom(n))
  {
    if Usable(n) {
      var t := CutToHeadroom(n);
      if t.memoryAdmission == 0 && t.fdAdmission == 0 {
        NoLarger(t.admission, 0, n.chargeBytes);
        NoLarger(t.admission, 0, FDCharge(n));
      } else {
        SlotsOfHeadroom(t.memoryAdmission, n.headroomBytes, n.chargeBytes);
        if n.chargeFDs > 0 { SlotsOfHeadroom(t.fdAdmission, n.fdHeadroom, n.chargeFDs); }
      }
    }
  }

  lemma NoLarger(a: int, b: int, charge: nat)
    requires (a <= b || a <= 0) && b * charge < MAX_INT64
    ensures a * charge < MAX_INT64
  {
    if a <= b { ScaleMonotone(a, b, charge); } else { ScaleMonotone(a, 0, charge); }
  }

  /** How many reservations an owner has is at most how many steps were taken. */
  ghost predicate Counted(e: External, n: nat)
  {
    forall o :: 0 <= o < |e.ownerCount| ==> e.ownerCount[o] <= n
  }

  lemma ReserveCounts(e: External, r: Reservation, n: nat)
    requires LedgerWellFormed(e) && r.owner < OWNERS && Counted(e, n)
    ensures Counted(Reserve(e, r), n + 1)
  {
  }

  lemma UnreserveCounts(e: External, id: nat, n: nat)
    requires LedgerWellFormed(e) && id in e.held && Counted(e, n)
    ensures Counted(Unreserve(e, id), n + 1)
  {
  }

  lemma StepHarmless(s: State, op: Op, n: nat)
    requires Sound(s) && Enabled(s, op) && Harmless(s.snap) && PublishesHarmless(op) && Counted(s.ext, n)
    ensures Harmless(Apply(s, op).snap) && Counted(Apply(s, op).ext, n + 1)
  {
    hide Valid, Modest, CanGrant, BlockingConstraint, Enqueue, Withdraw, PopAt, Reserve, Unreserve, CutToHeadroom;
    match op {
      case Reserved(r) => ReserveCounts(s.ext, r, n);
      case Unreserved(id) => UnreserveCounts(s.ext, id, n);
      case _ =>
    }
  }

  lemma {:induction false} RunHarmless(requested: int, states: seq<State>, ops: seq<Op>)
    requires Run(states, ops) && states[0] == NewState(DefaultConfig(requested))
    requires forall i :: 0 <= i < |ops| ==> PublishesHarmless(ops[i])
    ensures Sound(states[|ops|]) && Harmless(states[|ops|].snap) && Counted(states[|ops|].ext, |ops|)
  {
    hide Sound, Harmless, Counted, Enabled, Apply, LedgerWellFormed, PublishesHarmless;
    EveryRunIsSound(requested, states, ops);
    if ops == [] {
      NewStateHarmless(DefaultConfig(requested));
    } else {
      var n := |ops| - 1;
      RunHarmless(requested, states[..n + 1], ops[..n]);
      assert PublishesHarmless(ops[n]);
      StepHarmless(states[n], ops[n], n);
    }
  }

  lemma NewStateHarmless(cfg: Config)
    ensures Harmless(NewState(cfg).snap) && Counted(NewState(cfg).ext, 0)
  {
  }

  lemma ModestFits(s: State, op: Op, n: nat)
    requires Sound(s) && Enabled(s, op) && Harmless(s.snap) && Counted(s.ext, n) && n < MAX_INT64
    ensures Fitting(s, op)
  {
    hide Valid, Modest;
    if op.Reserved? {
      GuardKeepsInRange(s, op.r);
    }
  }

  /** If every snapshot put in force is harmless and every registration covers
      live usage, the whole stated invariant holds; no reservation need be
      watched. */
  lemma EveryModestRunIsExact(requested: int, states: seq<State>, ops: seq<Op>)
    requires Run(states, ops) && states[0] == NewState(DefaultConfig(requested)) && |ops| <= MAX_INT64
    requires forall i :: 0 <= i < |ops| ==> Covering(states[i], ops[i]) && PublishesHarmless(ops[i])
    ensures Sound(states[|ops|]) && WithinNegotiated(states[|ops|]) && LedgerExact(states[|ops|].ext)
  {
    hide Sound, WithinNegotiated, LedgerExact, Covering, Fitting, Enabled, Apply, LedgerWellFormed, PublishesHarmless,
      Harmless, Counted;
    forall i | 0 <= i < |ops| ensures Covering(states[i], ops[i]) && Fitting(states[i], ops[i]) {
      assert Run(states[..i + 1], ops[..i]);
      assert forall j :: 0 <= j < i ==> PublishesHarmless(ops[..i][j]);
      RunHarmless(requested, states[..i + 1], ops[..i]);
      assert Enabled(states[i], ops[i]);
      ModestFits(states[i], ops[i], i);
    }
    EveryCarefulRunIsExact(requested, states, ops);
  }

  /** A sample that fails closed, or one that knows its descriptor limit. */
  predicate Samples(op: Op) { !op.Published? && (op.SampleEnded? && Usable(op.next) ==> Measured(op.next)) }

  /** In particular, whatever slots the samples claim: if none of them lacks a
      descriptor limit, the ledger stays exact. */
  lemma EverySampledRunIsExact(requested: int, states: seq<State>, ops: seq<Op>)
    requires Run(states, ops) && states[0] == NewState(DefaultConfig(requested)) && |ops| <= MAX_INT64
    requires forall i :: 0 <= i < |ops| ==> Covering(states[i], ops[i]) && Samples(ops[i])
    ensures Sound(states[|ops|]) && WithinNegotiated(states[|ops|]) && LedgerExact(states[|ops|].ext)
  {
    hide Sound, WithinNegotiated, LedgerExact, Covering, Enabled, Apply, LedgerWellFormed, PublishesHarmless;
    forall i | 0 <= i < |ops| ensures Covering(states[i], ops[i]) && PublishesHarmless(ops[i]) {
      assert Samples(ops[i]);
      SamplesAreHarmless(ops[i]);
    }
    EveryModestRunIsExact(requested, states, ops);
  }

  lemma SamplesAreHarmless(op: Op)
    requires Samples(op)
    ensures PublishesHarmless(op)
  {
    if op.SampleEnded? && Usable(op.next) { CutIsHarmless(op.next); }
  }
}
