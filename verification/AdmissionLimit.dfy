/** The resource snapshot the adaptive controller publishes, and the live
    admission limit it leaves once external memory and descriptor owners are
    charged. */
module AdmissionLimit {

  datatype Role = Unspecified | AgentStream | ServerStream

  /** The fields of a published snapshot that admission reads.  Charges
      and headroom are never negative: the controller clamps them. */
  datatype Snapshot = Snapshot(
    generation: nat,
    rejectNew: bool,
    usageValid: bool,
    admission: int,
    memoryAdmission: int,
    fdAdmission: int,
    maximum: int,
    chargeBytes: nat,
    chargeFDs: nat,
    role: Role,
    headroomBytes: nat,
    fdLimit: int,
    fdHeadroom: nat,
    sampled: bool,
    nextSampleAt: int)

  function Min(a: int, b: int): int { if a < b then a else b }

  function Max(a: int, b: int): int { if a > b then a else b }

  /** Whole admission slots that `amount` occupies at `charge` per slot. */
  function Slots(amount: int, charge: nat): (n: int)
    requires amount > 0 && charge > 0
    ensures n * charge >= amount > (n - 1) * charge
  {
    var q := amount / charge;
    assert amount == q * charge + amount % charge;
    assert (q + 1) * charge == q * charge + charge;
    assert (q - 1) * charge == q * charge - charge;
    if amount % charge != 0 then q + 1 else q
  }

  /** What remains of `limit` slots after `amount` is charged, or None when the
      owner alone overdraws it. */
  function Charge(limit: int, amount: int, charge: nat): int
  {
    if charge == 0 || amount <= 0 then limit
    else if Slots(amount, charge) > limit then -1
    else limit - Slots(amount, charge)
  }

  /** Overdrawn by this owner alone; distinct from no slots remaining. */
  predicate Overdraws(limit: int, amount: int, charge: nat)
  {
    charge > 0 && amount > 0 && Slots(amount, charge) > limit
  }

  function MemoryBase(s: Snapshot): int
  {
    if s.memoryAdmission == 0 && s.fdAdmission == 0 then s.admission else s.memoryAdmission
  }

  function FDBase(s: Snapshot): int
  {
    if s.memoryAdmission == 0 && s.fdAdmission == 0 then s.admission else s.fdAdmission
  }

  function FDCharge(s: Snapshot): nat
  {
    if s.role == Unspecified && s.chargeFDs == 0 then 2 else s.chargeFDs
  }

  /** The live limit; -1 when external owners overdraw the envelope. */
  function LimitWithExternal(s: Snapshot, bytes: int, fds: int): int
  {
    if Overdraws(MemoryBase(s), bytes, s.chargeBytes) then -1
    else if FDCharge(s) == 0 && fds > 0 && s.fdLimit > 0 && fds > s.fdHeadroom then -1
    else if Overdraws(FDBase(s), fds, FDCharge(s)) then -1
    else
      var limit := Min(Charge(MemoryBase(s), bytes, s.chargeBytes), Charge(FDBase(s), fds, FDCharge(s)));
      Max(0, if s.maximum > 0 then Min(limit, s.maximum) else limit)
  }

  lemma ScaleMonotone(p: int, q: int, charge: nat)
    requires p <= q
    ensures p * charge <= q * charge
  {
    assert q * charge - p * charge == (q - p) * charge;
  }

  lemma SlotsMonotone(a: int, b: int, charge: nat)
    requires 0 < a <= b && charge > 0
    ensures Slots(a, charge) <= Slots(b, charge)
  {
    if Slots(b, charge) <= Slots(a, charge) - 1 {
      ScaleMonotone(Slots(b, charge), Slots(a, charge) - 1, charge);
    }
  }

  lemma ChargeMonotone(limit: int, a: int, b: int, charge: nat)
    requires a <= b
    ensures Overdraws(limit, a, charge) ==> Overdraws(limit, b, charge)
    ensures !Overdraws(limit, b, charge) ==> Charge(limit, b, charge) <= Charge(limit, a, charge)
  {
    if charge > 0 && 0 < a {
      SlotsMonotone(a, b, charge);
    } else if charge > 0 && 0 < b && Slots(b, charge) <= 0 {
      ScaleMonotone(Slots(b, charge), 0, charge);
    }
  }

  /** External use never raises the live limit, whichever resource grows. */
  lemma LimitNeverRises(s: Snapshot, bytes: int, fds: int, bytes': int, fds': int)
    requires bytes <= bytes' && fds <= fds'
    ensures LimitWithExternal(s, bytes', fds') <= LimitWithExternal(s, bytes, fds)
  {
    ChargeMonotone(MemoryBase(s), bytes, bytes', s.chargeBytes);
    ChargeMonotone(FDBase(s), fds, fds', FDCharge(s));
  }
}
