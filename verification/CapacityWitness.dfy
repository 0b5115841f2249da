/** Runs of the manager that show why three properties need their hypotheses. */
module CapacityWitness {
  import opened AdmissionLimit
  import opened LeaseAccounting
  import opened WaiterRing
  import opened StreamCapacity
  import opened ExternalLedger
  import opened CapacityDispatch
  import opened CapacityRuns
  import opened CapacityExact
  import opened RoundRobin
  import opened Division
  import opened Widths

  const SMALL: Config := Config(4, 3, 2, 1, 64, 64, 4, 1)

  lemma SmallIsDefault()
    ensures DefaultConfig(4) == SMALL && LedgerWellFormed(ExternalLedger.EMPTY)
  {
  }

  ghost predicate Leads(s: State, op: Op, t: State)
  {
    LedgerWellFormed(s.ext) && Enabled(s, op) && t == Apply(s, op)
  }

  lemma RunOfFour(states: seq<State>, ops: seq<Op>)
    requires |states| == 5 && |ops| == 4
    requires Leads(states[0], ops[0], states[1]) && Leads(states[1], ops[1], states[2])
    requires Leads(states[2], ops[2], states[3]) && Leads(states[3], ops[3], states[4])
    ensures Run(states, ops)
  {
    hide LedgerWellFormed, Enabled, Apply;
    forall i | 0 <= i < 4 ensures Leads(states[i], ops[i], states[i + 1]) { }
  }

  // ---- Negotiated limits ----

  function WithLimit(limit: int, use: Usage): State
  {
    NewState(SMALL).(registered := {"s"}, limits := map["s" := limit], use := use)
  }

  function OneMore(u: Usage): Usage { Grant(u, PublicOneShot, "k", "s") }

  lemma GrantsOneMore(u: Usage)
    requires u == NO_USAGE || u == OneMore(NO_USAGE)
    ensures Leads(WithLimit(2, u), DirectGrant(PublicOneShot, "k", "s"), WithLimit(2, OneMore(u)))
    ensures Get(OneMore(u).totalUse, "s") == if u == NO_USAGE then 1 else 2
  {
    SmallIsDefault();
    hide LedgerWellFormed;
    assert u == NO_USAGE || u == OneMore(NO_USAGE);
    assert CanGrant(WithLimit(2, u), PublicOneShot, "s");
  }

  lemma Reregisters(limit: int, use: Usage)
    requires 1 <= limit <= 2
    ensures Leads(NewState(SMALL), Registered("s", limit), WithLimit(limit, NO_USAGE))
    ensures Leads(WithLimit(2, use), Registered("s", limit), WithLimit(limit, use))
  {
    SmallIsDefault();
    hide LedgerWellFormed;
    assert {"s"} + {"s"} == {"s"} && {} + {"s"} == {"s"};
    assert map["s" := 2]["s" := limit] == map["s" := limit] && map[]["s" := limit] == map["s" := limit];
  }

  lemma NegotiatedIff(limit: int, use: Usage)
    requires 1 <= limit <= 2
    ensures WithinNegotiated(WithLimit(limit, use)) <==> Get(use.totalUse, "s") <= limit
  {
    var s := WithLimit(limit, use);
    assert SessionLimit(s, "s") == limit && "s" in s.registered;
  }

  /** A session with two leases is registered again with a limit of one. */
  lemma LoweredBelowUsage() returns (states: seq<State>, ops: seq<Op>)
    ensures Run(states, ops) && states[0] == NewState(DefaultConfig(4)) && |ops| == 4
    ensures WithinNegotiated(states[3]) && !WithinNegotiated(states[4])
  {
    hide Leads, WithinNegotiated, OneMore, DefaultConfig, NewState, WithLimit;
    SmallIsDefault();
    var u1, u2 := OneMore(NO_USAGE), OneMore(OneMore(NO_USAGE));
    var grant := DirectGrant(PublicOneShot, "k", "s");
    ops := [Registered("s", 2), grant, grant, Registered("s", 1)];
    states := [NewState(SMALL), WithLimit(2, NO_USAGE), WithLimit(2, u1), WithLimit(2, u2), WithLimit(1, u2)];
    Reregisters(2, NO_USAGE);
    GrantsOneMore(NO_USAGE);
    GrantsOneMore(u1);
    Reregisters(1, u2);
    NegotiatedIff(2, u2);
    NegotiatedIff(1, u2);
    RunOfFour(states, ops);
  }

  // ---- The external ledger ----

  const FULL: Reservation := Reservation(0, 0, MAX_INT64, false)
  const ONE_FD: Reservation := Reservation(0, 0, 1, false)

  const CHARGE: nat := 65536

  /** A sample of the server, whose streams own no descriptors, on a machine whose
      descriptor limit is not known.  Its slots are what its headroom holds. */
  function UnknownLimit(slots: nat): Snapshot
  {
    Snapshot(1, false, true, slots, slots, slots, slots, CHARGE, 0, ServerStream, slots * CHARGE, 0, 0, true, 0)
  }

  lemma UnknownLimitOffers(slots: nat, fds: int)
    ensures CutToHeadroom(UnknownLimit(slots)) == UnknownLimit(slots)
    ensures LimitWithExternal(UnknownLimit(slots), 0, fds) == slots
    ensures !Harmless(UnknownLimit(slots))
  {
    DivMod(slots * CHARGE, CHARGE, slots, 0);
  }

  function Controlled(snap: Snapshot, sampling: int, ext: External): State
  {
    NewState(SMALL).(controller := Controller(1), snap := snap, sampling := sampling, ext := ext)
  }

  lemma Controls()
    ensures Leads(NewState(SMALL), ControllerReplaced(1), Controlled(CLOSED_SNAPSHOT, 0, ExternalLedger.EMPTY))
    ensures Leads(Controlled(CLOSED_SNAPSHOT, 0, ExternalLedger.EMPTY), SampleBegun,
      Controlled(CLOSED_SNAPSHOT, 1, ExternalLedger.EMPTY))
    ensures Leads(Controlled(CLOSED_SNAPSHOT, 1, ExternalLedger.EMPTY), SampleEnded(true, UnknownLimit(4)),
      Controlled(UnknownLimit(4), 0, ExternalLedger.EMPTY))
  {
    SmallIsDefault();
    UnknownLimitOffers(4, 0);
    hide LedgerWellFormed, CutToHeadroom;
  }

  /** Both the full ledger and one descriptor more pass the guard. */
  lemma Admits(e: External, r: Reservation)
    requires LedgerWellFormed(e) && e.bytes == 0 && (e.fds == 0 || e.fds == MAX_INT64)
    requires r == FULL || (r == ONE_FD && e.fds == MAX_INT64)
    ensures Leads(Controlled(UnknownLimit(4), 0, e), Reserved(r), Controlled(UnknownLimit(4), 0, Reserve(e, r)))
    ensures Reserve(e, r).fds == MAX_INT64 && Reserve(e, r).bytes == 0 && LedgerWellFormed(Reserve(e, r))
  {
    ReserveWellFormed(e, r);
    UnknownLimitOffers(4, e.fds);
    UnknownLimitOffers(4, MAX_INT64);
    hide LimitWithExternal, LedgerWellFormed;
    assert SaturatingAdd(e.fds, r.fds) == MAX_INT64;
    assert CanReserve(Controlled(UnknownLimit(4), 0, e), r);
  }

  /** The guard admits a descriptor the saturated ledger cannot count, and then
      the ledger no longer adds up. */
  lemma SaturationBreaksTheLedger() returns (states: seq<State>, ops: seq<Op>)
    ensures Run(states, ops) && states[0] == NewState(DefaultConfig(4)) && |ops| == 5
    ensures ops[2] == SampleEnded(true, UnknownLimit(4)) && ops[3] == Reserved(FULL) && ops[4] == Reserved(ONE_FD)
    ensures LedgerExact(states[4].ext) && !LedgerExact(states[5].ext)
  {
    SmallIsDefault();
    hide Leads, LedgerExact, LedgerWellFormed, DefaultConfig, UnknownLimit;
    var none := ExternalLedger.EMPTY;
    var full := Reserve(none, FULL);
    Controls();
    Admits(none, FULL);
    Admits(full, ONE_FD);
    EmptyExact();
    ReserveExactIffFits(none, FULL);
    ReserveExactIffFits(full, ONE_FD);
    states, ops := StartOf(SMALL);
    states, ops := Extended(states, ops, ControllerReplaced(1), Controlled(CLOSED_SNAPSHOT, 0, none));
    states, ops := Extended(states, ops, SampleBegun, Controlled(CLOSED_SNAPSHOT, 1, none));
    states, ops := Extended(states, ops, SampleEnded(true, UnknownLimit(4)), Controlled(UnknownLimit(4), 0, none));
    states, ops := Extended(states, ops, Reserved(FULL), Controlled(UnknownLimit(4), 0, full));
    states, ops := Extended(states, ops, Reserved(ONE_FD), Controlled(UnknownLimit(4), 0, Reserve(full, ONE_FD)));
  }

  lemma StartOf(cfg: Config) returns (states: seq<State>, ops: seq<Op>)
    ensures Run(states, ops) && states == [NewState(cfg)] && ops == []
  {
    states, ops := [NewState(cfg)], [];
  }

  // ---- Round robin ----

  const SINGLE: Config := Config(1, 1, 0, 0, 64, 64, 1, 0)

  lemma SingleIsDefault()
    ensures DefaultConfig(1) == SINGLE && LedgerWellFormed(ExternalLedger.EMPTY)
  {
  }

  /** No lease is active, after `n` were granted and released. */
  function Free(n: nat): Usage { NO_USAGE.(nextLease := n, granted := n, released := n) }

  function Taken(n: nat, key: string): Usage { Grant(Free(n), PublicOneShot, key, "s") }

  function Holding(cfg: Config, use: Usage, ring: Ring): State { NewState(cfg).(use := use, ring := ring) }

  function With(use: Usage, ring: Ring): State { Holding(SINGLE, use, ring) }

  lemma FreeGrants(n: nat, ring: Ring)
    ensures CanGrant(With(Free(n), ring), PublicOneShot, "s")
  {
  }

  lemma TakenAndFreed(n: nat, key: string)
    ensures var u := Taken(n, key); n + 1 in u.active && Release(u, n + 1) == Free(n + 1)
  {
    var u := Taken(n, key);
    assert u.active[n + 1] == Lease(PublicOneShot, key, "s", Opening);
    OnlyOne("s");
    OnlyLease(n + 1, u.active[n + 1]);
    ThereAndBack();
    hide Bump, Drop, Shift;
  }

  lemma OnlyLease(id: nat, l: Lease)
    ensures map[][id := l] - {id} == map[]
  {
  }

  lemma ThereAndBack()
    ensures Shift(Shift(NO_STATES, PublicOneShot, Opening, 1), PublicOneShot, Opening, -1) == NO_STATES
  {
  }

  lemma OnlyOne(k: string)
    ensures Drop(Bump(map[], k), k) == map[]
  {
  }

  lemma Releases(cfg: Config, n: nat, key: string, ring: Ring)
    requires LedgerWellFormed(ExternalLedger.EMPTY)
    ensures Leads(Holding(cfg, Taken(n, key), ring), Released(n + 1), Holding(cfg, Free(n + 1), ring))
  {
    TakenAndFreed(n, key);
    hide LedgerWellFormed, Taken, Release;
  }

  lemma GrantsFirst(ring: Ring)
    ensures Leads(With(Free(0), ring), DirectGrant(PublicOneShot, "x", "s"), With(Taken(0, "x"), ring))
  {
    SingleIsDefault();
    FreeGrants(0, ring);
    hide LedgerWellFormed, CanGrant;
  }

  /** The ring's keys and cursor, and how many waiters each key has. */
  ghost predicate Has(r: Ring, keys: seq<string>, cursor: nat, lengths: map<string, nat>)
  {
    && r.keys == keys && r.cursor == cursor && r.count < 10
    && r.queues.Keys == lengths.Keys
    && (forall k :: k in r.queues ==> |r.queues[k]| == lengths[k] < 10)
    && forall k, i :: k in r.queues && 0 <= i < |r.queues[k]| ==> IsPlain(r.queues[k][i], k)
  }

  predicate IsPlain(w: Waiter, key: string) { w.cls == PublicOneShot && w.queueKey == key && w.sessionKey == "s" }

  lemma Enqueues(u: Usage, r: Ring, key: string, cursor: nat, lengths: map<string, nat>)
    requires Has(r, r.keys, cursor, lengths) && r.count < 9 && key != ""
    requires key in lengths ==> 0 < lengths[key] < 9
    ensures var t := Enqueue(r, PublicOneShot, key, "s");
      && Leads(With(u, r), Enqueued(PublicOneShot, key, "s"), With(u, t)) && t.count == r.count + 1
      && Has(t, if key in lengths then r.keys else r.keys + [key], cursor,
             lengths[key := if key in lengths then lengths[key] + 1 else 1])
  {
    SingleIsDefault();
    hide LedgerWellFormed;
  }

  const FIRST: Position := Position(0, 0)

  /** The waiter at the cursor taken out. */
  function AfterServing(n: nat, r: Ring): Ring
  {
    if r.cursor < |r.keys| &&
      0 < |QueueOf(r.queues, r.keys[r.cursor])| then Pop(r, r.cursor, 0, true, Granted(n + 1)) else r
  }

  /** The scan stops at once, at the first waiter of the key under the cursor. */
  lemma StopsAtCursor(s: State, key: string)
    requires s.ring.cursor < |s.ring.keys| && s.ring.keys[s.ring.cursor] == key && 0 < |QueueOf(s.ring.queues, key)|
    ensures InRange(s, FIRST) && ReachedBy(s, FIRST) && KeyAt(s, FIRST) == key
    ensures WaiterAt(s, FIRST) == s.ring.queues[key][0]
    ensures forall k :: Serves(s, SCAN, k) <==> k == key
    ensures PopAt(s, FIRST, true, Granted(s.use.nextLease + 1)) == AfterServing(s.use.nextLease, s.ring)
  {
    assert Index(s.ring, 0) == s.ring.cursor;
    hide Pop;
    assert s.ring.(cursor := s.ring.cursor) == s.ring;
  }

  lemma ServesNext(n: nat, r: Ring, key: string, lengths: map<string, nat>)
    requires Has(r, r.keys, r.cursor, lengths) && r.cursor < |r.keys| && r.keys[r.cursor] == key && key in lengths
    requires 0 < lengths[key]
    ensures Leads(With(Free(n), r), SCAN, With(Taken(n, key), AfterServing(n, r)))
    ensures forall k :: Serves(With(Free(n), r), SCAN, k) <==> k == key
  {
    SingleIsDefault();
    FreeGrants(n, r);
    assert IsPlain(r.queues[key][0], key);
    StopsAtCursor(With(Free(n), r), key);
    hide LedgerWellFormed, CanGrant, AfterServing, PopAt, ReachedBy, InRange, WaiterAt, KeyAt, Serves, Has, Grant;
  }

  lemma RingAfterServing(n: nat, r: Ring, key: string, lengths: map<string, nat>)
    requires Has(r, r.keys, r.cursor, lengths) && r.cursor < |r.keys| && r.keys[r.cursor] == key && key in lengths &&
      0 < lengths[key]
    ensures AfterServing(n, r).count == r.count - 1
    ensures lengths[key] == 1 ==>
      var keys := Without(r.keys, r.cursor);
      Has(AfterServing(n, r), keys, if r.cursor >= |keys| then 0 else r.cursor, lengths - {key})
    ensures lengths[key] > 1 ==>
      Has(AfterServing(n, r), r.keys, (r.cursor + 1) % |r.keys|, lengths[key := lengths[key] - 1])
  {
  }

  function Queue(r: Ring, key: string): Ring { Enqueue(r, PublicOneShot, key, "s") }

  function Ask(key: string): Op { Enqueued(PublicOneShot, key, "s") }

  const SCAN: Op := Scanned(Served(FIRST))

  /** Two requests of "a", one of "b" and one of "c", while a lease is taken. */
  ghost const WAITING: Ring := Queue(Queue(Queue(Queue(EMPTY_RING, "a"), "a"), "b"), "c")

  const ONE_A: map<string, nat> := map["a" := 1]
  const TWO_A: map<string, nat> := map["a" := 2]
  const TWO_A_ONE_B: map<string, nat> := map["a" := 2, "b" := 1]
  const BEFORE: map<string, nat> := map["a" := 2, "b" := 1, "c" := 1]

  lemma Lengths()
    ensures map[]["a" := 1] == ONE_A && ONE_A["a" := 2] == TWO_A && TWO_A["b" := 1] == TWO_A_ONE_B
    ensures TWO_A_ONE_B["c" := 1] == BEFORE
  {
  }

  lemma FillA(u: Usage)
    ensures var r1 := Queue(EMPTY_RING, "a");
      var r2 := Queue(r1, "a");
      && Leads(With(u, EMPTY_RING), Ask("a"), With(u, r1)) && Leads(With(u, r1), Ask("a"), With(u, r2))
      && Has(r2, ["a"], 0, TWO_A) && r2.count == 2
  {
    assert Has(EMPTY_RING, [], 0, map[]);
    hide Leads, Enqueue, Has, With;
    Lengths();
    var r1 := Queue(EMPTY_RING, "a");
    Enqueues(u, EMPTY_RING, "a", 0, map[]);
    HasKeys(r1, ["a"], 0, ONE_A);
    Enqueues(u, r1, "a", 0, ONE_A);
  }

  lemma Fill(u: Usage)
    ensures var r2 := Queue(Queue(EMPTY_RING, "a"), "a");
      && Leads(With(u, r2), Ask("b"), With(u, Queue(r2, "b")))
      && Leads(With(u, Queue(r2, "b")), Ask("c"), With(u, WAITING))
    ensures Has(WAITING, ["a", "b", "c"], 0, BEFORE) && WAITING.count == 4
  {
    FillA(u);
    hide Leads, Enqueue, Has, With;
    Lengths();
    var r2 := Queue(Queue(EMPTY_RING, "a"), "a");
    var r3 := Queue(r2, "b");
    HasKeys(r2, ["a"], 0, TWO_A);
    Enqueues(u, r2, "b", 0, TWO_A);
    assert ["a"] + ["b"] == ["a", "b"];
    HasKeys(r3, ["a", "b"], 0, TWO_A_ONE_B);
    Enqueues(u, r3, "c", 0, TWO_A_ONE_B);
    assert ["a", "b"] + ["c"] == ["a", "b", "c"];
  }

  lemma HasKeys(r: Ring, keys: seq<string>, cursor: nat, lengths: map<string, nat>)
    requires Has(r, keys, cursor, lengths)
    ensures r.keys == keys && r.cursor == cursor
  {
  }

  // "a" is served and stays; "b" is served, leaves and comes back behind "c".
  ghost const R1: Ring := AfterServing(1, WAITING)
  ghost const R2: Ring := AfterServing(2, R1)
  ghost const R3: Ring := Queue(R2, "b")
  ghost const R4: Ring := AfterServing(3, R3)
  ghost const R5: Ring := AfterServing(4, R4)

  const EACH: map<string, nat> := map["a" := 1, "b" := 1, "c" := 1]
  const NOT_B: map<string, nat> := map["a" := 1, "c" := 1]
  const NOT_C: map<string, nat> := map["a" := 1, "b" := 1]

  lemma HasNext(r: Ring, keys: seq<string>, cursor: nat, lengths: map<string, nat>)
    requires Has(r, keys, cursor, lengths) && cursor < |keys| && keys[cursor] in lengths && 0 < lengths[keys[cursor]]
    ensures r.keys == keys && r.cursor == cursor && 0 < |QueueOf(r.queues, keys[cursor])|
  {
  }

  lemma Waits()
    ensures Has(WAITING, ["a", "b", "c"], 0, BEFORE) && WAITING.count == 4
  {
    hide Leads, Enqueue, Has, WAITING, With, Queue, Ask;
    Fill(Free(0));
  }

  /** "a" is served. */
  lemma ToR1()
    ensures Has(R1, ["a", "b", "c"], 1, EACH) && R1.count == 3
    ensures Leads(With(Free(1), WAITING), SCAN, With(Taken(1, "a"), R1))
  {
    hide Leads, Enqueue, Has, AfterServing, WAITING, With, Free, Taken, Serves;
    Waits();
    HasNext(WAITING, ["a", "b", "c"], 0, BEFORE);
    RingAfterServing(1, WAITING, "a", BEFORE);
    ServesNext(1, WAITING, "a", BEFORE);
    assert BEFORE["a" := 1] == EACH;
  }

  /** "b" is served and leaves. */
  lemma ToR2()
    ensures Has(R2, ["a", "c"], 1, NOT_B) && R2.count == 2 && "a" in R1.keys
    ensures Leads(With(Free(2), R1), SCAN, With(Taken(2, "b"), R2)) && Serves(With(Free(2), R1), SCAN, "b")
  {
    ToR1();
    hide Leads, Enqueue, Has, AfterServing, WAITING, With, Free, Taken, Serves, R1;
    HasNext(R1, ["a", "b", "c"], 1, EACH);
    RingAfterServing(2, R1, "b", EACH);
    ServesNext(2, R1, "b", EACH);
    assert EACH - {"b"} == NOT_B && Without(["a", "b", "c"], 1) == ["a", "c"];
    assert ["a", "b", "c"][0] == "a";
  }

  /** "b" comes back. */
  lemma ToR3()
    ensures Has(R3, ["a", "c", "b"], 1, EACH) && "a" in R2.keys
    ensures Leads(With(Taken(2, "b"), R2), Ask("b"), With(Taken(2, "b"), R3))
  {
    ToR2();
    hide Leads, Enqueue, Has, AfterServing, With, Free, Taken, Serves, R1, R2;
    HasKeys(R2, ["a", "c"], 1, NOT_B);
    Enqueues(Taken(2, "b"), R2, "b", 1, NOT_B);
    assert NOT_B["b" := 1] == EACH && ["a", "c"] + ["b"] == ["a", "c", "b"];
    assert ["a", "c"][0] == "a";
  }

  /** "c" is served and leaves. */
  lemma ToR4()
    ensures Has(R4, ["a", "b"], 1, NOT_C) && "a" in R3.keys
    ensures Leads(With(Free(3), R3), SCAN, With(Taken(3, "c"), R4)) && !Serves(With(Free(3), R3), SCAN, "a")
  {
    ToR3();
    hide Leads, Enqueue, Has, AfterServing, With, Free, Taken, Serves, R1, R2, R3;
    HasNext(R3, ["a", "c", "b"], 1, EACH);
    RingAfterServing(3, R3, "c", EACH);
    ServesNext(3, R3, "c", EACH);
    assert EACH - {"c"} == NOT_C && Without(["a", "c", "b"], 1) == ["a", "b"];
    assert ["a", "c", "b"][0] == "a";
  }

  /** "b" is served again, before "a". */
  lemma ToR5()
    ensures "a" in R5.keys && "a" in R4.keys
    ensures Leads(With(Free(4), R4), SCAN, With(Taken(4, "b"), R5))
    ensures Serves(With(Free(4), R4), SCAN, "b") && !Serves(With(Free(4), R4), SCAN, "a")
  {
    ToR4();
    hide Leads, Enqueue, Has, AfterServing, With, Free, Taken, Serves, R1, R2, R3, R4;
    HasNext(R4, ["a", "b"], 1, NOT_C);
    RingAfterServing(4, R4, "b", NOT_C);
    ServesNext(4, R4, "b", NOT_C);
    assert Without(["a", "b"], 1) == ["a"];
    HasKeys(R5, ["a"], 0, NOT_C - {"b"});
    assert ["a", "b"][0] == "a" && ["a"][0] == "a";
  }

  lemma RunExtends(states: seq<State>, ops: seq<Op>, op: Op, t: State)
    requires Run(states, ops) && Leads(states[|ops|], op, t)
    ensures Run(states + [t], ops + [op])
  {
    hide LedgerWellFormed, Enabled, Apply;
  }

  /** Nothing in the stretch attends to a key that is in the ring throughout, if
      no scan in it passes anybody over or serves that key. */
  lemma NotAttended(states: seq<State>, ops: seq<Op>, start: nat, end: nat, a: string)
    requires |states| == |ops| + 1 && end <= |ops|
    requires forall i :: start <= i <= end ==> a in states[i].ring.keys
    requires forall i :: start <= i < end ==> ops[i].Scanned? ==> ops[i] == SCAN && !Serves(states[i], ops[i], a)
    ensures !Attended(states, ops, start, end, a)
  {
    hide Rotation, QueueStuck;
  }

  /** A run up to where all of them wait. */
  lemma UpToWaiting() returns (states: seq<State>, ops: seq<Op>)
    ensures Run(states, ops) && states[0] == NewState(SINGLE) && states[|ops|] == With(Taken(0, "x"), WAITING)
  {
    var x, q := Taken(0, "x"), Queue(EMPTY_RING, "a");
    GrantsFirst(EMPTY_RING);
    FillA(x);
    Fill(x);
    states, ops := StartRun();
    hide *;
    states, ops := Extended(states, ops, DirectGrant(PublicOneShot, "x", "s"), With(x, EMPTY_RING));
    states, ops := Extended(states, ops, Ask("a"), With(x, q));
    states, ops := Extended(states, ops, Ask("a"), With(x, Queue(q, "a")));
    states, ops := Extended(states, ops, Ask("b"), With(x, Queue(Queue(q, "a"), "b")));
    states, ops := Extended(states, ops, Ask("c"), With(x, WAITING));
  }

  /** A run up to the moment before "b" is served. */
  lemma UpToFirst() returns (states: seq<State>, ops: seq<Op>)
    ensures Run(states, ops) && states[0] == NewState(SINGLE) && states[|ops|] == With(Free(2), R1)
  {
    hide Has, AfterServing, Leads, Serves, WAITING, Run, Taken, Holding, R1, Free;
    ToR1();
    SingleIsDefault();
    Releases(SINGLE, 0, "x", WAITING);
    Releases(SINGLE, 1, "a", R1);
    states, ops := UpToWaiting();
    states, ops := Extended(states, ops, Released(1), With(Free(1), WAITING));
    states, ops := Extended(states, ops, SCAN, With(Taken(1, "a"), R1));
    states, ops := Extended(states, ops, Released(2), With(Free(2), R1));
  }

  lemma StartRun() returns (states: seq<State>, ops: seq<Op>)
    ensures Run(states, ops) && states[0] == NewState(SINGLE) && states[|ops|] == With(Free(0), EMPTY_RING)
  {
    states, ops := [NewState(SINGLE)], [];
  }

  lemma Extended(xs: seq<State>, os: seq<Op>, op: Op, t: State) returns (states: seq<State>, ops: seq<Op>)
    requires Run(xs, os) && Leads(xs[|os|], op, t)
    ensures Run(states, ops) && states == xs + [t] && ops == os + [op] && states[|ops|] == t && states[0] == xs[0]
  {
    RunExtends(xs, os, op, t);
    states, ops := xs + [t], os + [op];
  }

  const TAIL: seq<Op> := [SCAN, Ask("b"), Released(3), SCAN, Released(4), SCAN]

  ghost function Tail(): seq<State>
  {
    [With(Taken(2, "b"), R2), With(Taken(2, "b"), R3), With(Free(3), R3), With(Taken(3, "c"), R4), With(Free(4), R4),
     With(Taken(4, "b"), R5)]
  }

  lemma TailRuns(xs: seq<State>, os: seq<Op>)
    requires Run(xs, os) && xs[|os|] == With(Free(2), R1)
    ensures Run(xs + Tail(), os + TAIL)
  {
    hide Has, AfterServing, Leads, Serves, Queue, Run, Taken, Holding, Free, Ask, R1, R2, R3, R4, R5;
    ToR2();
    ToR3();
    ToR4();
    ToR5();
    SingleIsDefault();
    Releases(SINGLE, 2, "b", R3);
    Releases(SINGLE, 3, "c", R4);
    var states, ops := Extended(xs, os, SCAN, With(Taken(2, "b"), R2));
    states, ops := Extended(states, ops, Ask("b"), With(Taken(2, "b"), R3));
    states, ops := Extended(states, ops, Released(3), With(Free(3), R3));
    states, ops := Extended(states, ops, SCAN, With(Taken(3, "c"), R4));
    states, ops := Extended(states, ops, Released(4), With(Free(4), R4));
    states, ops := Extended(states, ops, SCAN, With(Taken(4, "b"), R5));
    assert states == xs + Tail();
    assert ops == os + TAIL;
  }

  lemma WaitsThroughout()
    ensures "a" in With(Free(2), R1).ring.keys && forall i :: 0 <= i < 6 ==> "a" in Tail()[i].ring.keys
  {
    hide Has, Leads, Serves, Taken, Free, R1, R2, R3, R4, R5;
    ToR2();
    ToR3();
    ToR4();
    ToR5();
  }

  lemma Unattended(xs: seq<State>, os: seq<Op>)
    requires |xs| == |os| + 1 && xs[|os|] == With(Free(2), R1)
    ensures var states, ops, n := xs + Tail(), os + TAIL, |os|;
      && Serves(states[n], ops[n], "b") && Serves(states[n + 5], ops[n + 5], "b") && "a" in states[n].ring.keys
      && !Attended(states, ops, n + 1, n + 6, "a")
  {
    hide Has, Leads, Serves, With, Free, Taken, Attended, R1, R2, R3, R4, R5;
    WaitsThroughout();
    ToR2();
    ToR4();
    ToR5();
    var states, ops, n := xs + Tail(), os + TAIL, |os|;
    assert states[n] == With(Free(2), R1);
    forall i | n + 1 <= i <= n + 6 ensures "a" in states[i].ring.keys { assert states[i] == Tail()[i - n - 1]; }
    forall i | n + 1 <= i < n + 6 && ops[i].Scanned? ensures ops[i] == SCAN && !Serves(states[i], SCAN, "a") {
      assert ops[i] == TAIL[i - n] && states[i] == Tail()[i - n - 1];
      assert i == n + 3 || i == n + 5;
    }
    NotAttended(states, ops, n + 1, n + 6, "a");
  }

  /** A key that leaves the ring and comes back may overtake: "b" is served twice
      while "a" waits, grantable and unvisited. */
  lemma RejoiningKeyOvertakes() returns (states: seq<State>, ops: seq<Op>, first: nat, second: nat)
    ensures Run(states, ops) && states[0] == NewState(DefaultConfig(1)) && first < second < |ops|
    ensures Serves(states[first], ops[first], "b") && Serves(states[second], ops[second], "b")
    ensures "a" in states[first].ring.keys && !Attended(states, ops, first + 1, second + 1, "a")
  {
    hide Run, Serves, Attended, With, Free, Taken, Ask, R1, R2, R3, R4, R5;
    SingleIsDefault();
    var xs, os := UpToFirst();
    RunHasStates(xs, os);
    TailRuns(xs, os);
    Unattended(xs, os);
    states, ops, first, second := xs + Tail(), os + TAIL, |os|, |os| + 5;
  }

  lemma RunHasStates(states: seq<State>, ops: seq<Op>)
    requires Run(states, ops)
    ensures |states| == |ops| + 1
  {
  }
}
