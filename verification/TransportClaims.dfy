/** The pooled agent transports as a value: which entries are live, which are
    draining, and how far each claimed round trip has come. */
module TransportClaims {
  import opened Optional

  datatype Key = Key(environment: bool, agentId: int, lane: int, target: int, origin: string)

  datatype Entry = Entry(key: Key, agent: nat, lastUsed: int, inFlight: int, idleHint: bool, retired: bool)

  /** A claimed round trip: without an answer, with a tracked body, or over
      without one.  `finished` is the once-flag of the tracked body. */
  datatype Stage = Waiting | Streaming(canReuse: bool, writable: bool, finished: bool) | Over

  datatype Trip = Trip(entry: nat, stage: Stage)

  datatype ReadResult = More | EndOfFile | Broken

  /** What the transport answers, and what the caller then does with the body. */
  datatype TripEvent =
    | Failed
    | NoBody(switching: bool)
    | WithBody(switching: bool, writable: bool)
    | Read(result: ReadResult)
    | Close
    | Write(failed: bool)

  /** Entries and round trips are named by numbers that are never reused; `known`
      also holds retired entries that a caller may still refer to. */
  datatype Pool = Pool(
    known: map<nat, Entry>,
    entries: map<Key, nat>,
    draining: set<nat>,
    maxEntries: nat,
    limitInitialized: bool,
    trips: map<nat, Trip>,
    nextEntry: nat,
    nextClaim: nat)

  const EMPTY := Pool(map[], map[], {}, 0, false, map[], 0, 0)

  // ---- Steps ----

  function Retired(p: Pool, id: nat): Pool
    requires id in p.known
  {
    var e := p.known[id];
    if e.retired then p
    else
      p.(entries := if e.key in p.entries && p.entries[e.key] == id then p.entries - {e.key} else p.entries,
         known := p.known[id := e.(retired := true)],
         draining := if e.inFlight > 0 then p.draining + {id} else p.draining)
  }

  function Added(p: Pool, key: Key, agent: nat, now: int): Pool
  {
    p.(known := p.known[p.nextEntry := Entry(key, agent, now, 0, false, false)],
       entries := p.entries[key := p.nextEntry],
       nextEntry := p.nextEntry + 1)
  }

  function Claimed(p: Pool, id: nat, now: int): Pool
    requires id in p.known
  {
    var e := p.known[id];
    p.(known := p.known[id := e.(inFlight := e.inFlight + 1, lastUsed := now)],
       trips := p.trips[p.nextClaim := Trip(id, Waiting)],
       nextClaim := p.nextClaim + 1)
  }

  /** The end of a round trip as the pool sees it.  Nothing here tells one caller
      from another: each call takes one off the count. */
  function Done(p: Pool, id: nat, reusable: bool): Pool
    requires id in p.known
  {
    var e := p.known[id];
    var left := if e.inFlight > 0 then e.inFlight - 1 else e.inFlight;
    p.(known := p.known[id := e.(inFlight := left, idleHint := if reusable && !e.retired then true else e.idleHint)],
       draining := if e.retired && left == 0 then p.draining - {id} else p.draining)
  }

  /** One answer per round trip; a body may be read, closed and written to in any
      order and any number of times, before and after its end. */
  predicate Accepts(s: Stage, e: TripEvent)
  {
    match e
    case Failed => s == Waiting
    case NoBody(_) => s == Waiting
    case WithBody(_, _) => s == Waiting
    case Read(_) => s.Streaming?
    case Close => s.Streaming?
    case Write(_) => s.Streaming? && s.writable
  }

  /** The tracked body passes on its first end only. */
  function Finish(s: Stage, reusable: bool): (Stage, Option<bool>)
    requires s.Streaming?
  {
    if s.finished then (s, None) else (s.(finished := true), Some(reusable))
  }

  /** The next stage, and the argument of the call to `Done`, if one is made. */
  function TripStep(s: Stage, e: TripEvent): (Stage, Option<bool>)
    requires Accepts(s, e)
  {
    match e
    case Failed => (Over, Some(false))
    case NoBody(switching) => (Over, Some(!switching))
    case WithBody(switching, writable) => (Streaming(!switching, writable, false), None)
    case Read(result) =>
      if result == More then (s, None) else Finish(s, result == EndOfFile && s.canReuse)
    case Close => Finish(s, false)
    case Write(failed) => if failed then Finish(s, false) else (s, None)
  }

  function Advanced(p: Pool, c: nat, e: TripEvent): Pool
    requires c in p.trips && p.trips[c].entry in p.known && Accepts(p.trips[c].stage, e)
  {
    var t := p.trips[c];
    var (stage, done) := TripStep(t.stage, e);
    var q := p.(trips := p.trips[c := t.(stage := stage)]);
    if done.Some? then Done(q, t.entry, done.value) else q
  }

  function Unhinted(p: Pool, id: nat): Pool
    requires id in p.known
  {
    p.(known := p.known[id := p.known[id].(idleHint := false)])
  }

  function LimitSet(p: Pool, capacity: nat): Pool
  {
    if p.limitInitialized then p else p.(limitInitialized := true, maxEntries := capacity)
  }

  // ---- The invariant ----

  predicate Unfinished(t: Trip) { t.stage == Waiting || (t.stage.Streaming? && !t.stage.finished) }

  /** The claims not yet returned, and the entries they are on. */
  function Outstanding(trips: map<nat, Trip>): map<nat, nat>
  {
    map c | c in trips && Unfinished(trips[c]) :: trips[c].entry
  }

  function Claims(p: Pool): map<nat, nat> { Outstanding(p.trips) }

  ghost function ClaimsOn(claims: map<nat, nat>, id: nat): set<nat> { set c | c in claims && claims[c] == id }

  /** The key leads to a live entry of its own. */
  ghost predicate Leads(p: Pool, k: Key)
    requires k in p.entries
  {
    p.entries[k] in p.known && p.known[p.entries[k]].key == k && !p.known[p.entries[k]].retired
  }

  /** A live entry is reachable under its key. */
  ghost predicate Reachable(p: Pool, id: nat)
    requires id in p.known
  {
    !p.known[id].retired ==> p.known[id].key in p.entries && p.entries[p.known[id].key] == id
  }

  ghost predicate EntriesOk(p: Pool)
  {
    && (forall k :: k in p.entries ==> Leads(p, k))
    && (forall id :: id in p.known ==> Reachable(p, id))
    && (forall id :: id in p.known ==> id < p.nextEntry)
  }

  /** Draining holds exactly the retired entries with claims. */
  ghost predicate DrainingOk(p: Pool)
  {
    forall id :: id in p.draining <==> id in p.known && p.known[id].retired && p.known[id].inFlight > 0
  }

  /** Every entry counts its outstanding claims. */
  ghost predicate Counted(p: Pool)
  {
    forall id :: id in p.known ==> p.known[id].inFlight == |ClaimsOn(Claims(p), id)|
  }

  ghost predicate TripsOk(p: Pool) { forall c :: c in p.trips ==> p.trips[c].entry in p.known && c < p.nextClaim }

  ghost predicate ClaimsOk(p: Pool)
  {
    DrainingOk(p) && Counted(p) && TripsOk(p)
  }

  ghost predicate Bounded(p: Pool) { |p.entries| + |p.draining| <= p.maxEntries }

  ghost predicate Valid(p: Pool) { EntriesOk(p) && ClaimsOk(p) && Bounded(p) }

  // ---- Counting claims ----

  lemma ClaimsOnMore(claims: map<nat, nat>, c: nat, id: nat, j: nat)
    requires c !in claims
    ensures |ClaimsOn(claims[c := id], j)| == |ClaimsOn(claims, j)| + (if j == id then 1 else 0)
  {
    assert ClaimsOn(claims[c := id], j) == ClaimsOn(claims, j) + (if j == id then {c} else {});
  }

  lemma ClaimsOnLess(claims: map<nat, nat>, c: nat, j: nat)
    requires c in claims
    ensures |ClaimsOn(claims - {c}, j)| == |ClaimsOn(claims, j)| - (if j == claims[c] then 1 else 0)
  {
    if j == claims[c] { assert c in ClaimsOn(claims, j); }
    assert ClaimsOn(claims - {c}, j) == ClaimsOn(claims, j) - (if j == claims[c] then {c} else {});
  }

  lemma NoClaimsOn(claims: map<nat, nat>, j: nat)
    requires forall c :: c in claims ==> claims[c] != j
    ensures ClaimsOn(claims, j) == {}
  {
  }

  /** One round trip more, one finished, or one that moved on unfinished or was
      finished already. */
  lemma OutstandingAfter(trips: map<nat, Trip>, c: nat, t: Trip)
    ensures var claims, after := Outstanding(trips), Outstanding(trips[c := t]);
      && (c !in trips && Unfinished(t) ==> c !in claims && after == claims[c := t.entry])
      && (c in trips && t.entry == trips[c].entry ==>
            after == if Unfinished(t) == Unfinished(trips[c]) then claims
                     else if Unfinished(t) then claims[c := t.entry] else claims - {c})
  {
  }

  // ---- What each step keeps ----

  lemma RetiredEntries(p: Pool, id: nat)
    requires EntriesOk(p) && id in p.known
    ensures EntriesOk(Retired(p, id))
    ensures |Retired(p, id).entries| == |p.entries| - (if p.known[id].retired then 0 else 1)
  {
    var k, q := p.known[id].key, Retired(p, id);
    assert Reachable(p, id);
    forall j | j in q.entries ensures Leads(q, j) { assert Leads(p, j); }
    forall j | j in q.known ensures Reachable(q, j) { assert Reachable(p, j); }
    if !p.known[id].retired { OneKeyLess(p.entries, k); }
  }

  /** Entries are as before if keys and retirement are. */
  lemma SameEntries(p: Pool, q: Pool)
    requires EntriesOk(p) && q.entries == p.entries && q.nextEntry == p.nextEntry && q.known.Keys == p.known.Keys
    requires forall id :: id in p.known ==>
      q.known[id].key == p.known[id].key && q.known[id].retired == p.known[id].retired
    ensures EntriesOk(q)
  {
    forall j | j in q.entries ensures Leads(q, j) { assert Leads(p, j); }
    forall j | j in q.known ensures Reachable(q, j) { assert Reachable(p, j); }
  }

  lemma RetiredClaims(p: Pool, id: nat)
    requires ClaimsOk(p) && id in p.known
    ensures ClaimsOk(Retired(p, id))
    ensures |Retired(p, id).draining| ==
      |p.draining| + (if !p.known[id].retired && p.known[id].inFlight > 0 then 1 else 0)
  {
    hide ClaimsOn;
    RetiredDraining(p, id);
    hide DrainingOk;
  }

  lemma RetiredDraining(p: Pool, id: nat)
    requires DrainingOk(p) && id in p.known
    ensures DrainingOk(Retired(p, id))
    ensures |Retired(p, id).draining| ==
      |p.draining| + (if !p.known[id].retired && p.known[id].inFlight > 0 then 1 else 0)
  {
    assert id in p.draining ==> p.known[id].retired;
  }

  /** Retiring moves an entry or drops it; it never adds one. */
  lemma RetiredValid(p: Pool, id: nat)
    requires Valid(p) && id in p.known
    ensures Valid(Retired(p, id)) && Retired(p, id).maxEntries == p.maxEntries
    ensures |Retired(p, id).entries| + |Retired(p, id).draining| <= |p.entries| + |p.draining|
    ensures !p.known[id].retired && p.known[id].inFlight == 0 ==>
      |Retired(p, id).entries| + |Retired(p, id).draining| < |p.entries| + |p.draining|
  {
    RetiredEntries(p, id);
    RetiredClaims(p, id);
    hide EntriesOk, ClaimsOk;
  }

  lemma AddedEntries(p: Pool, key: Key, agent: nat, now: int)
    requires EntriesOk(p) && key !in p.entries
    ensures EntriesOk(Added(p, key, agent, now)) && |Added(p, key, agent, now).entries| == |p.entries| + 1
  {
    var q := Added(p, key, agent, now);
    forall j | j in q.entries ensures Leads(q, j) { if j != key { assert Leads(p, j); } }
    forall j | j in q.known ensures Reachable(q, j) { if j != p.nextEntry { assert Reachable(p, j); } }
    OneMoreKey(p.entries, key, p.nextEntry);
  }

  lemma OneMoreKey(m: map<Key, nat>, k: Key, v: nat)
    requires k !in m
    ensures |m[k := v]| == |m| + 1
  {
    assert m[k := v].Keys == m.Keys + {k};
    assert |m[k := v].Keys| == |m[k := v]| && |m.Keys| == |m|;
  }

  lemma OneKeyLess(m: map<Key, nat>, k: Key)
    requires k in m
    ensures |m - {k}| == |m| - 1
  {
    assert (m - {k}).Keys == m.Keys - {k};
    assert |(m - {k}).Keys| == |m - {k}| && |m.Keys| == |m|;
  }

  lemma AddedClaims(p: Pool, key: Key, agent: nat, now: int)
    requires ClaimsOk(p) && p.nextEntry !in p.known
    ensures ClaimsOk(Added(p, key, agent, now))
  {
    hide ClaimsOn;
    NoClaimsOn(Claims(p), p.nextEntry);
  }

  lemma AddedValid(p: Pool, key: Key, agent: nat, now: int)
    requires Valid(p) && key !in p.entries && |p.entries| + |p.draining| < p.maxEntries
    ensures Valid(Added(p, key, agent, now))
  {
    assert p.nextEntry !in p.known;
    hide EntriesOk, ClaimsOk;
    AddedEntries(p, key, agent, now);
    AddedClaims(p, key, agent, now);
  }

  lemma ClaimedValid(p: Pool, id: nat, now: int)
    requires Valid(p) && id in p.known && !p.known[id].retired
    ensures Valid(Claimed(p, id, now))
  {
    hide EntriesOk, ClaimsOk;
    ClaimedCounts(p, id, now);
    SameEntries(p, Claimed(p, id, now));
  }

  lemma ClaimedCounts(p: Pool, id: nat, now: int)
    requires ClaimsOk(p) && id in p.known && !p.known[id].retired
    ensures ClaimsOk(Claimed(p, id, now))
  {
    hide ClaimsOn, Outstanding;
    var q := Claimed(p, id, now);
    OutstandingAfter(p.trips, p.nextClaim, Trip(id, Waiting));
    forall j | j in q.known ensures q.known[j].inFlight == |ClaimsOn(Claims(q), j)| {
      ClaimsOnMore(Claims(p), p.nextClaim, id, j);
    }
  }

  /** The stages in which an event ends the round trip are the unfinished ones,
      and after it the round trip is finished. */
  lemma TripStepEnds(t: Trip, e: TripEvent)
    requires Accepts(t.stage, e)
    ensures var (stage, done) := TripStep(t.stage, e);
      && (done.Some? ==> Unfinished(t) && !Unfinished(t.(stage := stage)))
      && (done.None? ==> Unfinished(t.(stage := stage)) == Unfinished(t))
      && (!Unfinished(t) ==> stage == t.stage)
  {
  }

  /** Taking off the count what is no longer outstanding. */
  lemma DoneCounts(p: Pool, trips: map<nat, Trip>, c: nat, reusable: bool)
    requires ClaimsOk(p) && c in Claims(p) && Outstanding(trips) == Claims(p) - {c} && Claims(p)[c] in p.known
    ensures var q := Done(p.(trips := trips), Claims(p)[c], reusable); DrainingOk(q) && Counted(q)
  {
    hide ClaimsOn, Outstanding, TripsOk;
    var id := Claims(p)[c];
    var q := Done(p.(trips := trips), id, reusable);
    ClaimsOnLess(Claims(p), c, id);
    forall j | j in q.known ensures q.known[j].inFlight == |ClaimsOn(Claims(q), j)| { ClaimsOnLess(Claims(p), c, j); }
  }

  lemma AdvancedCounts(p: Pool, c: nat, e: TripEvent)
    requires ClaimsOk(p) && c in p.trips && Accepts(p.trips[c].stage, e)
    ensures p.trips[c].entry in p.known && ClaimsOk(Advanced(p, c, e))
  {
    assert TripsOk(p);
    var t := p.trips[c];
    var (stage, done) := TripStep(t.stage, e);
    TripStepEnds(t, e);
    hide ClaimsOn, Outstanding, TripStep, Unfinished, DrainingOk;
    OutstandingAfter(p.trips, c, t.(stage := stage));
    IsOutstanding(p.trips, c);
    AdvancedTrips(p, c, e);
    if done.Some? {
      DoneCounts(p, p.trips[c := t.(stage := stage)], c, done.value);
    } else {
      SameDraining(p, Advanced(p, c, e));
    }
  }

  lemma SameDraining(p: Pool, q: Pool)
    requires DrainingOk(p) && q.draining == p.draining && q.known == p.known
    ensures DrainingOk(q)
  {
  }

  lemma AdvancedTrips(p: Pool, c: nat, e: TripEvent)
    requires TripsOk(p) && c in p.trips && Accepts(p.trips[c].stage, e)
    ensures p.trips[c].entry in p.known && TripsOk(Advanced(p, c, e))
  {
    hide TripStep;
  }

  /** A round trip that moves on keeps every count exact: the call that takes one
      off the count is made exactly when the claim stops being outstanding. */
  lemma AdvancedValid(p: Pool, c: nat, e: TripEvent)
    requires Valid(p) && c in p.trips && Accepts(p.trips[c].stage, e)
    ensures p.trips[c].entry in p.known && Valid(Advanced(p, c, e))
  {
    hide EntriesOk, ClaimsOk, Advanced;
    AdvancedCounts(p, c, e);
    AdvancedRest(p, c, e);
    SameEntries(p, Advanced(p, c, e));
    var left := Advanced(p, c, e).draining;
    assert p.draining == left + (p.draining - left);
  }

  lemma AdvancedRest(p: Pool, c: nat, e: TripEvent)
    requires c in p.trips && p.trips[c].entry in p.known && Accepts(p.trips[c].stage, e)
    ensures var q := Advanced(p, c, e);
      && q.entries == p.entries && q.nextEntry == p.nextEntry && q.maxEntries == p.maxEntries
      && q.limitInitialized == p.limitInitialized && q.draining <= p.draining && q.known.Keys == p.known.Keys
      && forall id :: id in p.known ==> q.known[id].key == p.known[id].key && q.known[id].retired == p.known[id].retired
  {
    hide TripStep;
  }

  lemma IsOutstanding(trips: map<nat, Trip>, c: nat)
    ensures c in Outstanding(trips) <==> c in trips && Unfinished(trips[c])
    ensures c in Outstanding(trips) ==> Outstanding(trips)[c] == trips[c].entry
  {
  }

  /** A second call for one claim would take away another's count. */
  lemma SecondDoneMiscounts(p: Pool, id: nat, reusable: bool)
    requires Counted(p) && id in p.known && ClaimsOn(Claims(p), id) != {}
    ensures !Counted(Done(p, id, reusable))
  {
    hide ClaimsOn;
    assert Done(p, id, reusable).known[id].inFlight == p.known[id].inFlight - 1;
  }

  lemma UnhintedValid(p: Pool, id: nat)
    requires Valid(p) && id in p.known
    ensures Valid(Unhinted(p, id))
  {
    hide EntriesOk, ClaimsOn;
    SameEntries(p, Unhinted(p, id));
  }

  lemma LimitSetValid(p: Pool, capacity: nat)
    requires Valid(p)
    ensures p.limitInitialized || p.maxEntries == 0 ==> Valid(LimitSet(p, capacity))
  {
    assert ClaimsOk(LimitSet(p, capacity)) && EntriesOk(LimitSet(p, capacity));
    hide EntriesOk, ClaimsOk;
  }

  // ---- Runs ----

  datatype Op =
    | Limiting(capacity: nat)
    | Adding(key: Key, agent: nat, now: int)
    | Retiring(id: nat)
    | Claiming(id: nat, now: int)
    | Tripping(claim: nat, e: TripEvent)
    | Unhinting(id: nat)

  /** An entry is added only when there is room, claimed only while live, and
      the limit is set before the first entry. */
  predicate Enabled(p: Pool, op: Op)
  {
    match op
    case Limiting(_) => true
    case Adding(key, _, _) => key !in p.entries && |p.entries| + |p.draining| < p.maxEntries
    case Retiring(id) => id in p.known
    case Claiming(id, _) => id in p.known && !p.known[id].retired
    case Tripping(claim, e) => claim in p.trips && p.trips[claim].entry in p.known && Accepts(p.trips[claim].stage, e)
    case Unhinting(id) => id in p.known
  }

  function Apply(p: Pool, op: Op): Pool
    requires Enabled(p, op)
  {
    match op
    case Limiting(capacity) => LimitSet(p, capacity)
    case Adding(key, agent, now) => Added(p, key, agent, now)
    case Retiring(id) => Retired(p, id)
    case Claiming(id, now) => Claimed(p, id, now)
    case Tripping(claim, e) => Advanced(p, claim, e)
    case Unhinting(id) => Unhinted(p, id)
  }

  ghost predicate Run(pools: seq<Pool>, ops: seq<Op>)
  {
    && |pools| == |ops| + 1
    && forall i :: 0 <= i < |ops| ==> Enabled(pools[i], ops[i]) && pools[i + 1] == Apply(pools[i], ops[i])
  }

  /** Some run leads from one pool to the other. */
  ghost predicate Reaches(p: Pool, q: Pool)
  {
    exists pools, ops :: Run(pools, ops) && pools[0] == p && pools[|ops|] == q
  }

  lemma ReachesItself(p: Pool)
    ensures Reaches(p, p)
  {
    assert Run([p], []);
  }

  lemma ReachesNext(p: Pool, q: Pool, op: Op)
    requires Reaches(p, q) && Enabled(q, op)
    ensures Reaches(p, Apply(q, op))
  {
    hide Enabled, Apply;
    var pools, ops :| Run(pools, ops) && pools[0] == p && pools[|ops|] == q;
    assert Run(pools + [Apply(q, op)], ops + [op]);
  }

  lemma ReachesThrough(p: Pool, q: Pool, r: Pool)
    requires Reaches(p, q) && Reaches(q, r)
    ensures Reaches(p, r)
  {
    hide Enabled, Apply;
    var xs, ops :| Run(xs, ops) && xs[0] == p && xs[|ops|] == q;
    var ys, bs :| Run(ys, bs) && ys[0] == q && ys[|bs|] == r;
    var all := xs + ys[1..];
    forall i | 0 <= i < |ops + bs|
      ensures Enabled(all[i], (ops + bs)[i]) && all[i + 1] == Apply(all[i], (ops + bs)[i])
    {
      if i >= |ops| { assert all[i] == ys[i - |ops|] && all[i + 1] == ys[i - |ops| + 1]; }
    }
    assert Run(all, ops + bs);
  }

  /** Before the limit is known the pool is empty. */
  ghost predicate Sound(p: Pool) { Valid(p) && (!p.limitInitialized ==> p.maxEntries == 0) }

  lemma ApplySound(p: Pool, op: Op)
    requires Sound(p) && Enabled(p, op)
    ensures Sound(Apply(p, op))
  {
    hide EntriesOk, ClaimsOk;
    match op {
      case Limiting(capacity) => LimitSetValid(p, capacity);
      case Adding(key, agent, now) => AddedValid(p, key, agent, now);
      case Retiring(id) => RetiredValid(p, id);
      case Claiming(id, now) => ClaimedValid(p, id, now);
      case Tripping(claim, e) => AdvancedValid(p, claim, e);
      case Unhinting(id) => UnhintedValid(p, id);
    }
  }

  /** Live plus draining entries stay within the limit in every run, and every
      entry counts exactly its outstanding claims. */
  lemma {:induction false} EveryRunIsSound(pools: seq<Pool>, ops: seq<Op>)
    requires Run(pools, ops) && pools[0] == EMPTY
    ensures Sound(pools[|ops|])
  {
    hide Enabled, Apply;
    if ops == [] {
      assert Sound(EMPTY);
    } else {
      var n := |ops| - 1;
      EveryRunIsSound(pools[..n + 1], ops[..n]);
      hide Sound;
      ApplySound(pools[n], ops[n]);
    }
  }

  lemma RetiredNeverGains(p: Pool, op: Op, id: nat)
    requires Sound(p) && Enabled(p, op) && id in p.known && p.known[id].retired
    ensures var q := Apply(p, op); id in q.known && q.known[id].retired && q.known[id].inFlight <= p.known[id].inFlight
  {
    hide Sound;
    KnownIsOld(p, id);
  }

  lemma KnownIsOld(p: Pool, id: nat)
    requires Sound(p) && id in p.known
    ensures id < p.nextEntry
  {
    hide ClaimsOk, Leads, Reachable;
  }

  /** A retired entry stays retired and never gains a claim. */
  lemma {:induction false} RetiredForGood(pools: seq<Pool>, ops: seq<Op>, j: nat, k: nat, id: nat)
    requires Run(pools, ops) && pools[0] == EMPTY && j <= k <= |ops| && id in pools[j].known &&
      pools[j].known[id].retired
    ensures id in pools[k].known && pools[k].known[id].retired &&
      pools[k].known[id].inFlight <= pools[j].known[id].inFlight
    decreases k
  {
    hide Enabled, Apply;
    if j < k {
      RetiredForGood(pools, ops, j, k - 1, id);
      EveryRunIsSound(pools[..k], ops[..k - 1]);
      hide Sound;
      RetiredNeverGains(pools[k - 1], ops[k - 1], id);
    }
  }

  // ---- Each claim is returned once, and the first end decides ----

  /** The argument of the call to `Done` this step makes for the claim. */
  function Returns(p: Pool, op: Op, claim: nat): Option<bool>
    requires Enabled(p, op)
  {
    if op.Tripping? && op.claim == claim then TripStep(p.trips[claim].stage, op.e).1 else None
  }

  /** Events after which the caller may not expect more of the round trip. */
  predicate Ends(e: TripEvent)
  {
    e.Failed? || e.NoBody? || e.Close? || (e.Read? && e.result != More) || (e.Write? && e.failed)
  }

  ghost predicate EndedBy(op: Op, claim: nat) { op.Tripping? && op.claim == claim && Ends(op.e) }

  /** The round trip is over for the pool. */
  predicate Finished(p: Pool, claim: nat) { claim in p.trips && !Unfinished(p.trips[claim]) }

  lemma StageAfter(p: Pool, op: Op, claim: nat)
    requires Sound(p) && Enabled(p, op) && claim in p.trips
    ensures var q := Apply(p, op);
      && claim in q.trips
      && q.trips[claim].stage ==
           if op.Tripping? && op.claim == claim then TripStep(p.trips[claim].stage, op.e).0 else p.trips[claim].stage
  {
    assert claim < p.nextClaim by { assert TripsOk(p); }
    hide Sound, TripStep;
  }

  lemma FinishedReturnsNothing(p: Pool, op: Op, claim: nat)
    requires Enabled(p, op) && Finished(p, claim)
    ensures Returns(p, op, claim) == None
  {
    if op.Tripping? && op.claim == claim { TripStepEnds(p.trips[claim], op.e); }
  }

  lemma FinishedStays(p: Pool, op: Op, claim: nat)
    requires Sound(p) && Enabled(p, op) && Finished(p, claim)
    ensures Finished(Apply(p, op), claim)
  {
    StageAfter(p, op, claim);
    if op.Tripping? && op.claim == claim { TripStepEnds(p.trips[claim], op.e); }
    hide Apply, Sound;
  }

  /** Finished is for good, and then nothing more is returned. */
  lemma {:induction false} FinishedForGood(pools: seq<Pool>, ops: seq<Op>, j: nat, k: nat, claim: nat)
    requires Run(pools, ops) && pools[0] == EMPTY && j <= k <= |ops| && Finished(pools[j], claim)
    ensures Finished(pools[k], claim)
    ensures k < |ops| ==> Returns(pools[k], ops[k], claim) == None
    decreases k
  {
    hide Enabled, Apply;
    if j < k {
      FinishedForGood(pools, ops, j, k - 1, claim);
      EveryRunIsSound(pools[..k], ops[..k - 1]);
      FinishedStays(pools[k - 1], ops[k - 1], claim);
    }
    if k < |ops| {
      assert Enabled(pools[k], ops[k]);
      FinishedReturnsNothing(pools[k], ops[k], claim);
    }
  }

  /** Whatever ends a round trip, and however often, its claim is returned at
      most once. */
  lemma ReturnedAtMostOnce(pools: seq<Pool>, ops: seq<Op>, j: nat, k: nat, claim: nat)
    requires Run(pools, ops) && pools[0] == EMPTY && j < k < |ops|
    ensures Returns(pools[j], ops[j], claim) == None || Returns(pools[k], ops[k], claim) == None
  {
    if Returns(pools[j], ops[j], claim) != None {
      EveryRunIsSound(pools[..j + 1], ops[..j]);
      StageAfter(pools[j], ops[j], claim);
      TripStepEnds(pools[j].trips[claim], ops[j].e);
      FinishedForGood(pools, ops, j + 1, k, claim);
    }
  }

  /** Until something ends a round trip its claim is outstanding. */
  lemma {:induction false} OutstandingUntilEnded(pools: seq<Pool>, ops: seq<Op>, j: nat, claim: nat)
    requires Run(pools, ops) && pools[0] == EMPTY && j <= |ops| && claim in pools[j].trips
    requires forall i :: 0 <= i < j ==> !EndedBy(ops[i], claim)
    ensures Unfinished(pools[j].trips[claim])
  {
    if j > 0 {
      EveryRunIsSound(pools[..j], ops[..j - 1]);
      var p, op := pools[j - 1], ops[j - 1];
      assert !EndedBy(op, claim);
      if claim in p.trips {
        OutstandingUntilEnded(pools, ops, j - 1, claim);
        hide Sound;
        StageAfter(p, op, claim);
      } else {
        hide Sound;
        NewTripWaits(p, op, claim);
      }
    }
  }

  lemma NewTripWaits(p: Pool, op: Op, claim: nat)
    requires Enabled(p, op) && claim !in p.trips && claim in Apply(p, op).trips
    ensures Apply(p, op).trips[claim].stage == Waiting
  {
    hide TripStep;
  }

  /** What the caller is owed: only a transport whose response was read to its
      end, or had no body, and did not switch protocols, is hinted idle. */
  function Verdict(s: Stage, e: TripEvent): bool
  {
    match e
    case NoBody(switching) => !switching
    case Read(result) => result == EndOfFile && s.Streaming? && s.canReuse
    case _ => false
  }

  /** The first event that ends a round trip returns its claim, with its own
      verdict; whatever comes later changes nothing in the pool. */
  lemma FirstEndDecides(pools: seq<Pool>, ops: seq<Op>, j: nat, k: nat, claim: nat)
    requires Run(pools, ops) && pools[0] == EMPTY && j <= k < |ops|
    requires EndedBy(ops[j], claim) && forall i :: 0 <= i < j ==> !EndedBy(ops[i], claim)
    ensures Returns(pools[j], ops[j], claim) == Some(Verdict(pools[j].trips[claim].stage, ops[j].e))
    ensures j < k && ops[k].Tripping? && ops[k].claim == claim ==> pools[k + 1] == pools[k]
  {
    OutstandingUntilEnded(pools, ops, j, claim);
    EveryRunIsSound(pools[..j + 1], ops[..j]);
    StageAfter(pools[j], ops[j], claim);
    TripStepEnds(pools[j].trips[claim], ops[j].e);
    if j < k && ops[k].Tripping? && ops[k].claim == claim {
      FinishedForGood(pools, ops, j + 1, k, claim);
      var p := pools[k];
      TripStepEnds(p.trips[claim], ops[k].e);
      assert p.trips[claim := p.trips[claim]] == p.trips;
    }
  }

  // ---- Claims of one agent ----

  ghost function ClaimsFor(p: Pool, agentId: int): set<nat>
    requires ClaimsOk(p)
  {
    set c | c in Claims(p) && p.known[Claims(p)[c]].key.agentId == agentId
  }

  ghost function ClaimsAmong(p: Pool, agentId: int, ids: set<nat>): set<nat>
    requires ClaimsOk(p)
  {
    set c | c in Claims(p) && Claims(p)[c] in ids && p.known[Claims(p)[c]].key.agentId == agentId
  }

  lemma ClaimsAmongMore(p: Pool, agentId: int, ids: set<nat>, id: nat)
    requires ClaimsOk(p) && id in p.known && id !in ids
    ensures |ClaimsAmong(p, agentId, ids + {id})| ==
      |ClaimsAmong(p, agentId, ids)| + (if p.known[id].key.agentId == agentId then p.known[id].inFlight else 0)
  {
    assert p.known[id].inFlight == |ClaimsOn(Claims(p), id)|;
    ClaimsAmongSplit(p, agentId, ids, id);
    hide ClaimsAmong, ClaimsOn, ClaimsOk;
    Disjoint(ClaimsAmong(p, agentId, ids), ClaimsOn(Claims(p), id));
  }

  lemma Disjoint(a: set<nat>, b: set<nat>)
    ensures a !! b ==> |a + b| == |a| + |b|
  {
  }

  lemma ClaimsAmongSplit(p: Pool, agentId: int, ids: set<nat>, id: nat)
    requires ClaimsOk(p) && id in p.known && id !in ids
    ensures ClaimsAmong(p, agentId, ids) !! ClaimsOn(Claims(p), id)
    ensures ClaimsAmong(p, agentId, ids + {id}) ==
      if p.known[id].key.agentId == agentId then ClaimsAmong(p, agentId, ids) + ClaimsOn(Claims(p), id)
        else ClaimsAmong(p, agentId, ids)
  {
    hide DrainingOk, Counted;
  }

  /** Live and draining entries hold every outstanding claim. */
  lemma ClaimsAreHeld(p: Pool, agentId: int, ids: set<nat>)
    requires Valid(p) && ids == p.entries.Values + p.draining
    ensures ClaimsAmong(p, agentId, ids) == ClaimsFor(p, agentId)
  {
    forall c | c in Claims(p) ensures Claims(p)[c] in ids {
      var id := Claims(p)[c];
      assert c in ClaimsOn(Claims(p), id);
      assert p.known[id].inFlight == |ClaimsOn(Claims(p), id)|;
      if !p.known[id].retired { assert p.entries[p.known[id].key] == id && p.known[id].key in p.entries.Keys; }
    }
  }
}
