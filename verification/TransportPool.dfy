/** The transport pool: maps and counters updated in place under its lock, with
    the eviction and selection loops, proved against the steps on values. */
module TransportPool {
  import opened Optional
  import opened TransportClaims

  /** What a close call matches. */
  datatype Scope =
    | OfAgent(agentId: int)
    | OfConnection(agent: nat)
    | OfTarget(target: int)
    | OfEnvironment(environment: int)
    | Everything

  predicate Matches(scope: Scope, e: Entry)
  {
    match scope
    case OfAgent(agentId) => e.key.agentId == agentId
    case OfConnection(agent) => e.agent == agent
    case OfTarget(target) => !e.key.environment && e.key.target == target
    case OfEnvironment(environment) => e.key.environment && e.key.target == environment
    case Everything => true
  }

  /** A candidate for reclaiming: hinted idle, of the agent if one is asked for. */
  predicate Reclaimable(e: Entry, agent: Option<nat>, includeActive: bool)
  {
    !e.retired && (includeActive || e.inFlight == 0) && e.idleHint && (agent.None? || e.agent == agent.value)
  }

  /** The hinted entry is retired when idle and only loses its hint when busy. */
  ghost predicate Reclaims(p: Pool, id: nat, q: Pool)
  {
    && id in p.known && p.known[id].idleHint && !p.known[id].retired
    && q == if p.known[id].inFlight == 0 then Retired(p, id) else Unhinted(p, id)
  }

  /** No live entry is a candidate. */
  ghost predicate NoCandidate(p: Pool, agent: Option<nat>, includeActive: bool)
  {
    forall k :: k in p.entries && p.entries[k] in p.known ==> !Reclaimable(p.known[p.entries[k]], agent, includeActive)
  }

  /** A candidate, and no live candidate was used before it. */
  ghost predicate OldestCandidate(p: Pool, id: nat, agent: Option<nat>, includeActive: bool)
  {
    && id in p.known && Reclaimable(p.known[id], agent, includeActive)
    && forall k | k in p.entries && p.entries[k] in p.known ::
         Reclaimable(p.known[p.entries[k]], agent, includeActive) ==>
           p.known[id].lastUsed <= p.known[p.entries[k]].lastUsed
  }

  /** The order of choice: idle before busy, and within each the preferred agent
      before the others. */
  ghost predicate Victim(p: Pool, id: nat, preferred: Option<nat>, others: bool)
  {
    if preferred.Some? && !NoCandidate(p, preferred, false) then OldestCandidate(p, id, preferred, false)
    else if others && !NoCandidate(p, None, false) then OldestCandidate(p, id, None, false)
    else if preferred.Some? && !NoCandidate(p, preferred, true) then OldestCandidate(p, id, preferred, true)
    else others && OldestCandidate(p, id, None, true)
  }

  function Retained(p: Pool): nat { |p.entries| + |p.draining| }

  /** Every live entry has a claim. */
  ghost predicate AllBusy(p: Pool)
  {
    forall k :: k in p.entries && p.entries[k] in p.known ==> p.known[p.entries[k]].inFlight != 0
  }

  /** A live entry without a claim, and no such entry was used before it. */
  ghost predicate LeastUsed(p: Pool, id: nat)
  {
    && id in p.known && !p.known[id].retired && p.known[id].inFlight == 0
    && forall k :: k in p.entries && p.entries[k] in p.known && p.known[p.entries[k]].inFlight == 0 ==>
         p.known[id].lastUsed <= p.known[p.entries[k]].lastUsed
  }

  /** A full pool gives up its least recently used idle entry and no other. */
  ghost predicate Evicts(p: Pool, q: Pool)
  {
    if p.maxEntries == 0 || Retained(p) < p.maxEntries || AllBusy(p) then q == p
    else exists id :: LeastUsed(p, id) && q == Retired(p, id)
  }

  /** The live entry of the key serves this agent. */
  ghost predicate Serves(p: Pool, key: Key, agent: nat)
  {
    key in p.entries && p.entries[key] in p.known && p.known[p.entries[key]].agent == agent
  }

  /** A stale entry of the key is retired and the limit is read, once. */
  ghost function Prepared(p: Pool, key: Key, capacity: nat): Pool
  {
    LimitSet(if key in p.entries && p.entries[key] in p.known then Retired(p, p.entries[key]) else p, capacity)
  }

  /** After eviction a new entry is added if and only if there is room. */
  ghost predicate Creates(p: Pool, mid: Pool, key: Key, agent: nat, now: int, id: Option<nat>, q: Pool)
  {
    && Evicts(p, mid)
    && (id.Some? <==> Retained(mid) < mid.maxEntries)
    && (id.Some? ==> id.value == mid.nextEntry)
    && q == if id.Some? then Added(mid, key, agent, now) else mid
  }

  /** The keys a close call retires. */
  ghost function InScope(p: Pool, scope: Scope): set<Key>
  {
    set k | k in p.entries && p.entries[k] in p.known && Matches(scope, p.known[p.entries[k]])
  }

  /** The live entries of these keys retired, and nothing else changed. */
  ghost function RetiredAll(p: Pool, gone: set<Key>): Pool
  {
    p.(entries := p.entries - gone,
       known := map id | id in p.known :: RetiredIf(p.known[id], gone),
       draining := p.draining + set id | id in p.known && !p.known[id].retired && p.known[id].key in gone &&
         p.known[id].inFlight > 0)
  }

  ghost function RetiredIf(e: Entry, gone: set<Key>): Entry
  {
    if e.key in gone then e.(retired := true) else e
  }

  /** The entry of the key on this lane is ready for the agent. */
  ghost predicate ReadyLane(p: Pool, agent: nat, key: Key, lane: nat)
  {
    var k := key.(lane := lane);
    k in p.entries && p.entries[k] in p.known && Ready(p.known[p.entries[k]], agent)
  }

  /** The tunnel lanes of an agent: which are open, whether the first is set aside
      for aggregate flow control, and where the rotation stands. */
  datatype Tunnels = Tunnels(open: seq<bool>, aggregate: bool, initialized: bool, session: bool, next: int)

  /** Before the lanes are set up the agent's one session counts as a lane. */
  function Lanes(t: Tunnels): seq<bool>
  {
    if t.initialized then t.open else if t.aggregate || !t.session then [] else [true]
  }

  function FirstLane(t: Tunnels): (first: nat)
    ensures first <= |Lanes(t)|
  {
    if t.initialized && t.aggregate && t.open != [] then 1 else 0
  }

  /** A rotation that stands outside the lanes starts over. */
  function StartLane(t: Tunnels): (start: nat)
    ensures FirstLane(t) <= start && (FirstLane(t) < |Lanes(t)| ==> start < |Lanes(t)|)
  {
    if !t.initialized || t.next < FirstLane(t) || t.next >= |t.open| then FirstLane(t) else t.next
  }

  /** Where the rotation stands after `lane` was used. */
  function NextLane(t: Tunnels, lane: nat): int
  {
    if !t.initialized || lane < FirstLane(t) || |t.open| <= FirstLane(t) then t.next
    else LaneAt(t.open, FirstLane(t), lane, 1)
  }

  /** The lane `i` places after `start`, counted cyclically from `first`. */
  function LaneAt(open: seq<bool>, first: nat, start: nat, i: nat): (at: nat)
    requires first < |open| && first <= start
    ensures first <= at < |open|
  {
    first + (start - first + i) % (|open| - first)
  }

  /** The open lanes among the first `n` from `start`. */
  function OpenLanes(open: seq<bool>, first: nat, start: nat, n: nat): seq<nat>
    requires first + n <= |open| && (n == 0 || first <= start)
  {
    if n == 0 then []
    else
      var at := LaneAt(open, first, start, n - 1);
      OpenLanes(open, first, start, n - 1) + if open[at] then [at] else []
  }

  /** The choice is a ready lane of the list that was used last, or none if no
      lane of the list is ready. */
  ghost predicate Preferred(p: Pool, agent: nat, key: Key, lanes: seq<nat>, choice: Option<nat>)
  {
    && (choice.Some? ==> choice.value in lanes && ReadyLane(p, agent, key, choice.value))
    && forall l :: l in lanes && ReadyLane(p, agent, key, l) ==>
      choice.Some? && LaneUsed(p, key, l) <= LaneUsed(p, key, choice.value)
  }

  ghost function LaneUsed(p: Pool, key: Key, lane: nat): int
  {
    var k := key.(lane := lane);
    if k in p.entries && p.entries[k] in p.known then p.known[p.entries[k]].lastUsed else 0
  }

  /** Ready for another request without dialing. */
  predicate Ready(e: Entry, agent: nat) { e.agent == agent && !e.retired && e.inFlight == 0 && e.idleHint }

  class TransportPool {
    var known: map<nat, Entry>
    var entries: map<Key, nat>
    var draining: set<nat>
    var maxEntries: nat
    var limitInitialized: bool
    var trips: map<nat, Trip>
    var nextEntry: nat
    var nextClaim: nat

    function View(): Pool
      reads this
    {
      Pool(known, entries, draining, maxEntries, limitInitialized, trips, nextEntry, nextClaim)
    }

    constructor ()
      ensures View() == EMPTY && Sound(View())
    {
      known, entries, draining := map[], map[], {};
      maxEntries, limitInitialized := 0, false;
      trips, nextEntry, nextClaim := map[], 0, 0;
    }

    method RetireLocked(id: nat)
      requires id in known
      modifies this`known, this`entries, this`draining
      ensures View() == Retired(old(View()), id)
    {
      var e := known[id];
      if e.retired {
        return;
      }
      if e.key in entries && entries[e.key] == id {
        entries := entries - {e.key};
      }
      known := known[id := e.(retired := true)];
      if e.inFlight > 0 {
        draining := draining + {id};
      }
    }

    /** The least recently used entry without a claim, in whatever order the
        entries are visited. */
    method OldestIdle() returns (oldest: Option<nat>)
      requires EntriesOk(View())
      ensures oldest.None? <==> AllBusy(View())
      ensures oldest.Some? ==> LeastUsed(View(), oldest.value)
    {
      oldest := None;
      var todo := entries.Keys;
      while todo != {}
        invariant todo <= entries.Keys
        invariant oldest.Some? ==>
          oldest.value in known && !known[oldest.value].retired && known[oldest.value].inFlight == 0
        invariant forall k :: k in entries && k !in todo && known[entries[k]].inFlight == 0 ==>
          oldest.Some? && known[oldest.value].lastUsed <= known[entries[k]].lastUsed
        decreases |todo|
      {
        var k :| k in todo;
        assert Leads(View(), k);
        var e := known[entries[k]];
        if !e.retired && e.inFlight == 0 && (oldest.None? || e.lastUsed < known[oldest.value].lastUsed) {
          oldest := Some(entries[k]);
        }
        todo := todo - {k};
      }
      if oldest.Some? { assert Reachable(View(), oldest.value); }
    }

    /** Makes room by retiring the oldest idle entry. */
    method Evict()
      requires Sound(View())
      modifies this`known, this`entries, this`draining
      ensures Sound(View()) && Evicts(old(View()), View()) && Reaches(old(View()), View())
      ensures maxEntries == 0 || |entries| + |draining| < maxEntries || AllBusy(View())
      ensures entries.Keys <= old(entries).Keys
    {
      hide EntriesOk, ClaimsOk, AllBusy, LeastUsed, Reaches;
      ReachesItself(View());
      while |entries| + |draining| >= maxEntries && maxEntries > 0
        invariant Sound(View()) && entries.Keys <= old(entries).Keys && Reaches(old(View()), View())
        invariant View() == old(View()) || (Evicts(old(View()), View()) && |entries| + |draining| < maxEntries)
        decreases |entries| + |draining|
      {
        var candidate := OldestIdle();
        if candidate.None? {
          break;
        }
        LeastUsedIsIdle(View(), candidate.value);
        RetiredValid(View(), candidate.value);
        ReachesNext(old(View()), View(), Retiring(candidate.value));
        RetireLocked(candidate.value);
      }
    }

    method InitializeLimitLocked(capacity: nat)
      modifies this`maxEntries, this`limitInitialized
      ensures View() == LimitSet(old(View()), capacity)
    {
      if limitInitialized {
        return;
      }
      limitInitialized := true;
      maxEntries := capacity;
    }

    /** Retires a stale entry of the key, and reads the limit the first time. */
    method PrepareLocked(key: Key, agent: nat, capacity: nat)
      requires Sound(View()) && !Serves(View(), key, agent)
      modifies this`known, this`entries, this`draining, this`maxEntries, this`limitInitialized
      ensures Sound(View()) && View() == Prepared(old(View()), key, capacity) && Reaches(old(View()), View())
      ensures key !in entries
    {
      hide EntriesOk, ClaimsOk, Reaches;
      ghost var p := View();
      ReachesItself(p);
      if key in entries {
        var existing := entries[key];
        EntryLeads(View(), key);
        RetiredValid(View(), existing);
        OthersStay(View(), existing);
        ReachesNext(p, View(), Retiring(existing));
        RetireLocked(existing);
      }
      ReachesNext(p, View(), Limiting(capacity));
      LimitSetValid(View(), capacity);
      InitializeLimitLocked(capacity);
    }

    /** A pooled entry for the key, or none when the caller must go one-shot:
        then the pool holds nothing or is full of entries in use. */
    method GetOrCreate(key: Key, agent: nat, capacity: nat, now: int) returns (id: Option<nat>)
      requires Sound(View())
      modifies this`known, this`entries, this`draining, this`maxEntries, this`limitInitialized, this`nextEntry
      ensures Sound(View()) && Reaches(old(View()), View())
      ensures id.Some? ==>
        id.value in known && known[id.value].key == key && known[id.value].agent == agent && !known[id.value].retired
      ensures id.None? ==> maxEntries == 0 || (|entries| + |draining| == maxEntries && AllBusy(View()))
      ensures Serves(old(View()), key, agent) ==> id == Some(old(entries)[key]) && View() == old(View())
      ensures !Serves(old(View()), key, agent) ==>
        exists mid :: Creates(Prepared(old(View()), key, capacity), mid, key, agent, now, id, View())
    {
      hide EntriesOk, ClaimsOk, Evicts, AllBusy, Reaches, Prepared;
      ghost var p := View();
      if key in entries {
        EntryLeads(View(), key);
        var existing := entries[key];
        if known[existing].agent == agent && !known[existing].retired {
          ReachesItself(p);
          return Some(existing);
        }
      }
      PrepareLocked(key, agent, capacity);
      ghost var prepared := View();
      Evict();
      ghost var mid := View();
      ReachesThrough(p, prepared, mid);
      if maxEntries == 0 || |entries| + |draining| >= maxEntries {
        assert Creates(prepared, mid, key, agent, now, None, View());
        return None;
      }
      AddedValid(View(), key, agent, now);
      ReachesNext(p, View(), Adding(key, agent, now));
      id := Some(nextEntry);
      known := known[nextEntry := Entry(key, agent, now, 0, false, false)];
      entries := entries[key := nextEntry];
      nextEntry := nextEntry + 1;
      assert Creates(prepared, mid, key, agent, now, id, View());
    }

    /** Starts a request on an entry; a retired one hands out no claim. */
    method Claim(id: nat, now: int) returns (claim: Option<nat>)
      requires Sound(View()) && id in known
      modifies this`known, this`trips, this`nextClaim
      ensures Sound(View())
      ensures claim.None? <==> old(known)[id].retired
      ensures View() == if claim.None? then old(View()) else Claimed(old(View()), id, now)
      ensures claim.Some? ==>
        claim.value !in old(trips) && claim.value in trips && trips[claim.value] == Trip(id, Waiting)
    {
      hide Sound;
      if known[id].retired {
        return None;
      }
      ApplySound(View(), Claiming(id, now));
      NextClaimIsNew(View());
      claim := Some(nextClaim);
      known := known[id := known[id].(inFlight := known[id].inFlight + 1, lastUsed := now)];
      trips := trips[nextClaim := Trip(id, Waiting)];
      nextClaim := nextClaim + 1;
    }

    /** The end of a round trip.  It does not know whose it is, so on its own it
        keeps no count: its callers do. */
    method RoundTripDone(id: nat, reusable: bool)
      requires id in known
      modifies this`known, this`draining
      ensures View() == Done(old(View()), id, reusable)
    {
      var e := known[id];
      if e.inFlight > 0 {
        e := e.(inFlight := e.inFlight - 1);
      }
      if reusable && !e.retired {
        e := e.(idleHint := true);
      }
      if e.retired && e.inFlight == 0 {
        draining := draining - {id};
      }
      known := known[id := e];
    }

    /** The tracked body's once-guard. */
    method FinishBody(claim: nat, reusable: bool)
      requires claim in trips && trips[claim].stage.Streaming? && trips[claim].entry in known
      modifies this`known, this`draining, this`trips
      ensures var p, t := old(View()), old(trips)[claim];
        var (stage, done) := Finish(t.stage, reusable);
        var q := p.(trips := p.trips[claim := t.(stage := stage)]);
        View() == if done.Some? then Done(q, t.entry, done.value) else q
    {
      var t := trips[claim];
      if t.stage.finished {
        assert trips[claim := t] == trips;
        return;
      }
      trips := trips[claim := t.(stage := t.stage.(finished := true))];
      RoundTripDone(t.entry, reusable);
    }

    /** The transport answers: with an error, or with a response that has no body,
        the round trip is over; otherwise the body takes the claim with it. */
    method RoundTripClaimed(claim: nat, answer: TripEvent)
      requires Sound(View()) && claim in trips && trips[claim].stage == Waiting
      requires answer.Failed? || answer.NoBody? || answer.WithBody?
      modifies this`known, this`draining, this`trips
      ensures Sound(View()) && Enabled(old(View()), Tripping(claim, answer))
      ensures View() == Apply(old(View()), Tripping(claim, answer))
    {
      hide Sound;
      ClaimIsKnown(View(), claim);
      ApplySound(View(), Tripping(claim, answer));
      var t := trips[claim];
      match answer
      case Failed =>
        trips := trips[claim := t.(stage := Over)];
        RoundTripDone(t.entry, false);
      case NoBody(switching) =>
        trips := trips[claim := t.(stage := Over)];
        RoundTripDone(t.entry, !switching);
      case WithBody(switching, writable) =>
        trips := trips[claim := t.(stage := Streaming(!switching, writable, false))];
    }

    method ReadBody(claim: nat, result: ReadResult)
      requires Sound(View()) && claim in trips && trips[claim].stage.Streaming?
      modifies this`known, this`draining, this`trips
      ensures Sound(View()) && Enabled(old(View()), Tripping(claim, Read(result)))
      ensures View() == Apply(old(View()), Tripping(claim, Read(result)))
    {
      hide Sound;
      ClaimIsKnown(View(), claim);
      ApplySound(View(), Tripping(claim, Read(result)));
      SameTrip(trips, claim);
      if result != More {
        FinishBody(claim, result == EndOfFile && trips[claim].stage.canReuse);
      }
    }

    method CloseBody(claim: nat)
      requires Sound(View()) && claim in trips && trips[claim].stage.Streaming?
      modifies this`known, this`draining, this`trips
      ensures Sound(View()) && Enabled(old(View()), Tripping(claim, Close))
      ensures View() == Apply(old(View()), Tripping(claim, Close))
    {
      hide Sound;
      ClaimIsKnown(View(), claim);
      ApplySound(View(), Tripping(claim, Close));
      FinishBody(claim, false);
    }

    method WriteBody(claim: nat, failed: bool)
      requires Sound(View()) && claim in trips && trips[claim].stage.Streaming? && trips[claim].stage.writable
      modifies this`known, this`draining, this`trips
      ensures Sound(View()) && Enabled(old(View()), Tripping(claim, Write(failed)))
      ensures View() == Apply(old(View()), Tripping(claim, Write(failed)))
    {
      hide Sound;
      ClaimIsKnown(View(), claim);
      ApplySound(View(), Tripping(claim, Write(failed)));
      SameTrip(trips, claim);
      if failed {
        FinishBody(claim, false);
      }
    }

    method SumLive(agentId: int) returns (total: int)
      requires Valid(View())
      ensures total == |ClaimsAmong(View(), agentId, entries.Values)|
    {
      hide EntriesOk, ClaimsOk, Bounded, ClaimsAmong;
      total := 0;
      ghost var seen: set<nat> := {};
      NothingAmong(View(), agentId);
      var todo := entries.Keys;
      while todo != {}
        invariant todo <= entries.Keys
        invariant seen == set k | k in entries && k !in todo :: entries[k]
        invariant total == |ClaimsAmong(View(), agentId, seen)|
        decreases |todo|
      {
        var k :| k in todo;
        NotSeen(View(), todo, k);
        ClaimsAmongMore(View(), agentId, seen, entries[k]);
        if k.agentId == agentId {
          total := total + known[entries[k]].inFlight;
        }
        seen := seen + {entries[k]};
        todo := todo - {k};
      }
      assert seen == entries.Values;
    }

    method SumDraining(agentId: int, ghost live: set<nat>) returns (total: int)
      requires ClaimsOk(View()) && live !! draining && forall id :: id in draining ==> id in known
      ensures total == |ClaimsAmong(View(), agentId, live + draining)| - |ClaimsAmong(View(), agentId, live)|
    {
      hide ClaimsOk, ClaimsAmong;
      total := 0;
      ghost var seen := live;
      var rest := draining;
      while rest != {}
        invariant rest <= draining && rest !! seen && seen + rest == live + draining
        invariant total == |ClaimsAmong(View(), agentId, seen)| - |ClaimsAmong(View(), agentId, live)|
        decreases |rest|
      {
        var id :| id in rest;
        ClaimsAmongMore(View(), agentId, seen, id);
        if known[id].key.agentId == agentId {
          total := total + known[id].inFlight;
        }
        seen := seen + {id};
        rest := rest - {id};
      }
      assert seen == live + draining;
    }

    /** The claims of live and draining entries of an agent: all there are. */
    method InFlightForAgent(agentId: int) returns (total: int)
      requires Sound(View())
      ensures total == if agentId <= 0 then 0 else |ClaimsFor(View(), agentId)|
      ensures agentId > 0 ==> (total == 0 <==>
        forall c :: c in trips && Unfinished(trips[c]) ==> known[trips[c].entry].key.agentId != agentId)
    {
      total := 0;
      if agentId <= 0 {
        return;
      }
      hide EntriesOk, ClaimsOk, Bounded, ClaimsAmong, ClaimsFor;
      var live := SumLive(agentId);
      LiveNotDraining(View());
      var rest := SumDraining(agentId, entries.Values);
      total := live + rest;
      ClaimsAreHeld(View(), agentId, entries.Values + draining);
      NoClaimsIffZero(View(), agentId);
    }

    /** Retires every live entry in scope and no other; claims are left to drain. */
    method CloseWhere(scope: Scope)
      requires Sound(View())
      modifies this`known, this`entries, this`draining
      ensures Sound(View())
      ensures View() == RetiredAll(old(View()), InScope(old(View()), scope)) && Reaches(old(View()), View())
    {
      hide Closing, Matches;
      ghost var p := View();
      ClosingStarts(p, scope);
      var todo := entries.Keys;
      while todo != {}
        invariant todo <= p.entries.Keys && Closing(p, scope, todo, View())
        decreases |todo|
      {
        var k :| k in todo;
        ClosingStep(p, scope, todo, k, View());
        if Matches(scope, known[entries[k]]) {
          RetireLocked(entries[k]);
        }
        todo := todo - {k};
      }
      ClosingEnds(p, scope, View());
    }

    method Select(agent: Option<nat>, includeActive: bool) returns (candidate: Option<nat>)
      requires EntriesOk(View())
      ensures candidate.None? <==> NoCandidate(View(), agent, includeActive)
      ensures candidate.Some? ==> OldestCandidate(View(), candidate.value, agent, includeActive)
    {
      candidate := None;
      var todo := entries.Keys;
      while todo != {}
        invariant todo <= entries.Keys
        invariant candidate.Some? ==>
          candidate.value in known && Reclaimable(known[candidate.value], agent, includeActive)
        invariant forall k :: k in entries && k !in todo && Reclaimable(known[entries[k]], agent, includeActive) ==>
          candidate.Some? && known[candidate.value].lastUsed <= known[entries[k]].lastUsed
        decreases |todo|
      {
        var k :| k in todo;
        assert Leads(View(), k);
        var e := known[entries[k]];
        if Reclaimable(e, agent, includeActive) && (candidate.None? || e.lastUsed < known[candidate.value].lastUsed) {
          candidate := Some(entries[k]);
        }
        todo := todo - {k};
      }
      if candidate.Some? { assert Reachable(View(), candidate.value); }
    }

    /** The entry to give up under pressure, if there is a candidate. */
    method Choose(preferred: Option<nat>, others: bool) returns (candidate: Option<nat>)
      requires EntriesOk(View())
      ensures candidate.None? <==>
        (preferred.Some? ==> NoCandidate(View(), preferred, true)) && (others ==> NoCandidate(View(), None, true))
      ensures candidate.Some? ==> Victim(View(), candidate.value, preferred, others)
    {
      IdleIsCandidate(View(), preferred);
      IdleIsCandidate(View(), None);
      hide EntriesOk, NoCandidate, OldestCandidate;
      candidate := None;
      if preferred.Some? {
        candidate := Select(preferred, false);
      }
      if candidate.None? && others {
        candidate := Select(None, false);
      }
      if candidate.None? && preferred.Some? {
        candidate := Select(preferred, true);
      }
      if candidate.None? && others {
        candidate := Select(None, true);
      }
    }

    /** Under pressure: an idle entry is retired, a busy one only loses its
        hint; with no candidate nothing changes. */
    method Reclaim(preferred: Option<nat>, others: bool) returns (ok: bool)
      requires Sound(View())
      modifies this`known, this`entries, this`draining
      ensures Sound(View()) && Reaches(old(View()), View())
      ensures ok ==> exists id :: Victim(old(View()), id, preferred, others) && Reclaims(old(View()), id, View())
      ensures !ok ==> View() == old(View())
      ensures !ok <==>
        && (preferred.Some? ==> NoCandidate(old(View()), preferred, true))
        && (others ==> NoCandidate(old(View()), None, true))
    {
      SoundEntries(View());
      hide Sound, EntriesOk, NoCandidate, Victim, Reaches;
      var candidate := Choose(preferred, others);
      if candidate.None? {
        ReachesItself(View());
        return false;
      }
      var id := candidate.value;
      VictimIsHinted(View(), id, preferred, others);
      ReclaimedSound(View(), id);
      if known[id].inFlight == 0 {
        RetireLocked(id);
      } else {
        known := known[id := known[id].(idleHint := false)];
      }
      assert Reclaims(old(View()), id, View());
      return true;
    }

    /** Among the first four open lanes from where the rotation stands, the most
        recently used entry that is ready. */
    method FindReady(agent: nat, key: Key, t: Tunnels) returns (lane: Option<nat>, ghost n: nat)
      requires EntriesOk(View())
      ensures Searched(t, n) && Preferred(View(), agent, key, SearchedLanes(t, n), lane)
      ensures lane.Some? ==> FirstLane(t) <= lane.value < |Lanes(t)|
    {
      hide EntriesOk, LaneAt, OpenLanes;
      lane := None;
      var open, first, start := Lanes(t), FirstLane(t), StartLane(t);
      var count := |open| - first;
      var checked, offset := 0, 0;
      ghost var lanes := [];
      LanesStep(open, first, start, 0);
      while offset < count && checked < 4
        invariant 0 <= offset <= count && checked <= 4
        invariant lanes == OpenLanes(open, first, start, offset) && |lanes| == checked
        invariant Preferred(View(), agent, key, lanes, lane) && (lane.Some? ==> first <= lane.value < |open|)
        decreases count - offset
      {
        LanesStep(open, first, start, offset);
        var at := LaneAt(open, first, start, offset);
        if open[at] {
          checked := checked + 1;
          var k := key.(lane := at);
          if k in entries {
            EntryLeads(View(), k);
            var e := known[entries[k]];
            if Ready(e, agent) && (lane.None? || e.lastUsed > known[entries[key.(lane := lane.value)]].lastUsed) {
              lane := Some(at);
            }
          }
          lanes := lanes + [at];
        }
        offset := offset + 1;
      }
      n := offset;
    }

    /** Claims the preferred ready entry, if there is one, and moves the rotation
        past its lane. */
    method ClaimIdle(agent: nat, key: Key, t: Tunnels, now: int)
      returns (claim: Option<nat>, next: int, ghost lane: Option<nat>, ghost n: nat)
      requires Sound(View())
      modifies this`known, this`trips, this`nextClaim
      ensures Sound(View()) && Searched(t, n) && Preferred(old(View()), agent, key, SearchedLanes(t, n), lane)
      ensures claim.Some? <==> lane.Some?
      ensures View() == if lane.None? then old(View())
        else Claimed(old(View()), old(entries)[key.(lane := lane.value)], now)
      ensures next == if lane.None? then t.next else NextLane(t, lane.value)
      ensures lane.Some? && t.initialized ==> FirstLane(t) <= next < |t.open|
    {
      SoundEntries(View());
      hide Sound, EntriesOk, OpenLanes, LaneAt, Searched;
      claim, next := None, t.next;
      var preferred;
      preferred, n := FindReady(agent, key, t);
      lane := preferred;
      if preferred.Some? {
        claim := Claim(entries[key.(lane := preferred.value)], now);
        next := NextLane(t, preferred.value);
      }
    }
  }

  /** The search ends after four open lanes or when all lanes were seen. */
  ghost predicate Searched(t: Tunnels, n: nat)
  {
    && FirstLane(t) + n <= |Lanes(t)|
    && |SearchedLanes(t, n)| <= 4
    && (FirstLane(t) + n == |Lanes(t)| || |SearchedLanes(t, n)| == 4)
  }

  ghost function SearchedLanes(t: Tunnels, n: nat): seq<nat>
    requires FirstLane(t) + n <= |Lanes(t)|
  {
    OpenLanes(Lanes(t), FirstLane(t), StartLane(t), n)
  }

  lemma SoundEntries(p: Pool)
    requires Sound(p)
    ensures EntriesOk(p)
  {
  }

  lemma LanesStep(open: seq<bool>, first: nat, start: nat, n: nat)
    requires first <= |open| && first <= start
    ensures OpenLanes(open, first, start, 0) == []
    ensures first + n < |open| ==>
      var at := LaneAt(open, first, start, n);
      first <= at < |open| &&
        OpenLanes(open, first, start, n + 1) == OpenLanes(open, first, start, n) + if open[at] then [at] else []
  {
  }

  lemma NextClaimIsNew(p: Pool)
    requires Sound(p)
    ensures p.nextClaim !in p.trips
  {
    hide EntriesOk, DrainingOk, Counted;
  }

  lemma SameTrip(trips: map<nat, Trip>, c: nat)
    requires c in trips
    ensures trips[c := trips[c].(stage := trips[c].stage)] == trips
  {
  }

  lemma ClaimIsKnown(p: Pool, claim: nat)
    requires Sound(p)
    ensures claim in p.trips ==> p.trips[claim].entry in p.known
  {
    hide EntriesOk, DrainingOk, Counted;
  }

  lemma NothingAmong(p: Pool, agentId: int)
    requires ClaimsOk(p)
    ensures ClaimsAmong(p, agentId, {}) == {}
  {
  }

  /** An entry is listed under one key only. */
  lemma NotSeen(p: Pool, todo: set<Key>, k: Key)
    requires EntriesOk(p) && k in todo && k in p.entries
    ensures p.entries[k] in p.known && p.known[p.entries[k]].key == k
    ensures p.entries[k] !in set j | j in p.entries && j !in todo :: p.entries[j]
  {
    assert Leads(p, k);
    forall j | j in p.entries && j !in todo ensures p.entries[j] != p.entries[k] { assert Leads(p, j); }
  }

  lemma LiveNotDraining(p: Pool)
    requires Valid(p)
    ensures p.entries.Values !! p.draining && forall id :: id in p.draining ==> id in p.known
  {
    forall k | k in p.entries ensures p.entries[k] !in p.draining { assert Leads(p, k); }
  }

  lemma NoClaimsIffZero(p: Pool, agentId: int)
    requires ClaimsOk(p)
    ensures forall c :: c in p.trips ==> p.trips[c].entry in p.known
    ensures |ClaimsFor(p, agentId)| == 0 <==>
      forall c :: c in p.trips && Unfinished(p.trips[c]) ==> p.known[p.trips[c].entry].key.agentId != agentId
  {
    hide DrainingOk, Counted;
    if c :| c in p.trips && Unfinished(p.trips[c]) && p.known[p.trips[c].entry].key.agentId == agentId {
      assert c in ClaimsFor(p, agentId);
    }
    if |ClaimsFor(p, agentId)| != 0 {
      var c :| c in ClaimsFor(p, agentId);
    }
  }

  lemma EntryLeads(p: Pool, k: Key)
    requires EntriesOk(p) && k in p.entries
    ensures Leads(p, k)
  {
  }

  lemma OthersStay(p: Pool, id: nat)
    requires EntriesOk(p) && id in p.known && !p.known[id].retired
    ensures var q := Retired(p, id);
      && q.entries.Keys == p.entries.Keys - {p.known[id].key}
      && forall k :: k in q.entries ==>
        q.entries[k] == p.entries[k] && q.entries[k] in q.known && q.known[q.entries[k]] == p.known[p.entries[k]]
  {
    assert Reachable(p, id);
    var q := Retired(p, id);
    forall k | k in q.entries
      ensures q.entries[k] == p.entries[k] && q.entries[k] in q.known &&
        q.known[q.entries[k]] == p.known[p.entries[k]] {
      assert Leads(p, k);
    }
  }

  lemma LeastUsedIsIdle(p: Pool, id: nat)
    requires LeastUsed(p, id)
    ensures id in p.known && !p.known[id].retired && p.known[id].inFlight == 0
  {
  }

  lemma IdleIsCandidate(p: Pool, agent: Option<nat>)
    ensures NoCandidate(p, agent, true) ==> NoCandidate(p, agent, false)
  {
  }

  lemma VictimIsHinted(p: Pool, id: nat, preferred: Option<nat>, others: bool)
    requires Victim(p, id, preferred, others)
    ensures id in p.known && p.known[id].idleHint && !p.known[id].retired
  {
  }

  lemma ReclaimedSound(p: Pool, id: nat)
    requires Sound(p) && id in p.known && !p.known[id].retired
    ensures var q := if p.known[id].inFlight == 0 then Retired(p, id) else Unhinted(p, id); Sound(q) && Reaches(p, q)
  {
    hide EntriesOk, ClaimsOk, Reaches;
    RetiredValid(p, id);
    UnhintedValid(p, id);
    ReachesItself(p);
    ReachesNext(p, p, Retiring(id));
    ReachesNext(p, p, Unhinting(id));
  }

  // ---- Closing a whole scope ----

  /** The scope closed as far as the keys that are not left to visit. */
  ghost function Closed(p: Pool, scope: Scope, todo: set<Key>): Pool { RetiredAll(p, InScope(p, scope) - todo) }

  lemma ClosedNone(p: Pool, scope: Scope)
    ensures Closed(p, scope, p.entries.Keys) == p
  {
    assert InScope(p, scope) - p.entries.Keys == {};
    assert p.entries - {} == p.entries;
    assert (map id | id in p.known :: RetiredIf(p.known[id], {})) == p.known;
  }

  lemma ClosedAll(p: Pool, scope: Scope)
    ensures Closed(p, scope, {}) == RetiredAll(p, InScope(p, scope))
  {
    assert InScope(p, scope) - {} == InScope(p, scope);
  }

  /** Visiting a key retires its entry if that is in scope. */
  lemma ClosedStep(p: Pool, scope: Scope, todo: set<Key>, k: Key)
    requires EntriesOk(p) && k in todo && k in p.entries
    ensures var q := Closed(p, scope, todo);
      && k in q.entries && q.entries[k] in q.known
      && Closed(p, scope, todo - {k}) == if Matches(scope, q.known[q.entries[k]]) then Retired(q, q.entries[k]) else q
  {
    hide EntriesOk, RetiredAll, Retired, Matches, InScope;
    StillThere(p, InScope(p, scope) - todo, k);
    ScopeStep(p, scope, todo, k);
    OneMoreRetired(p, InScope(p, scope) - todo, k);
  }

  /** The pool while a scope of `p` is closed, with these keys left to visit. */
  ghost predicate Closing(p: Pool, scope: Scope, todo: set<Key>, q: Pool)
  {
    EntriesOk(p) && Sound(q) && q == Closed(p, scope, todo) && Reaches(p, q)
  }

  lemma ClosingStarts(p: Pool, scope: Scope)
    requires Sound(p)
    ensures Closing(p, scope, p.entries.Keys, p)
  {
    SoundEntries(p);
    hide Sound, EntriesOk, Closed, Reaches;
    ClosedNone(p, scope);
    ReachesItself(p);
  }

  lemma ClosingStep(p: Pool, scope: Scope, todo: set<Key>, k: Key, q: Pool)
    requires Closing(p, scope, todo, q) && k in todo && k in p.entries
    ensures k in q.entries && q.entries[k] in q.known
    ensures Closing(p, scope, todo - {k},
      if Matches(scope, q.known[q.entries[k]]) then Retired(q, q.entries[k]) else q)
  {
    hide Sound, EntriesOk, Closed, Reaches, Matches, Retired;
    ClosedStep(p, scope, todo, k);
    RetiredSound(p, q, q.entries[k]);
  }

  lemma ClosingEnds(p: Pool, scope: Scope, q: Pool)
    requires Closing(p, scope, {}, q)
    ensures Sound(q) && Reaches(p, q) && q == RetiredAll(p, InScope(p, scope))
  {
    hide Sound, EntriesOk, Reaches, Closed, RetiredAll, InScope;
    ClosedAll(p, scope);
  }

  lemma ScopeStep(p: Pool, scope: Scope, todo: set<Key>, k: Key)
    requires EntriesOk(p) && k in todo && k in p.entries
    ensures p.entries[k] in p.known
    ensures InScope(p, scope) - (todo - {k}) ==
      if Matches(scope, p.known[p.entries[k]]) then InScope(p, scope) - todo + {k} else InScope(p, scope) - todo
  {
    hide Matches;
    assert Leads(p, k);
  }

  lemma RetiredSound(p: Pool, q: Pool, id: nat)
    requires Sound(q) && id in q.known && Reaches(p, q)
    ensures Sound(Retired(q, id)) && Reaches(p, Retired(q, id))
  {
    hide EntriesOk, ClaimsOk, Reaches;
    RetiredValid(q, id);
    ReachesNext(p, q, Retiring(id));
  }

  /** A key that was not closed leads where it did. */
  lemma StillThere(p: Pool, gone: set<Key>, k: Key)
    requires EntriesOk(p) && k in p.entries && k !in gone
    ensures var q := RetiredAll(p, gone);
      k in q.entries && q.entries[k] == p.entries[k] && q.entries[k] in q.known &&
        q.known[q.entries[k]] == p.known[p.entries[k]]
  {
    assert Leads(p, k);
  }

  /** Closing one key more is one retirement more. */
  lemma OneMoreRetired(p: Pool, gone: set<Key>, k: Key)
    requires EntriesOk(p) && k in p.entries && k !in gone && p.entries[k] in RetiredAll(p, gone).known
    ensures Retired(RetiredAll(p, gone), p.entries[k]) == RetiredAll(p, gone + {k})
  {
    var id, more := p.entries[k], gone + {k};
    var q, r := RetiredAll(p, gone), RetiredAll(p, more);
    assert Leads(p, k);
    forall j | j in p.known ensures r.known[j] == if j == id then q.known[j].(retired := true) else q.known[j] {
      assert Reachable(p, j);
    }
    assert Retired(q, id).known == r.known;
    assert Retired(q, id).entries == r.entries;
    assert Retired(q, id).draining == r.draining;
  }
}
