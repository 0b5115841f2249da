/** The stream-capacity manager itself: fields updated in place under its lock,
    one method per critical section.  Each method is proved against the pure
    description of the same step. */
module StreamCapacityManager {
  import opened AdmissionLimit
  import opened LeaseAccounting
  import opened WaiterRing
  import opened StreamCapacity
  import opened ExternalLedger
  import opened CapacityDispatch
  import opened CapacityRuns
  import opened CapacityCalls

  datatype AcquireResult =
    | Invalid
    | ContextDone
    | SamplingInFlight
    | Refused(why: Constraint)
    | Leased(lease: nat)
    | Queued(waiter: nat)

  datatype ReserveResult = Unconstrained | Busy | Denied | Held(id: nat)

  /** A sampler remembers the controller it reads and whether it was counted. */
  datatype Ticket = NoSample | Sample(controller: nat, counted: bool)

  function ClassOf(code: nat): Class
  {
    if code == 0 then PublicPooled else if code == 1 then PublicOneShot else TrustedHealth
  }

  /** The manager's fields.  Counters, queues and the external ledger are kept
      in records; every method reassigns the parts it changes. */
  class Manager {
    const cfg: Config
    var controller: Controller
    var snap: Snapshot
    var sampling: int
    var use: Usage
    var ext: External
    var registered: set<string>
    var limits: map<string, int>
    var ring: Ring

    function View(): State
      reads this
    {
      State(cfg, controller, snap, sampling, use, ext, registered, limits, ring)
    }

    constructor (config: Config)
      requires ConfigValid(config)
      ensures View() == NewState(config) && Settled(View())
    {
      cfg := config;
      controller := NoController;
      snap := Unsampled(false, config.total);
      sampling := 0;
      use := NO_USAGE;
      ext := ExternalLedger.EMPTY;
      registered, limits := {}, map[];
      ring := EMPTY_RING;
      new;
      hide Sound, Quiet, Accounted, WithinNegotiated, LedgerExact;
      NewStateSound(config);
    }

    // ---- Steps taken with the lock held ----

    method GrantLocked(c: Class, key: string, session: string) returns (id: nat)
      modifies this`use
      ensures View() == GrantLease(old(View()), c, key, session)
      ensures id == old(use.nextLease) + 1
    {
      hide Bump, Shift;
      id := use.nextLease + 1;
      var u := use.(nextLease := id, total := use.total + 1, totalUse := Bump(use.totalUse, session));
      match c {
        case PublicPooled =>
          u := u.(public := u.public + 1, pooled := u.pooled + 1,
                  publicUse := Bump(u.publicUse, session), publicOpening := Bump(u.publicOpening, session));
        case PublicOneShot =>
          u := u.(public := u.public + 1,
                  publicUse := Bump(u.publicUse, session), publicOpening := Bump(u.publicOpening, session));
        case TrustedHealth =>
          u := u.(control := u.control + 1);
      }
      use := u.(states := Shift(u.states, c, Opening, 1),
                opening := Bump(u.opening, session),
                active := u.active[id := Lease(c, key, session, Opening)],
                granted := u.granted + 1);
    }

    method EnqueueLocked(c: Class, key: string, session: string) returns (id: nat)
      modifies this`ring
      ensures View() == old(View()).(ring := Enqueue(old(ring), c, key, session))
      ensures id == old(ring.nextWaiter)
    {
      id := ring.nextWaiter;
      var w := Waiter(id, c, key, session);
      if QueueOf(ring.queues, key) == [] {
        ring := ring.(keys := ring.keys + [key]);
      }
      ring := ring.(queues := ring.queues[key := QueueOf(ring.queues, key) + [w]],
                    count := ring.count + 1,
                    waiting := ring.waiting[id := w],
                    nextWaiter := id + 1);
    }

    method RemoveQueueKeyAtLocked(index: nat)
      requires index < |ring.keys|
      modifies this`ring
      ensures View() == old(View()).(ring := RemoveKeyAt(old(ring), index))
    {
      var keys := ring.keys[..index] + ring.keys[index + 1..];
      var cursor := ring.cursor;
      if index < cursor {
        cursor := cursor - 1;
      }
      if cursor >= |keys| {
        cursor := 0;
      }
      ring := ring.(keys := keys, cursor := cursor);
    }

    /** Takes one waiter out of its queue and records what it is told. */
    method TakeOutLocked(index: nat, i: nat, o: Outcome)
      requires index < |ring.keys| && i < |QueueOf(ring.queues, ring.keys[index])|
      modifies this`ring
      ensures View() == old(View()).(ring := Withdraw(old(ring), index, i, o))
    {
      var key := ring.keys[index];
      var queue := ring.queues[key];
      var w := queue[i];
      ring := ring.(count := ring.count - 1, waiting := ring.waiting - {w.id}, settled := ring.settled[w.id := o]);
      if |queue| == 1 {
        ring := ring.(queues := ring.queues - {key});
        RemoveQueueKeyAtLocked(index);
      } else {
        ring := ring.(queues := ring.queues[key := queue[..i] + queue[i + 1..]]);
      }
    }

    method PopQueueEntryLocked(index: nat, i: nat, advance: bool, o: Outcome)
      requires index < |ring.keys| && i < |QueueOf(ring.queues, ring.keys[index])|
      modifies this`ring
      ensures View() == old(View()).(ring := Pop(old(ring), index, i, advance, o))
    {
      var keys := |ring.keys|;
      var emptied := |ring.queues[ring.keys[index]]| == 1;
      TakeOutLocked(index, i, o);
      if !emptied {
        ring := ring.(cursor := if advance then (index + 1) % keys else index);
      }
    }

    // ---- Dispatch ----

    /** Scans the queue of the key under the cursor.  A waiter's context may turn
        out canceled whenever it is looked at. */
    method ScanQueueLocked(ghost s: State, ghost passed: nat) returns (progress: bool, ghost e: Event)
      requires s.ring.cursor < |s.ring.keys| && passed < |s.ring.keys|
      requires View() == s.(ring := s.ring.(cursor := Index(s.ring, passed)))
      requires forall m :: 0 <= m < passed ==> QueueStuck(s, s.ring.keys[Index(s.ring, m)])
      modifies this`ring, this`use
      ensures progress ==> DispatchStep(s, e, View())
      ensures !progress ==> View() == old(View()) && QueueStuck(s, s.ring.keys[Index(s.ring, passed)])
    {
      hide QueueStuck, CanGrant, BlockingConstraint, Pop, Grant;
      var index := ring.cursor;
      var queue := QueueOf(ring.queues, ring.keys[index]);
      progress := false;
      e := Dropped(Position(passed, 0));
      var i := 0;
      while i < |queue|
        invariant 0 <= i <= |queue| && View() == old(View())
        invariant forall j :: 0 <= j < i ==> !Grantable(s, queue[j])
      {
        var w := queue[i];
        GrantableIgnoresCursor(s, index, w);
        var canceled := *;
        if canceled {
          e := Dropped(Position(passed, i));
          PopQueueEntryLocked(index, i, false, Canceled(BlockingConstraint(View(), w.cls, w.sessionKey)));
          progress := true;
          return;
        }
        if CanGrant(View(), w.cls, w.sessionKey) {
          e := Served(Position(passed, i));
          PopQueueEntryLocked(index, i, true, Granted(use.nextLease + 1));
          var lease := GrantLocked(w.cls, w.queueKey, w.sessionKey);
          progress := true;
          return;
        }
        i := i + 1;
      }
      StuckQueue(s, ring.keys[index]);
    }

    /** One pass over the ring from the cursor.  Without progress the cursor is
        back where it stood. */
    method ScanRingLocked() returns (progress: bool, ghost e: Event)
      requires Sound(View()) && ring.keys != []
      modifies this`ring, this`use
      ensures progress ==> DispatchStep(old(View()), e, View())
      ensures !progress ==> View() == old(View()) && Quiet(View())
    {
      hide Sound, Quiet, DispatchStep, QueueStuck, RingWellFormed, Index, Standing;
      ghost var s := View();
      SoundRing(s);
      StandsNext(s.ring, 0);
      e := Dropped(Position(0, 0));
      progress := false;
      var scanned := 0;
      while scanned < |ring.keys|
        invariant 0 <= scanned <= |s.ring.keys|
        invariant View() == s.(ring := s.ring.(cursor := Standing(s.ring, scanned)))
        invariant forall m :: 0 <= m < scanned ==> QueueStuck(s, s.ring.keys[Index(s.ring, m)])
      {
        StandsNext(s.ring, scanned);
        var index := ring.cursor;
        progress, e := ScanQueueLocked(s, scanned);
        if progress {
          return;
        }
        ring := ring.(cursor := (index + 1) % |ring.keys|);
        scanned := scanned + 1;
      }
      AllStuckIsQuiet(s);
    }

    /** Serves waiters until none can run, unless a sample is in flight. */
    method DispatchLocked()
      requires Sound(View())
      modifies this`ring, this`use
      ensures Settled(View()) && Dispatched(old(View()), View()) && Kept(old(View()), View())
      ensures sampling > 0 ==> View() == old(View())
    {
      ghost var s := View();
      hide Sound, Quiet, DispatchStep, Dispatched;
      DispatchedNothing(s);
      if sampling > 0 {
        return;
      }
      while ring.count > 0 && |ring.keys| > 0
        invariant Sound(View()) && Dispatched(s, View()) && Kept(s, View())
        decreases ring.count
      {
        ghost var t := View();
        var progress; ghost var e;
        progress, e := ScanRingLocked();
        if !progress {
          return;
        }
        SoundRing(t);
        StepKeeps(t, e, View());
        DispatchedMore(s, t, e, View());
      }
      NothingQueuedIsQuiet(View());
    }

    // ---- Looking at the queues ----

    /** Counts the queued waiters of one class, in whatever order the queues come. */
    method WaiterCountForClassLocked(c: Class) returns (count: nat)
      requires RingWellFormed(ring)
      ensures count == |set id | id in ring.waiting && ring.waiting[id].cls == c|
      ensures c == TrustedHealth ==> count == |HealthIds(ring.waiting)|
    {
      hide RingWellFormed;
      count := 0;
      var todo := ring.queues.Keys;
      while todo != {}
        invariant todo <= ring.queues.Keys
        invariant count == |WaitingOf(ring.waiting, c, ring.queues.Keys - todo)|
        decreases |todo|
      {
        var key :| key in todo;
        QueueClassCount(ring, c, ring.queues.Keys - todo, key);
        var here := CountInQueue(ring.queues[key], c);
        assert ring.queues.Keys - (todo - {key}) == ring.queues.Keys - todo + {key};
        count := count + here;
        todo := todo - {key};
      }
      EveryoneIsQueued(ring, c);
    }

    method HasCompetingWaiterLocked(c: Class) returns (found: bool)
      requires RingWellFormed(ring)
      ensures found <==> Competing(View(), c)
    {
      hide RingWellFormed, CanGrant;
      var todo := ring.queues.Keys;
      while todo != {}
        invariant todo <= ring.queues.Keys
        invariant forall k :: k in ring.queues.Keys - todo ==> NoneCompetes(View(), c, ring.queues[k])
        decreases |todo|
      {
        var key :| key in todo;
        var queue := ring.queues[key];
        var i := 0;
        while i < |queue|
          invariant 0 <= i <= |queue|
          invariant forall j :: 0 <= j < i ==> !Competes(View(), c, queue[j])
        {
          var w := queue[i];
          if (if c == TrustedHealth then w.cls == TrustedHealth else w.cls != TrustedHealth) &&
            CanGrant(View(), w.cls, w.sessionKey) {
            WaiterKnown(ring, key, i);
            return true;
          }
          i := i + 1;
        }
        todo := todo - {key};
      }
      NoneAnywhere(View(), c);
      return false;
    }

    // ---- Admission ----

    /** Grants, queues or refuses a well-formed request while no sample is in
        flight. */
    method AdmitLocked(c: Class, key: string, session: string) returns (r: AcquireResult)
      requires Settled(View()) && sampling <= 0 && key != "" && session != ""
      modifies this`use, this`ring
      ensures Settled(View())
      ensures r.Leased? || r.Queued? || (r.Refused? && r.why in {ClassDisabled, QueueFull, KeyQueueFull})
      ensures r == Refused(ClassDisabled) <==> !ClassEnabled(cfg, c)
      ensures r.Leased? <==> ClassEnabled(cfg, c) && CanGrant(old(View()), c, session)
      ensures r.Queued? <==>
        ClassEnabled(cfg, c) && !CanGrant(old(View()), c, session) && MayEnqueue(old(View()), c, key)
      ensures r == Refused(QueueFull) <==>
        ClassEnabled(cfg, c) && !CanGrant(old(View()), c, session) && !MayWait(old(View()), c)
      ensures r.Leased? ==> View() == GrantLease(old(View()), c, key, session) && r.lease == old(use.nextLease) + 1
      ensures r.Queued? ==> Stepped(old(View()), Enqueued(c, key, session), View()) && r.waiter == old(ring.nextWaiter)
      ensures r.Refused? ==> View() == old(View())
    {
      hide Sound, Quiet, RingWellFormed, CanGrant, Competing, Grant, Dispatched, Enqueue;
      ghost var s := View();
      SoundRing(s);
      if !ClassEnabled(cfg, c) {
        return Refused(ClassDisabled);
      }
      var competing := HasCompetingWaiterLocked(c);
      NobodyCompetes(s, c);
      if !competing && CanGrant(View(), c, session) {
        GrantStaysSettled(s, c, key, session);
        var lease := GrantLocked(c, key, session);
        return Leased(lease);
      }
      var health := WaiterCountForClassLocked(TrustedHealth);
      if (if c == TrustedHealth then health >= ControlWaiters(cfg) else ring.count - health >= cfg.maxWaiters) {
        return Refused(QueueFull);
      }
      if |QueueOf(ring.queues, key)| >= cfg.maxWaitersPerKey {
        return Refused(KeyQueueFull);
      }
      StepSound(s, Enqueued(c, key, session));
      var w := EnqueueLocked(c, key, session);
      DispatchLocked();
      return Queued(w);
    }

    /** One attempt with the lock held.  A queued request goes on to Collect or
        Abandon; while a sample is in flight the caller waits and tries again. */
    method Acquire(code: nat, key: string, session: string, done: bool) returns (r: AcquireResult)
      requires Settled(View())
      modifies this`use, this`ring
      ensures Settled(View())
      ensures r.Invalid? <==> code >= 3 || key == "" || session == ""
      ensures !r.Invalid? ==> (r.ContextDone? <==> done)
      ensures !r.Invalid? && !done ==> (r.SamplingInFlight? <==> old(sampling) > 0)
      ensures r.Leased? || r.Queued? || r.Refused? ==>
        var s, c := old(View()), ClassOf(code);
        && (r == Refused(ClassDisabled) <==> !ClassEnabled(cfg, c))
        && (r.Leased? <==> ClassEnabled(cfg, c) && CanGrant(s, c, session))
        && (r.Queued? <==> ClassEnabled(cfg, c) && !CanGrant(s, c, session) && MayEnqueue(s, c, key))
        && (r == Refused(QueueFull) <==> ClassEnabled(cfg, c) && !CanGrant(s, c, session) && !MayWait(s, c))
        && (r.Refused? ==> r.why in {ClassDisabled, QueueFull, KeyQueueFull})
      ensures r.Leased? ==>
        View() == GrantLease(old(View()), ClassOf(code), key, session) && r.lease == old(use.nextLease) + 1
      ensures r.Queued? ==>
        Stepped(old(View()), Enqueued(ClassOf(code), key, session), View()) && r.waiter == old(ring.nextWaiter)
      ensures !r.Leased? && !r.Queued? ==> View() == old(View())
    {
      hide Settled, CanGrant, MayWait, MayEnqueue, ClassEnabled, Stepped, Grant;
      if code >= 3 || key == "" || session == "" {
        return Invalid;
      }
      if done {
        return ContextDone;
      }
      if sampling > 0 {
        return SamplingInFlight;
      }
      r := AdmitLocked(ClassOf(code), key, session);
    }

    /** Admission without queueing: the reported constraint is WaitTurn exactly
        when nothing but a competing waiter stands in the way. */
    method TryAcquire(code: nat, key: string, session: string) returns (r: AcquireResult)
      requires Settled(View())
      modifies this`use
      ensures Settled(View())
      ensures r.Invalid? <==> code >= 3 || key == "" || session == ""
      ensures !r.Invalid? ==> (r.SamplingInFlight? <==> old(sampling) > 0)
      ensures r.Leased? || r.Refused? || r.Invalid? || r.SamplingInFlight?
      ensures r.Leased? || r.Refused? ==>
        var s, c := old(View()), ClassOf(code);
        && (r.Leased? <==> ClassEnabled(cfg, c) && CanGrant(s, c, session))
        && (r.Refused? ==> r.why == if ClassEnabled(cfg, c) then BlockingConstraint(s, c, session) else ClassDisabled)
      ensures r.Leased? ==>
        View() == GrantLease(old(View()), ClassOf(code), key, session) && r.lease == old(use.nextLease) + 1
      ensures !r.Leased? ==> View() == old(View())
    {
      if code >= 3 || key == "" || session == "" {
        return Invalid;
      }
      if sampling > 0 {
        return SamplingInFlight;
      }
      ghost var s := View();
      SoundRing(s);
      hide Sound, Quiet, RingWellFormed, CanGrant, Competing, Grant, BlockingConstraint;
      var c := ClassOf(code);
      if !ClassEnabled(cfg, c) {
        return Refused(ClassDisabled);
      }
      var competing := HasCompetingWaiterLocked(c);
      NobodyCompetes(s, c);
      var constraint := if competing then WaitTurn else BlockingConstraint(View(), c, session);
      GrantableIffOnlyTurnBlocks(s, c, session);
      if competing || constraint != WaitTurn {
        return Refused(constraint);
      }
      GrantStaysSettled(s, c, key, session);
      var lease := GrantLocked(c, key, session);
      return Leased(lease);
    }

    // ---- Leases ----

    method ReleaseSessionOpeningLocked(c: Class, session: string)
      modifies this`use
      ensures use == EndOpening(old(use), c, session)
    {
      var openings := Get(use.opening, session);
      use := use.(opening := if openings <= 1 then use.opening - {session} else use.opening[session := openings - 1]);
      if c == TrustedHealth {
        return;
      }
      openings := Get(use.publicOpening, session);
      use := use.(publicOpening := if openings <= 1 then use.publicOpening - {session}
        else use.publicOpening[session := openings - 1]);
    }

    method MarkLive(id: nat) returns (ok: bool)
      requires Settled(View())
      modifies this`use, this`ring
      ensures Settled(View())
      ensures ok <==> id in old(use.active) && old(use.active)[id].phase == Opening
      ensures ok ==> Stepped(old(View()), Advanced(id, Live), View())
      ensures !ok ==> View() == old(View())
    {
      hide Sound, Quiet, Dispatched, Shift, Drop;
      if id !in use.active || use.active[id].phase != Opening {
        return false;
      }
      StepSound(View(), Advanced(id, Live));
      var l := use.active[id];
      use := use.(states := Shift(Shift(use.states, l.cls, Opening, -1), l.cls, Live, 1));
      ReleaseSessionOpeningLocked(l.cls, l.sessionKey);
      use := use.(active := use.active[id := l.(phase := Live)]);
      DispatchLocked();
      return true;
    }

    method MarkClosing(id: nat) returns (ok: bool)
      requires Settled(View())
      modifies this`use, this`ring
      ensures Settled(View())
      ensures ok <==> id in old(use.active) && old(use.active)[id].phase != Closing
      ensures ok ==> Stepped(old(View()), Advanced(id, Closing), View())
      ensures !ok ==> View() == old(View())
    {
      hide Sound, Quiet, Dispatched, Shift, Drop;
      if id !in use.active || use.active[id].phase == Closing {
        return false;
      }
      StepSound(View(), Advanced(id, Closing));
      var l := use.active[id];
      use := use.(states := Shift(use.states, l.cls, l.phase, -1));
      if l.phase == Opening {
        ReleaseSessionOpeningLocked(l.cls, l.sessionKey);
      }
      use := use.(states := Shift(use.states, l.cls, Closing, 1), active := use.active[id := l.(phase := Closing)]);
      DispatchLocked();
      return true;
    }

    method ReleaseLocked(id: nat)
      requires id in use.active
      modifies this`use
      ensures use == Release(old(use), id)
    {
      hide Shift, Drop;
      var l := use.active[id];
      if l.phase == Opening {
        ReleaseSessionOpeningLocked(l.cls, l.sessionKey);
      }
      var u := use.(states := Shift(use.states, l.cls, l.phase, -1), total := use.total - 1,
        totalUse := Drop(use.totalUse, l.sessionKey));
      match l.cls {
        case PublicPooled =>
          u := u.(public := u.public - 1, pooled := u.pooled - 1, publicUse := Drop(u.publicUse, l.sessionKey));
        case PublicOneShot =>
          u := u.(public := u.public - 1, publicUse := Drop(u.publicUse, l.sessionKey));
        case TrustedHealth =>
          u := u.(control := u.control - 1);
      }
      use := u.(active := u.active - {id}, released := u.released + 1);
    }

    /** A lease is released once; the call that does it is the one told so. */
    method ReleaseLease(id: nat) returns (ok: bool)
      requires Settled(View())
      modifies this`use, this`ring
      ensures Settled(View())
      ensures ok <==> id in old(use.active)
      ensures ok ==> Stepped(old(View()), Released(id), View())
      ensures !ok ==> View() == old(View())
      ensures id !in use.active
      ensures forall w :: w in old(ring.settled) ==> w in ring.settled && ring.settled[w] == old(ring.settled)[w]
    {
      hide Sound, Quiet, Dispatched, Release;
      if id !in use.active {
        return false;
      }
      StepSound(View(), Released(id));
      ReleasedIsGone(View(), id);
      ReleaseLocked(id);
      DispatchLocked();
      return true;
    }

    // ---- Waiters that give up ----

    /** Takes a waiter out of its queue, and an emptied key out of the ring. */
    method RemoveWaiterLocked(w: Waiter, o: Outcome) returns (ghost index: nat, ghost entry: nat)
      requires RingWellFormed(ring) && w.id in ring.waiting && ring.waiting[w.id] == w
      modifies this`ring
      ensures index < |old(ring.keys)| && old(ring.keys)[index] == w.queueKey
      ensures entry < |QueueOf(old(ring.queues), w.queueKey)| && old(ring.queues)[w.queueKey][entry] == w
      ensures ring == Withdraw(old(ring), index, entry, o)
    {
      QueuedSomewhere(ring, w);
      hide RingWellFormed;
      var queue := ring.queues[w.queueKey];
      var i := 0;
      while queue[i] != w
        invariant 0 <= i < |queue| && w in queue[i..]
        decreases |queue| - i
      {
        i := i + 1;
      }
      entry := i;
      var p := 0;
      while ring.keys[p] != w.queueKey
        invariant 0 <= p < |ring.keys| && w.queueKey in ring.keys[p..]
        decreases |ring.keys| - p
      {
        p := p + 1;
      }
      index := p;
      TakeOutLocked(p, i, o);
    }

    /** A waiter that was woken takes its result; one canceled in the meantime
        gives a granted lease back. */
    method Collect(waiter: nat, done: bool) returns (r: AcquireResult)
      requires Settled(View()) && waiter in ring.settled
      modifies this`use, this`ring
      ensures Settled(View())
      ensures match old(ring.settled)[waiter]
        case Granted(l) =>
          if done then r == ContextDone && l !in use.active && GivesBack(old(View()), l, View())
          else r == Leased(l) && View() == old(View())
        case Canceled(why) => r == Refused(why) && View() == old(View())
    {
      hide Settled, Stepped;
      match ring.settled[waiter] {
        case Granted(l) =>
          if !done {
            return Leased(l);
          }
          var _ := ReleaseLease(l);
          return ContextDone;
        case Canceled(why) =>
          return Refused(why);
      }
    }

    /** A waiter whose context ends first.  Whatever it had by then, it leaves
        neither a queue entry nor a lease behind. */
    method Abandon(waiter: nat) returns (r: AcquireResult)
      requires Settled(View()) && (waiter in ring.waiting || waiter in ring.settled)
      modifies this`use, this`ring
      ensures Settled(View())
      ensures waiter !in ring.waiting && waiter in ring.settled
      ensures ring.settled[waiter].Granted? ==> ring.settled[waiter].lease !in use.active
      ensures r == if ring.settled[waiter].Granted? then ContextDone else Refused(ring.settled[waiter].why)
      ensures waiter in old(ring.waiting) ==> ring.settled[waiter].Canceled? && Withdraws(old(View()), waiter, View())
      ensures waiter !in old(ring.waiting) ==>
        match old(ring.settled)[waiter]
        case Granted(l) => GivesBack(old(View()), l, View())
        case Canceled(_) => View() == old(View())
    {
      hide Sound, Quiet, Dispatched, BlockingConstraint, Withdraw, RingWellFormed;
      if waiter in ring.waiting {
        ghost var s := View();
        SoundRing(s);
        var w := ring.waiting[waiter];
        WaitingIds(ring, waiter);
        var why := BlockingConstraint(View(), w.cls, w.sessionKey);
        ghost var index, entry;
        index, entry := RemoveWaiterLocked(w, Canceled(why));
        StepSound(s, Withdrawn(index, entry));
        WithdrawSettles(s.ring, index, entry, Canceled(why));
        DispatchLocked();
        assert IsEntryOf(s.ring, waiter, index, entry) && Stepped(s, Withdrawn(index, entry), View());
        r := Refused(why);
      } else {
        match ring.settled[waiter] {
          case Granted(l) =>
            var _ := ReleaseLease(l);
            r := ContextDone;
          case Canceled(why) =>
            r := Refused(why);
        }
      }
      SoundRing(View());
      SettledNotWaiting(ring, waiter);
    }

    // ---- Sessions ----

    method Register(session: string, limit: int)
      requires Settled(View())
      modifies this`registered, this`limits, this`use, this`ring
      ensures Settled(View())
      ensures if session == "" then View() == old(View()) else Stepped(old(View()), Registered(session, limit), View())
    {
      hide Sound, Quiet, Dispatched;
      if session == "" {
        return;
      }
      StepSound(View(), Registered(session, limit));
      var bounded := limit;
      if bounded < 1 {
        bounded := 1;
      }
      if bounded > cfg.total {
        bounded := cfg.total;
      }
      registered := registered + {session};
      limits := limits[session := bounded];
      DispatchLocked();
    }

    method Unregister(session: string)
      requires Settled(View())
      modifies this`registered, this`limits, this`use, this`ring
      ensures Settled(View())
      ensures if session == "" then View() == old(View()) else Stepped(old(View()), Unregistered(session), View())
    {
      hide Sound, Quiet, Dispatched;
      if session == "" {
        return;
      }
      StepSound(View(), Unregistered(session));
      registered := registered - {session};
      limits := limits - {session};
      DispatchLocked();
    }

    // ---- Resource samples ----

    /** A new controller starts closed, so no queued waiter can run against the
        old one's limit. */
    method EnableAdaptive(id: nat)
      requires Settled(View())
      modifies this`controller, this`snap, this`sampling
      ensures Settled(View()) && Adaptive(View())
      ensures View() == if old(controller) == Controller(id) then old(View())
        else Replaced(old(View()), id)
    {
      hide Quiet, Valid, LedgerWellFormed;
      if controller != Controller(id) {
        StepSound(View(), ControllerReplaced(id));
        snap := CLOSED_SNAPSHOT;
        sampling := 0;
        controller := Controller(id);
        ClosedIsQuiet(View());
      }
    }

    /** Decides whether to sample; `current` says the published sample may still be used. */
    method BeginSample(force: bool, now: int) returns (current: bool, t: Ticket)
      requires Settled(View())
      modifies this`sampling
      ensures Settled(View())
      ensures current <==> !force && Adaptive(old(View())) && snap.sampled && now < snap.nextSampleAt
      ensures !current && Adaptive(View()) ==>
        t == Sample(controller.id, force || snap.nextSampleAt == 0 || now >= snap.nextSampleAt)
      ensures current || !Adaptive(View()) ==> t == NoSample
      ensures View() == if t.Sample? && t.counted then CapacityRuns.Apply(old(View()), SampleBegun) else old(View())
    {
      hide Quiet, Valid, LedgerWellFormed;
      current, t := false, NoSample;
      if !force && controller != NoController && snap.sampled && now < snap.nextSampleAt {
        return true, NoSample;
      }
      if controller != NoController {
        t := Sample(controller.id, force || snap.nextSampleAt == 0 || now >= snap.nextSampleAt);
        if t.counted {
          StepSound(View(), SampleBegun);
          if sampling <= 0 {
            QuietIgnoresSampling(View(), sampling + 1);
          }
          sampling := sampling + 1;
        }
      }
    }

    /** A sampler whose controller was replaced changes nothing. */
    method EndSample(t: Ticket, next: Snapshot)
      requires Settled(View()) && t.Sample?
      modifies this`sampling, this`snap, this`use, this`ring
      ensures Settled(View())
      ensures if old(controller) == Controller(t.controller) then
        Stepped(old(View()), SampleEnded(t.counted, next), View()) else View() == old(View())
    {
      hide Sound, Quiet, Dispatched;
      if controller != Controller(t.controller) {
        return;
      }
      StepSound(View(), SampleEnded(t.counted, next));
      if t.counted {
        sampling := sampling - 1;
      }
      if next.generation >= snap.generation {
        var n := next;
        if n.usageValid && n.chargeBytes > 0 && !n.rejectNew {
          n := n.(memoryAdmission := Min(n.memoryAdmission, n.headroomBytes / n.chargeBytes));
          if n.fdLimit > 0 && n.chargeFDs > 0 {
            n := n.(fdAdmission := Min(n.fdAdmission, n.fdHeadroom / n.chargeFDs));
          }
          n := n.(admission := Min(n.admission, Min(n.memoryAdmission, n.fdAdmission)));
        }
        snap := n;
      }
      DispatchLocked();
    }

    /** An older generation is not published. */
    method Publish(next: Snapshot)
      requires Settled(View())
      modifies this`snap, this`use, this`ring
      ensures Settled(View())
      ensures if next.generation >= old(snap.generation) then Stepped(old(View()), Published(next), View())
        else View() == old(View())
    {
      hide Sound, Quiet, Dispatched;
      if next.generation >= snap.generation {
        StepSound(View(), Published(next));
        snap := next;
        DispatchLocked();
      }
    }

    // ---- The external ledger ----

    method TryReserve(r: Reservation) returns (res: ReserveResult)
      requires Settled(View())
      modifies this`ext
      ensures Settled(View())
      ensures res.Busy? <==> sampling > 0
      ensures res.Unconstrained? <==> sampling <= 0 && !Adaptive(View())
      ensures res.Held? <==> sampling <= 0 && Adaptive(View()) && CanReserve(old(View()), r)
      ensures res.Held? ==> View() == old(View()).(ext := Reserve(old(ext), r)) && res.id == old(ext.nextHeld)
      ensures !res.Held? ==> View() == old(View())
    {
      hide Quiet, Valid, LimitWithExternal, OwedControl;
      if sampling > 0 {
        return Busy;
      }
      if controller == NoController {
        return Unconstrained;
      }
      if r.owner >= OWNERS || r.bytes < 0 || r.fds < 0 || snap.rejectNew || !snap.usageValid || snap.chargeBytes <= 0 {
        return Denied;
      }
      var bytes, fds := SaturatingAdd(ext.bytes, r.bytes), SaturatingAdd(ext.fds, r.fds);
      if LimitWithExternal(snap, bytes, fds) < use.total + OwedControl(View()) {
        return Denied;
      }
      ReserveStaysSettled(View(), r);
      res := Held(ext.nextHeld);
      var e := ext.(bytes := bytes, fds := fds,
                    ownerBytes := AddOwner(ext.ownerBytes, r.owner, r.bytes),
                    ownerFDs := AddOwner(ext.ownerFDs, r.owner, r.fds),
                    ownerCount := AddOwner(ext.ownerCount, r.owner, 1));
      if r.legacy {
        e := e.(legacy := SaturatingAdd(e.legacy, r.bytes));
      }
      ext := e.(held := e.held[e.nextHeld := r], nextHeld := e.nextHeld + 1);
    }

    /** A reservation is returned once, however often its release is called. */
    method Unreserve(id: nat) returns (ok: bool)
      requires Settled(View())
      modifies this`ext, this`use, this`ring
      ensures Settled(View())
      ensures ok <==> id in old(ext.held)
      ensures if ok then Stepped(old(View()), Unreserved(id), View()) else View() == old(View())
      ensures id !in ext.held
    {
      hide Sound, Quiet, Dispatched;
      if id !in ext.held {
        return false;
      }
      StepSound(View(), Unreserved(id));
      var r := ext.held[id];
      var e := ext.(bytes := Max(0, ext.bytes - r.bytes), fds := Max(0, ext.fds - r.fds),
                    ownerBytes := TakeOwner(ext.ownerBytes, r.owner, r.bytes),
                    ownerFDs := TakeOwner(ext.ownerFDs, r.owner, r.fds),
                    ownerCount := TakeOwner(ext.ownerCount, r.owner, 1));
      if r.legacy {
        e := e.(legacy := e.legacy - r.bytes);
      }
      ext := e.(legacy := Max(0, e.legacy), held := e.held - {id});
      DispatchLocked();
      return true;
    }
  }

  lemma QueuedSomewhere(r: Ring, w: Waiter)
    requires RingWellFormed(r) && w.id in r.waiting && r.waiting[w.id] == w
    ensures w.queueKey in r.queues && w in r.queues[w.queueKey] && w.queueKey in r.keys
  {
    assert IsQueued(r.queues, w);
  }

  lemma WaitingIds(r: Ring, id: nat)
    requires RingWellFormed(r) && id in r.waiting
    ensures r.waiting[id].id == id
  {
  }

  lemma WithdrawSettles(r: Ring, index: nat, i: nat, o: Outcome)
    requires index < |r.keys| && i < |QueueOf(r.queues, r.keys[index])|
    ensures var id := r.queues[r.keys[index]][i].id; var t := Withdraw(r, index, i, o);
      id in t.settled && t.settled[id] == o
  {
  }

  lemma SettledNotWaiting(r: Ring, id: nat)
    requires RingWellFormed(r) && id in r.settled
    ensures id !in r.waiting
  {
  }

  lemma SoundRing(s: State)
    requires Sound(s)
    ensures RingWellFormed(s.ring) && (s.ring.keys != [] ==> s.ring.cursor < |s.ring.keys|)
  {
  }

  lemma ReleasedIsGone(s: State, id: nat)
    requires Sound(s) && id in s.use.active
    ensures var t := ReleaseLease(s, id); id !in t.use.active && id <= t.use.nextLease
  {
    hide RingWellFormed, RingBounded, BudgetCounts, SessionCounts;
  }

  ghost function WaitingOf(waiting: map<nat, Waiter>, c: Class, keys: set<string>): set<nat>
  {
    set id | id in waiting && waiting[id].cls == c && waiting[id].queueKey in keys
  }

  ghost function IdsOfClass(queue: seq<Waiter>, c: Class): set<nat>
  {
    set i | 0 <= i < |queue| && queue[i].cls == c :: queue[i].id
  }

  ghost predicate NoneTwice(queue: seq<Waiter>) { forall i, j :: 0 <= i < j < |queue| ==> queue[i].id != queue[j].id }

  method CountInQueue(queue: seq<Waiter>, c: Class) returns (count: nat)
    requires NoneTwice(queue)
    ensures count == |IdsOfClass(queue, c)|
  {
    hide IdsOfClass;
    count := 0;
    var i := 0;
    NobodyOfClass(c);
    assert queue[..0] == [];
    while i < |queue|
      invariant 0 <= i <= |queue| && count == |IdsOfClass(queue[..i], c)|
    {
      OneMoreOfClass(queue, c, i);
      if queue[i].cls == c {
        count := count + 1;
      }
      i := i + 1;
    }
    assert queue[..|queue|] == queue;
  }

  lemma NobodyOfClass(c: Class)
    ensures IdsOfClass([], c) == {}
  {
  }

  lemma OneMoreOfClass(queue: seq<Waiter>, c: Class, i: nat)
    requires NoneTwice(queue) && i < |queue|
    ensures |IdsOfClass(queue[..i + 1], c)| == |IdsOfClass(queue[..i], c)| + (if queue[i].cls == c then 1 else 0)
  {
    IdsOfClassStep(queue, c, i);
    assert queue[i].id !in IdsOfClass(queue[..i], c);
  }

  lemma IdsOfClassStep(queue: seq<Waiter>, c: Class, i: nat)
    requires i < |queue|
    ensures IdsOfClass(queue[..i + 1], c) ==
      IdsOfClass(queue[..i], c) + (if queue[i].cls == c then {queue[i].id} else {})
  {
    var p, q := queue[..i], queue[..i + 1];
    forall id | id in IdsOfClass(p, c) ensures id in IdsOfClass(q, c) {
      var j :| 0 <= j < |p| && p[j].cls == c && p[j].id == id;
      assert q[j] == p[j];
    }
    if queue[i].cls == c { assert q[i].id in IdsOfClass(q, c); }
    forall id | id in IdsOfClass(q, c) ensures id in IdsOfClass(p, c) || (queue[i].cls == c && id == queue[i].id) {
      var j :| 0 <= j < |q| && q[j].cls == c && q[j].id == id;
      if j < i { assert p[j] == q[j]; }
    }
  }

  lemma QueueClassCount(r: Ring, c: Class, keys: set<string>, key: string)
    requires RingWellFormed(r) && key in r.queues && key !in keys
    ensures NoneTwice(r.queues[key])
    ensures |WaitingOf(r.waiting, c, keys + {key})| == |WaitingOf(r.waiting, c, keys)| + |IdsOfClass(r.queues[key], c)|
  {
    assert QueueWellFormed(key, r.queues[key], r.waiting);
    QueueClassIds(r, c, key);
    hide RingWellFormed, IdsOfClass;
    assert WaitingOf(r.waiting, c, keys + {key}) == WaitingOf(r.waiting, c, keys) + WaitingOf(r.waiting, c, {key});
    assert WaitingOf(r.waiting, c, keys) !! WaitingOf(r.waiting, c, {key});
  }

  lemma QueueClassIds(r: Ring, c: Class, key: string)
    requires RingWellFormed(r) && key in r.queues
    ensures IdsOfClass(r.queues[key], c) == WaitingOf(r.waiting, c, {key})
  {
    var q := r.queues[key];
    assert QueueWellFormed(key, q, r.waiting) && AllQueued(r.queues, r.waiting);
    hide RingWellFormed;
    forall id | id in WaitingOf(r.waiting, c, {key}) ensures id in IdsOfClass(q, c) {
      assert IsQueued(r.queues, r.waiting[id]);
      var i :| 0 <= i < |q| && q[i] == r.waiting[id];
    }
  }

  lemma EveryoneIsQueued(r: Ring, c: Class)
    requires RingWellFormed(r)
    ensures WaitingOf(r.waiting, c, r.queues.Keys - {}) == set id | id in r.waiting && r.waiting[id].cls == c
    ensures c == TrustedHealth ==> WaitingOf(r.waiting, c, r.queues.Keys - {}) == HealthIds(r.waiting)
  {
    forall id | id in r.waiting ensures r.waiting[id].queueKey in r.queues { assert IsQueued(r.queues, r.waiting[id]); }
  }

  predicate Competes(s: State, c: Class, w: Waiter)
  {
    (w.cls == TrustedHealth <==> c == TrustedHealth) && Grantable(s, w)
  }

  ghost predicate NoneCompetes(s: State, c: Class, queue: seq<Waiter>)
  {
    forall i :: 0 <= i < |queue| ==> !Competes(s, c, queue[i])
  }

  lemma NoneAnywhere(s: State, c: Class)
    requires RingWellFormed(s.ring) && forall k :: k in s.ring.queues.Keys ==> NoneCompetes(s, c, s.ring.queues[k])
    ensures !Competing(s, c)
  {
    hide CanGrant;
    forall id | id in s.ring.waiting ensures !Competes(s, c, s.ring.waiting[id]) {
      assert IsQueued(s.ring.queues, s.ring.waiting[id]);
      var q := s.ring.queues[s.ring.waiting[id].queueKey];
      var i :| 0 <= i < |q| && q[i] == s.ring.waiting[id];
    }
  }
}
