/** Round robin over the manager's runs: nobody is served twice before the others
    were attended to. */
module RoundRobin {
  import opened LeaseAccounting
  import opened WaiterRing
  import opened StreamCapacity
  import opened ExternalLedger
  import opened CapacityDispatch
  import opened CapacityRuns

  // ---- What a step does to the scan order ----

  ghost predicate Joins(s: State, op: Op, key: string) { op.Enqueued? && op.key == key && key !in s.ring.keys }

  ghost predicate KeyLeft(before: seq<string>, after: seq<string>)
  {
    exists p :: 0 <= p < |before| && after == Without(before, p)
  }

  ghost predicate KeyJoined(before: seq<string>, after: seq<string>, key: string)
  {
    exists p :: 0 <= p <= |before| && after == before[..p] + [key] + before[p..]
  }

  lemma EnqueueOrder(s: State, c: Class, key: string, session: string)
    requires RingWellFormed(s.ring)
    ensures var before, after := Rotation(s.ring), Rotation(Enqueue(s.ring, c, key, session));
      if key in s.ring.keys then after == before else KeyJoined(before, after, key)
  {
    var r, t := s.ring, Enqueue(s.ring, c, key, session);
    var rot := Rotation(r);
    if key in r.keys {
      assert QueueWellFormed(key, r.queues[key], r.waiting);
    } else {
      JoinOrder(r, c, key, session);
      hide RingWellFormed, Rotation, Enqueue;
      var p := |r.keys| - r.cursor;
      assert rot[..p] == r.keys[r.cursor..] && rot[p..] == r.keys[..r.cursor];
    }
  }

  /** A new key goes behind the keys still to be visited and ahead of those
      before the cursor. */
  lemma JoinOrder(r: Ring, c: Class, key: string, session: string)
    requires RingWellFormed(r) && key !in r.keys
    ensures var rot := Rotation(r);
      && r.cursor <= |r.keys| && rot == r.keys[r.cursor..] + r.keys[..r.cursor]
      && Rotation(Enqueue(r, c, key, session)) == r.keys[r.cursor..] + [key] + r.keys[..r.cursor]
  {
    hide QueuesWellFormed, AllQueued, IdsWellFormed;
    var t := Enqueue(r, c, key, session);
    assert t.keys[r.cursor..] == r.keys[r.cursor..] + [key] && t.keys[..r.cursor] == r.keys[..r.cursor];
  }

  lemma WithdrawOrder(s: State, index: nat, entry: nat, o: Outcome)
    requires RingWellFormed(s.ring) && index < |s.ring.keys| && entry < |QueueOf(s.ring.queues, s.ring.keys[index])|
    ensures var before, after := Rotation(s.ring), Rotation(Withdraw(s.ring, index, entry, o));
      after == before || KeyLeft(before, after)
  {
    hide QueuesWellFormed, AllQueued, IdsWellFormed;
    var r, key := s.ring, s.ring.keys[index];
    if |r.queues[key]| == 1 {
      var t := Settle(r, r.queues[key][entry].id, o).(queues := QueuesAfter(r.queues, key, entry));
      RemoveKeyRotation(t, index);
      var p :| 0 <= p < |Rotation(t)| && Rotation(RemoveKeyAt(t, index)) == Without(Rotation(t), p);
      assert Rotation(t) == Rotation(r);
    }
  }

  /** A step other than a scan leaves the scan order alone, takes one key out of
      it, or puts a new key somewhere into it. */
  lemma StepOrder(s: State, op: Op)
    requires Sound(s) && Enabled(s, op) && !op.Scanned?
    ensures var before, after := Rotation(s.ring), Rotation(Apply(s, op).ring);
      after == before || KeyLeft(before, after) ||
        (op.Enqueued? && Joins(s, op, op.key) && KeyJoined(before, after, op.key))
  {
    hide RingWellFormed, RingBounded, Rotation, KeyLeft, KeyJoined, CanGrant, CanReserve, BlockingConstraint, Enqueue,
      Withdraw;
    match op {
      case Enqueued(c, key, session) => EnqueueOrder(s, c, key, session);
      case Withdrawn(index, entry) =>
        var w := s.ring.queues[s.ring.keys[index]][entry];
        WithdrawOrder(s, index, entry, Canceled(BlockingConstraint(s, w.cls, w.sessionKey)));
      case _ =>
    }
  }

  /** A scan is a dispatch step. */
  lemma ScanIsDispatch(s: State, op: Op)
    requires LedgerWellFormed(s.ext) && Enabled(s, op) && op.Scanned?
    ensures DispatchStep(s, op.e, Apply(s, op))
  {
    hide LedgerWellFormed, ReachedBy, CanGrant, PopAt, BlockingConstraint;
  }

  // ---- Who is attended to ----

  /** The step serves a waiter of `key`. */
  ghost predicate Serves(s: State, op: Op, key: string)
  {
    op.Scanned? && op.e.Served? && InRange(s, op.e.at) && KeyAt(s, op.e.at) == key
  }

  /** The step visits `key` and finds nothing grantable there. */
  ghost predicate FoundStuck(s: State, op: Op, key: string)
  {
    op.Scanned? && InRange(s, op.e.at) && key in Rotation(s.ring)[..op.e.at.passed] && QueueStuck(s, key)
  }

  ghost predicate Leaves(s: State, t: State, key: string)
  {
    key in s.ring.keys && key !in t.ring.keys
  }

  ghost predicate Before(rot: seq<string>, a: string, b: string)
  {
    exists i, j :: 0 <= i < j < |rot| && rot[i] == a && rot[j] == b
  }

  /** A key that a scan neither serves nor passes over keeps its lead. */
  lemma LeadSurvivesScan(rot: seq<string>, n: nat, emptied: bool, advance: bool, a: string, b: string)
    requires Distinct(rot) && n < |rot| && Before(rot, a, b)
    requires a !in rot[..n] && (advance || emptied ==> a != rot[n])
    requires b in OrderAfter(rot, n, emptied, advance)
    ensures Before(OrderAfter(rot, n, emptied, advance), a, b)
  {
    var i, j :| 0 <= i < j < |rot| && rot[i] == a && rot[j] == b;
    assert forall x :: 0 <= x < n ==> rot[..n][x] == rot[x];
    assert i >= n;
    var after := OrderAfter(rot, n, emptied, advance);
    if !advance && !emptied {
      assert after[i - n] == a && after[j - n] == b;
    } else {
      assert after[i - n - 1] == a && after[j - n - 1] == b;
    }
  }

  lemma LeadSurvivesLeaving(rot: seq<string>, p: nat, a: string, b: string)
    requires p < |rot| && Before(rot, a, b) && rot[p] != a && rot[p] != b
    ensures Before(Without(rot, p), a, b)
  {
    var i, j :| 0 <= i < j < |rot| && rot[i] == a && rot[j] == b;
    var i', j' := if i < p then i else i - 1, if j < p then j else j - 1;
    WithoutAt(rot, p, i');
    WithoutAt(rot, p, j');
    assert Without(rot, p)[i'] == a && Without(rot, p)[j'] == b;
  }

  lemma EmptiedLeaves(rot: seq<string>, n: nat)
    requires Distinct(rot) && n < |rot|
    ensures rot[n] !in rot[n + 1..] + rot[..n]
  {
  }

  lemma LeadSurvivesJoining(rot: seq<string>, p: nat, k: string, a: string, b: string)
    requires p <= |rot| && Before(rot, a, b)
    ensures Before(rot[..p] + [k] + rot[p..], a, b)
  {
    var i, j :| 0 <= i < j < |rot| && rot[i] == a && rot[j] == b;
    var after := rot[..p] + [k] + rot[p..];
    assert after[if i < p then i else i + 1] == a && after[if j < p then j else j + 1] == b;
  }

  lemma OrderKeys(s: State)
    requires Sound(s)
    ensures RingWellFormed(s.ring) && Distinct(Rotation(s.ring)) && forall k :: k in Rotation(s.ring) <==>
      k in s.ring.keys
  {
    hide RingWellFormed, RingBounded, Rotation;
    RotationKeys(s.ring);
  }

  /** One step keeps key `a` ahead of `b` in the scan order, unless it serves
      `a`, visits it in vain, or `a` or `b` leaves the ring. */
  lemma LeadSurvives(s: State, op: Op, a: string, b: string)
    requires Sound(s) && Enabled(s, op) && Before(Rotation(s.ring), a, b)
    requires var t := Apply(s, op);
      !Serves(s, op, a) && !FoundStuck(s, op, a) && !Leaves(s, t, a) && !Leaves(s, t, b)
    ensures Before(Rotation(Apply(s, op).ring), a, b)
  {
    SoundLedger(s);
    hide Sound, Enabled, Apply, Rotation, LedgerWellFormed;
    var t, rot := Apply(s, op), Rotation(s.ring);
    ApplySound(s, op);
    OrderKeys(s);
    OrderKeys(t);
    assert a in rot && b in rot;
    if op.Scanned? {
      LeadSurvivesDispatch(s, op, a, b);
    } else {
      StepOrder(s, op);
      LeadSurvivesOther(rot, Rotation(t.ring), op, a, b);
    }
  }

  lemma LeadSurvivesOther(rot: seq<string>, after: seq<string>, op: Op, a: string, b: string)
    requires Distinct(rot) && Before(rot, a, b) && a in after && b in after
    requires after == rot || KeyLeft(rot, after) || (op.Enqueued? && KeyJoined(rot, after, op.key))
    ensures Before(after, a, b)
  {
    hide Before;
    if KeyLeft(rot, after) {
      var p :| 0 <= p < |rot| && after == Without(rot, p);
      RemoveKeyDistinct(rot, p);
      LeadSurvivesLeaving(rot, p, a, b);
    } else if after != rot {
      var p :| 0 <= p <= |rot| && after == rot[..p] + [op.key] + rot[p..];
      LeadSurvivesJoining(rot, p, op.key, a, b);
    }
  }

  lemma LeadSurvivesDispatch(s: State, op: Op, a: string, b: string)
    requires LedgerWellFormed(s.ext) && RingWellFormed(s.ring) && Enabled(s, op) && op.Scanned?
    requires Distinct(Rotation(s.ring)) && Before(Rotation(s.ring), a, b)
    requires !Serves(s, op, a) && !FoundStuck(s, op, a)
    requires a in Rotation(Apply(s, op).ring) && b in Rotation(Apply(s, op).ring)
    ensures Before(Rotation(Apply(s, op).ring), a, b)
  {
    var e, t, rot := op.e, Apply(s, op), Rotation(s.ring);
    ScanIsDispatch(s, op);
    ScanOrder(s, e, t);
    hide RingWellFormed, ReachedBy, Enabled, Apply, Rotation, LedgerWellFormed, QueueStuck;
    EmptiedLeaves(rot, e.at.passed);
    LeadSurvivesScan(rot, e.at.passed, |s.ring.queues[KeyAt(s, e.at)]| == 1, e.Served?, a, b);
  }

  lemma ScanAddsNoKey(rot: seq<string>, n: nat, emptied: bool, advance: bool, k: string)
    requires n < |rot| && k in OrderAfter(rot, n, emptied, advance)
    ensures k in rot
  {
    assert k in rot[n + 1..] || k in rot[..n] || k == rot[n];
  }

  /** Only an enqueue brings a key into the ring. */
  lemma OnlyJoining(s: State, op: Op, k: string)
    requires Sound(s) && Enabled(s, op) && k in Apply(s, op).ring.keys && !Joins(s, op, k)
    ensures k in s.ring.keys
  {
    SoundLedger(s);
    hide Sound, Enabled, Apply, Rotation, LedgerWellFormed;
    ApplySound(s, op);
    OrderKeys(s);
    OrderKeys(Apply(s, op));
    if op.Scanned? {
      ScanBringsNoKey(s, op, k);
    } else {
      StepOrder(s, op);
      NoNewKey(Rotation(s.ring), Rotation(Apply(s, op).ring), op, k);
    }
  }

  lemma NoNewKey(rot: seq<string>, after: seq<string>, op: Op, k: string)
    requires k in after && (after == rot || KeyLeft(rot, after) || (op.Enqueued? && KeyJoined(rot, after, op.key)))
    ensures k in rot || (op.Enqueued? && op.key == k)
  {
    if KeyLeft(rot, after) {
      var p :| 0 <= p < |rot| && after == Without(rot, p);
      WithoutMembers(rot, p);
    }
  }

  lemma ScanBringsNoKey(s: State, op: Op, k: string)
    requires LedgerWellFormed(s.ext) && RingWellFormed(s.ring) && Enabled(s, op) && op.Scanned?
    requires k in Rotation(Apply(s, op).ring)
    ensures k in Rotation(s.ring)
  {
    hide RingWellFormed, LedgerWellFormed, Enabled, Apply, OrderAfter, Rotation, QueueStuck, DispatchStep;
    ScanIsDispatch(s, op);
    ScanOrder(s, op.e, Apply(s, op));
    ScanAddsNoKey(Rotation(s.ring), op.e.at.passed, |s.ring.queues[KeyAt(s, op.e.at)]| == 1, op.e.Served?, k);
  }

  lemma SoundLedger(s: State)
    requires Sound(s)
    ensures LedgerWellFormed(s.ext)
  {
  }

  /** The step serves `a`, visits it in vain, or sees it leave. */
  ghost predicate AttendedAt(s: State, op: Op, t: State, a: string)
  {
    Serves(s, op, a) || FoundStuck(s, op, a) || Leaves(s, t, a)
  }

  /** Some step in between attends to `a`. */
  ghost predicate Attended(states: seq<State>, ops: seq<Op>, start: nat, end: nat, a: string)
    requires |states| == |ops| + 1 && end <= |ops|
  {
    exists i :: start <= i < end && AttendedAt(states[i], ops[i], states[i + 1], a)
  }

  ghost predicate SoundRun(states: seq<State>, ops: seq<Op>)
  {
    Run(states, ops) && forall i :: 0 <= i < |states| ==> Sound(states[i])
  }

  // ---- Who may overtake ----

  /** If `b` is in the ring, `a` comes before it. */
  ghost predicate Ahead(s: State, a: string, b: string)
  {
    b in s.ring.keys ==> Before(Rotation(s.ring), a, b)
  }

  /** The step brings `b` into the ring while `a` stands before the cursor. */
  ghost predicate Overtakes(s: State, op: Op, a: string, b: string)
  {
    Joins(s, op, b) && BeforeCursor(s.ring, a)
  }

  /** The scan has passed the key and reaches it only after all that follow. */
  ghost predicate BeforeCursor(r: Ring, a: string)
  {
    exists i :: 0 <= i < |r.keys| && i < r.cursor && r.keys[i] == a
  }

  lemma BeforeJoined(front: seq<string>, back: seq<string>, a: string, b: string)
    requires b !in front + back
    ensures Before(front + [b] + back, a, b) <==> a in front
  {
    var all := front + [b] + back;
    assert all[|front|] == b;
    if a in front {
      var i :| 0 <= i < |front| && front[i] == a;
      assert all[i] == a;
    }
    if Before(all, a, b) {
      var i, j :| 0 <= i < j < |all| && all[i] == a && all[j] == b;
      assert forall k :: 0 <= k < |front| ==> all[k] == front[k];
      assert forall k :: 0 <= k < |back| ==> all[|front| + 1 + k] == back[k];
      assert front[i] == a;
    }
  }

  lemma FrontOrBack(keys: seq<string>, cursor: nat, a: string)
    requires Distinct(keys) && cursor <= |keys| && a in keys
    ensures a in keys[cursor..] <==> !exists i :: 0 <= i < |keys| && i < cursor && keys[i] == a
  {
    var i :| 0 <= i < |keys| && keys[i] == a;
    if i >= cursor { assert keys[cursor..][i - cursor] == a; }
  }

  /** A joining key stands behind `a` unless it overtakes it. */
  lemma JoinedBehind(s: State, op: Op, a: string, b: string)
    requires Sound(s) && Enabled(s, op) && Joins(s, op, b) && a in s.ring.keys
    ensures b in Apply(s, op).ring.keys
    ensures Before(Rotation(Apply(s, op).ring), a, b) <==> !Overtakes(s, op, a, b)
  {
    var r := s.ring;
    SoundRing(s);
    JoinOrder(r, op.c, b, op.session);
    FrontOrBack(r.keys, r.cursor, a);
    JoinedIsThere(r, op.c, b, op.session);
    hide RingWellFormed, RingBounded, Before, Rotation, Enqueue, Accounted, WithinBudgets;
    assert b !in r.keys[r.cursor..] + r.keys[..r.cursor];
    BeforeJoined(r.keys[r.cursor..], r.keys[..r.cursor], a, b);
  }

  lemma SoundRing(s: State)
    requires Sound(s)
    ensures RingWellFormed(s.ring) && Distinct(s.ring.keys) && s.ring.cursor <= |s.ring.keys|
  {
    hide QueuesWellFormed, AllQueued, IdsWellFormed, RingBounded, Accounted, WithinBudgets;
  }

  lemma JoinedIsThere(r: Ring, c: Class, key: string, session: string)
    requires RingWellFormed(r) && key !in r.keys
    ensures key in Enqueue(r, c, key, session).keys
  {
    assert key !in r.queues;
    hide RingWellFormed;
    assert Enqueue(r, c, key, session).keys == r.keys + [key];
  }

  /** One step while `a` waits unattended: it stays ahead of `b` exactly if the
      step does not let `b` overtake it. */
  lemma StaysAheadIff(s: State, op: Op, a: string, b: string)
    requires Sound(s) && Enabled(s, op) && a in s.ring.keys && Ahead(s, a, b)
    requires !AttendedAt(s, op, Apply(s, op), a)
    ensures a in Apply(s, op).ring.keys
    ensures Ahead(Apply(s, op), a, b) <==> !Overtakes(s, op, a, b)
  {
    SoundLedger(s);
    hide Sound, Enabled, Apply, LedgerWellFormed, Serves, FoundStuck, Before, Rotation;
    if Joins(s, op, b) {
      JoinedBehind(s, op, a, b);
    } else if b in Apply(s, op).ring.keys {
      OnlyJoining(s, op, b);
      LeadSurvives(s, op, a, b);
    }
  }

  ghost predicate AheadThroughout(states: seq<State>, start: nat, end: nat, a: string, b: string)
    requires end < |states|
  {
    forall k :: start <= k <= end ==> Ahead(states[k], a, b)
  }

  ghost predicate NeverOvertakes(states: seq<State>, ops: seq<Op>, start: nat, end: nat, a: string, b: string)
    requires |states| == |ops| + 1 && end <= |ops|
  {
    forall i :: start <= i < end ==> !Overtakes(states[i], ops[i], a, b)
  }

  /** While `a` waits unattended from a state where it is ahead of `b`, it stays
      ahead exactly if no step in between lets `b` overtake it. */
  lemma {:induction false} AheadIffNeverOvertaken(
      states: seq<State>, ops: seq<Op>, start: nat, end: nat, a: string, b: string)
    requires SoundRun(states, ops) && start <= end <= |ops|
    requires a in states[start].ring.keys && Ahead(states[start], a, b) && !Attended(states, ops, start, end, a)
    ensures a in states[end].ring.keys
    ensures AheadThroughout(states, start, end, a, b) <==> NeverOvertakes(states, ops, start, end, a, b)
    decreases end
  {
    hide Sound, Enabled, Apply, LedgerWellFormed, Ahead, Overtakes, Serves, FoundStuck;
    if start < end {
      var n := end - 1;
      NotAttendedBefore(states, ops, start, n, a);
      AheadIffNeverOvertaken(states, ops, start, n, a, b);
      StaysInRing(states[n], ops[n], a);
      if Ahead(states[n], a, b) {
        StaysAheadIff(states[n], ops[n], a, b);
      }
    }
  }

  lemma NotAttendedBefore(states: seq<State>, ops: seq<Op>, start: nat, n: nat, a: string)
    requires |states| == |ops| + 1 && start <= n < |ops| && !Attended(states, ops, start, n + 1, a)
    ensures !Attended(states, ops, start, n, a) && !AttendedAt(states[n], ops[n], states[n + 1], a)
  {
    hide Serves, FoundStuck, Leaves;
  }

  lemma StaysInRing(s: State, op: Op, a: string)
    requires LedgerWellFormed(s.ext) && Enabled(s, op) && a in s.ring.keys && !AttendedAt(s, op, Apply(s, op), a)
    ensures a in Apply(s, op).ring.keys
  {
    hide LedgerWellFormed, Enabled, Apply, Serves, FoundStuck;
  }

  lemma BackOfTheOrder(rot: seq<string>, n: nat, a: string)
    requires Distinct(rot) && n < |rot| && a in rot && a != rot[n]
    ensures Before(OrderAfter(rot, n, false, true), a, rot[n])
  {
    var after := OrderAfter(rot, n, false, true);
    var i :| 0 <= i < |rot| && rot[i] == a;
    assert after[|after| - 1] == rot[n];
    assert after[if i < n then |rot| - n - 1 + i else i - n - 1] == a;
  }

  lemma ServedGoesLast(s: State, op: Op, a: string, b: string)
    requires Sound(s) && Enabled(s, op) && Serves(s, op, b) && a in s.ring.keys && a != b && b in Apply(s, op).ring.keys
    ensures Before(Rotation(Apply(s, op).ring), a, b)
  {
    SoundLedger(s);
    hide Sound, Enabled, Apply, Rotation, QueueStuck, Before, DispatchStep, LedgerWellFormed;
    var t, rot, n := Apply(s, op), Rotation(s.ring), op.e.at.passed;
    ApplySound(s, op);
    OrderKeys(s);
    OrderKeys(t);
    ScanIsDispatch(s, op);
    ScanOrder(s, op.e, t);
    EmptiedLeaves(rot, n);
    BackOfTheOrder(rot, n, a);
  }

  /** Serving `b` leaves every other key in the ring, and ahead of `b`. */
  lemma OthersAhead(s: State, op: Op, a: string, b: string)
    requires Sound(s) && Enabled(s, op) && Serves(s, op, b) && a in s.ring.keys && a != b
    ensures a in Apply(s, op).ring.keys && Ahead(Apply(s, op), a, b)
  {
    SoundLedger(s);
    hide Sound, Enabled, Apply, Rotation, QueueStuck, Before, DispatchStep, LedgerWellFormed;
    var t, rot, n := Apply(s, op), Rotation(s.ring), op.e.at.passed;
    ApplySound(s, op);
    OrderKeys(s);
    OrderKeys(t);
    ScanIsDispatch(s, op);
    ScanOrder(s, op.e, t);
    OthersStay(rot, n, |s.ring.queues[KeyAt(s, op.e.at)]| == 1, a);
    if b in t.ring.keys { ServedGoesLast(s, op, a, b); }
  }

  lemma OthersStay(rot: seq<string>, n: nat, emptied: bool, a: string)
    requires n < |rot| && a in rot && a != rot[n]
    ensures a in OrderAfter(rot, n, emptied, true)
  {
    var i :| 0 <= i < |rot| && rot[i] == a;
    if i < n { assert rot[..n][i] == a; } else { assert rot[n + 1..][i - n - 1] == a; }
  }

  lemma ServedIsInRing(s: State, op: Op, key: string)
    requires Serves(s, op, key)
    ensures key in s.ring.keys
  {
  }

  lemma LeaderIsVisited(s: State, op: Op, a: string, b: string)
    requires Sound(s) && Enabled(s, op) && Serves(s, op, b) && Before(Rotation(s.ring), a, b)
    ensures FoundStuck(s, op, a)
  {
    hide Sound, Enabled, Apply, Rotation, QueueStuck, DispatchStep;
    SoundLedger(s);
    OrderKeys(s);
    ScanIsDispatch(s, op);
    ScanOrder(s, op.e, Apply(s, op));
    var rot := Rotation(s.ring);
    var i, j :| 0 <= i < j < |rot| && rot[i] == a && rot[j] == b;
    assert j == op.e.at.passed;
    assert rot[..j][i] == a;
  }

  lemma AttendedStill(states: seq<State>, ops: seq<Op>, start: nat, end: nat, a: string)
    requires |states| == |ops| + 1 && end < |ops| && Attended(states, ops, start, end, a)
    ensures Attended(states, ops, start, end + 1, a)
  {
    hide Serves, FoundStuck, Leaves;
  }

  lemma RunIsSound(requested: int, states: seq<State>, ops: seq<Op>)
    requires Run(states, ops) && states[0] == NewState(DefaultConfig(requested))
    ensures SoundRun(states, ops)
  {
    hide Sound, Enabled, Apply, LedgerWellFormed;
    forall i | 0 <= i < |states| ensures Sound(states[i]) {
      EveryRunIsSound(requested, states[..i + 1], ops[..i]);
    }
  }

  /** Round robin.  Between two grants to one key, every other key that waits is
      served, or visited with nothing grantable, or leaves, however many keys
      join meanwhile, as long as the served key does not come back to the ring
      while the other stands before the cursor. */
  lemma NobodyServedTwiceFirst(
      requested: int, states: seq<State>, ops: seq<Op>, first: nat, second: nat, a: string, b: string)
    requires Run(states, ops) && states[0] == NewState(DefaultConfig(requested)) && first < second < |ops|
    requires Serves(states[first], ops[first], b) && Serves(states[second], ops[second], b)
    requires NeverOvertakes(states, ops, first + 1, second, a, b)
    requires a != b && a in states[first].ring.keys
    ensures Attended(states, ops, first + 1, second + 1, a)
  {
    hide Sound, Enabled, Apply, LedgerWellFormed, Serves, FoundStuck, Leaves, Overtakes, Before, Rotation;
    hide NeverOvertakes;
    RunIsSound(requested, states, ops);
    ServedIsInRing(states[second], ops[second], b);
    OthersAhead(states[first], ops[first], a, b);
    if Attended(states, ops, first + 1, second, a) {
      AttendedStill(states, ops, first + 1, second, a);
    } else {
      AheadIffNeverOvertaken(states, ops, first + 1, second, a, b);
      assert Ahead(states[second], a, b);
      LeaderIsVisited(states[second], ops[second], a, b);
      assert AttendedAt(states[second], ops[second], states[second + 1], a);
    }
  }
}
