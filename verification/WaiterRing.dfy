/** The bounded waiter queues and the round-robin ring over their keys. */
module WaiterRing {
  import opened LeaseAccounting

  /** Why a request is not granted now. */
  datatype Constraint =
    | ResourcePressure | TotalBudget | PublicBudget | PooledBudget | ControlBudget
    | SessionBudget | SessionOpeningLimit | WaitTurn | QueueFull | KeyQueueFull | ClassDisabled

  datatype Waiter = Waiter(id: nat, cls: Class, queueKey: string, sessionKey: string)

  datatype Outcome = Granted(lease: nat) | Canceled(why: Constraint)

  /** `waiting` holds the waiters whose status is still queued, `settled` the
      result each finished waiter will be woken with. */
  datatype Ring = Ring(
    queues: map<string, seq<Waiter>>,
    keys: seq<string>,
    cursor: nat,
    count: int,
    waiting: map<nat, Waiter>,
    nextWaiter: nat,
    settled: map<nat, Outcome>)

  const EMPTY_RING: Ring := Ring(map[], [], 0, 0, map[], 0, map[])

  function QueueOf(queues: map<string, seq<Waiter>>, key: string): seq<Waiter>
  {
    if key in queues then queues[key] else []
  }

  function Without<T>(q: seq<T>, i: nat): seq<T>
    requires i < |q|
  {
    q[..i] + q[i + 1..]
  }

  function Enqueue(r: Ring, c: Class, key: string, session: string): Ring
  {
    var w := Waiter(r.nextWaiter, c, key, session);
    r.(keys := if QueueOf(r.queues, key) == [] then r.keys + [key] else r.keys,
       queues := r.queues[key := QueueOf(r.queues, key) + [w]],
       count := r.count + 1,
       waiting := r.waiting[w.id := w],
       nextWaiter := r.nextWaiter + 1)
  }

  function RemoveKeyAt(r: Ring, index: nat): Ring
    requires index < |r.keys|
  {
    var keys := Without(r.keys, index);
    var cursor := if index < r.cursor then r.cursor - 1 else r.cursor;
    r.(keys := keys, cursor := if cursor >= |keys| then 0 else cursor)
  }

  /** Forgets a queued waiter and records what it will be told. */
  function Settle(r: Ring, id: nat, o: Outcome): Ring
  {
    r.(count := r.count - 1, waiting := r.waiting - {id}, settled := r.settled[id := o])
  }

  /** What the queues become when waiter `i` of `key` is taken out; an emptied
      queue is deleted. */
  function QueuesAfter(queues: map<string, seq<Waiter>>, key: string, i: nat): map<string, seq<Waiter>>
    requires i < |QueueOf(queues, key)|
  {
    if |queues[key]| == 1 then queues - {key} else queues[key := Without(queues[key], i)]
  }

  /** Takes waiter `i` out of the queue of the key at `index`, wherever the
      cursor stands; an emptied key leaves the ring. */
  function Withdraw(r: Ring, index: nat, i: nat, o: Outcome): Ring
    requires index < |r.keys| && i < |QueueOf(r.queues, r.keys[index])|
  {
    var key := r.keys[index];
    var t := Settle(r, r.queues[key][i].id, o).(queues := QueuesAfter(r.queues, key, i));
    if |r.queues[key]| == 1 then RemoveKeyAt(t, index) else t
  }

  /** The same during a scan, which also places the cursor: after the key when
      it was served, on the key when a canceled waiter was dropped. */
  function Pop(r: Ring, index: nat, i: nat, advance: bool, o: Outcome): Ring
    requires index < |r.keys| && i < |QueueOf(r.queues, r.keys[index])|
  {
    var t := Withdraw(r, index, i, o);
    if |r.queues[r.keys[index]]| == 1 then t
    else t.(cursor := if advance then (index + 1) % |r.keys| else index)
  }

  // ---- Well-formed rings ----

  ghost predicate Distinct<T>(s: seq<T>) { forall i, j :: 0 <= i < j < |s| ==> s[i] != s[j] }

  /** Every queue is nonempty, holds waiters of its own key, and none twice. */
  ghost predicate QueueWellFormed(key: string, q: seq<Waiter>, waiting: map<nat, Waiter>)
  {
    && q != []
    && (forall i :: 0 <= i < |q| ==> q[i].queueKey == key && q[i].id in waiting && waiting[q[i].id] == q[i])
    && (forall i, j :: 0 <= i < j < |q| ==> q[i].id != q[j].id)
  }

  ghost predicate QueuesWellFormed(queues: map<string, seq<Waiter>>, waiting: map<nat, Waiter>)
  {
    forall k :: k in queues ==> QueueWellFormed(k, queues[k], waiting)
  }

  ghost predicate IsQueued(queues: map<string, seq<Waiter>>, w: Waiter)
  {
    w.queueKey in queues && w in queues[w.queueKey]
  }

  ghost predicate AllQueued(queues: map<string, seq<Waiter>>, waiting: map<nat, Waiter>)
  {
    forall id :: id in waiting ==> IsQueued(queues, waiting[id])
  }

  ghost predicate IdsWellFormed(waiting: map<nat, Waiter>, next: nat, settled: map<nat, Outcome>)
  {
    && (forall id :: id in waiting ==> waiting[id].id == id < next && id !in settled)
    && (forall id :: id in waiting ==> waiting[id].queueKey != "" && waiting[id].sessionKey != "")
    && (forall id :: id in settled ==> id < next)
  }

  ghost predicate CursorWellFormed(keys: seq<string>, cursor: nat)
  {
    if keys == [] then cursor == 0 else cursor < |keys|
  }

  ghost predicate KeysWellFormed(keys: seq<string>, queues: map<string, seq<Waiter>>)
  {
    Distinct(keys) && forall k :: k in keys <==> k in queues
  }

  ghost predicate RingWellFormed(r: Ring)
  {
    && KeysWellFormed(r.keys, r.queues)
    && QueuesWellFormed(r.queues, r.waiting)
    && AllQueued(r.queues, r.waiting)
    && IdsWellFormed(r.waiting, r.nextWaiter, r.settled)
    && r.count == |r.waiting|
    && CursorWellFormed(r.keys, r.cursor)
  }

  lemma EnqueueQueues(queues: map<string, seq<Waiter>>, waiting: map<nat, Waiter>, w: Waiter)
    requires QueuesWellFormed(queues, waiting) && AllQueued(queues, waiting) && w.id !in waiting
    ensures var queues' := queues[w.queueKey := QueueOf(queues, w.queueKey) + [w]];
      QueuesWellFormed(queues', waiting[w.id := w]) && AllQueued(queues', waiting[w.id := w])
  {
    var q := QueueOf(queues, w.queueKey) + [w];
    var queues', waiting' := queues[w.queueKey := q], waiting[w.id := w];
    forall k | k in queues' ensures QueueWellFormed(k, queues'[k], waiting') {
      if k in queues { assert QueueWellFormed(k, queues[k], waiting); }
    }
    forall id | id in waiting' ensures IsQueued(queues', waiting'[id]) {
      if id == w.id { assert q[|q| - 1] == w; } else { assert IsQueued(queues, waiting[id]); }
    }
  }

  lemma EnqueueKeys(keys: seq<string>, queues: map<string, seq<Waiter>>, waiting: map<nat, Waiter>, key: string,
      q: seq<Waiter>)
    requires KeysWellFormed(keys, queues) && QueuesWellFormed(queues, waiting)
    ensures KeysWellFormed(if QueueOf(queues, key) == [] then keys + [key] else keys, queues[key := q])
  {
    if QueueOf(queues, key) == [] {
      assert key !in queues;
    }
  }

  lemma EnqueueIds(waiting: map<nat, Waiter>, next: nat, settled: map<nat, Outcome>, w: Waiter)
    requires IdsWellFormed(waiting, next, settled) && w.id == next && w.queueKey != "" && w.sessionKey != ""
    ensures IdsWellFormed(waiting[next := w], next + 1, settled) && |waiting[next := w]| == |waiting| + 1
  {
    assert waiting[next := w].Keys == waiting.Keys + {next};
  }

  lemma EnqueueWellFormed(r: Ring, c: Class, key: string, session: string)
    requires RingWellFormed(r) && key != "" && session != ""
    ensures RingWellFormed(Enqueue(r, c, key, session))
  {
    hide QueuesWellFormed, AllQueued, KeysWellFormed;
    var w := Waiter(r.nextWaiter, c, key, session);
    assert w.id !in r.waiting;
    EnqueueQueues(r.queues, r.waiting, w);
    EnqueueKeys(r.keys, r.queues, r.waiting, key, QueueOf(r.queues, key) + [w]);
    EnqueueIds(r.waiting, r.nextWaiter, r.settled, w);
  }

  lemma WithoutAt<T>(q: seq<T>, i: nat, j: nat)
    requires i < |q| && j < |q| - 1
    ensures |Without(q, i)| == |q| - 1 && Without(q, i)[j] == q[if j < i then j else j + 1]
  {
  }

  lemma WithoutMembers<T>(q: seq<T>, i: nat)
    requires i < |q|
    ensures forall x :: x in q && x != q[i] ==> x in Without(q, i)
    ensures forall x :: x in Without(q, i) ==> x in q
  {
    forall x | x in q && x != q[i] ensures x in Without(q, i) {
      var j :| 0 <= j < |q| && q[j] == x;
      if j < i { WithoutAt(q, i, j); } else { WithoutAt(q, i, j - 1); }
    }
  }

  lemma RemoveKeyDistinct(keys: seq<string>, i: nat)
    requires Distinct(keys) && i < |keys|
    ensures Distinct(Without(keys, i))
    ensures forall k :: k in Without(keys, i) <==> k in keys && k != keys[i]
  {
    WithoutMembers(keys, i);
    forall j | 0 <= j < |keys| - 1 ensures Without(keys, i)[j] == keys[if j < i then j else j + 1] {
      WithoutAt(keys, i, j);
    }
  }

  lemma WithdrawQueue(key: string, q: seq<Waiter>, waiting: map<nat, Waiter>, i: nat)
    requires QueueWellFormed(key, q, waiting) && i < |q| && |q| > 1
    ensures QueueWellFormed(key, Without(q, i), waiting - {q[i].id})
  {
    forall j | 0 <= j < |q| - 1 ensures Without(q, i)[j] == q[if j < i then j else j + 1] { WithoutAt(q, i, j); }
  }

  lemma WithdrawQueues(queues: map<string, seq<Waiter>>, waiting: map<nat, Waiter>, key: string, i: nat)
    requires QueuesWellFormed(queues, waiting) && key in queues && i < |queues[key]|
    ensures QueuesWellFormed(QueuesAfter(queues, key, i), waiting - {queues[key][i].id})
  {
    var w := queues[key][i];
    assert QueueWellFormed(key, queues[key], waiting);
    var after := QueuesAfter(queues, key, i);
    forall k | k in after ensures QueueWellFormed(k, after[k], waiting - {w.id}) {
      if k == key {
        WithdrawQueue(key, queues[key], waiting, i);
      } else {
        assert QueueWellFormed(k, queues[k], waiting);
        forall j | 0 <= j < |queues[k]| ensures queues[k][j].id != w.id { }
      }
    }
  }

  lemma WithdrawQueued(queues: map<string, seq<Waiter>>, waiting: map<nat, Waiter>, key: string, i: nat)
    requires QueuesWellFormed(queues, waiting) && AllQueued(queues, waiting) && key in queues && i < |queues[key]|
    requires forall id :: id in waiting ==> waiting[id].id == id
    ensures AllQueued(QueuesAfter(queues, key, i), waiting - {queues[key][i].id})
  {
    var w := queues[key][i];
    assert QueueWellFormed(key, queues[key], waiting);
    var after := QueuesAfter(queues, key, i);
    WithoutMembers(queues[key], i);
    forall id | id in waiting && id != w.id ensures IsQueued(after, waiting[id]) {
      assert IsQueued(queues, waiting[id]);
      if waiting[id].queueKey == key {
        assert waiting[id] in Without(queues[key], i);
      }
    }
  }

  lemma WithdrawKeys(keys: seq<string>, queues: map<string, seq<Waiter>>, index: nat, i: nat)
    requires KeysWellFormed(keys, queues) && index < |keys| && i < |QueueOf(queues, keys[index])|
    ensures KeysWellFormed(if |queues[keys[index]]| == 1 then Without(keys, index)
      else keys, QueuesAfter(queues, keys[index], i))
  {
    RemoveKeyDistinct(keys, index);
  }

  lemma SettleIds(waiting: map<nat, Waiter>, next: nat, settled: map<nat, Outcome>, id: nat, o: Outcome)
    requires IdsWellFormed(waiting, next, settled) && id in waiting
    ensures IdsWellFormed(waiting - {id}, next, settled[id := o]) && |waiting - {id}| == |waiting| - 1
  {
    assert (waiting - {id}).Keys == waiting.Keys - {id};
  }

  /** Every waiter left after a removal is still in the queue of its key. */
  lemma WithdrawWellFormed(r: Ring, index: nat, i: nat, o: Outcome)
    requires RingWellFormed(r) && index < |r.keys| && i < |QueueOf(r.queues, r.keys[index])|
    ensures RingWellFormed(Withdraw(r, index, i, o))
  {
    var key := r.keys[index];
    assert QueueWellFormed(key, r.queues[key], r.waiting);
    hide QueuesWellFormed, AllQueued, KeysWellFormed, IdsWellFormed, QueuesAfter;
    WithdrawQueues(r.queues, r.waiting, key, i);
    WithdrawQueued(r.queues, r.waiting, key, i);
    WithdrawKeys(r.keys, r.queues, index, i);
    SettleIds(r.waiting, r.nextWaiter, r.settled, r.queues[key][i].id, o);
  }

  lemma PopWellFormed(r: Ring, index: nat, i: nat, advance: bool, o: Outcome)
    requires RingWellFormed(r) && index < |r.keys| && i < |QueueOf(r.queues, r.keys[index])|
    ensures RingWellFormed(Pop(r, index, i, advance, o))
  {
    hide QueuesWellFormed, AllQueued, KeysWellFormed, IdsWellFormed;
    WithdrawWellFormed(r, index, i, o);
  }

  // ---- Counting waiters ----

  function HealthIds(waiting: map<nat, Waiter>): set<nat>
  {
    set id | id in waiting && waiting[id].cls == TrustedHealth
  }

  /** At most MaxWaiters public waiters, a separate control allowance, and a
      bound per key. */
  ghost predicate RingBounded(r: Ring, maxWaiters: int, maxControl: int, perKey: int)
  {
    && |HealthIds(r.waiting)| <= maxControl
    && r.count - |HealthIds(r.waiting)| <= maxWaiters
    && (forall k :: k in r.queues ==> |r.queues[k]| <= perKey)
  }

  lemma HealthWithout(waiting: map<nat, Waiter>, id: nat)
    requires id in waiting
    ensures |HealthIds(waiting)| == |HealthIds(waiting - {id})| + (if waiting[id].cls == TrustedHealth then 1 else 0)
  {
    assert HealthIds(waiting) == HealthIds(waiting - {id}) + (if waiting[id].cls == TrustedHealth then {id} else {});
  }

  lemma HealthWith(waiting: map<nat, Waiter>, w: Waiter)
    requires w.id !in waiting
    ensures |HealthIds(waiting[w.id := w])| == |HealthIds(waiting)| + (if w.cls == TrustedHealth then 1 else 0)
  {
    HealthWithout(waiting[w.id := w], w.id);
    assert waiting[w.id := w] - {w.id} == waiting;
  }

  lemma WithdrawBounded(r: Ring, index: nat, i: nat, o: Outcome, maxWaiters: int, maxControl: int, perKey: int)
    requires RingWellFormed(r) && index < |r.keys| && i < |QueueOf(r.queues, r.keys[index])|
    requires RingBounded(r, maxWaiters, maxControl, perKey)
    ensures RingBounded(Withdraw(r, index, i, o), maxWaiters, maxControl, perKey)
  {
    var key := r.keys[index];
    assert r.queues[key][i].id in r.waiting by { assert QueueWellFormed(key, r.queues[key], r.waiting); }
    hide RingWellFormed, HealthIds, Withdraw, QueuesAfter;
    HealthWithout(r.waiting, r.queues[key][i].id);
    WithdrawCounts(r, index, i, o);
    QueuesAfterBounded(r.queues, key, i, perKey);
  }

  lemma WithdrawCounts(r: Ring, index: nat, i: nat, o: Outcome)
    requires index < |r.keys| && i < |QueueOf(r.queues, r.keys[index])|
    ensures var key, t := r.keys[index], Withdraw(r, index, i, o);
      && t.count == r.count - 1 && t.waiting == r.waiting - {r.queues[key][i].id}
      && t.queues == QueuesAfter(r.queues, key, i)
  {
    hide QueuesAfter;
  }

  lemma QueuesAfterBounded(queues: map<string, seq<Waiter>>, key: string, i: nat, perKey: int)
    requires i < |QueueOf(queues, key)| && forall k :: k in queues ==> |queues[k]| <= perKey
    ensures forall k :: k in QueuesAfter(queues, key, i) ==> |QueuesAfter(queues, key, i)[k]| <= perKey
  {
    assert |queues[key]| > 1 ==> |Without(queues[key], i)| == |queues[key]| - 1;
  }

  lemma PopBounded(r: Ring, index: nat, i: nat, advance: bool, o: Outcome, maxWaiters: int, maxControl: int,
      perKey: int)
    requires RingWellFormed(r) && index < |r.keys| && i < |QueueOf(r.queues, r.keys[index])|
    requires RingBounded(r, maxWaiters, maxControl, perKey)
    ensures RingBounded(Pop(r, index, i, advance, o), maxWaiters, maxControl, perKey)
    ensures Pop(r, index, i, advance, o).count == r.count - 1
  {
    hide RingWellFormed, RingBounded, Withdraw;
    WithdrawBounded(r, index, i, o, maxWaiters, maxControl, perKey);
    WithdrawCounts(r, index, i, o);
    CursorUnbounded(Withdraw(r, index, i, o), Pop(r, index, i, advance, o).cursor, maxWaiters, maxControl, perKey);
  }

  lemma CursorUnbounded(r: Ring, cursor: nat, maxWaiters: int, maxControl: int, perKey: int)
    requires RingBounded(r, maxWaiters, maxControl, perKey)
    ensures RingBounded(r.(cursor := cursor), maxWaiters, maxControl, perKey)
  {
  }

  lemma EnqueueBounded(r: Ring, c: Class, key: string, session: string, maxWaiters: int, maxControl: int, perKey: int)
    requires RingWellFormed(r)
    requires RingBounded(r, maxWaiters, maxControl, perKey)
    requires c == TrustedHealth ==> |HealthIds(r.waiting)| < maxControl
    requires c != TrustedHealth ==> r.count - |HealthIds(r.waiting)| < maxWaiters
    requires |QueueOf(r.queues, key)| < perKey
    ensures RingBounded(Enqueue(r, c, key, session), maxWaiters, maxControl, perKey)
  {
    assert r.nextWaiter !in r.waiting;
    hide RingWellFormed, HealthIds;
    HealthWith(r.waiting, Waiter(r.nextWaiter, c, key, session));
  }

  ghost function IdsOf(waiting: map<nat, Waiter>, key: string): set<nat>
  {
    set id | id in waiting && waiting[id].queueKey == key
  }

  /** Queued waiters of the given keys. */
  ghost function IdsAmong(waiting: map<nat, Waiter>, keys: seq<string>): set<nat>
  {
    set id | id in waiting && waiting[id].queueKey in keys
  }

  ghost function QueuedLength(queues: map<string, seq<Waiter>>, keys: seq<string>): nat
  {
    if keys == [] then 0 else QueuedLength(queues, keys[..|keys| - 1]) + |QueueOf(queues, keys[|keys| - 1])|
  }

  lemma IdsAmongStep(waiting: map<nat, Waiter>, keys: seq<string>, key: string)
    requires key !in keys
    ensures |IdsAmong(waiting, keys + [key])| == |IdsAmong(waiting, keys)| + |IdsOf(waiting, key)|
  {
    assert IdsAmong(waiting, keys + [key]) == IdsAmong(waiting, keys) + IdsOf(waiting, key);
    assert IdsAmong(waiting, keys) !! IdsOf(waiting, key);
  }

  lemma QueueIds(queues: map<string, seq<Waiter>>, waiting: map<nat, Waiter>, key: string)
    requires QueuesWellFormed(queues, waiting) && AllQueued(queues, waiting) && key in queues
    requires forall id :: id in waiting ==> waiting[id].id == id
    ensures |IdsOf(waiting, key)| == |queues[key]|
  {
    var q := queues[key];
    assert QueueWellFormed(key, q, waiting);
    var ids := set w | w in q :: w.id;
    forall id | id in IdsOf(waiting, key) ensures id in ids {
      assert IsQueued(queues, waiting[id]);
    }
    assert IdsOf(waiting, key) == ids;
    DistinctIds(q);
  }

  lemma {:induction false} DistinctIds(q: seq<Waiter>)
    requires forall i, j :: 0 <= i < j < |q| ==> q[i].id != q[j].id
    ensures |set w | w in q :: w.id| == |q|
  {
    if q != [] {
      var n := |q| - 1;
      DistinctIds(q[..n]);
      var before := set w | w in q[..n] :: w.id;
      assert q == q[..n] + [q[n]];
      assert (set w | w in q :: w.id) == before + {q[n].id};
      assert q[n].id !in before;
    }
  }

  lemma {:induction false} LengthsAddUp(queues: map<string, seq<Waiter>>, waiting: map<nat, Waiter>, keys: seq<string>)
    requires QueuesWellFormed(queues, waiting) && AllQueued(queues, waiting)
    requires forall id :: id in waiting ==> waiting[id].id == id
    requires Distinct(keys) && forall k :: k in keys ==> k in queues
    ensures QueuedLength(queues, keys) == |IdsAmong(waiting, keys)|
  {
    if keys == [] {
      assert IdsAmong(waiting, keys) == {};
    } else {
      hide QueuesWellFormed, AllQueued, IdsAmong, IdsOf;
      var front, key := keys[..|keys| - 1], keys[|keys| - 1];
      assert keys == front + [key] && key in keys;
      LengthsAddUp(queues, waiting, front);
      QueueIds(queues, waiting, key);
      IdsAmongStep(waiting, front, key);
    }
  }

  /** The tracked waiter count is the total length of the queues. */
  lemma QueuesHoldTheCount(r: Ring)
    requires RingWellFormed(r)
    ensures QueuedLength(r.queues, r.keys) == r.count
  {
    LengthsAddUp(r.queues, r.waiting, r.keys);
    forall id | id in r.waiting ensures r.waiting[id].queueKey in r.keys { assert IsQueued(r.queues, r.waiting[id]); }
    hide QueuesWellFormed, AllQueued, KeysWellFormed, IdsWellFormed;
    assert IdsAmong(r.waiting, r.keys) == r.waiting.Keys;
  }

  // ---- The ring as seen from the cursor ----

  /** Keys in the order a scan visits them. */
  function Rotation(r: Ring): seq<string>
  {
    if r.cursor > |r.keys| then r.keys else Rotated(r.keys, r.cursor)
  }

  function Index(r: Ring, n: nat): (i: nat)
    requires n < |r.keys| && r.cursor < |r.keys|
    ensures i < |r.keys|
  {
    (r.cursor + n) % |r.keys|
  }

  lemma RotationAt(r: Ring, n: nat)
    requires n < |r.keys| && r.cursor < |r.keys|
    ensures Index(r, n) == if r.cursor + n < |r.keys| then r.cursor + n else r.cursor + n - |r.keys|
    ensures |Rotation(r)| == |r.keys| && Rotation(r)[n] == r.keys[Index(r, n)]
  {
    WrapAround(|r.keys|, r.cursor, n);
  }

  function Rotated(keys: seq<string>, cursor: nat): seq<string>
    requires cursor <= |keys|
  {
    keys[cursor..] + keys[..cursor]
  }

  lemma WrapAround(m: nat, cursor: nat, n: nat)
    requires cursor < m && n < m
    ensures (cursor + n) % m == if cursor + n < m then cursor + n else cursor + n - m
  {
    if cursor + n >= m {
      assert cursor + n == m + (cursor + n - m);
    }
  }

  lemma RotateFurther(keys: seq<string>, cursor: nat, n: nat, index: nat)
    requires cursor < |keys| && n < |keys|
    requires index == if cursor + n < |keys| then cursor + n else cursor + n - |keys|
    ensures Rotated(keys, cursor)[n] == keys[index]
    ensures Rotated(keys, cursor)[n..] + Rotated(keys, cursor)[..n] == Rotated(keys, index)
  {
    var rot := Rotated(keys, cursor);
    if cursor + n < |keys| {
      assert rot[n..] == keys[index..] + keys[..cursor];
      assert rot[..n] == keys[cursor..index];
      assert keys[..cursor] + keys[cursor..index] == keys[..index];
    } else {
      assert rot[n..] == keys[index..cursor];
      assert rot[..n] == keys[cursor..] + keys[..index];
      assert keys[index..cursor] + keys[cursor..] == keys[index..];
    }
  }

  lemma RotateOnce(keys: seq<string>, cursor: nat)
    requires cursor < |keys|
    ensures Rotated(keys, (cursor + 1) % |keys|) == Rotated(keys, cursor)[1..] + [keys[cursor]]
  {
    if cursor + 1 == |keys| {
      assert (cursor + 1) % |keys| == 0;
    } else {
      assert (cursor + 1) % |keys| == cursor + 1;
    }
  }

  lemma RotateRemoved(keys: seq<string>, cursor: nat)
    requires cursor < |keys|
    ensures Rotated(Without(keys, cursor), if cursor + 1 == |keys| then 0 else cursor) == Rotated(keys, cursor)[1..]
  {
  }

  lemma Tail(s: seq<string>, n: nat)
    requires n < |s|
    ensures (s[n..] + s[..n])[1..] == s[n + 1..] + s[..n]
  {
  }

  /** The scan order after `n` keys were passed over and waiter `i` of the next
      key was taken out. */
  function OrderAfter(rot: seq<string>, n: nat, emptied: bool, advance: bool): seq<string>
    requires n < |rot|
  {
    if emptied then rot[n + 1..] + rot[..n]
    else if advance then rot[n + 1..] + rot[..n] + [rot[n]]
    else rot[n..] + rot[..n]
  }

  /** A served key moves to the back of the scan order, and the keys passed over
      on the way move with it; an emptied key leaves. */
  lemma PopRotation(r: Ring, n: nat, i: nat, advance: bool, o: Outcome)
    requires CursorWellFormed(r.keys, r.cursor) && n < |r.keys|
    requires i < |QueueOf(r.queues, r.keys[Index(r, n)])|
    ensures var t := Pop(r.(cursor := Index(r, n)), Index(r, n), i, advance, o);
      && CursorWellFormed(t.keys, t.cursor)
      && Rotation(t) == OrderAfter(Rotation(r), n, |r.queues[r.keys[Index(r, n)]]| == 1, advance)
  {
    var index := Index(r, n);
    PopPlaces(r, index, i, advance, o);
    TurnOrder(r, n);
    hide Pop, Index, Rotated, Without;
  }

  /** The keys and the cursor after a waiter was taken out at `index`. */
  lemma PopPlaces(r: Ring, index: nat, i: nat, advance: bool, o: Outcome)
    requires index < |r.keys| && i < |QueueOf(r.queues, r.keys[index])|
    ensures var t := Pop(r.(cursor := index), index, i, advance, o);
      if |r.queues[r.keys[index]]| == 1
      then t.keys == Without(r.keys, index) && t.cursor == if index + 1 == |r.keys| then 0 else index
      else t.keys == r.keys && t.cursor == if advance then (index + 1) % |r.keys| else index
  {
  }

  /** The scan order from the key that is `n` places after the cursor, from the
      one behind it, and without it. */
  lemma TurnOrder(r: Ring, n: nat)
    requires r.cursor < |r.keys| && n < |r.keys|
    ensures var index, rot := Index(r, n), Rotated(r.keys, r.cursor);
      && n < |rot| && (index + 1) % |r.keys| < |r.keys|
      && Rotated(r.keys, index) == rot[n..] + rot[..n]
      && Rotated(r.keys, (index + 1) % |r.keys|) == rot[n + 1..] + rot[..n] + [rot[n]]
      && Rotated(Without(r.keys, index), if index + 1 == |r.keys| then 0 else index) == rot[n + 1..] + rot[..n]
  {
    var index, rot := Index(r, n), Rotated(r.keys, r.cursor);
    WrapAround(|r.keys|, r.cursor, n);
    RotateFurther(r.keys, r.cursor, n, index);
    RotateOnce(r.keys, index);
    RotateRemoved(r.keys, index);
    Tail(rot, n);
    assert Rotated(r.keys, index)[0] == r.keys[index];
    assert (rot[n..] + rot[..n])[0] == rot[n];
  }

  /** Removing a key elsewhere does not disturb the order of the others. */
  lemma RemoveKeyRotation(r: Ring, index: nat)
    requires Distinct(r.keys) && index < |r.keys| && r.cursor < |r.keys|
    ensures var t := RemoveKeyAt(r, index);
      && (if t.keys == [] then t.cursor == 0 else t.cursor < |t.keys|)
      && exists p :: 0 <= p < |Rotation(r)| && Rotation(r)[p] == r.keys[index] && Rotation(t) == Without(Rotation(r), p)
  {
    var p := if index < r.cursor then |r.keys| - r.cursor + index else index - r.cursor;
    if index < r.cursor { RemovedBefore(r.keys, r.cursor, index); } else { RemovedAfter(r.keys, r.cursor, index); }
    var t := RemoveKeyAt(r, index);
    assert |t.keys| == |r.keys| - 1 && |Rotation(r)| == |r.keys|;
    hide Rotated, Without;
    assert Rotation(r)[p] == r.keys[index] && Rotation(t) == Without(Rotation(r), p);
  }

  lemma RemovedBefore(keys: seq<string>, cursor: nat, index: nat)
    requires index < cursor < |keys|
    ensures var p := |keys| - cursor + index;
      && Rotated(keys, cursor)[p] == keys[index]
      && Rotated(Without(keys, index), cursor - 1) == Without(Rotated(keys, cursor), p)
  {
    var left := Without(keys, index);
    assert left[cursor - 1..] == keys[cursor..];
    assert left[..cursor - 1] == keys[..index] + keys[index + 1..cursor];
  }

  lemma RemovedAfter(keys: seq<string>, cursor: nat, index: nat)
    requires cursor <= index < |keys|
    ensures var left := Without(keys, index);
      && Rotated(keys, cursor)[index - cursor] == keys[index]
      && Rotated(left, if cursor >= |left| then 0 else cursor) == Without(Rotated(keys, cursor), index - cursor)
  {
    var left, rot := Without(keys, index), Rotated(keys, cursor);
    if cursor == |left| {
      assert left == keys[..cursor] == Without(rot, 0);
    } else {
      assert left[cursor..] == keys[cursor..index] + keys[index + 1..];
      assert left[..cursor] == keys[..cursor];
    }
  }
}
