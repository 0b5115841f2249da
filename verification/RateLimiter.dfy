/** The bounded token-bucket limiter of the update endpoints.  Time is in
    seconds and arithmetic is exact. */
module RateLimiter {
  import opened Optional

  datatype Limits = Limits(limit: int, window: real, burst: int, maxEntries: int)

  predicate LimitsValid(c: Limits) { c.limit >= 1 && c.window > 0.0 && c.burst >= 1 && c.maxEntries >= 1 }

  function Rate(c: Limits): real
    requires LimitsValid(c)
  {
    c.limit as real / c.window
  }

  /** What `elapsed` seconds refill. */
  function Gain(c: Limits, elapsed: real): real
    requires LimitsValid(c)
  {
    elapsed * Rate(c)
  }

  function Burst(c: Limits): real { c.burst as real }

  datatype Bucket = Bucket(tokens: real, updated: real, lastSeen: real)

  datatype State = State(buckets: map<string, Bucket>, nextPrune: Option<real>)

  const EMPTY := State(map[], None)

  // ---- One call ----

  function KeyOf(key: string): string { if key == "" then "unknown" else key }

  predicate Idle(b: Bucket, c: Limits, now: real) { b.lastSeen < now - c.window }

  function Busy(buckets: map<string, Bucket>, c: Limits, now: real): map<string, Bucket>
  {
    map k | k in buckets && !Idle(buckets[k], c, now) :: buckets[k]
  }

  /** Room is made only for a new key, only when the table is full, and at most
      once per window. */
  function AfterPrune(c: Limits, s: State, key: string, now: real): State
  {
    if key in s.buckets || |s.buckets| < c.maxEntries || (s.nextPrune.Some? && now < s.nextPrune.value) then s
    else State(Busy(s.buckets, c, now), Some(now + c.window))
  }

  function Refilled(c: Limits, b: Bucket, now: real): Bucket
    requires LimitsValid(c)
  {
    if now - b.updated > 0.0 then
      var full := b.tokens + Gain(c, now - b.updated);
      b.(tokens := if full > Burst(c) then Burst(c) else full, updated := now)
    else b
  }

  function Step(c: Limits, s: State, key: string, now: real): (State, bool)
    requires LimitsValid(c)
  {
    var k := KeyOf(key);
    var t := AfterPrune(c, s, k, now);
    if k !in t.buckets && |t.buckets| >= c.maxEntries then (t, false)
    else
      var b := Refilled(c, if k in t.buckets then t.buckets[k] else Bucket(Burst(c), now, now), now).(lastSeen := now);
      if b.tokens < 1.0 then (t.(buckets := t.buckets[k := b]), false)
      else (t.(buckets := t.buckets[k := b.(tokens := b.tokens - 1.0)]), true)
  }

  class Limiter {
    const c: Limits
    var buckets: map<string, Bucket>
    var nextPrune: Option<real>

    function View(): State
      reads this
    {
      State(buckets, nextPrune)
    }

    constructor (limits: Limits)
      ensures View() == EMPTY && c == limits
    {
      c := limits;
      buckets := map[];
      nextPrune := None;
    }

    /** Deletes the idle buckets one by one, in any order. */
    method Prune(now: real)
      modifies this`buckets
      ensures buckets == Busy(old(buckets), c, now)
    {
      ghost var all := buckets;
      var todo := buckets.Keys;
      while todo != {}
        invariant todo <= all.Keys
        invariant buckets == map k | k in all && (k in todo || !Idle(all[k], c, now)) :: all[k]
        decreases |todo|
      {
        var k :| k in todo;
        if buckets[k].lastSeen < now - c.window {
          buckets := buckets - {k};
        }
        todo := todo - {k};
      }
    }

    method Allow(key: string, now: real) returns (ok: bool)
      requires LimitsValid(c)
      modifies this`buckets, this`nextPrune
      ensures (View(), ok) == Step(c, old(View()), key, now)
    {
      hide Gain;
      var k := if key == "" then "unknown" else key;
      ghost var room := buckets;
      if k !in buckets {
        if |buckets| >= c.maxEntries {
          if nextPrune.None? || now >= nextPrune.value {
            Prune(now);
            nextPrune := Some(now + c.window);
          }
          if |buckets| >= c.maxEntries {
            return false;
          }
        }
        room := buckets;
        buckets := buckets[k := Bucket(c.burst as real, now, now)];
      }
      var bucket := buckets[k];
      var elapsed := now - bucket.updated;
      if elapsed > 0.0 {
        bucket := bucket.(tokens := bucket.tokens + Gain(c, elapsed));
        if bucket.tokens > c.burst as real {
          bucket := bucket.(tokens := c.burst as real);
        }
        bucket := bucket.(updated := now);
      }
      bucket := bucket.(lastSeen := now);
      ok := bucket.tokens >= 1.0;
      if ok {
        bucket := bucket.(tokens := bucket.tokens - 1.0);
      }
      buckets := buckets[k := bucket];
      assert buckets == room[k := bucket];
    }
  }

  // ---- What is kept ----

  ghost predicate Valid(c: Limits, s: State, clock: real)
  {
    && |s.buckets| <= c.maxEntries
    && forall k :: k in s.buckets ==>
         && 0.0 <= s.buckets[k].tokens <= Burst(c)
         && s.buckets[k].updated == s.buckets[k].lastSeen <= clock
  }

  /** What a bucket that was last touched at `v.updated` could spend at `t`. */
  function Credit(c: Limits, v: Bucket, t: real): real
    requires LimitsValid(c)
  {
    var full := v.tokens + Gain(c, t - v.updated);
    if full > Burst(c) then Burst(c) else full
  }

  /** A plain token bucket, without a table to be forgotten from. */
  function Spend(c: Limits, v: Bucket, now: real): Bucket
    requires LimitsValid(c)
  {
    var credit := Credit(c, v, now);
    Bucket(if credit < 1.0 then credit else credit - 1.0, now, now)
  }

  /** Full by now, or, if the table holds one entry, by the time the entry that
      took its place can be forgotten. */
  ghost predicate Regained(c: Limits, s: State, v: Bucket, clock: real)
    requires LimitsValid(c)
  {
    || Credit(c, v, clock) == Burst(c)
    || (c.maxEntries == 1 && exists k :: k in s.buckets && Credit(c, v, s.buckets[k].lastSeen + c.window) == Burst(c))
  }

  /** The table agrees with the plain bucket `v` of this key: it holds the same
      bucket, or has forgotten it harmlessly. */
  ghost predicate Tracks(c: Limits, s: State, key: string, v: Bucket, clock: real)
    requires LimitsValid(c)
  {
    && 0.0 <= v.tokens <= Burst(c) && v.updated <= clock
    && if key in s.buckets then s.buckets[key].tokens == v.tokens && s.buckets[key].updated == v.updated
       else Regained(c, s, v, clock)
  }

  /** A key returns to a full table no sooner than one window after its last use,
      and to a table of one entry no sooner than two. */
  predicate Suits(c: Limits) { c.burst <= if c.maxEntries == 1 then 2 * c.limit else c.limit }

  lemma GainAdds(c: Limits, x: real, y: real)
    requires LimitsValid(c)
    ensures Gain(c, x) + Gain(c, y) == Gain(c, x + y) && Gain(c, 0.0) == 0.0 && Gain(c, c.window) == c.limit as real
    ensures x >= 0.0 ==> Gain(c, x) >= 0.0
  {
    assert Rate(c) > 0.0;
  }

  /** Waiting refills at the rate, and no faster. */
  lemma CreditGrows(c: Limits, v: Bucket, t: real, u: real)
    requires LimitsValid(c) && t <= u
    ensures Credit(c, v, t) <= Credit(c, v, u) <= Credit(c, v, t) + Gain(c, u - t)
  {
    hide Gain;
    GainAdds(c, u - t, 0.0);
    GainAdds(c, t - v.updated, u - t);
  }

  lemma CreditInRange(c: Limits, v: Bucket, t: real)
    requires LimitsValid(c) && 0.0 <= v.tokens && v.updated <= t
    ensures 0.0 <= Credit(c, v, t) <= Burst(c)
  {
    hide Gain;
    GainAdds(c, t - v.updated, 0.0);
  }

  lemma SpendInRange(c: Limits, v: Bucket, now: real)
    requires LimitsValid(c) && 0.0 <= v.tokens && v.updated <= now
    ensures 0.0 <= Spend(c, v, now).tokens <= Burst(c)
    ensures Credit(c, Spend(c, v, now), now) == Spend(c, v, now).tokens
  {
    CreditInRange(c, v, now);
    hide Gain;
    GainAdds(c, 0.0, 0.0);
  }

  /** A bucket idle for a window has regained the limit, and after one window
      more twice the limit. */
  lemma IdleRegains(c: Limits, v: Bucket, now: real)
    requires LimitsValid(c) && 0.0 <= v.tokens && v.updated < now - c.window
    ensures c.burst <= c.limit ==> Credit(c, v, now) == Burst(c)
    ensures c.burst <= 2 * c.limit ==> Credit(c, v, now + c.window) == Burst(c)
  {
    hide Gain;
    var idle := now - v.updated;
    GainAdds(c, c.window, idle - c.window);
    GainAdds(c, idle - c.window, 0.0);
    GainAdds(c, idle, c.window);
  }

  lemma BusyFits(buckets: map<string, Bucket>, c: Limits, now: real)
    ensures |Busy(buckets, c, now)| <= |buckets| && Busy(buckets, c, now).Keys <= buckets.Keys
  {
    KeysFit(Busy(buckets, c, now).Keys, buckets.Keys);
    assert |Busy(buckets, c, now)| == |Busy(buckets, c, now).Keys| && |buckets| == |buckets.Keys|;
  }

  lemma {:induction false} KeysFit(a: set<string>, b: set<string>)
    requires a <= b
    ensures |a| <= |b|
    decreases a
  {
    if a != {} {
      var x :| x in a;
      KeysFit(a - {x}, b - {x});
    }
  }

  lemma PruneValid(c: Limits, s: State, key: string, clock: real, now: real)
    requires LimitsValid(c) && Valid(c, s, clock) && clock <= now
    ensures Valid(c, AfterPrune(c, s, key, now), now)
    ensures key in AfterPrune(c, s, key, now).buckets ==> AfterPrune(c, s, key, now) == s
  {
    BusyFits(s.buckets, c, now);
  }

  /** In a table of one entry there is one key. */
  lemma OnlyKey(m: map<string, Bucket>, a: string, b: string)
    requires |m| <= 1 && a in m && b in m
    ensures a == b
  {
    assert |m.Keys| == |m|;
    if a != b { KeysFit({a, b}, m.Keys); }
  }

  lemma NotEmpty(m: map<string, Bucket>)
    requires |m| >= 1
    ensures exists k :: k in m
  {
    assert |m.Keys| == |m|;
    var k :| k in m.Keys;
  }

  /** The bucket a call works on is the plain bucket, refilled. */
  lemma UsesCredit(c: Limits, s: State, key: string, v: Bucket, clock: real, now: real)
    requires LimitsValid(c) && Valid(c, s, clock) && clock <= now && Tracks(c, s, key, v, clock)
    requires var t := AfterPrune(c, s, key, now); key in t.buckets || |t.buckets| < c.maxEntries
    ensures var t := AfterPrune(c, s, key, now);
      var b := Refilled(c, if key in t.buckets then t.buckets[key] else Bucket(Burst(c), now, now), now);
      b.tokens == Credit(c, v, now) && b.updated == now
  {
    hide Gain;
    var t := AfterPrune(c, s, key, now);
    GainAdds(c, 0.0, 0.0);
    if key !in s.buckets {
      if Credit(c, v, clock) == Burst(c) {
        CreditGrows(c, v, clock, now);
      } else {
        var k :| k in s.buckets && Credit(c, v, s.buckets[k].lastSeen + c.window) == Burst(c);
        HasEntry(s.buckets, k);
        assert k !in t.buckets by { if k in t.buckets { HasEntry(t.buckets, k); } }
        assert Idle(s.buckets[k], c, now);
        CreditGrows(c, v, s.buckets[k].lastSeen + c.window, now);
      }
    }
  }

  lemma HasEntry(m: map<string, Bucket>, k: string)
    requires k in m
    ensures |m| >= 1
  {
    assert |m| == |m.Keys|;
  }

  /** A call for another key leaves the plain bucket where it is; if the table
      forgets this key, it has room to spare or the other key takes its place. */
  lemma OthersTrack(c: Limits, s: State, other: string, key: string, v: Bucket, clock: real, now: real)
    requires LimitsValid(c) && Suits(c) && Valid(c, s, clock) && clock <= now && Tracks(c, s, key, v, clock) &&
      other != key
    ensures var t := AfterPrune(c, s, other, now);
      && (other !in t.buckets && |t.buckets| >= c.maxEntries ==> Tracks(c, t, key, v, now))
      && (forall b: Bucket {:trigger t.buckets[other := b]} :: b.lastSeen == now ==>
            Tracks(c, t.(buckets := t.buckets[other := b]), key, v, now))
  {
    hide Credit;
    var t := AfterPrune(c, s, other, now);
    BusyFits(s.buckets, c, now);
    RegainedLater(c, s, key, v, clock, now);
    if key !in t.buckets {
      if key in s.buckets { IdleRegains(c, v, now); }
      if c.maxEntries == 1 && |t.buckets| >= 1 {
        StaysFull(c, s, t, other, key, clock, now);
      }
      forall b: Bucket {:trigger t.buckets[other := b]} | b.lastSeen == now
        ensures Tracks(c, t.(buckets := t.buckets[other := b]), key, v, now)
      {
        assert other in t.buckets[other := b];
      }
    }
  }

  lemma StaysFull(c: Limits, s: State, t: State, other: string, key: string, clock: real, now: real)
    requires LimitsValid(c) && Valid(c, s, clock) && c.maxEntries == 1 && t == AfterPrune(c, s, other, now)
    requires |t.buckets| >= 1 && key !in t.buckets
    ensures key !in s.buckets && t.buckets == s.buckets
  {
    NotEmpty(t.buckets);
    var k :| k in t.buckets;
    forall j | j in s.buckets ensures j == k { OnlyKey(s.buckets, j, k); }
  }

  lemma RegainedLater(c: Limits, s: State, key: string, v: Bucket, clock: real, now: real)
    requires LimitsValid(c) && Valid(c, s, clock) && clock <= now && Tracks(c, s, key, v, clock)
    ensures key !in s.buckets ==> Regained(c, s, v, now)
    ensures key !in s.buckets && c.maxEntries == 1 ==> Credit(c, v, now + c.window) == Burst(c)
  {
    hide Credit;
    if key !in s.buckets {
      CreditGrows(c, v, clock, now);
      CreditGrows(c, v, clock, now + c.window);
      CreditInRange(c, v, now);
      CreditInRange(c, v, now + c.window);
      if Credit(c, v, clock) != Burst(c) {
        var k :| k in s.buckets && Credit(c, v, s.buckets[k].lastSeen + c.window) == Burst(c);
        CreditGrows(c, v, s.buckets[k].lastSeen + c.window, now + c.window);
      }
    }
  }

  lemma PutValid(c: Limits, t: State, key: string, b: Bucket, now: real)
    requires LimitsValid(c) && Valid(c, t, now) && (key in t.buckets || |t.buckets| < c.maxEntries)
    requires 0.0 <= b.tokens <= Burst(c) && b.updated == b.lastSeen == now
    ensures Valid(c, t.(buckets := t.buckets[key := b]), now)
  {
    var m := t.buckets[key := b];
    assert m.Keys == t.buckets.Keys + {key};
    assert |m| == |m.Keys| && |t.buckets| == |t.buckets.Keys|;
  }

  /** A call keeps the table bounded and does to its key's bucket what it would do
      to a plain one; nobody else's is affected. */
  lemma StepTracks(c: Limits, s: State, call: string, key: string, v: Bucket, clock: real, now: real)
    requires LimitsValid(c) && Suits(c) && Valid(c, s, clock) && clock <= now && Tracks(c, s, key, v, clock)
    ensures var r := Step(c, s, call, now);
      && Valid(c, r.0, now)
      && Tracks(c, r.0, key, if KeyOf(call) == key && key in r.0.buckets then Spend(c, v, now) else v, now)
      && (KeyOf(call) == key ==> (r.1 <==> key in r.0.buckets && Credit(c, v, now) >= 1.0))
  {
    var k := KeyOf(call);
    StepValid(c, s, call, clock, now);
    if k == key {
      RegainedLater(c, s, key, v, clock, now);
      OwnTracks(c, s, call, v, clock, now);
    } else {
      OthersTrack(c, s, k, key, v, clock, now);
      OtherStep(c, s, call, now);
    }
  }

  /** The state after a call: the pruned table, or the pruned table with one
      bucket put in. */
  lemma OtherStep(c: Limits, s: State, call: string, now: real)
    requires LimitsValid(c)
    ensures var t, k, u := AfterPrune(c, s, KeyOf(call), now), KeyOf(call), Step(c, s, call, now).0;
      if k !in t.buckets && |t.buckets| >= c.maxEntries then u == t
      else exists b: Bucket :: b.lastSeen == now && u == t.(buckets := t.buckets[k := b])
  {
    hide AfterPrune, Refilled;
    var t, k, u := AfterPrune(c, s, KeyOf(call), now), KeyOf(call), Step(c, s, call, now).0;
    if k in t.buckets || |t.buckets| < c.maxEntries {
      assert u == t.(buckets := t.buckets[k := u.buckets[k]]);
    }
  }

  lemma StepValid(c: Limits, s: State, call: string, clock: real, now: real)
    requires LimitsValid(c) && Valid(c, s, clock) && clock <= now
    ensures Valid(c, Step(c, s, call, now).0, now)
  {
    var k := KeyOf(call);
    var t := AfterPrune(c, s, k, now);
    PruneValid(c, s, k, clock, now);
    if k in t.buckets || |t.buckets| < c.maxEntries {
      var old' := if k in t.buckets then t.buckets[k] else Bucket(Burst(c), now, now);
      var b := Refilled(c, old', now).(lastSeen := now);
      RefilledInRange(c, old', now);
      hide Refilled, AfterPrune, Valid;
      PutValid(c, t, k, if b.tokens < 1.0 then b else b.(tokens := b.tokens - 1.0), now);
    }
  }

  lemma RefilledInRange(c: Limits, b: Bucket, now: real)
    requires LimitsValid(c) && 0.0 <= b.tokens <= Burst(c) && b.updated <= now
    ensures 0.0 <= Refilled(c, b, now).tokens <= Burst(c) && Refilled(c, b, now).updated == now
  {
    hide Gain;
    GainAdds(c, now - b.updated, 0.0);
  }

  lemma OwnTracks(c: Limits, s: State, call: string, v: Bucket, clock: real, now: real)
    requires LimitsValid(c) && Valid(c, s, clock) && clock <= now && Tracks(c, s, KeyOf(call), v, clock)
    ensures var k, r := KeyOf(call), Step(c, s, call, now);
      && Tracks(c, r.0, k, if k in r.0.buckets then Spend(c, v, now) else v, now)
      && (r.1 <==> k in r.0.buckets && Credit(c, v, now) >= 1.0)
  {
    var k := KeyOf(call);
    var t := AfterPrune(c, s, k, now);
    PruneValid(c, s, k, clock, now);
    SpendInRange(c, v, now);
    if k in t.buckets || |t.buckets| < c.maxEntries {
      UsesCredit(c, s, k, v, clock, now);
      hide Credit, Refilled, AfterPrune, Regained;
    } else {
      RefusedTracks(c, s, k, v, clock, now);
    }
  }

  lemma RefusedTracks(c: Limits, s: State, key: string, v: Bucket, clock: real, now: real)
    requires LimitsValid(c) && Valid(c, s, clock) && clock <= now && Tracks(c, s, key, v, clock)
    requires var t := AfterPrune(c, s, key, now); key !in t.buckets && |t.buckets| >= c.maxEntries
    ensures Tracks(c, AfterPrune(c, s, key, now), key, v, now)
  {
    hide Credit;
    var t := AfterPrune(c, s, key, now);
    RegainedLater(c, s, key, v, clock, now);
    assert key !in s.buckets;
    if c.maxEntries == 1 { StaysFull(c, s, t, key, key, clock, now); }
  }

  // ---- Runs ----

  datatype Call = Call(key: string, now: real)

  ghost predicate Steps(c: Limits, states: seq<State>, calls: seq<Call>, oks: seq<bool>)
    requires LimitsValid(c)
  {
    && |states| == |calls| + 1 && |oks| == |calls| && states[0] == EMPTY
    && forall i :: 0 <= i < |calls| ==> (states[i + 1], oks[i]) == Step(c, states[i], calls[i].key, calls[i].now)
  }

  /** Steps whose calls take the lock in the order in which they read the clock. */
  ghost predicate Run(c: Limits, states: seq<State>, calls: seq<Call>, oks: seq<bool>)
    requires LimitsValid(c)
  {
    Steps(c, states, calls, oks) && InOrder(calls)
  }

  ghost predicate InOrder(calls: seq<Call>) { forall i :: 0 <= i < |calls| - 1 ==> calls[i].now <= calls[i + 1].now }

  /** Calls from `i` to `j` for `key` that were let through. */
  function Passed(calls: seq<Call>, oks: seq<bool>, key: string, i: nat, j: nat): nat
    requires i <= j <= |calls| == |oks|
    decreases j - i
  {
    if i == j then 0
    else Passed(calls, oks, key, i, j - 1) + if oks[j - 1] && KeyOf(calls[j - 1].key) == key then 1 else 0
  }

  /** The plain bucket of a key after `j` calls: it starts full, is never
      forgotten, and ignores calls that find the table full. */
  ghost function Plain(c: Limits, states: seq<State>, calls: seq<Call>, key: string, j: nat): Bucket
    requires LimitsValid(c) && |states| == |calls| + 1 && 0 < |calls| && j <= |calls|
  {
    if j == 0 then Bucket(Burst(c), calls[0].now, calls[0].now)
    else
      var v := Plain(c, states, calls, key, j - 1);
      if KeyOf(calls[j - 1].key) == key && key in states[j].buckets then Spend(c, v, calls[j - 1].now) else v
  }

  /** A table that forgets keys lets a call through only if a plain bucket, which
      forgets nothing, would. */
  lemma {:induction false} RefinesPlainBucket(
      c: Limits, states: seq<State>, calls: seq<Call>, oks: seq<bool>, key: string, i: nat)
    requires LimitsValid(c) && Suits(c) && Run(c, states, calls, oks) && i < |calls|
    ensures Tracks(c, states[i], key, Plain(c, states, calls, key, i), calls[i].now)
    ensures Tracks(c, states[i + 1], key, Plain(c, states, calls, key, i + 1), calls[i].now)
    ensures Valid(c, states[i], calls[i].now) && Valid(c, states[i + 1], calls[i].now)
    ensures KeyOf(calls[i].key) == key && oks[i] ==> Credit(c, Plain(c, states, calls, key, i), calls[i].now) >= 1.0
    ensures oks[i] && KeyOf(calls[i].key) == key ==> key in states[i + 1].buckets
  {
    hide Valid, Credit, Step, Spend, Tracks;
    var v := Plain(c, states, calls, key, i);
    if i == 0 {
      StartTracks(c, key, calls[0].now);
    } else {
      RefinesPlainBucket(c, states, calls, oks, key, i - 1);
      Later(c, states[i], key, v, calls[i - 1].now, calls[i].now);
    }
    StepTracks(c, states[i], calls[i].key, key, v, calls[i].now, calls[i].now);
  }

  lemma StartTracks(c: Limits, key: string, clock: real)
    requires LimitsValid(c)
    ensures Valid(c, EMPTY, clock) && Tracks(c, EMPTY, key, Bucket(Burst(c), clock, clock), clock)
  {
    GainAdds(c, 0.0, 0.0);
  }

  lemma Later(c: Limits, s: State, key: string, v: Bucket, t: real, u: real)
    requires LimitsValid(c) && t <= u && Valid(c, s, t) && Tracks(c, s, key, v, t)
    ensures Valid(c, s, u) && Tracks(c, s, key, v, u)
  {
    RegainedLater(c, s, key, v, t, u);
  }

  lemma {:induction false} Spent(
      c: Limits, states: seq<State>, calls: seq<Call>, oks: seq<bool>, key: string, i: nat, j: nat)
    requires LimitsValid(c) && Suits(c) && Run(c, states, calls, oks) && i < j <= |calls|
    ensures var now := calls[j - 1].now;
      Passed(calls, oks, key, i, j) as real + Credit(c, Plain(c, states, calls, key, j), now)
        <= Credit(c, Plain(c, states, calls, key, i), calls[i].now) + Gain(c, now - calls[i].now)
    decreases j
  {
    hide Credit, Valid, Gain, Step, Tracks, Spend;
    var now, v := calls[j - 1].now, Plain(c, states, calls, key, j - 1);
    RefinesPlainBucket(c, states, calls, oks, key, j - 1);
    OneSpent(c, states[j - 1], key, v, now);
    if j > i + 1 {
      var before := calls[j - 2].now;
      Spent(c, states, calls, oks, key, i, j - 1);
      CreditGrows(c, v, before, now);
      GainAdds(c, before - calls[i].now, now - before);
    } else {
      GainAdds(c, 0.0, 0.0);
      assert Passed(calls, oks, key, i, i) == 0;
    }
  }

  lemma OneSpent(c: Limits, s: State, key: string, v: Bucket, now: real)
    requires LimitsValid(c) && Tracks(c, s, key, v, now)
    ensures Credit(c, Spend(c, v, now), now) == Credit(c, v, now) - if Credit(c, v, now) >= 1.0 then 1.0 else 0.0
  {
    SpendInRange(c, v, now);
  }

  lemma TrackedInRange(c: Limits, s: State, key: string, v: Bucket, now: real)
    requires LimitsValid(c) && Tracks(c, s, key, v, now)
    ensures 0.0 <= Credit(c, v, now) <= Burst(c)
  {
    CreditInRange(c, v, now);
  }

  /** For every key and every stretch of calls, no more get through than the
      burst plus the rate times its length, although buckets are forgotten. */
  lemma RateBound(c: Limits, states: seq<State>, calls: seq<Call>, oks: seq<bool>, key: string, i: nat, j: nat)
    requires LimitsValid(c) && Suits(c) && Run(c, states, calls, oks) && i < j <= |calls|
    ensures Passed(calls, oks, key, i, j) as real <= Burst(c) + Gain(c, calls[j - 1].now - calls[i].now)
    ensures |states[j].buckets| <= c.maxEntries
  {
    hide Gain, Step, Tracks, Credit, Plain, Passed;
    Spent(c, states, calls, oks, key, i, j);
    RefinesPlainBucket(c, states, calls, oks, key, i);
    RefinesPlainBucket(c, states, calls, oks, key, j - 1);
    TrackedInRange(c, states[i], key, Plain(c, states, calls, key, i), calls[i].now);
    TrackedInRange(c, states[j], key, Plain(c, states, calls, key, j), calls[j - 1].now);
  }
}
