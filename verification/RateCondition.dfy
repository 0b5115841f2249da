/** Exactly which limiters keep the rate bound: for every other one, a run that
    exceeds it. */
module RateCondition {
  import opened Optional
  import opened RateLimiter

  ghost function Exec(c: Limits, s: State, calls: seq<Call>): (State, seq<bool>)
    requires LimitsValid(c)
  {
    if calls == [] then (s, [])
    else
      var last := calls[|calls| - 1];
      var before := Exec(c, s, calls[..|calls| - 1]);
      var r := Step(c, before.0, last.key, last.now);
      (r.0, before.1 + [r.1])
  }

  lemma {:induction false} ExecLength(c: Limits, s: State, calls: seq<Call>)
    requires LimitsValid(c)
    ensures |Exec(c, s, calls).1| == |calls|
  {
    if calls != [] { ExecLength(c, s, calls[..|calls| - 1]); }
  }

  lemma ExecOne(c: Limits, s: State, calls: seq<Call>, call: Call)
    requires LimitsValid(c)
    ensures var before := Exec(c, s, calls);
      var r := Step(c, before.0, call.key, call.now);
      Exec(c, s, calls + [call]) == (r.0, before.1 + [r.1])
  {
    assert (calls + [call])[..|calls|] == calls;
  }

  lemma {:induction false} ExecJoins(c: Limits, s: State, xs: seq<Call>, ys: seq<Call>)
    requires LimitsValid(c)
    ensures var x := Exec(c, s, xs); var y := Exec(c, x.0, ys); Exec(c, s, xs + ys) == (y.0, x.1 + y.1)
    decreases |ys|
  {
    hide Step, Exec;
    if ys == [] {
      assert xs + ys == xs;
      ExecNone(c, Exec(c, s, xs).0);
      var oks := Exec(c, s, xs).1;
      assert oks + [] == oks;
    } else {
      var n := |ys| - 1;
      ExecJoins(c, s, xs, ys[..n]);
      assert xs + ys == xs + ys[..n] + [ys[n]] && ys == ys[..n] + [ys[n]];
      ExecOne(c, s, xs + ys[..n], ys[n]);
      ExecOne(c, Exec(c, s, xs).0, ys[..n], ys[n]);
      var x := Exec(c, s, xs);
      var y := Exec(c, x.0, ys[..n]);
      var r := Step(c, y.0, ys[n].key, ys[n].now);
      assert Exec(c, x.0, ys) == (r.0, y.1 + [r.1]);
      assert Exec(c, s, xs + ys) == (r.0, x.1 + y.1 + [r.1]);
      assert x.1 + y.1 + [r.1] == x.1 + (y.1 + [r.1]);
    }
  }

  ghost function Trace(c: Limits, calls: seq<Call>): seq<State>
    requires LimitsValid(c)
  {
    seq(|calls| + 1, i requires 0 <= i <= |calls| => Exec(c, EMPTY, calls[..i]).0)
  }

  lemma ExecAt(c: Limits, calls: seq<Call>, i: nat)
    requires LimitsValid(c) && i < |calls|
    ensures |Exec(c, EMPTY, calls).1| == |calls|
    ensures (Exec(c, EMPTY, calls[..i + 1]).0, Exec(c, EMPTY, calls).1[i]) ==
      Step(c, Exec(c, EMPTY, calls[..i]).0, calls[i].key, calls[i].now)
  {
    hide Step, Exec;
    var xs, ys := calls[..i + 1], calls[i + 1..];
    assert xs == calls[..i] + [calls[i]] && calls == xs + ys;
    ExecOne(c, EMPTY, calls[..i], calls[i]);
    ExecLength(c, EMPTY, calls[..i]);
    ExecLength(c, EMPTY, xs);
    ExecLength(c, EMPTY, calls);
    ExecJoins(c, EMPTY, xs, ys);
  }

  lemma ExecIsSteps(c: Limits, calls: seq<Call>)
    requires LimitsValid(c)
    ensures Steps(c, Trace(c, calls), calls, Exec(c, EMPTY, calls).1)
  {
    hide Step;
    var states, oks := Trace(c, calls), Exec(c, EMPTY, calls).1;
    ExecLength(c, EMPTY, calls);
    assert states[0] == EMPTY;
    hide Exec;
    forall i | 0 <= i < |calls|
      ensures (states[i + 1], oks[i]) == Step(c, states[i], calls[i].key, calls[i].now)
    {
      ExecAt(c, calls, i);
    }
  }

  function Repeated(key: string, now: real, n: nat): (calls: seq<Call>)
    ensures |calls| == n && forall i :: 0 <= i < n ==> calls[i] == Call(key, now)
  {
    if n == 0 then [] else Repeated(key, now, n - 1) + [Call(key, now)]
  }

  function AllOk(n: nat): (oks: seq<bool>)
    ensures |oks| == n && forall i :: 0 <= i < n ==> oks[i]
  {
    if n == 0 then [] else AllOk(n - 1) + [true]
  }

  lemma NewKeySpends(c: Limits, s: State, key: string, now: real)
    requires LimitsValid(c) && key != "" && key !in s.buckets
    ensures var b := Bucket(Burst(c) - 1.0, now, now);
      && (|s.buckets| < c.maxEntries ==> Step(c, s, key, now) == (s.(buckets := s.buckets[key := b]), true))
      && (|s.buckets| >= c.maxEntries && (s.nextPrune.Some? ==> s.nextPrune.value <= now) && AllIdle(c, s, now) ==>
            Step(c, s, key, now) == (State(map[key := b], Some(now + c.window)), true))
  {
    if AllIdle(c, s, now) { assert Busy(s.buckets, c, now) == map[]; }
  }

  ghost predicate AllIdle(c: Limits, s: State, now: real)
  {
    forall k :: k in s.buckets ==> Idle(s.buckets[k], c, now)
  }

  function Left(s: State, key: string, tokens: real, now: real): State
  {
    s.(buckets := s.buckets[key := Bucket(tokens, now, now)])
  }

  lemma OneSpends(c: Limits, s: State, key: string, now: real, tokens: real)
    requires LimitsValid(c) && key != "" && tokens >= 1.0
    ensures Step(c, Left(s, key, tokens, now), key, now) == (Left(s, key, tokens - 1.0, now), true)
  {
    var left, spent := Bucket(tokens, now, now), Bucket(tokens - 1.0, now, now);
    assert s.buckets[key := left][key := spent] == s.buckets[key := spent];
  }

  /** If a first call gets a fresh bucket, the whole burst gets through. */
  lemma {:induction false} BurstPasses(c: Limits, s: State, t: State, key: string, now: real, n: nat)
    requires LimitsValid(c) && key != "" && Step(c, s, key, now) == (t, true) && 1 <= n <= c.burst
    requires key in t.buckets && t.buckets[key] == Bucket(Burst(c) - 1.0, now, now)
    ensures Exec(c, s, Repeated(key, now, n)) == (Left(t, key, (c.burst - n) as real, now), AllOk(n))
  {
    hide Step, Exec, Left;
    ExecOne(c, s, Repeated(key, now, n - 1), Call(key, now));
    if n == 1 {
      ExecNone(c, s);
      SameLeft(t, key);
    } else {
      BurstPasses(c, s, t, key, now, n - 1);
      var left := (c.burst - n + 1) as real;
      assert left - 1.0 == (c.burst - n) as real;
      OneSpends(c, t, key, now, left);
    }
  }

  lemma ExecNone(c: Limits, s: State)
    requires LimitsValid(c)
    ensures Exec(c, s, []) == (s, [])
  {
  }

  lemma SameLeft(t: State, key: string)
    requires key in t.buckets && t.buckets[key].updated == t.buckets[key].lastSeen
    ensures Left(t, key, t.buckets[key].tokens, t.buckets[key].updated) == t
  {
    assert t.buckets[key := t.buckets[key]] == t.buckets;
  }

  function Filler(n: nat): string { seq(n + 2, _ => 'x') }

  function Fillers(n: nat): (calls: seq<Call>)
    ensures |calls| == n && forall i :: 0 <= i < n ==> calls[i].now == 0.0
  {
    if n == 0 then [] else Fillers(n - 1) + [Call(Filler(n - 1), 0.0)]
  }

  /** A table with `n` fillers beside one other key, all of time 0. */
  ghost predicate Filled(s: State, n: nat)
  {
    && s.nextPrune.None? && |s.buckets| == n + 1
    && forall k :: k in s.buckets ==> s.buckets[k].lastSeen == 0.0 && |k| <= n + 1 && k != "b"
  }

  /** Fresh keys fill the table. */
  lemma {:induction false} FillersFill(c: Limits, s: State, n: nat)
    requires LimitsValid(c) && Filled(s, 0) && n + 1 <= c.maxEntries
    ensures Filled(Exec(c, s, Fillers(n)).0, n)
  {
    if n > 0 {
      hide Exec, Step, Filled;
      FillersFill(c, s, n - 1);
      ExecOne(c, s, Fillers(n - 1), Call(Filler(n - 1), 0.0));
      FillerFills(c, Exec(c, s, Fillers(n - 1)).0, n);
    }
  }

  lemma FillerFills(c: Limits, t: State, n: nat)
    requires LimitsValid(c) && n >= 1 && Filled(t, n - 1) && n < c.maxEntries
    ensures Filled(Step(c, t, Filler(n - 1), 0.0).0, n)
  {
    FilledMore(c, t, n);
    hide Step, Filler;
    NewKeySpends(c, t, Filler(n - 1), 0.0);
  }

  lemma FilledMore(c: Limits, t: State, n: nat)
    requires n >= 1 && Filled(t, n - 1)
    ensures Filler(n - 1) !in t.buckets
    ensures Filler(n - 1) != ""
    ensures forall b: Bucket :: b.lastSeen == 0.0 ==> Filled(t.(buckets := t.buckets[Filler(n - 1) := b]), n)
  {
    assert |Filler(n - 1)| == n + 1 >= 2;
    forall b: Bucket | b.lastSeen == 0.0 ensures Filled(t.(buckets := t.buckets[Filler(n - 1) := b]), n) {
      OneKeyMore(t.buckets, Filler(n - 1), b);
    }
  }

  lemma OneKeyMore(m: map<string, Bucket>, k: string, b: Bucket)
    requires k !in m
    ensures |m[k := b]| == |m| + 1
  {
    assert m[k := b].Keys == m.Keys + {k};
    assert |m[k := b].Keys| == |m[k := b]| && |m.Keys| == |m|;
  }

  lemma {:induction false} PassedSplits(calls: seq<Call>, oks: seq<bool>, key: string, i: nat, m: nat, j: nat)
    requires i <= m <= j <= |calls| == |oks|
    ensures Passed(calls, oks, key, i, j) == Passed(calls, oks, key, i, m) + Passed(calls, oks, key, m, j)
    decreases j
  {
    if m < j { PassedSplits(calls, oks, key, i, m, j - 1); }
  }

  lemma {:induction false} AllPassed(calls: seq<Call>, oks: seq<bool>, key: string, i: nat, j: nat)
    requires i <= j <= |calls| == |oks| && key != ""
    requires forall x :: i <= x < j ==> oks[x] && calls[x].key == key
    ensures Passed(calls, oks, key, i, j) == j - i
    decreases j
  {
    if i < j { AllPassed(calls, oks, key, i, j - 1); }
  }

  /** Two bursts with anything in between: both are counted. */
  lemma BothCount(mid: seq<Call>, oks: seq<bool>, now: real, n: nat)
    requires |oks| == |mid|
    ensures var calls := Repeated("a", 0.0, n) + mid + Repeated("a", now, n);
      Passed(calls, AllOk(n) + oks + AllOk(n), "a", 0, |calls|) >= 2 * n
  {
    hide Repeated, AllOk;
    var calls, all := Repeated("a", 0.0, n) + mid + Repeated("a", now, n), AllOk(n) + oks + AllOk(n);
    AllPassed(calls, all, "a", 0, n);
    AllPassed(calls, all, "a", n + |mid|, |calls|);
    PassedSplits(calls, all, "a", 0, n, |calls|);
    PassedSplits(calls, all, "a", n, n + |mid|, |calls|);
  }

  lemma TwoBursts(c: Limits, mid: seq<Call>, now: real)
    requires LimitsValid(c)
    requires var first := Exec(c, EMPTY, Repeated("a", 0.0, c.burst));
      && first.1 == AllOk(c.burst)
      && Exec(c, Exec(c, first.0, mid).0, Repeated("a", now, c.burst)).1 == AllOk(c.burst)
    ensures var calls := Repeated("a", 0.0, c.burst) + mid + Repeated("a", now, c.burst);
      var oks := Exec(c, EMPTY, calls).1;
      |oks| == |calls| && Passed(calls, oks, "a", 0, |calls|) >= 2 * c.burst
  {
    hide Step, Exec, Passed, Repeated, AllOk;
    var xs, ys := Repeated("a", 0.0, c.burst), Repeated("a", now, c.burst);
    ExecJoins(c, EMPTY, xs, mid);
    ExecJoins(c, EMPTY, xs + mid, ys);
    var oks := Exec(c, Exec(c, EMPTY, xs).0, mid).1;
    ExecLength(c, Exec(c, EMPTY, xs).0, mid);
    BothCount(mid, oks, now, c.burst);
  }

  /** A little longer than a window: the refill stays below the next token. */
  function Margin(c: Limits): real
    requires LimitsValid(c)
  {
    c.window / (4 * c.limit) as real
  }

  lemma MarginIsSmall(c: Limits)
    requires LimitsValid(c)
    ensures Margin(c) > 0.0 && Gain(c, Margin(c)) == 0.25
  {
    var l := c.limit as real;
    assert (4 * c.limit) as real == 4.0 * l;
    assert c.window / (4.0 * l) * (l / c.window) == 0.25;
  }

  ghost predicate Exceeds(c: Limits, calls: seq<Call>, oks: seq<bool>, key: string, i: nat, j: nat)
    requires LimitsValid(c) && i < j <= |calls| == |oks|
  {
    Passed(calls, oks, key, i, j) as real > Burst(c) + Gain(c, calls[j - 1].now - calls[i].now)
  }

  /** A new key that finds room gets its burst through. */
  lemma FreshBurst(c: Limits, s: State, key: string, now: real)
    requires LimitsValid(c) && key != "" && key !in s.buckets && |s.buckets| < c.maxEntries
    ensures Exec(c, s, Repeated(key, now, c.burst)) == (Left(s, key, 0.0, now), AllOk(c.burst))
  {
    hide Step;
    var b := Bucket(Burst(c) - 1.0, now, now);
    NewKeySpends(c, s, key, now);
    BurstPasses(c, s, s.(buckets := s.buckets[key := b]), key, now, c.burst);
    assert s.buckets[key := b][key := Bucket(0.0, now, now)] == s.buckets[key := Bucket(0.0, now, now)];
  }

  /** With one entry: "b" takes the place of "a", and "a" that of "b". */
  lemma ReturnsToOneEntry(c: Limits)
    requires LimitsValid(c) && c.maxEntries == 1
    ensures var t := c.window + Margin(c);
      var s := Exec(c, State(map["a" := Bucket(0.0, 0.0, 0.0)], None), [Call("b", t)]).0;
      Exec(c, s, Repeated("a", 2.0 * t, c.burst)).1 == AllOk(c.burst)
  {
    hide Step, Gain;
    MarginIsSmall(c);
    var t := c.window + Margin(c);
    var s0 := State(map["a" := Bucket(0.0, 0.0, 0.0)], None);
    var s1 := State(map["b" := Bucket(Burst(c) - 1.0, t, t)], Some(t + c.window));
    var s2 := State(map["a" := Bucket(Burst(c) - 1.0, 2.0 * t, 2.0 * t)], Some(2.0 * t + c.window));
    HasEntry(s0.buckets, "a");
    HasEntry(s1.buckets, "b");
    NewKeySpends(c, s0, "b", t);
    NewKeySpends(c, s1, "a", 2.0 * t);
    ExecOne(c, s0, [], Call("b", t));
    assert [] + [Call("b", t)] == [Call("b", t)];
    BurstPasses(c, s1, s2, "a", 2.0 * t, c.burst);
  }

  /** "b" finds all entries idle, and leaves room for "a". */
  lemma ReturnsFrom(c: Limits, s: State, t: real)
    requires LimitsValid(c) && c.maxEntries >= 2 && Filled(s, c.maxEntries - 1) && t > c.window
    ensures Exec(c, Step(c, s, "b", t).0, Repeated("a", t, c.burst)).1 == AllOk(c.burst)
  {
    hide Step, Gain, Exec;
    var b := Bucket(Burst(c) - 1.0, t, t);
    var s2 := State(map["b" := b], Some(t + c.window));
    assert AllIdle(c, s, t);
    NewKeySpends(c, s, "b", t);
    OneKeyMore(map[], "b", b);
    assert s2.buckets == map[]["b" := b];
    NewKeySpends(c, s2, "a", t);
    BurstPasses(c, s2, s2.(buckets := s2.buckets["a" := b]), "a", t, c.burst);
  }

  lemma OneIsFilled()
    ensures Filled(State(map["a" := Bucket(0.0, 0.0, 0.0)], None), 0)
  {
    OneKeyMore(map[], "a", Bucket(0.0, 0.0, 0.0));
    assert map["a" := Bucket(0.0, 0.0, 0.0)] == map[]["a" := Bucket(0.0, 0.0, 0.0)];
  }

  lemma ReturnsToRoom(c: Limits)
    requires LimitsValid(c) && c.maxEntries >= 2
    ensures var t := c.window + Margin(c);
      var s := Exec(c, State(map["a" := Bucket(0.0, 0.0, 0.0)], None), Fillers(c.maxEntries - 1) + [Call("b", t)]).0;
      Exec(c, s, Repeated("a", t, c.burst)).1 == AllOk(c.burst)
  {
    hide Step, Gain, Fillers, Exec, Filled, Margin;
    MarginIsSmall(c);
    var t := c.window + Margin(c);
    var s := State(map["a" := Bucket(0.0, 0.0, 0.0)], None);
    OneIsFilled();
    FillersFill(c, s, c.maxEntries - 1);
    ExecOne(c, s, Fillers(c.maxEntries - 1), Call("b", t));
    ReturnsFrom(c, Exec(c, s, Fillers(c.maxEntries - 1)).0, t);
  }

  /** What lies between the two bursts, and when the second comes. */
  function Between(c: Limits): seq<Call>
    requires LimitsValid(c)
  {
    Fillers(c.maxEntries - 1) + [Call("b", c.window + Margin(c))]
  }

  function SecondBurst(c: Limits): real
    requires LimitsValid(c)
  {
    if c.maxEntries == 1 then 2.0 * (c.window + Margin(c)) else c.window + Margin(c)
  }

  function Doubled(c: Limits): seq<Call>
    requires LimitsValid(c)
  {
    Repeated("a", 0.0, c.burst) + Between(c) + Repeated("a", SecondBurst(c), c.burst)
  }

  lemma DoubledInOrder(c: Limits)
    requires LimitsValid(c)
    ensures InOrder(Doubled(c)) && |Doubled(c)| > 0 && Doubled(c)[0].now == 0.0 &&
      Doubled(c)[|Doubled(c)| - 1].now == SecondBurst(c)
  {
    hide Gain;
    MarginIsSmall(c);
    var calls, n := Doubled(c), c.burst + c.maxEntries - 1;
    forall i | 0 <= i < |calls| ensures calls[i].now ==
      if i < n then 0.0 else if i == n then c.window + Margin(c) else SecondBurst(c)
    {
    }
  }

  /** A burst that does not suit the table: one key gets two bursts through in a
      time that refills less than one. */
  lemma LargeBurstBreaksTheBound(c: Limits)
    requires LimitsValid(c) && !Suits(c)
    ensures var calls, oks := Doubled(c), Exec(c, EMPTY, Doubled(c)).1;
      && Run(c, Trace(c, calls), calls, oks) && 0 < |calls| == |oks|
      && Exceeds(c, calls, oks, "a", 0, |calls|)
  {
    hide Step, Exec, Gain, Fillers, Repeated;
    DoubledInOrder(c);
    ExecIsSteps(c, Doubled(c));
    FreshBurst(c, EMPTY, "a", 0.0);
    assert Left(EMPTY, "a", 0.0, 0.0) == State(map["a" := Bucket(0.0, 0.0, 0.0)], None) by { OnlyA(); }
    if c.maxEntries == 1 {
      assert Between(c) == [Call("b", c.window + Margin(c))] by { NoFillers(); }
      ReturnsToOneEntry(c);
    } else {
      ReturnsToRoom(c);
    }
    TwoBursts(c, Between(c), SecondBurst(c));
    MarginIsSmall(c);
    GainAdds(c, c.window, Margin(c));
    GainAdds(c, c.window + Margin(c), c.window + Margin(c));
  }

  lemma OnlyA()
    ensures Left(EMPTY, "a", 0.0, 0.0) == State(map["a" := Bucket(0.0, 0.0, 0.0)], None)
  {
    assert map[]["a" := Bucket(0.0, 0.0, 0.0)] == map["a" := Bucket(0.0, 0.0, 0.0)];
  }

  lemma NoFillers()
    ensures Fillers(0) == []
  {
  }

  /** The bound holds for every key and every stretch of every run. */
  ghost predicate Bounded(c: Limits)
    requires LimitsValid(c)
  {
    forall states, calls, oks, key, i: nat, j: nat :: Run(c, states, calls, oks) && i < j <= |calls| ==>
      !Exceeds(c, calls, oks, key, i, j)
  }

  /** Exactly the limiters whose burst suits their table keep the rate bound. */
  lemma BoundedIffSuits(c: Limits)
    requires LimitsValid(c)
    ensures Bounded(c) <==> Suits(c)
  {
    hide Step, Exec, Gain, Doubled, Suits;
    if Suits(c) {
      forall states, calls, oks, key, i: nat, j: nat | Run(c, states, calls, oks) && i < j <= |calls|
        ensures |oks| == |calls| && !Exceeds(c, calls, oks, key, i, j)
      {
        RateBound(c, states, calls, oks, key, i, j);
      }
    } else {
      LargeBurstBreaksTheBound(c);
    }
  }

  // ---- Why the bound needs calls in order ----

  const EVEN: Limits := Limits(1, 1.0, 1, 2)

  /** The third call read the clock before the second and comes after it. */
  const LATE: seq<Call> :=
    [Call("x", 9.0), Call("a", 10.0), Call("a", 9.9), Call("y", 10.95), Call("a", 10.95)]

  function Emptied(now: real, seen: real): Bucket { Bucket(0.0, now, seen) }

  lemma FirstTwo()
    ensures Step(EVEN, EMPTY, "x", 9.0) == (State(map["x" := Emptied(9.0, 9.0)], None), true)
    ensures Step(EVEN, State(map["x" := Emptied(9.0, 9.0)], None), "a", 10.0) ==
      (State(map["x" := Emptied(9.0, 9.0), "a" := Emptied(10.0, 10.0)], None), true)
  {
    hide Step;
    NewKeySpends(EVEN, EMPTY, "x", 9.0);
    var m := map["x" := Emptied(9.0, 9.0)];
    OneKeyMore(map[], "x", Emptied(9.0, 9.0));
    assert map[]["x" := Emptied(9.0, 9.0)] == m;
    NewKeySpends(EVEN, State(m, None), "a", 10.0);
    assert m["a" := Emptied(10.0, 10.0)] == map["x" := Emptied(9.0, 9.0), "a" := Emptied(10.0, 10.0)];
  }

  /** The late call is refused, but turns back the time at which "a" was seen. */
  lemma LateCall()
    ensures Step(EVEN, State(map["x" := Emptied(9.0, 9.0), "a" := Emptied(10.0, 10.0)], None), "a", 9.9) ==
      (State(map["x" := Emptied(9.0, 9.0), "a" := Emptied(10.0, 9.9)], None), false)
  {
    var m := map["x" := Emptied(9.0, 9.0), "a" := Emptied(10.0, 10.0)];
    assert m["a" := Emptied(10.0, 9.9)] == map["x" := Emptied(9.0, 9.0), "a" := Emptied(10.0, 9.9)];
  }

  lemma LastTwo()
    ensures var b := Emptied(10.95, 10.95);
      var s := State(map["y" := b], Some(11.95));
      && Step(EVEN, State(map["x" := Emptied(9.0, 9.0), "a" := Emptied(10.0, 9.9)], None), "y", 10.95) == (s, true)
      && Step(EVEN, s, "a", 10.95) == (s.(buckets := s.buckets["a" := b]), true)
  {
    hide Step;
    var m := map["x" := Emptied(9.0, 9.0), "a" := Emptied(10.0, 9.9)];
    OneKeyMore(map[], "x", Emptied(9.0, 9.0));
    OneKeyMore(map["x" := Emptied(9.0, 9.0)], "a", Emptied(10.0, 9.9));
    assert map[]["x" := Emptied(9.0, 9.0)] == map["x" := Emptied(9.0, 9.0)];
    assert map["x" := Emptied(9.0, 9.0)]["a" := Emptied(10.0, 9.9)] == m;
    assert AllIdle(EVEN, State(m, None), 10.95);
    NewKeySpends(EVEN, State(m, None), "y", 10.95);
    OneKeyMore(map[], "y", Emptied(10.95, 10.95));
    assert map[]["y" := Emptied(10.95, 10.95)] == map["y" := Emptied(10.95, 10.95)];
    NewKeySpends(EVEN, State(map["y" := Emptied(10.95, 10.95)], Some(11.95)), "a", 10.95);
  }

  /** A limiter whose burst suits its table, and calls out of order: the bound is
      exceeded, because a late call makes the table forget a key too early. */
  lemma LateCallBreaksTheBound() returns (states: seq<State>, oks: seq<bool>)
    ensures Suits(EVEN) && Steps(EVEN, states, LATE, oks) && !InOrder(LATE)
    ensures Exceeds(EVEN, LATE, oks, "a", 1, 5)
  {
    FirstTwo();
    LateCall();
    LastTwo();
    assert !InOrder(LATE) by { assert LATE[1].now > LATE[2].now; }
    assert Gain(EVEN, 10.95 - 10.0) == 0.95;
    hide Step, Gain;
    var x, b := Emptied(9.0, 9.0), Emptied(10.95, 10.95);
    var last := State(map["y" := b], Some(11.95));
    states := [EMPTY, State(map["x" := x], None), State(map["x" := x, "a" := Emptied(10.0, 10.0)], None),
      State(map["x" := x, "a" := Emptied(10.0, 9.9)], None), last, last.(buckets := last.buckets["a" := b])];
    oks := [true, true, false, true, true];
    TwoPassed(oks);
  }

  lemma TwoPassed(oks: seq<bool>)
    requires oks == [true, true, false, true, true]
    ensures Passed(LATE, oks, "a", 1, 5) == 2
  {
    assert Passed(LATE, oks, "a", 1, 3) == 1;
  }
}
