/** The supervisor of one bulk tunnel lane, which replaces its serving attempt
    from time to time without cutting off work on the old one. */
module LaneSupervisor {
  /** Where the supervisor stands: waiting for the first attempt, serving it for
      good, serving until the timer fires, waiting for a replacement, draining
      the predecessor, or joining what is left before it returns. */
  datatype Phase = Connecting | Steady | Serving | Replacing | Draining | Joining | Returned

  /** Attempts are numbered in the order they are started.  `other` is the
      replacement while one is awaited and the predecessor while one drains. */
  datatype State = State(
    phase: Phase,
    attempts: seq<nat>,
    current: nat,
    other: nat,
    lane: int,
    interval: nat,
    servingEnded: bool,
    started: nat,
    succeeds: map<nat, int>,
    fenced: set<nat>,
    done: set<nat>,
    cancelled: set<nat>,
    drained: set<nat>,
    ctxEnded: bool)

  const FIRST := State(Connecting, [0], 0, 0, 0, 0, false, 1, map[], {}, {}, {}, {}, false)

  /** Things that happen to the supervisor, and the select cases it can take. */
  datatype Event =
    | Reports(attempt: nat)
    | ContextEnds
    | SeesContext
    | CurrentReady(lane: int, interval: nat)
    | CurrentDone
    | TimerFires
    | NextReady(lane: int, interval: nat)
    | NextDone
    | OldDone
    | ServingDone
    | Ticks(ownersDrained: bool)
    | Joins

  predicate Enabled(s: State, e: Event)
  {
    match e
    case Reports(k) => k < s.started
    case ContextEnds => true
    case SeesContext => s.ctxEnded && s.phase != Joining && s.phase != Returned
    case CurrentReady(_, _) => s.phase == Connecting
    case CurrentDone => (s.phase == Connecting || s.phase == Steady || s.phase == Serving) && s.current in s.done
    case TimerFires => s.phase == Serving
    case NextReady(_, _) => s.phase == Replacing
    case NextDone => s.phase == Replacing && s.other in s.done
    case OldDone => s.phase == Draining && s.other in s.done
    case ServingDone => s.phase == Draining && !s.servingEnded && s.current in s.done
    case Ticks(_) => s.phase == Draining
    case Joins => s.phase == Joining && s.attempts != [] && s.attempts[0] in s.done
  }

  // ---- Steps on values ----

  /** The attempts without the first occurrence of `k`. */
  function Without(attempts: seq<nat>, k: nat): seq<nat>
  {
    if attempts == [] then [] else if attempts[0] == k then attempts[1..] else [attempts[0]] + Without(attempts[1..], k)
  }

  function Forget(s: State, k: nat): State
  {
    if k in s.attempts then s.(attempts := Without(s.attempts, k), cancelled := s.cancelled + {k}) else s
  }

  /** Returning joins every attempt that is left, one at a time. */
  function Leave(s: State): State
  {
    if s.attempts == [] then s.(phase := Returned) else s.(phase := Joining, cancelled := s.cancelled + {s.attempts[0]})
  }

  function Step(s: State, e: Event): State
    requires Enabled(s, e)
  {
    match e
    case Reports(k) => s.(done := s.done + {k})
    case ContextEnds => s.(ctxEnded := true)
    case SeesContext => Leave(s)
    case CurrentReady(lane, interval) =>
      s.(lane := lane, interval := interval, phase := if interval == 0 then Steady else Serving)
    case CurrentDone => Leave(Forget(s, s.current))
    case TimerFires =>
      s.(phase := Replacing, other := s.started, attempts := s.attempts + [s.started], started := s.started + 1,
         succeeds := s.succeeds[s.started := s.lane])
    case NextReady(lane, interval) =>
      s.(phase := Draining, current := s.other, other := s.current, lane := lane, interval := interval,
        servingEnded := false,
         fenced := s.fenced + {s.current})
    case NextDone => Forget(s, s.other).(phase := Serving)
    case OldDone =>
      var t := Forget(s, s.other);
      if s.servingEnded then Leave(t) else t.(phase := Serving)
    case ServingDone => Forget(s, s.current).(servingEnded := true)
    case Ticks(ownersDrained) =>
      if ownersDrained then s.(cancelled := s.cancelled + {s.other}, drained := s.drained + {s.other}) else s
    case Joins =>
      var rest := s.attempts[1..];
      s.(attempts := rest, phase := if rest == [] then Returned else Joining,
         cancelled := if rest == [] then s.cancelled else s.cancelled + {rest[0]})
  }

  // ---- The supervisor ----

  /** The function's variables, changed as the selects are taken. */
  class Supervisor {
    var phase: Phase
    var attempts: seq<nat>
    var current: nat
    var other: nat
    var lane: int
    var interval: nat
    var servingEnded: bool
    var started: nat
    var succeeds: map<nat, int>
    var fenced: set<nat>
    var done: set<nat>
    var cancelled: set<nat>
    var drained: set<nat>
    var ctxEnded: bool

    function View(): State
      reads this
    {
      State(phase, attempts, current, other, lane, interval, servingEnded, started, succeeds, fenced, done, cancelled,
        drained, ctxEnded)
    }

    constructor ()
      ensures View() == FIRST
    {
      phase, attempts, current, other := Connecting, [0], 0, 0;
      lane, interval, servingEnded, started := 0, 0, false, 1;
      succeeds, fenced, done, cancelled, drained, ctxEnded := map[], {}, {}, {}, {}, false;
    }

    method StartAttempt() returns (k: nat)
      modifies this`attempts, this`started, this`succeeds
      ensures k == old(started) && started == k + 1 && attempts == old(attempts) + [k] &&
        succeeds == old(succeeds)[k := lane]
    {
      k := started;
      succeeds := succeeds[k := lane];
      attempts := attempts + [k];
      started := started + 1;
    }

    /** Finds the attempt, cancels it and closes the gap. */
    method ForgetAttempt(k: nat)
      modifies this`attempts, this`cancelled
      ensures View() == Forget(old(View()), k)
    {
      var i := 0;
      while i < |attempts|
        invariant 0 <= i <= |attempts| && attempts == old(attempts) && cancelled == old(cancelled)
        invariant k !in attempts[..i]
      {
        if attempts[i] == k {
          cancelled := cancelled + {k};
          WithoutAt(attempts, k, i);
          attempts := attempts[..i] + attempts[i + 1..];
          return;
        }
        i := i + 1;
      }
      assert attempts[..|attempts|] == attempts;
    }

    method LeaveLoop()
      modifies this`phase, this`cancelled
      ensures View() == Leave(old(View()))
    {
      if |attempts| == 0 {
        phase := Returned;
      } else {
        phase := Joining;
        cancelled := cancelled + {attempts[0]};
      }
    }

    /** An attempt ends, or the context does. */
    method HandleEnd(e: Event)
      requires Enabled(View(), e) &&
        (e.SeesContext? || e.CurrentDone? || e.NextDone? || e.OldDone? || e.ServingDone? || e.Joins?)
      modifies this`phase, this`attempts, this`cancelled, this`servingEnded
      ensures View() == Step(old(View()), e)
    {
      hide Without;
      match e {
        case SeesContext => LeaveLoop();
        case CurrentDone =>
          ForgetAttempt(current);
          LeaveLoop();
        case NextDone =>
          ForgetAttempt(other);
          phase := Serving;
        case OldDone =>
          ForgetAttempt(other);
          if servingEnded {
            LeaveLoop();
          } else {
            phase := Serving;
          }
        case ServingDone =>
          ForgetAttempt(current);
          servingEnded := true;
        case Joins =>
          attempts := attempts[1..];
          if |attempts| == 0 {
            phase := Returned;
          } else {
            cancelled := cancelled + {attempts[0]};
          }
      }
    }

    /** An attempt is ready to serve. */
    method HandleReady(e: Event)
      requires Enabled(View(), e) && (e.CurrentReady? || e.NextReady?)
      modifies this`phase, this`current, this`other, this`lane, this`interval, this`fenced, this`servingEnded
      ensures View() == Step(old(View()), e)
    {
      lane, interval := e.lane, e.interval;
      if e.CurrentReady? {
        phase := if e.interval == 0 then Steady else Serving;
        return;
      }
      current, other := other, current;
      fenced := fenced + {other};
      servingEnded := false;
      phase := Draining;
    }

    /** A timer fires: for a replacement, or to look at the draining lane. */
    method HandleTimer(e: Event)
      requires Enabled(View(), e) && (e.TimerFires? || e.Ticks?)
      modifies this`phase, this`attempts, this`other, this`started, this`succeeds, this`cancelled, this`drained
      ensures View() == Step(old(View()), e)
    {
      if e.TimerFires? {
        other := StartAttempt();
        phase := Replacing;
      } else if e.ownersDrained {
        cancelled := cancelled + {other};
        drained := drained + {other};
      }
    }

    method Handle(e: Event)
      requires Enabled(View(), e)
      modifies this
      ensures View() == Step(old(View()), e)
    {
      if e.Reports? {
        done := done + {e.attempt};
      } else if e.ContextEnds? {
        ctxEnded := true;
      } else {
        hide Step, Enabled;
        if e.CurrentReady? || e.NextReady? {
          HandleReady(e);
        } else if e.TimerFires? || e.Ticks? {
          HandleTimer(e);
        } else {
          HandleEnd(e);
        }
      }
    }
  }

  lemma {:induction false} WithoutAt(attempts: seq<nat>, k: nat, i: nat)
    requires i < |attempts| && attempts[i] == k && k !in attempts[..i]
    ensures Without(attempts, k) == attempts[..i] + attempts[i + 1..]
  {
    if i > 0 {
      assert attempts[0] == attempts[..i][0];
      assert attempts[1..][..i - 1] == attempts[..i][1..];
      WithoutAt(attempts[1..], k, i - 1);
    }
  }

  // ---- What holds in every reachable state ----

  /** Which attempts are kept in each phase, in order. */
  ghost predicate ShapeOk(s: State)
  {
    match s.phase
    case Connecting => s.attempts == [s.current]
    case Steady => s.attempts == [s.current]
    case Serving => s.attempts == [s.current]
    case Replacing => s.attempts == [s.current, s.other] && s.current != s.other && s.other in s.succeeds &&
      s.succeeds[s.other] == s.lane
    case Draining => s.current != s.other && s.other in s.fenced &&
      s.attempts == if s.servingEnded then [s.other] else [s.other, s.current]
    case Joining => 1 <= |s.attempts| <= 2 && s.ctxEnded
    case Returned => s.attempts == []
  }

  ghost predicate Sound(s: State)
  {
    && ShapeOk(s)
    && (forall k :: k in s.attempts ==> k < s.started)
    && (forall k :: k in s.drained ==> k in s.fenced && k < s.started)
    && (forall k :: k in s.fenced ==> k < s.started)
    && (s.phase != Joining && s.phase != Returned ==> s.current < s.started && s.current !in s.fenced)
    && (s.phase == Replacing ==> s.other !in s.fenced)
    // every attempt that was started is kept or has reported done
    && (forall k: nat :: k < s.started && k !in s.attempts ==> k in s.done)
    // why an attempt may be cancelled
    && (forall k :: k in s.cancelled ==> k in s.done || k in s.drained || s.ctxEnded)
  }

  lemma ForgetOne(a: nat)
    ensures Without([a], a) == []
  {
  }

  lemma ForgetPair(a: nat, b: nat)
    requires a != b
    ensures Without([a, b], a) == [b] && Without([a, b], b) == [a]
  {
    assert [a, b][1..] == [b] && [b][1..] == [];
  }

  lemma FirstSound()
    ensures Sound(FIRST)
  {
    assert 0 in FIRST.attempts;
  }

  lemma JoinSound(s: State)
    requires Sound(s) && Enabled(s, Joins)
    ensures Sound(Step(s, Joins))
  {
    var head, rest := s.attempts[0], s.attempts[1..];
    forall k ensures k in s.attempts <==> k == head || k in rest { assert s.attempts == [head] + rest; }
  }

  lemma StartSound(s: State)
    requires Sound(s) && Enabled(s, TimerFires)
    ensures Sound(Step(s, TimerFires))
  {
    var t := Step(s, TimerFires);
    assert t.attempts == [s.current, s.started];
    forall k: nat | k < t.started && k !in t.attempts ensures k in t.done { assert t.attempts[1] == s.started; }
  }

  lemma SwapSound(s: State, lane: int, interval: nat)
    requires Sound(s) && Enabled(s, NextReady(lane, interval))
    ensures Sound(Step(s, NextReady(lane, interval)))
  {
    assert s.attempts[1] in s.attempts;
  }

  lemma ReplacementEndSound(s: State)
    requires Sound(s) && Enabled(s, NextDone)
    ensures Sound(Step(s, NextDone))
  {
    hide Without;
    ForgetPair(s.current, s.other);
  }

  lemma PredecessorEndSound(s: State)
    requires Sound(s) && Enabled(s, OldDone)
    ensures Sound(Step(s, OldDone))
  {
    hide Without;
    ForgetOne(s.other);
    ForgetPair(s.other, s.current);
  }

  lemma ServingEndSound(s: State)
    requires Sound(s)
    ensures Enabled(s, ServingDone) ==> Sound(Step(s, ServingDone))
    ensures Enabled(s, CurrentDone) ==> Sound(Step(s, CurrentDone))
  {
    hide Without;
    ForgetOne(s.current);
    if s.phase == Draining { ForgetPair(s.other, s.current); }
  }

  lemma ContextSound(s: State)
    requires Sound(s) && Enabled(s, SeesContext)
    ensures Sound(Step(s, SeesContext))
  {
  }

  lemma PlainSound(s: State, e: Event)
    requires Sound(s) && Enabled(s, e) && (e.Reports? || e.ContextEnds? || e.CurrentReady? || e.Ticks?)
    ensures Sound(Step(s, e))
  {
    if e.Ticks? { assert s.attempts[0] in s.attempts; }
  }

  lemma StepSound(s: State, e: Event)
    requires Sound(s) && Enabled(s, e)
    ensures Sound(Step(s, e))
  {
    hide Sound, Enabled, Step;
    match e {
      case Joins => JoinSound(s);
      case TimerFires => StartSound(s);
      case NextReady(lane, interval) => SwapSound(s, lane, interval);
      case NextDone => ReplacementEndSound(s);
      case OldDone => PredecessorEndSound(s);
      case ServingDone => ServingEndSound(s);
      case CurrentDone => ServingEndSound(s);
      case SeesContext => ContextSound(s);
      case _ => PlainSound(s, e);
    }
  }

  ghost predicate Run(states: seq<State>, events: seq<Event>)
  {
    && |states| == |events| + 1 && states[0] == FIRST
    && forall i :: 0 <= i < |events| ==> Enabled(states[i], events[i]) && states[i + 1] == Step(states[i], events[i])
  }

  /** In every order of events: at most two attempts are kept; an attempt still
      at work is cancelled only if its owners were drained or the context ended;
      and the supervisor has returned only when every attempt reported done. */
  lemma {:induction false} EveryRunIsSound(states: seq<State>, events: seq<Event>, k: nat)
    requires Run(states, events) && k <= |events|
    ensures Sound(states[k]) && |states[k].attempts| <= 2
    ensures forall a :: a in states[k].cancelled && a !in states[k].done ==>
      a in states[k].drained || states[k].ctxEnded
    ensures states[k].phase == Returned ==> forall a :: 0 <= a < states[k].started ==> a in states[k].done
  {
    hide Enabled, Step;
    if k == 0 {
      FirstSound();
    } else {
      EveryRunIsSound(states, events, k - 1);
      StepSound(states[k - 1], events[k - 1]);
    }
  }

  /** Same but for what attempts reported and whether the context ended. */
  ghost predicate OnlyNews(s: State, t: State) { t == s.(done := t.done, ctxEnded := t.ctxEnded) }

  lemma {:induction false} AwaitingChangesNothing(states: seq<State>, events: seq<Event>, j: nat, k: nat)
    requires Run(states, events) && j <= k <= |events| && forall i :: j <= i < k ==>
      events[i].Reports? || events[i].ContextEnds?
    ensures OnlyNews(states[j], states[k])
    decreases k
  {
    if j < k { AwaitingChangesNothing(states, events, j, k - 1); }
  }

  /** A replacement that fails leaves the serving attempt untouched: after it the
      supervisor is where it was when the timer fired, with the same attempt,
      lane and timer, and has cancelled nothing but the failed attempt. */
  lemma FailedReplacementIsHarmless(states: seq<State>, events: seq<Event>, j: nat, k: nat)
    requires Run(states, events) && j < k < |events| && events[j] == TimerFires && events[k] == NextDone
    requires forall i :: j < i < k ==> events[i].Reports? || events[i].ContextEnds?
    ensures var s, t, failed := states[j], states[k + 1], states[j].started;
      && OnlyNews(s.(other := failed, started := failed + 1, succeeds := s.succeeds[failed := s.lane],
        cancelled := s.cancelled + {failed}), t)
      && t.phase == Serving && t.attempts == [t.current] && t.current == s.current != failed
  {
    EveryRunIsSound(states, events, j);
    AwaitingChangesNothing(states, events, j + 1, k);
    var s, u := states[j], states[k];
    assert s.attempts[0] in s.attempts;
    assert u.attempts == [s.current, s.started];
    ForgetPair(s.current, s.started);
  }

  /** Owners not drained, context alive, not done: the draining predecessor is
      not cancelled by any step. */
  lemma DrainingIsNotCut(s: State, e: Event)
    requires Sound(s) && Enabled(s, e) && s.phase == Draining && s.other !in s.cancelled && s.other !in s.done &&
      !s.ctxEnded
    requires e != Ticks(true) && e != Reports(s.other)
    ensures var t := Step(s, e);
      t.other !in t.cancelled && t.other == s.other && t.phase == Draining && s.other in t.attempts
  {
    hide Without;
    ForgetPair(s.other, s.current);
    ForgetOne(s.other);
  }
}
