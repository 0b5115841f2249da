/** Rollout cohorts: one canary group, then waves of fixed size in row order. */
module UpdateCohorts {
  import opened UpdateRow
  import opened Division

  datatype Span = Span(start: nat, end: nat)

  function Canaries(p: Policy, n: nat): nat
  {
    var least := if p.canaryCount < 1 then 1 else p.canaryCount;
    if least > n then n else least
  }

  function Wave(p: Policy): (w: nat)
    ensures w >= 1
  {
    if p.waveSize < 1 then 1 else p.waveSize
  }

  /** Where the wave holding row `i` starts, for waves laid from `start`. */
  function WaveStart(start: nat, wave: nat, i: nat): nat
    requires wave >= 1 && start <= i
  {
    start + (i - start) / wave * wave
  }

  /** The cohort of row `i` of `n`, computed directly. */
  function CohortOf(p: Policy, n: nat, i: nat): Span
    requires i < n
  {
    var canaries := Canaries(p, n);
    if i < canaries then Span(0, canaries)
    else
      var start := WaveStart(canaries, Wave(p), i);
      Span(start, if start + Wave(p) > n then n else start + Wave(p))
  }

  // ---- Reference: the rollout plan as a list ----

  function WavesFrom(start: nat, wave: nat, n: nat): seq<Span>
    requires wave >= 1
    decreases n - start
  {
    if start >= n then []
      else [Span(start, if start + wave > n then n else start + wave)] + WavesFrom(start + wave, wave, n)
  }

  function Plan(p: Policy, n: nat): seq<Span>
  {
    if n == 0 then [] else [Span(0, Canaries(p, n))] + WavesFrom(Canaries(p, n), Wave(p), n)
  }

  /** Consecutive nonempty spans from `start` to `n`. */
  ghost predicate Tiles(spans: seq<Span>, start: nat, n: nat)
  {
    if spans == [] then start == n
    else spans[0].start == start < spans[0].end <= n && Tiles(spans[1..], spans[0].end, n)
  }

  lemma {:induction false} WavesTile(start: nat, wave: nat, n: nat)
    requires wave >= 1 && start <= n
    ensures Tiles(WavesFrom(start, wave, n), start, n)
    decreases n - start
  {
    if start < n {
      var end := if start + wave > n then n else start + wave;
      if start + wave > n {
        assert WavesFrom(start + wave, wave, n) == [];
      } else {
        WavesTile(end, wave, n);
      }
      assert WavesFrom(start, wave, n)[1..] == WavesFrom(start + wave, wave, n);
    }
  }

  /** The plan partitions the rows into consecutive cohorts. */
  lemma PlanPartitions(p: Policy, n: nat)
    ensures Tiles(Plan(p, n), 0, n)
  {
    if n > 0 {
      WavesTile(Canaries(p, n), Wave(p), n);
      assert Plan(p, n)[1..] == WavesFrom(Canaries(p, n), Wave(p), n);
    }
  }

  lemma DivStep(x: nat, w: nat)
    requires w >= 1 && x >= w
    ensures x / w == (x - w) / w + 1
  {
    var q, r := (x - w) / w, (x - w) % w;
    assert x == w * (q + 1) + r;
    DivMod(x, w, q + 1, r);
  }

  lemma WaveStartStep(start: nat, wave: nat, i: nat)
    requires wave >= 1 && start <= i
    ensures if i < start + wave then WaveStart(start, wave, i) == start
      else WaveStart(start, wave, i) == WaveStart(start + wave, wave, i)
  {
    if i < start + wave {
      DivMod(i - start, wave, 0, i - start);
    } else {
      DivStep(i - start, wave);
      var q := (i - start) / wave;
      assert q * wave == wave + (q - 1) * wave;
    }
  }

  lemma {:induction false} WaveOf(start: nat, wave: nat, n: nat, i: nat)
    requires wave >= 1 && start <= i < n
    ensures var s := WaveStart(start, wave, i);
      s <= i < s + wave && Span(s, if s + wave > n then n else s + wave) in WavesFrom(start, wave, n)
    decreases n - start
  {
    WaveStartStep(start, wave, i);
    hide WaveStart;
    if i >= start + wave { WaveOf(start + wave, wave, n, i); }
  }

  /** The direct computation finds the plan's cohort of every row. */
  lemma CohortInPlan(p: Policy, n: nat, i: nat)
    requires i < n
    ensures var c := CohortOf(p, n, i); c in Plan(p, n) && c.start <= i < c.end <= n
  {
    hide WaveStart;
    if i >= Canaries(p, n) { WaveOf(Canaries(p, n), Wave(p), n, i); }
  }

  lemma {:induction false} TilesDisjoint(spans: seq<Span>, start: nat, n: nat, a: Span, b: Span)
    requires Tiles(spans, start, n) && a in spans && b in spans
    ensures start <= a.start < a.end && start <= b.start < b.end
    ensures a == b || a.end <= b.start || b.end <= a.start
  {
    var head := spans[0];
    if a != head && b != head {
      TilesDisjoint(spans[1..], head.end, n, a, b);
    } else if a != head {
      TilesDisjoint(spans[1..], head.end, n, a, a);
    } else if b != head {
      TilesDisjoint(spans[1..], head.end, n, b, b);
    }
  }

  /** Two rows are in one cohort, or one's cohort ends before the other's starts. */
  lemma CohortsAgree(p: Policy, n: nat, i: nat, j: nat)
    requires i < n && j < n
    ensures var a, b := CohortOf(p, n, i), CohortOf(p, n, j);
      && (a == b || a.end <= b.start || b.end <= a.start)
      && (a.start <= j < a.end ==> a == b)
      && (j < a.start ==> b.end <= a.start)
  {
    PlanPartitions(p, n);
    CohortInPlan(p, n, i);
    CohortInPlan(p, n, j);
    TilesDisjoint(Plan(p, n), 0, n, CohortOf(p, n, i), CohortOf(p, n, j));
  }

  // ---- May a staged row be fenced? ----

  predicate Broken(s: RowState) { s == Failed || s == Blocked || s == Withdrawn }

  /** A row that keeps the cohort `c` from going ahead. */
  predicate Obstacle(rows: seq<Row>, c: Span, j: nat)
    requires j < |rows|
  {
    if j < c.start then rows[j].state != Succeeded
    else Broken(rows[j].state) || rows[j].state == Pending || rows[j].state == Staging
  }

  ghost predicate CohortReady(rows: seq<Row>, c: Span)
    requires c.end <= |rows|
  {
    forall j :: 0 <= j < c.end ==> !Obstacle(rows, c, j)
  }

  /** The first obstacle is a row that ended badly. */
  ghost predicate CohortBroken(rows: seq<Row>, c: Span)
    requires c.end <= |rows|
  {
    exists j :: 0 <= j < c.end && Obstacle(rows, c, j) && Broken(rows[j].state) && forall k :: 0 <= k < j ==>
      !Obstacle(rows, c, k)
  }

  ghost predicate IdsInOrder(rows: seq<Row>) { forall i, j :: 0 <= i < j < |rows| ==> rows[i].id < rows[j].id }

  /** The eligibility scan for the row named `id`. */
  method CohortEligible(rows: seq<Row>, id: nat, p: Policy) returns (size: nat, eligible: bool, failed: bool)
    requires IdsInOrder(rows)
    ensures (forall j :: 0 <= j < |rows| ==> rows[j].id != id) ==> size == 0 && !eligible && !failed
    ensures forall i :: 0 <= i < |rows| && rows[i].id == id ==>
      var c := CohortOf(p, |rows|, i);
      && c.start <= i < c.end <= |rows| && size == c.end - c.start
      && (eligible <==> CohortReady(rows, c)) && (failed <==> CohortBroken(rows, c))
  {
    hide CohortOf, CohortReady, CohortBroken;
    var candidate := -1;
    for i := 0 to |rows|
      invariant if candidate < 0 then candidate == -1 && forall j :: 0 <= j < i ==> rows[j].id != id
                else candidate < i && rows[candidate].id == id
    {
      if rows[i].id == id {
        candidate := i;
      }
    }
    if candidate < 0 {
      return 0, false, false;
    }
    var start, end := CandidateSpan(|rows|, candidate, p);
    size := end - start;
    eligible, failed := ScanCohort(rows, start, end);
  }

  method CandidateSpan(n: nat, candidate: nat, p: Policy) returns (start: nat, end: nat)
    requires candidate < n
    ensures Span(start, end) == CohortOf(p, n, candidate) && start <= candidate < end <= n
  {
    hide WaveStart;
    CohortInPlan(p, n, candidate);
    var canaryCount := p.canaryCount;
    if canaryCount < 1 {
      canaryCount := 1;
    }
    if canaryCount > n {
      canaryCount := n;
    }
    var waveSize := p.waveSize;
    if waveSize < 1 {
      waveSize := 1;
    }
    start, end := 0, canaryCount;
    if candidate >= canaryCount {
      start := WaveStart(canaryCount, waveSize, candidate);
      end := start + waveSize;
      if end > n {
        end := n;
      }
    }
  }

  method ScanCohort(rows: seq<Row>, start: nat, end: nat) returns (eligible: bool, failed: bool)
    requires start <= end <= |rows|
    ensures eligible <==> CohortReady(rows, Span(start, end))
    ensures failed <==> CohortBroken(rows, Span(start, end))
  {
    ghost var c := Span(start, end);
    var i := 0;
    while i < start
      invariant 0 <= i <= start
      invariant forall j :: 0 <= j < i ==> !Obstacle(rows, c, j)
    {
      if rows[i].state != Succeeded {
        assert Obstacle(rows, c, i);
        return false, Broken(rows[i].state);
      }
      i := i + 1;
    }
    while i < end
      invariant start <= i <= end
      invariant forall j :: 0 <= j < i ==> !Obstacle(rows, c, j)
    {
      if Broken(rows[i].state) {
        assert Obstacle(rows, c, i);
        return false, true;
      }
      if rows[i].state == Pending || rows[i].state == Staging {
        assert Obstacle(rows, c, i);
        return false, false;
      }
      i := i + 1;
    }
    return true, false;
  }

  // ---- Releasing the next cohort to staging ----

  /** The first row that has not succeeded; the number of rows if all have. */
  function FirstUnfinished(rows: seq<Row>): (f: nat)
    ensures f <= |rows| && (f < |rows| ==> rows[f].state != Succeeded) && forall j :: 0 <= j < f ==>
      rows[j].state == Succeeded
  {
    if rows == [] || rows[0].state != Succeeded then 0 else 1 + FirstUnfinished(rows[1..])
  }

  function ReleaseSpan(rows: seq<Row>, p: Policy): Span
  {
    var f := FirstUnfinished(rows);
    if f == |rows| then Span(f, f) else CohortOf(p, |rows|, f)
  }

  /** The rows after the waiting ones of the next cohort are told to stage. */
  function ReleasedRows(rows: seq<Row>, p: Policy, now: int): (out: seq<Row>)
    ensures |out| == |rows|
    ensures forall i :: 0 <= i < |rows| ==>
      out[i] == if ReleaseSpan(rows, p).start <= i < ReleaseSpan(rows, p).end then Changed(rows[i], Released, now)
        else rows[i]
  {
    seq(|rows|, i requires 0 <= i < |rows| =>
      if ReleaseSpan(rows, p).start <= i < ReleaseSpan(rows, p).end then Changed(rows[i], Released, now) else rows[i])
  }

  lemma ReleaseSpanFits(rows: seq<Row>, p: Policy)
    ensures var c := ReleaseSpan(rows, p);
      && c.start <= c.end <= |rows| && (forall j :: 0 <= j < c.start ==> rows[j].state == Succeeded)
      && (forall i :: c.start <= i < c.end ==> CohortOf(p, |rows|, i) == c)
  {
    var f := FirstUnfinished(rows);
    if f < |rows| {
      CohortInPlan(p, |rows|, f);
      forall i | CohortOf(p, |rows|, f).start <= i < CohortOf(p, |rows|, f).end
        ensures CohortOf(p, |rows|, i) == CohortOf(p, |rows|, f) {
        CohortsAgree(p, |rows|, f, i);
      }
    }
  }

  method NextSpan(rows: seq<Row>, p: Policy) returns (start: nat, end: nat)
    ensures Span(start, end) == ReleaseSpan(rows, p)
  {
    hide WaveStart;
    var n := |rows|;
    var first := 0;
    while first < n && rows[first].state == Succeeded
      invariant 0 <= first <= FirstUnfinished(rows)
    {
      first := first + 1;
    }
    if first >= n {
      return first, first;
    }
    var canaryCount := p.canaryCount;
    if canaryCount < 1 {
      canaryCount := 1;
    }
    if canaryCount > n {
      canaryCount := n;
    }
    var waveSize := p.waveSize;
    if waveSize < 1 {
      waveSize := 1;
    }
    start, end := 0, canaryCount;
    if first >= canaryCount {
      start := WaveStart(canaryCount, waveSize, first);
      end := start + waveSize;
      if end > n {
        end := n;
      }
    }
  }

  method ReleaseNextCohort(rows: seq<Row>, p: Policy, now: int) returns (out: seq<Row>)
    ensures out == ReleasedRows(rows, p, now)
  {
    hide ReleaseSpan;
    var start, end := NextSpan(rows, p);
    ReleaseSpanFits(rows, p);
    out := rows;
    var i := start;
    while i < end
      invariant start <= i <= end && |out| == |rows|
      invariant forall j :: 0 <= j < |rows| ==>
        out[j] == if start <= j < i then Changed(rows[j], Released, now) else rows[j]
    {
      if rows[i].state == Pending && rows[i].action == NoAction {
        out := out[i := rows[i].(action := Stage, updatedAt := Truncated(now))];
      }
      i := i + 1;
    }
  }

  /** A row that may be fenced is in exactly the cohort that has been released:
      the two computations never disagree about whose turn it is. */
  lemma EligibleIsReleased(rows: seq<Row>, p: Policy, i: nat)
    requires i < |rows| && rows[i].state != Succeeded
    requires CohortOf(p, |rows|, i).end <= |rows| && CohortReady(rows, CohortOf(p, |rows|, i))
    ensures ReleaseSpan(rows, p) == CohortOf(p, |rows|, i)
  {
    var c, f := CohortOf(p, |rows|, i), FirstUnfinished(rows);
    CohortInPlan(p, |rows|, i);
    assert forall j :: 0 <= j < c.start ==> !Obstacle(rows, c, j) && rows[j].state == Succeeded;
    assert c.start <= f <= i;
    CohortsAgree(p, |rows|, i, f);
  }
}
