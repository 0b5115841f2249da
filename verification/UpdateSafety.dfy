/** What every step of the update server keeps: the rows' invariants, the bound
    on unavailable agents, the cohort order, and the fences. */
module UpdateSafety {
  import opened UpdateRow
  import opened UpdateCohorts
  import opened UpdateSystem

  // ---- Invariants of a campaign ----

  function CordonedCount(rows: seq<Row>): nat
  {
    if rows == [] then 0 else CordonedCount(rows[..|rows| - 1]) + if rows[|rows| - 1].cordoned then 1 else 0
  }

  /** A row that has started has only succeeded rows in earlier cohorts. */
  ghost predicate CohortOrder(rows: seq<Row>, p: Policy)
  {
    forall i, j :: 0 <= i < |rows| && 0 <= j < CohortOf(p, |rows|, i).start && j < |rows| && !Untouched(rows[i]) ==>
      rows[j].state == Succeeded
  }

  ghost predicate RowsOk(rows: seq<Row>, p: Policy, clock: int)
  {
    forall i :: 0 <= i < |rows| ==> RowOk(rows[i], p, clock)
  }

  ghost predicate CampaignOk(c: Campaign, clock: int)
  {
    && PolicyValid(c.policy)
    && RowsOk(c.rows, c.policy, clock)
    && CordonedCount(c.rows) <= c.policy.maxUnavailable
    && CohortOrder(c.rows, c.policy)
    && IdsInOrder(c.rows)
  }

  ghost predicate SystemOk(s: System) { forall k :: k in s.campaigns ==> CampaignOk(s.campaigns[k], s.clock) }

  // ---- How rows may evolve ----

  /** The agent is provably back on a working build other than the target. */
  ghost predicate RollbackProven(t: Row)
  {
    && t.state == Failed && !t.cordoned && t.root.Some? && t.auth.Some? && t.freshAt.Some?
    && t.root.value.receipt.action == Rollback && t.root.value.receipt.authorization == t.auth.value
    && t.root.value.completedAt < t.freshAt.value && t.observed == t.root.value.receipt.result.release.build
  }

  ghost predicate FinishedWithProof(t: Row, p: Policy)
  {
    (t.state == Succeeded && SuccessOk(t, p)) || RollbackProven(t)
  }

  ghost predicate Evolves(r: Row, t: Row, p: Policy)
  {
    && t.id == r.id && t.agent == r.agent
    && (r.state == Succeeded ==> t == r)
    && (Committed(r) ==> Committed(t) || FinishedWithProof(t, p))
  }

  /** Evolves, raises no fence and starts nothing. */
  ghost predicate Safe(r: Row, t: Row, p: Policy, now: int)
  {
    RowOk(t, p, now) && Evolves(r, t, p) && (t.cordoned ==> r.cordoned) && (Untouched(r) ==> Untouched(t))
  }

  ghost predicate CampaignNext(c: Campaign, d: Campaign, now: int)
  {
    && d.policy == c.policy && |d.rows| == |c.rows| && CampaignOk(d, now)
    && forall i :: 0 <= i < |c.rows| ==> Evolves(c.rows[i], d.rows[i], c.policy)
  }

  ghost predicate SystemNext(s: System, t: System, now: int)
  {
    && (forall k :: k in s.campaigns ==> k in t.campaigns && CampaignNext(s.campaigns[k], t.campaigns[k], now))
    && (forall k :: k in t.campaigns && k !in s.campaigns ==> CampaignOk(t.campaigns[k], now))
  }

  // ---- Rows ----

  lemma SafeSame(r: Row, p: Policy, clock: int, now: int)
    requires RowOk(r, p, clock) && clock <= now
    ensures Safe(r, r, p, now)
  {
    LaterOk(r, p, clock, now);
  }

  lemma SafeChange(r: Row, p: Policy, ch: Change, clock: int, now: int)
    requires RowOk(r, p, clock) && clock <= now && Allowed(r, p, ch, now) && !ch.Fenced? && !ch.Released?
    ensures Safe(r, Changed(r, ch, now), p, now)
  {
    hide RowOk, Changed;
    match ch {
      case Completed(conn) =>
        CompletionEarned(r, p, conn, now, clock);
      case Recovered(conn) =>
        RecoveryEarned(r, p, conn, now, clock);
        RecoveredObserved(r, p, conn, now);
      case Paused => AdminKeeps(r, p, ch, now, clock);
      case Resumed => AdminKeeps(r, p, ch, now, clock);
      case Canceled => AdminKeeps(r, p, ch, now, clock);
      case RolledForRetry => AdminKeeps(r, p, ch, now, clock);
      case StagedForRetry => AdminKeeps(r, p, ch, now, clock);
      case TunnelSeen(_) => EvidenceKeeps(r, p, ch, now, clock);
      case EvidenceTimedOut(_) => EvidenceKeeps(r, p, ch, now, clock);
      case _ => DrainKeeps(r, p, ch, now, clock);
    }
  }

  lemma RecoveredObserved(r: Row, p: Policy, conn: Conn, now: int)
    requires Allowed(r, p, UpdateRow.Recovered(conn), now)
    ensures var t := Changed(r, UpdateRow.Recovered(conn), now);
      t.root.Some? && t.observed == t.root.value.receipt.result.release.build && !Untouched(r) && r.state != Succeeded
  {
  }

  // ---- Counting ----

  lemma {:induction false} CountMonotone(a: seq<Row>, b: seq<Row>)
    requires |a| == |b| && forall i :: 0 <= i < |a| && b[i].cordoned ==> a[i].cordoned
    ensures CordonedCount(b) <= CordonedCount(a)
  {
    if a != [] { CountMonotone(a[..|a| - 1], b[..|b| - 1]); }
  }

  lemma {:induction false} CountOneMore(a: seq<Row>, b: seq<Row>, at: nat)
    requires |a| == |b| && at < |a| && forall i :: 0 <= i < |a| && i != at && b[i].cordoned ==> a[i].cordoned
    ensures CordonedCount(b) <= CordonedCount(a) + 1
  {
    var n := |a| - 1;
    if at == n { CountMonotone(a[..n], b[..n]); } else { CountOneMore(a[..n], b[..n], at); }
  }

  lemma {:induction false} CordonedAreUnavailable(rows: seq<Row>)
    ensures CordonedCount(rows) <= Unavailable(rows)
  {
    if rows != [] { CordonedAreUnavailable(rows[..|rows| - 1]); }
  }

  // ---- Campaigns ----

  lemma SameIds(a: seq<Row>, b: seq<Row>)
    requires IdsInOrder(a) && |a| == |b| && forall i :: 0 <= i < |a| ==> b[i].id == a[i].id
    ensures IdsInOrder(b)
  {
  }

  lemma TameRows(c: Campaign, d: Campaign, clock: int, now: int)
    requires CampaignOk(c, clock) && d.policy == c.policy && |d.rows| == |c.rows|
    requires forall i :: 0 <= i < |c.rows| ==> Safe(c.rows[i], d.rows[i], c.policy, now)
    ensures CampaignNext(c, d, now)
  {
    hide RowOk, SuccessOk, RollbackProven, IdsInOrder;
    CountMonotone(c.rows, d.rows);
    SameIds(c.rows, d.rows);
    forall i, j | 0 <= i < |d.rows| && 0 <= j < CohortOf(d.policy, |d.rows|, i).start && j < |d.rows| &&
      !Untouched(d.rows[i])
      ensures d.rows[j].state == Succeeded {
      assert !Untouched(c.rows[i]) && c.rows[j].state == Succeeded;
      assert Evolves(c.rows[j], d.rows[j], c.policy);
    }
  }

  lemma OneRow(c: Campaign, i: nat, t: Row, clock: int, now: int)
    requires CampaignOk(c, clock) && clock <= now && i < |c.rows| && Safe(c.rows[i], t, c.policy, now)
    ensures CampaignNext(c, c.(rows := c.rows[i := t]), now)
  {
    hide Safe, RowOk, CampaignNext;
    var d := c.(rows := c.rows[i := t]);
    forall k | 0 <= k < |c.rows| ensures Safe(c.rows[k], d.rows[k], c.policy, now) {
      if k != i { SafeSame(c.rows[k], c.policy, clock, now); }
    }
    TameRows(c, d, clock, now);
  }

  lemma SameRows(c: Campaign, d: Campaign, clock: int, now: int)
    requires CampaignOk(c, clock) && clock <= now && d.policy == c.policy && d.rows == c.rows
    ensures CampaignNext(c, d, now)
  {
    hide Safe, RowOk, CampaignNext;
    forall k | 0 <= k < |c.rows| ensures Safe(c.rows[k], d.rows[k], c.policy, now) {
      SafeSame(c.rows[k], c.policy, clock, now);
    }
    TameRows(c, d, clock, now);
  }

  /** Raising one fence: a slot was free and the cohort had its turn. */
  lemma FenceRow(c: Campaign, i: nat, clock: int, now: int)
    requires CampaignOk(c, clock) && clock <= now && i < |c.rows| && c.rows[i].state == Staged
    requires Unavailable(c.rows) < c.policy.maxUnavailable
    ensures CampaignNext(c, c.(rows := c.rows[i := Changed(c.rows[i], Fenced, now)]), now)
  {
    var t := Changed(c.rows[i], Fenced, now);
    var d := c.(rows := c.rows[i := t]);
    FenceRaises(c.rows[i], c.policy, now, clock);
    CordonedAreUnavailable(c.rows);
    CountOneMore(c.rows, d.rows, i);
    FenceKeepsOrder(c, i, now);
    SameIds(c.rows, d.rows);
    hide CohortOrder, Changed;
    forall k | 0 <= k < |c.rows| ensures RowOk(d.rows[k], c.policy, now) && Evolves(c.rows[k], d.rows[k], c.policy) {
      if k != i { SafeSame(c.rows[k], c.policy, clock, now); }
    }
  }

  lemma FenceKeepsOrder(c: Campaign, i: nat, now: int)
    requires CohortOrder(c.rows, c.policy) && i < |c.rows| && c.rows[i].state == Staged
    ensures CohortOrder(c.rows[i := Changed(c.rows[i], Fenced, now)], c.policy)
  {
    var rows := c.rows[i := Changed(c.rows[i], Fenced, now)];
    forall k, j | 0 <= k < |rows| && 0 <= j < CohortOf(c.policy, |rows|, k).start && j < |rows| && !Untouched(rows[k])
      ensures rows[j].state == Succeeded {
      assert !Untouched(c.rows[k]) && c.rows[j].state == Succeeded;
    }
  }

  /** Releasing a cohort: everything before it has succeeded. */
  lemma ReleaseRows(c: Campaign, clock: int, now: int)
    requires CampaignOk(c, clock) && clock <= now
    ensures CampaignNext(c, c.(rows := ReleasedRows(c.rows, c.policy, now)), now)
  {
    var d := c.(rows := ReleasedRows(c.rows, c.policy, now));
    hide RowOk, Changed;
    forall k | 0 <= k < |c.rows|
      ensures RowOk(d.rows[k], c.policy, now) && Evolves(c.rows[k], d.rows[k], c.policy) &&
        d.rows[k].cordoned == c.rows[k].cordoned {
      ReleaseStarts(c.rows[k], c.policy, now, clock);
      SafeSame(c.rows[k], c.policy, clock, now);
    }
    CountMonotone(c.rows, d.rows);
    SameIds(c.rows, d.rows);
    ReleaseKeepsOrder(c, clock, now);
    hide ReleasedRows;
  }

  lemma ReleaseKeepsOrder(c: Campaign, clock: int, now: int)
    requires CohortOrder(c.rows, c.policy) && RowsOk(c.rows, c.policy, clock) && clock <= now
    ensures CohortOrder(ReleasedRows(c.rows, c.policy, now), c.policy)
  {
    var rows := ReleasedRows(c.rows, c.policy, now);
    ReleaseSpanFits(c.rows, c.policy);
    hide Changed, ReleaseSpan, RowOk;
    forall k, j | 0 <= k < |rows| && 0 <= j < CohortOf(c.policy, |rows|, k).start && j < |rows| && !Untouched(rows[k])
      ensures rows[j].state == Succeeded {
      ReleaseStarts(c.rows[k], c.policy, now, clock);
      ReleaseStarts(c.rows[j], c.policy, now, clock);
      var span := ReleaseSpan(c.rows, c.policy);
      if span.start <= k < span.end {
        assert CohortOf(c.policy, |c.rows|, k) == span;
      } else {
        assert rows[k] == c.rows[k];
      }
      assert c.rows[j].state == Succeeded;
    }
  }

  lemma NewCampaignOk(firstId: nat, agents: seq<nat>, p: Policy, now: int)
    requires PolicyValid(p)
    ensures CampaignOk(Campaign(p, Running, 1, NewRows(firstId, agents, p, now)), now)
  {
    var rows := NewRows(firstId, agents, p, now);
    forall i | 0 <= i < |rows| ensures RowOk(rows[i], p, now) && !rows[i].cordoned {
      NewRowOk(firstId + i, agents[i], i < p.canaryCount, p, now);
    }
    NothingCordoned(rows);
    forall i | 0 <= i < |rows| && !Untouched(rows[i]) ensures CohortOf(p, |rows|, i).start == 0 {
      assert i < Canaries(p, |rows|);
    }
  }

  lemma {:induction false} NothingCordoned(rows: seq<Row>)
    requires forall i :: 0 <= i < |rows| ==> !rows[i].cordoned
    ensures CordonedCount(rows) == 0
  {
    if rows != [] { NothingCordoned(rows[..|rows| - 1]); }
  }
}
