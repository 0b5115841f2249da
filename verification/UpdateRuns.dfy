/** Safety of the update server over whole runs. */
module UpdateRuns {
  import opened Optional
  import opened UpdateRow
  import opened UpdateReport
  import opened UpdateCohorts
  import opened UpdateSystem
  import opened UpdateSafety

  // ---- One step ----

  lemma Unchanged(s: System, t: System, now: int)
    requires SystemOk(s) && s.clock <= now && t.campaigns == s.campaigns
    ensures SystemNext(s, t, now)
  {
    hide CampaignOk, CampaignNext;
    forall k | k in s.campaigns ensures CampaignNext(s.campaigns[k], t.campaigns[k], now) {
      SameRows(s.campaigns[k], t.campaigns[k], s.clock, now);
    }
  }

  lemma OneCampaign(s: System, t: System, k: nat, d: Campaign, now: int)
    requires SystemOk(s) && s.clock <= now && k in s.campaigns
    requires CampaignNext(s.campaigns[k], d, now) && t.campaigns == s.campaigns[k := d]
    ensures SystemNext(s, t, now)
  {
    hide CampaignOk, CampaignNext;
    forall j | j in s.campaigns ensures CampaignNext(s.campaigns[j], t.campaigns[j], now) {
      if j != k { SameRows(s.campaigns[j], t.campaigns[j], s.clock, now); }
    }
  }

  lemma PausedToo(c: Campaign, d: Campaign, now: int)
    requires CampaignNext(c, d, now)
    ensures CampaignNext(c, PauseRunning(d), now)
  {
    hide RowsOk, CohortOrder, Evolves;
  }

  lemma RowUpdate(s: System, at: Place, r: Row, pause: bool, now: int, t: System)
    requires SystemOk(s) && s.clock <= now && Exists(s, at) && Safe(RowAt(s, at), r, PolicyAt(s, at), now)
    requires t.campaigns == (if pause then WithPause(WithRow(s, at, r), at.campaign) else WithRow(s, at, r)).campaigns
    ensures SystemNext(s, t, now)
  {
    hide CampaignOk, CampaignNext, Safe;
    var c := s.campaigns[at.campaign];
    var d := c.(rows := c.rows[at.index := r]);
    OneRow(c, at.index, r, s.clock, now);
    PausedToo(c, d, now);
    OneCampaign(s, t, at.campaign, if pause then PauseRunning(d) else d, now);
  }

  lemma RowIsOk(s: System, at: Place)
    requires SystemOk(s) && Exists(s, at)
    ensures RowOk(RowAt(s, at), PolicyAt(s, at), s.clock)
  {
    hide RowOk;
    assert CampaignOk(s.campaigns[at.campaign], s.clock);
  }

  lemma TouchNext(s: System, at: Place, ch: Change, now: int)
    requires SystemOk(s) && s.clock <= now && !ch.Fenced? && !ch.Released?
    ensures SystemNext(s, Touch(s, at, ch, now), now) && SystemNext(s, TouchAndPause(s, at, ch, now), now)
  {
    hide SystemOk, SystemNext, Safe, RowOk, Changed, Allowed;
    Unchanged(s, s, now);
    if Exists(s, at) && Allowed(RowAt(s, at), PolicyAt(s, at), ch, now) {
      RowIsOk(s, at);
      SafeChange(RowAt(s, at), PolicyAt(s, at), ch, s.clock, now);
      var r := Changed(RowAt(s, at), ch, now);
      RowUpdate(s, at, r, false, now, WithRow(s, at, r));
      RowUpdate(s, at, r, true, now, WithPause(WithRow(s, at, r), at.campaign));
    }
  }

  ghost predicate IsPlainChange(r: Row, t: Row, p: Policy, now: int)
  {
    exists ch: Change :: t == Changed(r, ch, now) && Allowed(r, p, ch, now) && !ch.Fenced? && !ch.Released?
  }

  lemma RowsNext(c: Campaign, d: Campaign, clock: int, now: int)
    requires CampaignOk(c, clock) && clock <= now && d.policy == c.policy && |d.rows| == |c.rows|
    requires forall i :: 0 <= i < |c.rows| ==>
      d.rows[i] == c.rows[i] || IsPlainChange(c.rows[i], d.rows[i], c.policy, now)
    ensures CampaignNext(c, d, now)
  {
    hide RowOk, Changed, Allowed, Safe, CampaignNext;
    forall i | 0 <= i < |c.rows| ensures Safe(c.rows[i], d.rows[i], c.policy, now) {
      if d.rows[i] == c.rows[i] {
        SafeSame(c.rows[i], c.policy, clock, now);
      } else {
        var ch: Change :| d.rows[i] == Changed(c.rows[i], ch, now) && Allowed(c.rows[i], c.policy, ch, now) &&
          !ch.Fenced? && !ch.Released?;
        SafeChange(c.rows[i], c.policy, ch, clock, now);
      }
    }
    TameRows(c, d, clock, now);
  }

  lemma CreateNext(s: System, campaign: nat, p: Policy, agents: seq<nat>, now: int)
    requires SystemOk(s) && s.clock <= now
    ensures SystemNext(s, Create(s, campaign, p, agents, now), now)
  {
    hide CampaignOk, CampaignNext;
    Unchanged(s, s, now);
    if campaign !in s.campaigns && PolicyValid(p) { NewCampaignOk(s.nextRow, agents, p, now); }
  }

  lemma ChangeStateNext(s: System, campaign: nat, expected: nat, next: CampaignState, now: int)
    requires SystemOk(s) && s.clock <= now
    ensures SystemNext(s, ChangeState(s, campaign, expected, next, now), now)
  {
    hide SystemNext, CampaignOk, CampaignNext, Changed, ResumeBlocked;
    var t := ChangeState(s, campaign, expected, next, now);
    if t == s {
      Unchanged(s, t, now);
    } else {
      var c, d := s.campaigns[campaign], t.campaigns[campaign];
      RowsNext(c, d, s.clock, now);
      OneCampaign(s, t, campaign, d, now);
    }
  }

  lemma RetryNext(s: System, campaign: nat, expected: nat, chosen: set<nat>, now: int)
    requires SystemOk(s) && s.clock <= now
    ensures SystemNext(s, Retry(s, campaign, expected, chosen, now), now)
  {
    hide SystemNext, CampaignOk, CampaignNext, Changed;
    var t := Retry(s, campaign, expected, chosen, now);
    if t == s {
      Unchanged(s, t, now);
    } else {
      var c, d := s.campaigns[campaign], t.campaigns[campaign];
      forall i | 0 <= i < |c.rows| ensures i in chosen ==> Allowed(c.rows[i], c.policy, RetryChange(c.rows[i]), now) { }
      RowsNext(c, d, s.clock, now);
      OneCampaign(s, t, campaign, d, now);
    }
  }

  lemma AdvanceNext(s: System, at: Place, now: int)
    requires SystemOk(s) && s.clock <= now
    ensures SystemNext(s, Advance(s, at, now), now)
  {
    hide SystemNext, CampaignOk, CampaignNext, Changed, CohortBroken, CohortReady;
    var t := Advance(s, at, now);
    if t.campaigns == s.campaigns {
      Unchanged(s, t, now);
    } else {
      var c, d := s.campaigns[at.campaign], t.campaigns[at.campaign];
      if d.rows == c.rows {
        SameRows(c, d, s.clock, now);
      } else {
        FenceRow(c, at.index, s.clock, now);
      }
      OneCampaign(s, t, at.campaign, d, now);
    }
  }

  lemma AuthorizeNext(s: System, at: Place, nonce: nat, version: string, now: int)
    requires SystemOk(s) && s.clock <= now
    ensures SystemNext(s, Authorize(s, at, nonce, version, now), now)
    ensures SystemNext(s, Ensure(s, at, nonce, version, now), now)
  {
    hide SystemOk, SystemNext, Safe, RowOk, Changed, Issued, StoredCanonical;
    Unchanged(s, s, now);
    var t, u := Authorize(s, at, nonce, version, now), Ensure(s, at, nonce, version, now);
    if t != s {
      var r, p := RowAt(s, at), PolicyAt(s, at);
      var auth := Issued(r, at.campaign, p, s.identities[r.agent], Activate, nonce, version, now);
      RowIsOk(s, at);
      SafeChange(r, p, Authorized(auth.value), s.clock, now);
      RowUpdate(s, at, Changed(r, Authorized(auth.value), now), false, now, t);
    }
    if u != s {
      var r, p := RowAt(s, at), PolicyAt(s, at);
      var auth := Issued(r, at.campaign, p, s.identities[r.agent], r.action, nonce, version, now);
      IssuedAction(r, at.campaign, p, s.identities[r.agent], r.action, nonce, version, now);
      RowIsOk(s, at);
      SafeChange(r, p, Reauthorized(auth.value), s.clock, now);
      RowUpdate(s, at, Changed(r, Reauthorized(auth.value), now), false, now, u);
    }
  }

  lemma IssuedAction(r: Row, campaign: nat, p: Policy, id: Identity, action: Action, nonce: nat, version: string,
      now: int)
    ensures var a := Issued(r, campaign, p, id, action, nonce, version, now); a.Some? ==>
      a.value.action == action && a.value.agent == r.agent && a.value.sequence == id.lastCommand + 1
  {
  }

  lemma ReceiveNext(s: System, m: Report, active: Option<Place>, named: Option<Place>, now: int)
    requires SystemOk(s) && s.clock <= now
    ensures SystemNext(s, Receive(s, m, active, named, now), now)
  {
    hide SystemOk, SystemNext, Safe, RowOk, Judge;
    var t := Receive(s, m, active, named, now);
    if t.campaigns == s.campaigns {
      Unchanged(s, t, now);
    } else {
      var at := active.value;
      var r, p, id := RowAt(s, at), PolicyAt(s, at), s.identities[m.agent];
      var v := Judge(r, at.campaign, p, id, m, now);
      RowIsOk(s, at);
      AppliedKeeps(r, at.campaign, p, id, m, now, s.clock);
      KeepsIsSafe(r, v.row, p, now);
      RowUpdate(s, at, v.row, v.pause, now, t);
    }
  }

  lemma KeepsIsSafe(r: Row, t: Row, p: Policy, now: int)
    requires Keeps(r, t) && RowOk(t, p, now)
    ensures Safe(r, t, p, now)
  {
  }

  lemma SeeTunnelNext(s: System, agent: nat, conn: Conn, now: int)
    requires SystemOk(s) && s.clock <= now
    ensures SystemNext(s, SeeTunnel(s, agent, conn, now), now)
  {
    hide CampaignOk, CampaignNext, Changed;
    var t := SeeTunnel(s, agent, conn, now);
    forall k | k in s.campaigns ensures CampaignNext(s.campaigns[k], t.campaigns[k], now) {
      RowsNext(s.campaigns[k], t.campaigns[k], s.clock, now);
    }
  }

  lemma ReleaseNext(s: System, campaign: nat, now: int)
    requires SystemOk(s) && s.clock <= now
    ensures SystemNext(s, ReleaseCohort(s, campaign, now), now)
  {
    hide SystemNext, CampaignOk, CampaignNext, ReleasedRows;
    var t := ReleaseCohort(s, campaign, now);
    if t == s {
      Unchanged(s, t, now);
    } else {
      ReleaseRows(s.campaigns[campaign], s.clock, now);
      OneCampaign(s, t, campaign, t.campaigns[campaign], now);
    }
  }

  lemma FinalizeNext(s: System, now: int)
    requires SystemOk(s) && s.clock <= now
    ensures SystemNext(s, Finalize(s), now)
  {
    hide CampaignOk, CampaignNext, AllDone;
    var t := Finalize(s);
    forall k | k in s.campaigns ensures CampaignNext(s.campaigns[k], t.campaigns[k], now) {
      SameRows(s.campaigns[k], t.campaigns[k], s.clock, now);
    }
  }

  /** Every transaction keeps every invariant, and evolves every row safely. */
  lemma StepSafe(s: System, step: Step, now: int)
    requires SystemOk(s) && s.clock <= now
    ensures SystemNext(s, Next(s, step, now), now) && SystemOk(Next(s, step, now))
  {
    ActSafe(s, step, now);
    SameTables(s, Act(s, step, now), Next(s, step, now), now);
  }

  lemma SameTables(s: System, t: System, u: System, now: int)
    requires SystemNext(s, t, now) && u.campaigns == t.campaigns && u.clock == now
    ensures SystemNext(s, u, now) && SystemOk(u)
  {
    hide CampaignOk, Evolves;
  }

  lemma ActSafe(s: System, step: Step, now: int)
    requires SystemOk(s) && s.clock <= now
    ensures SystemNext(s, Act(s, step, now), now)
  {
    hide SystemOk, SystemNext, Create, ChangeState, Retry, Advance, Authorize, Ensure, Receive, Touch, TouchAndPause;
    hide SeeTunnel, ReleaseCohort, Finalize;
    Unchanged(s, s, now);
    match step {
      case Creating(campaign, policy, agents) => CreateNext(s, campaign, policy, agents, now);
      case ChangingState(campaign, expected, next) => ChangeStateNext(s, campaign, expected, next, now);
      case Retrying(campaign, expected, chosen) => RetryNext(s, campaign, expected, chosen, now);
      case Advancing(at) => AdvanceNext(s, at, now);
      case Authorizing(at, nonce, version) => AuthorizeNext(s, at, nonce, version, now);
      case Ensuring(at, nonce, version) => AuthorizeNext(s, at, nonce, version, now);
      case LosingQuorum(at, detail) => TouchNext(s, at, QuorumLost(detail), now);
      case TimingOutDrain(at) => TouchNext(s, at, DrainTimedOut, now);
      case Receiving(m, active, named) => ReceiveNext(s, m, active, named, now);
      case SeeingTunnel(agent, conn) => SeeTunnelNext(s, agent, conn, now);
      case TimingOutEvidence(at, live) => TouchNext(s, at, EvidenceTimedOut(live), now);
      case Recovering(at, conn) => TouchNext(s, at, UpdateRow.Recovered(conn), now);
      case Completing(at, conn) => TouchNext(s, at, UpdateRow.Completed(conn), now);
      case TimingOutStage(at) => TouchNext(s, at, UpdateRow.StageTimedOut, now);
      case TimingOutRoot(at) => TouchNext(s, at, UpdateRow.RootTimedOut, now);
      case ReleasingCohort(campaign) => ReleaseNext(s, campaign, now);
      case Finalizing => FinalizeNext(s, now);
      case Checking(agent, counter) => Unchanged(s, Act(s, step, now), now);
      case Enrolling(agent, updater, activator, authority, os, arch) => Unchanged(s, Act(s, step, now), now);
    }
  }

  // ---- Whole runs ----

  lemma {:induction false} EveryRunIsSafe(states: seq<System>, steps: seq<Step>, times: seq<int>)
    requires Run(states, steps, times) && states[0] == EMPTY
    ensures SystemOk(states[|steps|])
  {
    hide SystemOk, Next;
    if steps == [] {
      EmptyOk();
    } else {
      var n := |steps| - 1;
      EveryRunIsSafe(states[..n + 1], steps[..n], times[..n]);
      StepSafe(states[n], steps[n], times[n]);
    }
  }

  lemma EmptyOk()
    ensures SystemOk(EMPTY)
  {
  }
}
