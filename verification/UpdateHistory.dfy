/** Properties of whole histories of the update server: fences, finished rows,
    replay of reports, and the order of commands and receipts. */
module UpdateHistory {
  import opened Optional
  import opened UpdateRow
  import opened UpdateReport
  import opened UpdateCohorts
  import opened UpdateSystem
  import opened UpdateSafety
  import opened UpdateRuns

  // ---- What is newly signed or proved in a step ----

  /** Nothing new is signed or proved on the row. */
  ghost predicate NoNews(r: Row, t: Row)
  {
    (t.auth == r.auth || t.auth.None?) && (t.root == r.root || t.root.None?)
  }

  ghost predicate NoNewsAt(s: System, t: System, at: Place)
  {
    Exists(t, at) ==>
      if Exists(s, at) then NoNews(RowAt(s, at), RowAt(t, at)) else RowAt(t, at).auth.None? && RowAt(t, at).root.None?
  }

  ghost predicate NoNewsAnywhere(s: System, t: System) { forall at :: NoNewsAt(s, t, at) }

  lemma PlainChangeNoNews(r: Row, ch: Change, now: int)
    requires !ch.Authorized? && !ch.Reauthorized?
    ensures NoNews(r, Changed(r, ch, now))
  {
  }

  lemma TouchNoNews(s: System, at: Place, ch: Change, now: int)
    requires !ch.Authorized? && !ch.Reauthorized?
    ensures NoNewsAnywhere(s, Touch(s, at, ch, now)) && NoNewsAnywhere(s, TouchAndPause(s, at, ch, now))
  {
    hide Changed, Allowed;
    if Exists(s, at) { PlainChangeNoNews(RowAt(s, at), ch, now); }
  }

  lemma RowsNoNews(s: System, t: System, campaign: nat)
    requires campaign in s.campaigns && campaign in t.campaigns &&
      t.campaigns == s.campaigns[campaign := t.campaigns[campaign]]
    requires |t.campaigns[campaign].rows| == |s.campaigns[campaign].rows|
    requires forall i :: 0 <= i < |s.campaigns[campaign].rows| ==>
      NoNews(s.campaigns[campaign].rows[i], t.campaigns[campaign].rows[i])
    ensures NoNewsAnywhere(s, t)
  {
  }

  lemma CampaignNoNews(s: System, step: Step, now: int)
    requires step.ChangingState? || step.Retrying? || step.ReleasingCohort?
    ensures NoNewsAnywhere(s, Act(s, step, now))
  {
    hide Changed, ResumeBlocked, RetryableStage, NoNewsAnywhere;
    var t := Act(s, step, now);
    if t.campaigns == s.campaigns {
      SameNoNews(s, t);
    } else {
      var c, d := s.campaigns[step.campaign], t.campaigns[step.campaign];
      forall i | 0 <= i < |c.rows| ensures NoNews(c.rows[i], d.rows[i]) {
        PlainChangeNoNews(c.rows[i], Canceled, now);
        PlainChangeNoNews(c.rows[i], Paused, now);
        PlainChangeNoNews(c.rows[i], Resumed, now);
        PlainChangeNoNews(c.rows[i], RetryChange(c.rows[i]), now);
        PlainChangeNoNews(c.rows[i], Released, now);
      }
      RowsNoNews(s, t, step.campaign);
    }
  }

  lemma SameNoNews(s: System, t: System)
    requires t.campaigns == s.campaigns
    ensures NoNewsAnywhere(s, t)
  {
  }

  lemma FenceNoNews(s: System, at: Place, now: int)
    ensures NoNewsAnywhere(s, Advance(s, at, now))
  {
    hide Changed, CohortBroken, CohortReady;
    if Exists(s, at) { PlainChangeNoNews(RowAt(s, at), Fenced, now); }
  }

  lemma TunnelNoNews(s: System, agent: nat, conn: Conn, now: int)
    ensures NoNewsAnywhere(s, SeeTunnel(s, agent, conn, now))
  {
    hide Changed;
    forall at | Exists(s, at) ensures NoNews(RowAt(s, at), RowAt(SeeTunnel(s, agent, conn, now), at)) {
      PlainChangeNoNews(RowAt(s, at), TunnelSeen(conn), now);
    }
  }

  lemma CreateNoNews(s: System, campaign: nat, p: Policy, agents: seq<nat>, now: int)
    ensures NoNewsAnywhere(s, Create(s, campaign, p, agents, now))
  {
  }

  predicate Signs(step: Step) { step.Authorizing? || step.Ensuring? || step.Receiving? }

  /** Only issuing a command or receiving a report signs or proves anything. */
  lemma OnlySomeStepsSign(s: System, step: Step, now: int)
    requires !Signs(step)
    ensures NoNewsAnywhere(s, Act(s, step, now))
  {
    hide NoNewsAnywhere, Create, ChangeState, Retry, Advance, Touch, TouchAndPause, SeeTunnel, ReleaseCohort;
    SameNoNews(s, s);
    match step {
      case Creating(campaign, policy, agents) => CreateNoNews(s, campaign, policy, agents, now);
      case ChangingState(_, _, _) => CampaignNoNews(s, step, now);
      case Retrying(_, _, _) => CampaignNoNews(s, step, now);
      case ReleasingCohort(_) => CampaignNoNews(s, step, now);
      case Advancing(at) => FenceNoNews(s, at, now);
      case LosingQuorum(at, detail) => TouchNoNews(s, at, QuorumLost(detail), now);
      case TimingOutDrain(at) => TouchNoNews(s, at, DrainTimedOut, now);
      case TimingOutEvidence(at, live) => TouchNoNews(s, at, EvidenceTimedOut(live), now);
      case Recovering(at, conn) => TouchNoNews(s, at, UpdateRow.Recovered(conn), now);
      case Completing(at, conn) => TouchNoNews(s, at, UpdateRow.Completed(conn), now);
      case TimingOutStage(at) => TouchNoNews(s, at, UpdateRow.StageTimedOut, now);
      case TimingOutRoot(at) => TouchNoNews(s, at, UpdateRow.RootTimedOut, now);
      case SeeingTunnel(agent, conn) => TunnelNoNews(s, agent, conn, now);
      case Finalizing => FinalizeNoNews(s);
      case Checking(_, _) => SameNoNews(s, Act(s, step, now));
      case Enrolling(_, _, _, _, _, _) => SameNoNews(s, Act(s, step, now));
    }
  }

  lemma FinalizeNoNews(s: System)
    ensures NoNewsAnywhere(s, Finalize(s))
  {
    hide AllDone;
  }

  /** A command stored by this step at `at`. */
  ghost predicate NewCommand(s: System, t: System, at: Place)
  {
    Exists(s, at) && Exists(t, at) && RowAt(t, at).auth.Some? && RowAt(t, at).auth != RowAt(s, at).auth
  }

  /** A receipt accepted by this step at `at`. */
  ghost predicate NewReceipt(s: System, t: System, at: Place)
  {
    Exists(s, at) && Exists(t, at) && RowAt(t, at).root.Some? && RowAt(t, at).root != RowAt(s, at).root
  }

  lemma NewsMeansSigns(s: System, step: Step, now: int, at: Place)
    requires NewCommand(s, Act(s, step, now), at) || NewReceipt(s, Act(s, step, now), at)
    ensures Signs(step)
  {
    if !Signs(step) { NoNewsHere(s, step, now, at); }
  }

  lemma NoNewsHere(s: System, step: Step, now: int, at: Place)
    requires !Signs(step)
    ensures NoNewsAt(s, Act(s, step, now), at)
  {
    hide Act, NoNewsAt;
    OnlySomeStepsSign(s, step, now);
  }

  /** A new command carries the next sequence number of its agent, and is the
      action the row asks for. */
  lemma NewCommandIsNext(s: System, step: Step, now: int, at: Place)
    requires NewCommand(s, Act(s, step, now), at)
    ensures var t := Act(s, step, now); var a, agent := RowAt(t, at).auth.value, RowAt(s, at).agent;
      && RowAt(t, at).agent == agent && a.agent == agent && a.action == RowAt(t, at).action && Privileged(a.action)
      && agent in s.identities && agent in t.identities
      && a.sequence == t.identities[agent].lastCommand == s.identities[agent].lastCommand + 1
  {
    hide StoredCanonical, Judge;
    NewsMeansSigns(s, step, now, at);
    if step.Receiving? { ReceiveSignsNothing(s, step.m, step.active, step.named, now, at); }
  }

  lemma ReceiveSignsNothing(s: System, m: Report, active: Option<Place>, named: Option<Place>, now: int, at: Place)
    requires Exists(s, at)
    ensures Exists(Receive(s, m, active, named, now), at) &&
      RowAt(Receive(s, m, active, named, now), at).auth == RowAt(s, at).auth
  {
    hide Judge;
    if active.Some? && Exists(s, active.value) && m.agent in s.identities {
      JudgeSignsNothing(RowAt(s, active.value), active.value.campaign, PolicyAt(s, active.value),
        s.identities[m.agent], m, now);
    }
    hide Judge;
  }

  lemma JudgeSignsNothing(r: Row, campaign: nat, p: Policy, id: Identity, m: Report, now: int)
    ensures var v := Judge(r, campaign, p, id, m, now);
      v.Applied? ==>
        && v.row.auth == r.auth
        && (|| v.row.root == r.root
            || (v.rootCounter.Some? && v.row.root.Some? && v.row.root.value.receipt.counter == v.rootCounter.value))
  {
    hide FirstArtifact, ReceiptVerifies, LostResponse, OnRecord;
  }

  /** A newly accepted receipt raises its agent's root counter to its own. */
  lemma NewReceiptIsNewer(s: System, step: Step, now: int, at: Place)
    requires NewReceipt(s, Act(s, step, now), at)
    ensures var t := Act(s, step, now); var agent := RowAt(s, at).agent;
      && agent in s.identities && agent in t.identities
      && RowAt(t, at).root.value.receipt.counter == t.identities[agent].lastRoot > s.identities[agent].lastRoot
  {
    hide StoredCanonical, Judge, Issued;
    NewsMeansSigns(s, step, now, at);
    if step.Receiving? && step.active.Some? && Exists(s, step.active.value) && step.m.agent in s.identities {
      JudgeSignsNothing(RowAt(s, step.active.value), step.active.value.campaign, PolicyAt(s, step.active.value),
                        s.identities[step.m.agent], step.m, now);
    }
  }

  // ---- Replay floors ----

  predicate Reenrolls(step: Step, agent: nat) { step.Enrolling? && step.agent == agent }

  /** No replay floor falls, except by re-enrolling its own agent. */
  lemma FloorsHold(s: System, step: Step, now: int, agent: nat)
    requires agent in s.identities && !Reenrolls(step, agent)
    ensures var t := Act(s, step, now);
      && agent in t.identities
      && t.identities[agent].lastCounter >= s.identities[agent].lastCounter
      && t.identities[agent].lastCommand >= s.identities[agent].lastCommand
      && t.identities[agent].lastRoot >= s.identities[agent].lastRoot
  {
    hide Changed, Allowed, Judge, CohortBroken, CohortReady, Issued, StoredCanonical, HasActiveRow, ResumeBlocked;
    hide SeeTunnel, ReleasedRows, RetriedRows;
    TablesOnly(s, step, now);
  }

  /** Steps that leave the identities alone. */
  lemma TablesOnly(s: System, step: Step, now: int)
    ensures !Signs(step) && !step.Checking? && !step.Enrolling? ==> Act(s, step, now).identities == s.identities
  {
    hide Changed, Allowed, Judge, CohortBroken, CohortReady, Issued, StoredCanonical, HasActiveRow, ResumeBlocked;
  }

  /** Re-enrolling with the same keys keeps every floor. */
  lemma ReenrollKeepsFloors(s: System, agent: nat, updater: nat, activator: nat, authority: Authority, os: string,
      arch: string)
    requires agent in s.identities
    ensures var t, old' := Enroll(s, agent, updater, activator, authority, os, arch), s.identities[agent];
      && agent in t.identities && t.campaigns == s.campaigns
      && (old'.updater == updater ==> t.identities[agent].lastCounter == old'.lastCounter)
      && (old'.authority == authority ==> t.identities[agent].lastCommand == old'.lastCommand)
      && (old'.activator == activator ==> t.identities[agent].lastRoot == old'.lastRoot)
      && (HasActiveRow(s, agent) ==> t == s)
  {
  }

  lemma {:induction false} FloorsOverRun(states: seq<System>, steps: seq<Step>, times: seq<int>, j: nat, k: nat,
      agent: nat)
    requires Run(states, steps, times) && j <= k <= |steps| && agent in states[j].identities
    requires forall i :: j <= i < k ==> !Reenrolls(steps[i], agent)
    ensures agent in states[k].identities
    ensures states[k].identities[agent].lastCommand >= states[j].identities[agent].lastCommand
    ensures states[k].identities[agent].lastRoot >= states[j].identities[agent].lastRoot
    ensures states[k].identities[agent].lastCounter >= states[j].identities[agent].lastCounter
    decreases k
  {
    hide Act;
    if j < k {
      FloorsOverRun(states, steps, times, j, k - 1, agent);
      FloorsHold(states[k - 1], steps[k - 1], times[k - 1], agent);
    }
  }

  /** Between re-enrollments no command sequence is issued twice, and later
      commands carry larger ones. */
  lemma CommandsIncrease(states: seq<System>, steps: seq<Step>, times: seq<int>, j: nat, k: nat, at: Place,
      later: Place)
    requires Run(states, steps, times) && j < k < |steps|
    requires NewCommand(states[j], states[j + 1], at) && NewCommand(states[k], states[k + 1], later)
    requires RowAt(states[j], at).agent == RowAt(states[k], later).agent
    requires forall i :: j < i < k ==> !Reenrolls(steps[i], RowAt(states[j], at).agent)
    ensures RowAt(states[j + 1], at).auth.value.sequence < RowAt(states[k + 1], later).auth.value.sequence
  {
    hide Act;
    NewCommandIsNext(states[j], steps[j], times[j], at);
    NewCommandIsNext(states[k], steps[k], times[k], later);
    FloorsOverRun(states, steps, times, j + 1, k, RowAt(states[j], at).agent);
  }

  /** Between re-enrollments no root receipt is accepted twice. */
  lemma ReceiptsIncrease(states: seq<System>, steps: seq<Step>, times: seq<int>, j: nat, k: nat, at: Place,
      later: Place)
    requires Run(states, steps, times) && j < k < |steps|
    requires NewReceipt(states[j], states[j + 1], at) && NewReceipt(states[k], states[k + 1], later)
    requires RowAt(states[j], at).agent == RowAt(states[k], later).agent
    requires forall i :: j < i < k ==> !Reenrolls(steps[i], RowAt(states[j], at).agent)
    ensures RowAt(states[j + 1], at).root.value.receipt.counter < RowAt(states[k + 1], later).root.value.receipt.counter
  {
    hide Act;
    NewReceiptIsNewer(states[j], steps[j], times[j], at);
    NewReceiptIsNewer(states[k], steps[k], times[k], later);
    FloorsOverRun(states, steps, times, j + 1, k, RowAt(states[j], at).agent);
  }

  // ---- Replayed and superseded reports ----

  /** A report whose counter is not new changes nothing at all, whatever row it
      names and whatever it says. */
  lemma ReplayChangesNothing(s: System, m: Report, active: Option<Place>, named: Option<Place>, now: int)
    requires m.agent in s.identities && m.counter <= s.identities[m.agent].lastCounter
    ensures Receive(s, m, active, named, now) == s
  {
    hide Judge;
  }

  /** A report about another row, or another generation of the active row, moves
      the agent's counter at most. */
  lemma OtherGenerationMovesCounterOnly(s: System, m: Report, active: Option<Place>, named: Option<Place>, now: int)
    requires m.agent in s.identities
    requires active.None? || !Exists(s, active.value) || RowAt(s, active.value).id != m.assignment ||
      RowAt(s, active.value).generation != m.generation
    ensures var t := Receive(s, m, active, named, now);
      t == s || t == WithIdentity(s, m.agent, s.identities[m.agent].(lastCounter := m.counter))
  {
    hide Judge;
  }

  // ---- Rows over a run ----

  lemma {:induction false} OkThroughout(states: seq<System>, steps: seq<Step>, times: seq<int>, k: nat)
    requires Run(states, steps, times) && states[0] == EMPTY && k <= |steps|
    ensures SystemOk(states[k])
  {
    hide Next, SystemOk;
    EveryRunIsSafe(states[..k + 1], steps[..k], times[..k]);
  }

  lemma RowStepsOn(s: System, step: Step, now: int, at: Place)
    requires SystemOk(s) && s.clock <= now && Exists(s, at)
    ensures var t := Next(s, step, now);
      Exists(t, at) && PolicyAt(t, at) == PolicyAt(s, at) && Evolves(RowAt(s, at), RowAt(t, at), PolicyAt(s, at))
  {
    StepSafe(s, step, now);
    hide Next, SystemOk, CampaignOk, Evolves;
    assert CampaignNext(s.campaigns[at.campaign], Next(s, step, now).campaigns[at.campaign], now);
  }

  /** Rows are never deleted and a succeeded row never changes again. */
  lemma {:induction false} SucceededForever(states: seq<System>, steps: seq<Step>, times: seq<int>, j: nat, k: nat,
      at: Place)
    requires Run(states, steps, times) && states[0] == EMPTY && j <= k <= |steps| && Exists(states[j], at)
    ensures Exists(states[k], at) && PolicyAt(states[k], at) == PolicyAt(states[j], at)
    ensures RowAt(states[j], at).state == Succeeded ==> RowAt(states[k], at) == RowAt(states[j], at)
    decreases k
  {
    hide Next, SystemOk;
    if j < k {
      SucceededForever(states, steps, times, j, k - 1, at);
      OkThroughout(states, steps, times, k - 1);
      RowStepsOn(states[k - 1], steps[k - 1], times[k - 1], at);
    }
  }

  lemma CommandMeansCommitted(s: System, step: Step, now: int, at: Place)
    requires SystemOk(s) && s.clock <= now && NewCommand(s, Next(s, step, now), at)
    ensures Committed(RowAt(Next(s, step, now), at))
  {
    NewCommandIsNext(s, step, now, at);
    StepSafe(s, step, now);
    RowIsOk(Next(s, step, now), at);
    hide Next, SystemOk, EvidenceOk, SuccessOk;
    PrivilegedIsCommitted(RowAt(Next(s, step, now), at), PolicyAt(Next(s, step, now), at), now);
  }

  lemma PrivilegedIsCommitted(r: Row, p: Policy, clock: int)
    requires RowOk(r, p, clock) && Privileged(r.action)
    ensures Committed(r)
  {
    hide EvidenceOk, SuccessOk;
  }

  /** At some time in (from, upTo] the row was finished with proof. */
  ghost predicate FinishedBetween(states: seq<System>, from: nat, upTo: nat, at: Place)
    requires upTo < |states|
  {
    exists m :: from < m <= upTo && Exists(states[m], at) &&
      FinishedWithProof(RowAt(states[m], at), PolicyAt(states[m], at))
  }

  lemma {:induction false} CommittedStays(states: seq<System>, steps: seq<Step>, times: seq<int>, j: nat, k: nat,
      at: Place)
    requires Run(states, steps, times) && states[0] == EMPTY && j <= k <= |steps| && Exists(states[j], at)
    requires Committed(RowAt(states[j], at))
    ensures Exists(states[k], at)
    ensures Committed(RowAt(states[k], at)) || FinishedBetween(states, j, k, at)
    decreases k
  {
    hide Next, SystemOk, FinishedWithProof, Committed;
    if j < k {
      CommittedStays(states, steps, times, j, k - 1, at);
      OkThroughout(states, steps, times, k - 1);
      RowStepsOn(states[k - 1], steps[k - 1], times[k - 1], at);
    }
  }

  /** Once a privileged command is out for a row, the row stays fenced until its
      success is proved or its rollback is, through any history whatever. */
  lemma FenceSafety(states: seq<System>, steps: seq<Step>, times: seq<int>, j: nat, k: nat, at: Place)
    requires Run(states, steps, times) && states[0] == EMPTY && j < k <= |steps|
    requires NewCommand(states[j], states[j + 1], at)
    ensures Exists(states[k], at)
    ensures RowAt(states[k], at).cordoned || FinishedBetween(states, j, k, at)
  {
    hide Next, SystemOk, FinishedWithProof;
    OkThroughout(states, steps, times, j);
    CommandMeansCommitted(states[j], steps[j], times[j], at);
    CommittedStays(states, steps, times, j + 1, k, at);
    if FinishedBetween(states, j + 1, k, at) {
      var m :| j + 1 < m <= k && Exists(states[m], at) &&
        FinishedWithProof(RowAt(states[m], at), PolicyAt(states[m], at));
    }
  }

  // ---- What a reader can rely on in every reachable state ----

  lemma Reachable(states: seq<System>, steps: seq<Step>, times: seq<int>, campaign: nat)
    requires Run(states, steps, times) && states[0] == EMPTY && campaign in states[|steps|].campaigns
    ensures var c := states[|steps|].campaigns[campaign];
      && CordonedCount(c.rows) <= c.policy.maxUnavailable
      && (forall i :: 0 <= i < |c.rows| && PostAction(c.rows[i].state) ==> c.rows[i].cordoned)
      && (forall i :: 0 <= i < |c.rows| && c.rows[i].freshAt.Some? ==>
        c.rows[i].root.Some? && c.rows[i].root.value.completedAt < c.rows[i].freshAt.value)
      && (forall i :: 0 <= i < |c.rows| && c.rows[i].state == Succeeded ==> SuccessOk(c.rows[i], c.policy))
      && CohortOrder(c.rows, c.policy)
  {
    hide Next;
    EveryRunIsSafe(states, steps, times);
    assert CampaignOk(states[|steps|].campaigns[campaign], states[|steps|].clock);
  }

  /** All fenced rows of a campaign are in one cohort. */
  lemma FencesShareACohort(c: Campaign, clock: int, i: nat, j: nat)
    requires CampaignOk(c, clock) && i < |c.rows| && j < |c.rows| && c.rows[i].cordoned && c.rows[j].cordoned
    ensures CohortOf(c.policy, |c.rows|, i) == CohortOf(c.policy, |c.rows|, j)
  {
    CohortsAgree(c.policy, |c.rows|, i, j);
    CohortInPlan(c.policy, |c.rows|, i);
    CohortInPlan(c.policy, |c.rows|, j);
    hide CohortOf, EvidenceOk, SuccessOk;
    assert RowOk(c.rows[i], c.policy, clock) && RowOk(c.rows[j], c.policy, clock);
  }
}
