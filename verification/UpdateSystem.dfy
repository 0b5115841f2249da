/** The managed-update server: campaigns, enrolled identities, and every
    transaction that changes them. */
module UpdateSystem {
  import opened Optional
  import opened UpdateRow
  import opened UpdateReport
  import opened UpdateCohorts

  datatype CampaignState = Running | Halted | Cancelled | Finished

  datatype Campaign = Campaign(policy: Policy, state: CampaignState, generation: nat, rows: seq<Row>)

  datatype System = System(campaigns: map<nat, Campaign>, identities: map<nat, Identity>, nextRow: nat, clock: int)

  const EMPTY := System(map[], map[], 1, 0)

  /** A row of the database: campaign and position in it. */
  datatype Place = Place(campaign: nat, index: nat)

  predicate Exists(s: System, at: Place)
  {
    at.campaign in s.campaigns && at.index < |s.campaigns[at.campaign].rows|
  }

  function RowAt(s: System, at: Place): Row
    requires Exists(s, at)
  {
    s.campaigns[at.campaign].rows[at.index]
  }

  function PolicyAt(s: System, at: Place): Policy
    requires Exists(s, at)
  {
    s.campaigns[at.campaign].policy
  }

  predicate PolicyValid(p: Policy)
  {
    && 1 <= p.maxUnavailable <= 100 && 1 <= p.canaryCount <= 100 && 1 <= p.waveSize <= 100
    && 10_000 * MILLISECOND <= p.dwell <= 24 * 60 * 60 * 1000 * MILLISECOND
  }

  // ---- Pieces of transactions ----

  function ChangedRows(rows: seq<Row>, ch: Change, now: int): (out: seq<Row>)
    ensures |out| == |rows| && forall i :: 0 <= i < |rows| ==> out[i] == Changed(rows[i], ch, now)
  {
    seq(|rows|, i requires 0 <= i < |rows| => Changed(rows[i], ch, now))
  }

  function WithRow(s: System, at: Place, r: Row): System
    requires Exists(s, at)
  {
    var c := s.campaigns[at.campaign];
    s.(campaigns := s.campaigns[at.campaign := c.(rows := c.rows[at.index := r])])
  }

  function PauseRunning(c: Campaign): Campaign
  {
    if c.state == Running then c.(state := Halted, generation := c.generation + 1) else c
  }

  function WithPause(s: System, campaign: nat): System
    requires campaign in s.campaigns
  {
    s.(campaigns := s.campaigns[campaign := PauseRunning(s.campaigns[campaign])])
  }

  function WithIdentity(s: System, agent: nat, id: Identity): System
  {
    s.(identities := s.identities[agent := id])
  }

  /** One row updated, if the checks before the update hold. */
  function Touch(s: System, at: Place, ch: Change, now: int): System
  {
    if Exists(s, at) &&
      Allowed(RowAt(s, at), PolicyAt(s, at), ch, now) then WithRow(s, at, Changed(RowAt(s, at), ch, now)) else s
  }

  /** The same, pausing the campaign when the row was updated. */
  function TouchAndPause(s: System, at: Place, ch: Change, now: int): System
  {
    var t := Touch(s, at, ch, now);
    if Exists(s, at) && t != s && at.campaign in t.campaigns then WithPause(t, at.campaign) else t
  }

  // ---- Administration ----

  function NewRows(firstId: nat, agents: seq<nat>, p: Policy, now: int): (rows: seq<Row>)
    ensures |rows| == |agents|
    ensures forall i :: 0 <= i < |rows| ==>
      rows[i] == NewRow(firstId + i, agents[i], if i < p.canaryCount then Stage else NoAction, now)
  {
    seq(|agents|, i requires 0 <= i < |agents| =>
      NewRow(firstId + i, agents[i], if i < p.canaryCount then Stage else NoAction, now))
  }

  function Create(s: System, campaign: nat, p: Policy, agents: seq<nat>, now: int): System
  {
    if campaign in s.campaigns || !PolicyValid(p) then s
    else
      s.(campaigns := s.campaigns[campaign := Campaign(p, Running, 1, NewRows(s.nextRow, agents, p, now))],
         nextRow := s.nextRow + |agents|)
  }

  predicate ResumeBlocked(c: Campaign)
  {
    exists r | r in c.rows :: (r.state == Failed || r.state == Blocked) && !(r.cordoned && r.action == Rollback)
  }

  function ChangeState(s: System, campaign: nat, expected: nat, next: CampaignState, now: int): System
  {
    if campaign !in s.campaigns || next == Finished then s
    else
      var c := s.campaigns[campaign];
      if (next == Running && ResumeBlocked(c)) || c.generation != expected || c.state == Cancelled ||
        c.state == Finished then s
      else
        var ch := if next == Cancelled then Canceled else if next == Halted then Paused else Resumed;
        s.(campaigns := s.campaigns[campaign :=
          c.(state := next, generation := c.generation + 1, rows := ChangedRows(c.rows, ch, now))])
  }

  predicate Retryable(c: Campaign, r: Row)
  {
    (r.state == Blocked && r.cordoned) || (c.state != Cancelled && RetryableStage(r))
  }

  function RetryChange(r: Row): Change { if r.state == Blocked && r.cordoned then RolledForRetry else StagedForRetry }

  function RetriedRows(rows: seq<Row>, chosen: set<nat>, now: int): (out: seq<Row>)
    ensures |out| == |rows|
    ensures forall i :: 0 <= i < |rows| ==>
      out[i] == if i in chosen then Changed(rows[i], RetryChange(rows[i]), now) else rows[i]
  {
    seq(|rows|, i requires 0 <= i < |rows| =>
      if i in chosen then Changed(rows[i], RetryChange(rows[i]), now) else rows[i])
  }

  function Retry(s: System, campaign: nat, expected: nat, chosen: set<nat>, now: int): System
  {
    if campaign !in s.campaigns then s
    else
      var c := s.campaigns[campaign];
      if chosen == {} || c.generation != expected || c.state == Finished ||
        !(forall i | i in chosen :: i < |c.rows| && Retryable(c, c.rows[i])) then s
      else s.(campaigns :=
        s.campaigns[campaign := c.(generation := c.generation + 1, rows := RetriedRows(c.rows, chosen, now))])
  }

  // ---- Advancing a staged row ----

  function Unavailable(rows: seq<Row>): nat
  {
    if rows == [] then 0
    else Unavailable(rows[..|rows| - 1]) +
         var r := rows[|rows| - 1]; if r.cordoned || r.state == Activating || PostAction(r.state) then 1 else 0
  }

  /** Raises the fence when the row's cohort is ready and a slot is free; a
      cohort with a broken row pauses the campaign instead. */
  ghost function Advance(s: System, at: Place, now: int): System
  {
    if !Exists(s, at) || s.campaigns[at.campaign].state != Running || RowAt(s, at).state != Staged then s
    else
      var c := s.campaigns[at.campaign];
      var cohort := CohortOf(c.policy, |c.rows|, at.index);
      if cohort.end > |c.rows| then s
      else if CohortBroken(c.rows, cohort) then WithPause(s, at.campaign)
      else if !CohortReady(c.rows, cohort) then s
      else if Unavailable(c.rows) >= c.policy.maxUnavailable || Unavailable(c.rows) >= cohort.end - cohort.start then s
      else WithRow(s, at, Changed(RowAt(s, at), Fenced, now))
  }

  /** Issues the activation command of a drained row. */
  function Authorize(s: System, at: Place, nonce: nat, version: string, now: int): System
  {
    if !Exists(s, at) || s.campaigns[at.campaign].state != Running || RowAt(s, at).agent !in s.identities then s
    else
      var r, id := RowAt(s, at), s.identities[RowAt(s, at).agent];
      var auth := Issued(r, at.campaign, PolicyAt(s, at), id, Activate, nonce, version, now);
      if auth.None? || !r.cordoned || !Allowed(r, PolicyAt(s, at), Authorized(auth.value), now) then s
      else WithIdentity(WithRow(s, at, Changed(r, Authorized(auth.value), now)), r.agent,
        id.(lastCommand := id.lastCommand + 1))
  }

  /** Reuses a stored, unexpired, canonical command or issues a new one. */
  function Ensure(s: System, at: Place, nonce: nat, version: string, now: int): System
  {
    if !Exists(s, at) || RowAt(s, at).agent !in s.identities then s
    else
      var r, c := RowAt(s, at), s.campaigns[at.campaign];
      var id := s.identities[r.agent];
      if !Active(r) || !Privileged(r.action) ||
        !CampaignAllows(c.state == Running, c.state == Cancelled, r.action) then s
      else if AuthAction(r) == r.action && r.auth.value.expires > Truncated(now) &&
        StoredCanonical(r, at.campaign, c.policy, id) then s
      else
        var auth := Issued(r, at.campaign, c.policy, id, r.action, nonce, version, now);
        if auth.None? then s
        else WithIdentity(WithRow(s, at, Changed(r, Reauthorized(auth.value), now)), r.agent,
          id.(lastCommand := id.lastCommand + 1))
  }

  // ---- Reports ----

  /** A report that moves the counter at most. */
  function Acknowledge(s: System, m: Report): System
    requires m.agent in s.identities
  {
    var id := s.identities[m.agent];
    if m.counter > id.lastCounter then WithIdentity(s, m.agent, id.(lastCounter := m.counter)) else s
  }

  predicate NamesRow(m: Report, r: Row) { r.id == m.assignment && r.agent == m.agent }

  /** A report about a row it does not match: acknowledged if it is older than the
      row or the row is over. */
  function AcknowledgeRow(s: System, m: Report, r: Row): System
    requires m.agent in s.identities
  {
    if m.generation >= r.generation && !Terminal(r.state) then s else Acknowledge(s, m)
  }

  /** A report about a row the server has moved on from. */
  function Superseded(s: System, m: Report, named: Option<Place>): System
    requires m.agent in s.identities
  {
    if named.None? || !Exists(s, named.value) || !NamesRow(m, RowAt(s, named.value)) then s
    else
      var r := RowAt(s, named.value);
      if m.generation > r.generation then s else AcknowledgeRow(s, m, r)
  }

  /** A report about the agent's active row `at`, if it has one; `named` is the
      row whose id the report carries. */
  function Receive(s: System, m: Report, at: Option<Place>, named: Option<Place>, now: int): System
  {
    if m.agent !in s.identities then s
    else if at.None? || !Exists(s, at.value) then Superseded(s, m, named)
    else
      var r, id := RowAt(s, at.value), s.identities[m.agent];
      if r.agent != m.agent || !Active(r) then s
      else if r.id != m.assignment then Superseded(s, m, named)
      else if r.generation != m.generation then AcknowledgeRow(s, m, r)
      else
        match Judge(r, at.value.campaign, PolicyAt(s, at.value), id, m, now)
        case Rejected => s
        case Acknowledged => Acknowledge(s, m)
        case Applied(row, rootCounter, pause) =>
          if m.counter <= id.lastCounter || (rootCounter.Some? && rootCounter.value <= id.lastRoot) then s
          else
            var t := WithRow(s, at.value, row);
            var u := if pause then WithPause(t, at.value.campaign) else t;
            WithIdentity(u, m.agent,
              id.(lastCounter := m.counter, lastRoot := if rootCounter.Some? then rootCounter.value else id.lastRoot))
  }

  function Check(s: System, agent: nat, counter: nat): System
  {
    if agent in s.identities && counter > s.identities[agent].lastCounter
    then WithIdentity(s, agent, s.identities[agent].(lastCounter := counter)) else s
  }

  // ---- Maintenance ----

  function SeenRows(rows: seq<Row>, agent: nat, conn: Conn, now: int): (out: seq<Row>)
    ensures |out| == |rows|
    ensures forall i :: 0 <= i < |rows| ==>
      out[i] == if rows[i].agent == agent then Changed(rows[i], TunnelSeen(conn), now) else rows[i]
  {
    seq(|rows|, i requires 0 <= i < |rows| =>
      if rows[i].agent == agent then Changed(rows[i], TunnelSeen(conn), now) else rows[i])
  }

  function SeeTunnel(s: System, agent: nat, conn: Conn, now: int): System
  {
    s.(campaigns := map k | k in s.campaigns ::
      s.campaigns[k].(rows := SeenRows(s.campaigns[k].rows, agent, conn, now)))
  }

  function ReleaseCohort(s: System, campaign: nat, now: int): System
  {
    if campaign !in s.campaigns || s.campaigns[campaign].state != Running then s
    else
      var c := s.campaigns[campaign];
      s.(campaigns := s.campaigns[campaign := c.(rows := ReleasedRows(c.rows, c.policy, now))])
  }

  predicate AllDone(c: Campaign) { forall r | r in c.rows :: !Active(r) }

  function Finalized(c: Campaign): Campaign
  {
    if c.state == Running && AllDone(c) then c.(state := Finished, generation := c.generation + 1) else c
  }

  function Finalize(s: System): System
  {
    s.(campaigns := map k | k in s.campaigns :: Finalized(s.campaigns[k]))
  }

  // ---- Enrollment ----

  ghost predicate HasActiveRow(s: System, agent: nat)
  {
    exists at :: Exists(s, at) && RowAt(s, at).agent == agent && Active(RowAt(s, at))
  }

  /** A new identity; each replay floor survives exactly if its key does. */
  ghost function Enroll(s: System, agent: nat, updater: nat, activator: nat, authority: Authority, os: string,
      arch: string): System
  {
    if HasActiveRow(s, agent) then s
    else if agent !in s.identities then
      WithIdentity(s, agent, Identity(updater, activator, authority, os, arch, 0, 0, 0))
    else
      var prev := s.identities[agent];
      WithIdentity(s, agent, Identity(updater, activator, authority, os, arch,
                                      if prev.updater == updater then prev.lastCounter else 0,
                                      if prev.authority == authority then prev.lastCommand else 0,
                                      if prev.activator == activator then prev.lastRoot else 0))
  }

  // ---- Steps ----

  datatype Step =
    | Creating(campaign: nat, policy: Policy, agents: seq<nat>)
    | ChangingState(campaign: nat, expected: nat, next: CampaignState)
    | Retrying(campaign: nat, expected: nat, chosen: set<nat>)
    | Advancing(at: Place)
    | Authorizing(at: Place, nonce: nat, version: string)
    | Ensuring(at: Place, nonce: nat, version: string)
    | LosingQuorum(at: Place, detail: string)
    | TimingOutDrain(at: Place)
    | Receiving(m: Report, active: Option<Place>, named: Option<Place>)
    | Checking(agent: nat, counter: nat)
    | SeeingTunnel(agent: nat, conn: Conn)
    | TimingOutEvidence(at: Place, live: Option<Conn>)
    | Recovering(at: Place, conn: Conn)
    | Completing(at: Place, conn: Conn)
    | TimingOutStage(at: Place)
    | TimingOutRoot(at: Place)
    | ReleasingCohort(campaign: nat)
    | Finalizing
    | Enrolling(agent: nat, updater: nat, activator: nat, authority: Authority, os: string, arch: string)

  predicate CampaignRunning(s: System, at: Place) { Exists(s, at) && s.campaigns[at.campaign].state == Running }

  /** What a step does to the tables; a step whose checks fail does nothing. */
  ghost function Act(s: System, step: Step, now: int): System
  {
    match step
    case Creating(campaign, policy, agents) => Create(s, campaign, policy, agents, now)
    case ChangingState(campaign, expected, next) => ChangeState(s, campaign, expected, next, now)
    case Retrying(campaign, expected, chosen) => Retry(s, campaign, expected, chosen, now)
    case Advancing(at) => Advance(s, at, now)
    case Authorizing(at, nonce, version) => Authorize(s, at, nonce, version, now)
    case Ensuring(at, nonce, version) => Ensure(s, at, nonce, version, now)
    case LosingQuorum(at, detail) => if CampaignRunning(s, at) then TouchAndPause(s, at, QuorumLost(detail), now) else s
    case TimingOutDrain(at) => if CampaignRunning(s, at) then TouchAndPause(s, at, DrainTimedOut, now) else s
    case Receiving(m, active, named) => Receive(s, m, active, named, now)
    case Checking(agent, counter) => Check(s, agent, counter)
    case SeeingTunnel(agent, conn) => SeeTunnel(s, agent, conn, now)
    case TimingOutEvidence(at, live) => TouchAndPause(s, at, EvidenceTimedOut(live), now)
    case Recovering(at, conn) => Touch(s, at, UpdateRow.Recovered(conn), now)
    case Completing(at, conn) => if CampaignRunning(s, at) then Touch(s, at, UpdateRow.Completed(conn), now) else s
    case TimingOutStage(at) => if CampaignRunning(s, at) then TouchAndPause(s, at, UpdateRow.StageTimedOut, now) else s
    case TimingOutRoot(at) => TouchAndPause(s, at, UpdateRow.RootTimedOut, now)
    case ReleasingCohort(campaign) => ReleaseCohort(s, campaign, now)
    case Finalizing => Finalize(s)
    case Enrolling(agent, updater, activator, authority, os, arch) =>
      Enroll(s, agent, updater, activator, authority, os, arch)
  }

  ghost function Next(s: System, step: Step, now: int): System { Act(s, step, now).(clock := now) }

  /** A history of the server: states, steps, and the times they were taken. */
  ghost predicate Run(states: seq<System>, steps: seq<Step>, times: seq<int>)
  {
    && |states| == |steps| + 1 && |times| == |steps|
    && forall i :: 0 <= i < |steps| ==>
      states[i].clock <= times[i] && states[i + 1] == Next(states[i], steps[i], times[i])
  }
}
