/** What the server does with one authenticated report about the agent's active
    assignment, and how it issues and checks signed root commands. */
module UpdateReport {
  import opened Optional
  import opened UpdateRow
  import opened Widths

  const AUTHORIZATION_LIFETIME: int := 24 * 60 * 60 * 1000 * MILLISECOND
  const CLOCK_SKEW: int := 5 * 60 * 1000 * MILLISECOND

  /** An enrolled updater and its replay floors. */
  datatype Identity = Identity(
    updater: nat,
    activator: nat,
    authority: Authority,
    os: string,
    arch: string,
    lastCounter: nat,
    lastCommand: nat,
    lastRoot: nat)

  datatype ReportKind = Downloading | StagingDone | ActivationDone | Healthy | Failure | RollbackDone | Unsupported

  /** A report whose updater signature was verified.  `receipt` is absent when it
      is malformed; `genuine` says its signature verifies under the activator key. */
  datatype Report = Report(
    agent: nat,
    counter: nat,
    assignment: nat,
    generation: nat,
    kind: ReportKind,
    manifest: string,
    binary: string,
    running: Build,
    failureCode: string,
    failureDetail: string,
    receipt: Option<Receipt>,
    signature: nat,
    genuine: bool)

  /** Acknowledged reports may move the counter and nothing else. */
  datatype Verdict = Rejected | Acknowledged | Applied(row: Row, rootCounter: Option<nat>, pause: bool)

  // ---- Signed commands ----

  /** The next command for this row, or none when the sequence is exhausted or
      the campaign has no artifact for the platform. */
  function Issued(r: Row, campaign: nat, p: Policy, id: Identity, action: Action, nonce: nat, version: string,
      now: int): Option<Auth>
  {
    var artifact := FirstArtifact(p.artifacts, id.os, id.arch);
    if artifact.None? || id.lastCommand >= MAX_INT64 then None
    else Some(Auth(r.agent, r.id, campaign, r.generation, action, id.lastCommand + 1, nonce, Truncated(now),
                   Truncated(now) + AUTHORIZATION_LIFETIME, id.authority, version, p.release, artifact.value))
  }

  /** The stored authorization is the canonical one of the current row. */
  predicate StoredCanonical(r: Row, campaign: nat, p: Policy, id: Identity)
  {
    && r.auth.Some? && r.auth.value.sequence > 0
    && var artifact := FirstArtifact(p.artifacts, id.os, id.arch);
       var a := r.auth.value;
       && artifact.Some?
       && a == Auth(r.agent, r.id, campaign, r.generation, a.action, a.sequence, a.nonce, a.issued, a.expires,
                    id.authority, a.serverVersion, p.release, artifact.value)
  }

  predicate CampaignAllows(running: bool, canceled: bool, action: Action)
  {
    (action == Activate && running) || (action == Rollback && (running || canceled))
  }

  /** The receipt proves that the activator consumed the stored authorization
      for the expected action, newly, within its lifetime, with a result this
      campaign accepts for that action. */
  predicate ReceiptVerifies(r: Row, campaign: nat, p: Policy, id: Identity, rc: Receipt, genuine: bool,
      expected: Action, now: int)
  {
    && StoredCanonical(r, campaign, p, id)
    && var a := r.auth.value;
       && a.action == expected
       && rc.assignment == r.id && rc.campaign == campaign && rc.generation == r.generation
       && rc.sequence == a.sequence && rc.nonce == a.nonce && rc.activator == id.activator
       && a.issued <= rc.completed <= a.expires && rc.completed <= now + CLOCK_SKEW
       && genuine
       && rc.agent == r.agent && rc.action == expected && rc.authorization == a && rc.authority == id.authority
       && rc.counter > id.lastRoot && 0 < rc.counter <= MAX_INT64
       && var artifact := FirstArtifact(p.artifacts, id.os, id.arch);
          if expected == Activate then
            rc.result.kind == ReleaseResult && artifact == Some(rc.result.artifact) && rc.result.release == p.release
          else
            && rc.result.artifact.os == id.os && rc.result.artifact.arch == id.arch
            && !(artifact.Some? && rc.result.kind == ReleaseResult && rc.result.release.build == p.release.build
                 && rc.result.artifact.digest == artifact.value.digest)
  }

  // ---- Reports ----

  predicate RepeatsResult(m: Report, result: Result)
  {
    m.manifest == result.release.manifest && m.binary == result.artifact.digest && m.running == result.release.build
  }

  /** A failure to execute an action whose success is already on record, or a
      repeat of the outcome a blocked row already holds. */
  predicate OnRecord(r: Row, m: Report)
  {
    || (&& m.kind == Failure && r.action == NoAction && r.root.Some? && (PostAction(r.state) || r.state == Blocked)
        && ((AuthAction(r) == Activate && m.failureCode == "activation_failed")
            || (AuthAction(r) == Rollback && m.failureCode == "rollback_failed")))
    || (&& r.state == Blocked && r.action == NoAction
        && ((m.kind == Failure && m.failureCode == r.failureCode && m.failureDetail == r.failureDetail)
            || (m.kind == Healthy && r.root.Some? && RepeatsResult(m, r.root.value.receipt.result))))
  }

  predicate IsRootResult(m: Report) { m.kind == ActivationDone || m.kind == RollbackDone }

  function ExpectedAction(m: Report): Action { if m.kind == RollbackDone then Rollback else Activate }

  /** The very receipt that is stored, sent again. */
  predicate LostResponse(r: Row, id: Identity, m: Report)
  {
    && m.receipt.Some? && r.root.Some? && AuthAction(r) == ExpectedAction(m)
    && r.root.value.receipt.counter == m.receipt.value.counter == id.lastRoot
    && r.root.value.receipt == m.receipt.value && r.root.value.signature == m.signature
    && m.genuine
  }

  predicate Rollbackable(s: RowState)
  {
    s == Failed || s == Blocked || s == Cordoned || s == Activating || PostAction(s)
  }

  datatype Phase = NoPhase | Phase(state: RowState, action: Action, pause: bool)

  /** The phase a report leads to, or none when it does not fit the current one. */
  function NextPhase(r: Row, p: Policy, artifact: Artifact, m: Report): Phase
  {
    match m.kind
    case Downloading =>
      if r.action == Stage &&
        (r.state == Pending || r.state == Staging) then Phase(Staging, r.action, false) else NoPhase
    case StagingDone =>
      if r.action == Stage && (r.state == Pending || r.state == Staging) && m.manifest == p.release.manifest &&
        m.binary == artifact.digest
      then Phase(Staged, NoAction, false) else NoPhase
    case ActivationDone =>
      if r.action == Activate && r.cordoned && (r.state == Cordoned || r.state == Activating)
      then Phase(AwaitingTunnel, NoAction, false) else NoPhase
    case Healthy =>
      if r.activatedAt.Some? && PostAction(r.state) then Phase(HealthyDwell, r.action, false) else NoPhase
    case Failure =>
      if r.action == Stage && !r.cordoned &&
        (r.state == Pending || r.state == Staging) then Phase(Failed, NoAction, true)
      else if r.action == Activate && r.cordoned &&
        (r.state == Cordoned || r.state == Activating) then Phase(Blocked, NoAction, true)
      else if r.action == NoAction && r.cordoned && r.activatedAt.Some? &&
        PostAction(r.state) then Phase(Blocked, NoAction, true)
      else if r.action == Rollback && r.cordoned && Rollbackable(r.state) then Phase(Blocked, NoAction, true)
      else NoPhase
    case RollbackDone =>
      if r.action == Rollback && r.cordoned &&
        Rollbackable(r.state) then Phase(AwaitingTunnel, NoAction, false) else NoPhase
    case Unsupported => NoPhase
  }

  /** A root result replaces all earlier evidence; other reports keep it.  The
      row's anchor time is kept by progress reports and repeated health reports. */
  function Recorded(r: Row, ph: Phase, m: Report, now: int): Row
    requires ph.Phase? && (IsRootResult(m) ==> m.receipt.Some?)
  {
    var t := r.(state := ph.state, action := ph.action, failureCode := m.failureCode, failureDetail := m.failureDetail);
    if IsRootResult(m) then
      var rc := m.receipt.value;
      t.(root := Some(Proof(rc, m.signature, now)), attestedBinary := rc.result.artifact.digest,
        running := rc.result.release.build,
         observed := NO_BUILD, freshAt := None, healthyAt := None, updatedAt := now,
         activatedAt := if m.kind == ActivationDone then Some(now) else r.activatedAt)
    else
      t.(healthyAt := if m.kind == Healthy && r.healthyAt.None? then Some(now) else r.healthyAt,
         updatedAt := if m.kind == Downloading ||
           (m.kind == Healthy && r.state == HealthyDwell && r.healthyAt.Some?) then r.updatedAt else now)
  }

  /** The decision about a report of the row's own generation. */
  function Judge(r: Row, campaign: nat, p: Policy, id: Identity, m: Report, now: int): Verdict
  {
    var artifact := FirstArtifact(p.artifacts, id.os, id.arch);
    if OnRecord(r, m) then Acknowledged
    else if artifact.None? then Rejected
    else if IsRootResult(m) && LostResponse(r, id, m) then
      if RepeatsResult(m, m.receipt.value.result) then Acknowledged else Rejected
    else if IsRootResult(m) &&
            !(m.receipt.Some? && ReceiptVerifies(r, campaign, p, id, m.receipt.value, m.genuine, ExpectedAction(m), now)
              && RepeatsResult(m, m.receipt.value.result)) then Rejected
    else if m.kind == Healthy &&
            !(r.activatedAt.Some? && r.root.Some? && r.root.value.receipt.result.kind == ReleaseResult
              && RepeatsResult(m, r.root.value.receipt.result)) then Rejected
    else
      var ph := NextPhase(r, p, artifact.value, m);
      if ph.NoPhase? then Rejected
      else Applied(Recorded(r, ph, m, now), if IsRootResult(m) then Some(m.receipt.value.counter) else None, ph.pause)
  }

  /** An accepted report keeps every invariant of the row, raises and lowers no
      fence, and never counts a root action twice. */
  lemma AppliedKeeps(r: Row, campaign: nat, p: Policy, id: Identity, m: Report, now: int, clock: int)
    requires RowOk(r, p, clock) && Active(r) && clock <= now
    requires Judge(r, campaign, p, id, m, now).Applied?
    ensures var v := Judge(r, campaign, p, id, m, now);
      && RowOk(v.row, p, now) && Keeps(r, v.row) && v.row.cordoned == r.cordoned
      && (v.rootCounter.Some? <==> IsRootResult(m)) && (v.rootCounter.Some? ==> v.rootCounter.value > id.lastRoot)
  {
    FirstArtifactFits(p.artifacts, id.os, id.arch);
    hide FirstArtifact;
  }

  lemma {:induction false} FirstArtifactFits(artifacts: seq<Artifact>, os: string, arch: string)
    ensures var a := FirstArtifact(artifacts, os, arch); a.Some? ==>
      a.value.os == os && a.value.arch == arch && a.value in artifacts
  {
    if artifacts != [] { FirstArtifactFits(artifacts[1..], os, arch); }
  }

  /** A freshly issued command is the canonical authorization of its row, so the
      receipt it leads to can be verified against the row later. */
  lemma IssuedIsCanonical(r: Row, campaign: nat, p: Policy, id: Identity, action: Action, nonce: nat, version: string,
      now: int, t: Row)
    requires Issued(r, campaign, p, id, action, nonce, version, now).Some?
    requires t.auth == Issued(r, campaign, p, id, action, nonce, version, now)
    requires t.agent == r.agent && t.id == r.id && t.generation == r.generation
    ensures StoredCanonical(t, campaign, p, id) && t.auth.value.sequence == id.lastCommand + 1
  {
    hide FirstArtifact;
  }
}
