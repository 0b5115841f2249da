/** One assignment of an agent-update campaign: its row, every guarded update of
    it, and what each update keeps. */
module UpdateRow {
  import opened Optional

  // ---- Releases and signed records ----

  datatype Build = Build(version: string, commit: string)

  const NO_BUILD := Build("", "")

  datatype Release = Release(build: Build, manifest: string, sequence: nat, epoch: nat)

  datatype Artifact = Artifact(os: string, arch: string, name: string, size: nat, digest: string)

  datatype ResultKind = ReleaseResult | BootstrapResult

  datatype Result = Result(kind: ResultKind, release: Release, artifact: Artifact)

  datatype Action = NoAction | Stage | Activate | Rollback

  /** The management authority that signs, as pinned by an enrollment. */
  datatype Authority = Authority(key: nat, epoch: nat)

  /** A signed assignment authorization. */
  datatype Auth = Auth(
    agent: nat,
    assignment: nat,
    campaign: nat,
    generation: nat,
    action: Action,
    sequence: nat,
    nonce: nat,
    issued: int,
    expires: int,
    authority: Authority,
    serverVersion: string,
    release: Release,
    artifact: Artifact)

  /** A root-action receipt.  It names its authorization by digest, which is
      collision free, so the authorization itself stands in for the digest. */
  datatype Receipt = Receipt(
    agent: nat,
    assignment: nat,
    campaign: nat,
    generation: nat,
    action: Action,
    sequence: nat,
    authorization: Auth,
    nonce: nat,
    authority: Authority,
    activator: nat,
    counter: nat,
    completed: int,
    result: Result)

  /** A receipt the server verified, when it did, and the signature it keeps. */
  datatype Proof = Proof(receipt: Receipt, signature: nat, completedAt: int)

  // ---- The row ----

  datatype RowState =
    | Pending | Staging | Staged | Cordoned | Activating | AwaitingTunnel | HealthyDwell
    | Succeeded | Failed | Withdrawn | Blocked

  datatype Row = Row(
    id: nat,
    agent: nat,
    state: RowState,
    action: Action,
    generation: nat,
    cordoned: bool,
    failureCode: string,
    failureDetail: string,
    auth: Option<Auth>,
    root: Option<Proof>,
    attestedBinary: string,
    running: Build,
    observed: Build,
    activatedAt: Option<int>,
    freshAt: Option<int>,
    healthyAt: Option<int>,
    updatedAt: int)

  /** The part of a campaign that never changes. */
  datatype Policy = Policy(
    release: Release,
    artifacts: seq<Artifact>,
    maxUnavailable: int,
    canaryCount: int,
    waveSize: int,
    dwell: int)

  /** A live authenticated tunnel. */
  datatype Conn = Conn(at: int, build: Build)

  // Times are in nanoseconds.
  const MILLISECOND: int := 1_000_000
  const DRAIN_TIMEOUT: int := 5 * 60 * 1000 * MILLISECOND
  const POST_ACTION_TIMEOUT: int := 5 * 60 * 1000 * MILLISECOND
  const STAGE_TIMEOUT: int := 30 * 60 * 1000 * MILLISECOND

  // Failure codes and details stored by timeouts.
  const DRAIN_DETAIL: string := "active requests did not drain before the managed-update deadline"
  const EVIDENCE_DETAIL: string := "post-action tunnel and exact build evidence did not arrive before the deadline"
  const STAGE_DETAIL: string := "staging or activation readiness did not complete before the deadline"
  const ROOT_DETAIL: string := "the signed root action did not complete before the deadline"
  const QUORUM_LOST: string := "route_quorum_lost_during_drain"
  const DRAIN_TIMED_OUT: string := "drain_timeout"
  const ROLLBACK_EVIDENCE_LATE: string := "rollback_evidence_timeout"
  const ACTIVATION_EVIDENCE_LATE: string := "activation_evidence_timeout"
  const STAGE_TIMED_OUT: string := "stage_timeout"
  const ROOT_TIMED_OUT: string := "root_action_timeout"

  function Truncated(t: int): int { t - t % MILLISECOND }

  function NewRow(id: nat, agent: nat, action: Action, now: int): Row
  {
    Row(id, agent, Pending, action, 1, false, "", "", None, None, "", NO_BUILD, NO_BUILD, None, None, None, now)
  }

  function AuthAction(r: Row): Action { if r.auth.None? then NoAction else r.auth.value.action }

  predicate Privileged(a: Action) { a == Activate || a == Rollback }

  predicate Terminal(s: RowState) { s == Succeeded || s == Failed || s == Withdrawn }

  /** Rows the server still acts on. */
  predicate Active(r: Row) { !Terminal(r.state) || (r.state == Failed && r.action == Rollback) }

  predicate PostAction(s: RowState) { s == AwaitingTunnel || s == HealthyDwell }

  function FirstArtifact(artifacts: seq<Artifact>, os: string, arch: string): Option<Artifact>
  {
    if artifacts == [] then None
    else if artifacts[0].os == os && artifacts[0].arch == arch then Some(artifacts[0])
    else FirstArtifact(artifacts[1..], os, arch)
  }

  // ---- Guarded updates ----

  datatype Change =
    | Paused
    | Resumed
    | Canceled
    | RolledForRetry
    | StagedForRetry
    | Fenced
    | Authorized(auth: Auth)
    | QuorumLost(detail: string)
    | DrainTimedOut
    | Reauthorized(auth: Auth)
    | TunnelSeen(conn: Conn)
    | EvidenceTimedOut(live: Option<Conn>)
    | Recovered(conn: Conn)
    | Completed(conn: Conn)
    | StageTimedOut
    | RootTimedOut
    | Released

  function ResetEvidence(r: Row): Row
  {
    r.(root := None, attestedBinary := "", freshAt := None, healthyAt := None, observed := NO_BUILD)
  }

  /** Cancellation's first update: work that nothing irreversible happened to. */
  function CancelReversible(r: Row, now: int): Row
  {
    if !Terminal(r.state) && r.activatedAt.None? && r.auth.None? && !Privileged(r.action) &&
      (!r.cordoned || r.state == Cordoned)
    then r.(state := Withdrawn, action := NoAction, generation := r.generation + 1, cordoned := false, updatedAt := now)
    else r
  }

  /** Its second: everything else unfinished is told to roll back, except a
      verified rollback still waiting for its tunnel. */
  function CancelUnsafe(r: Row, now: int): Row
  {
    if !Terminal(r.state) &&
      !(r.state == AwaitingTunnel && r.action == NoAction && AuthAction(r) == Rollback && r.root.Some?)
    then ResetEvidence(r).(action := Rollback, generation := r.generation + 1, cordoned := true, auth := None,
      updatedAt := now)
    else r
  }

  /** The row an update leaves behind; a row its WHERE clause excludes is kept. */
  function Changed(r: Row, ch: Change, now: int): Row
  {
    match ch
    case Paused =>
      if r.state == Cordoned && r.action == NoAction && r.auth.None? && r.cordoned
      then r.(state := Staged, cordoned := false, updatedAt := now) else r
    case Resumed =>
      if !r.cordoned && ((r.action == Stage && (r.state == Pending || r.state == Staging)) ||
        (r.action == NoAction && r.state == Staged))
      then r.(updatedAt := now) else r
    case Canceled => CancelUnsafe(CancelReversible(r, now), now)
    case RolledForRetry =>
      if r.state == Blocked && r.cordoned
      then ResetEvidence(r).(state := Failed, action := Rollback, generation := r.generation + 1, failureCode := "",
        failureDetail := "",
                             auth := None, updatedAt := now)
      else r
    case StagedForRetry =>
      ResetEvidence(r).(state := Pending, action := NoAction, generation := r.generation + 1, cordoned := false,
        failureCode := "",
                        failureDetail := "", auth := None, running := NO_BUILD, activatedAt := None, updatedAt := now)
    case Fenced =>
      if r.state == Staged && !r.cordoned
      then r.(state := Cordoned, action := NoAction, cordoned := true, auth := None, updatedAt := Truncated(now)) else r
    case Authorized(auth) =>
      if r.state == Cordoned && r.action == NoAction && r.cordoned
      then r.(action := Activate, auth := Some(auth), root := None, freshAt := None, healthyAt := None,
        updatedAt := Truncated(now)) else r
    case QuorumLost(detail) =>
      if r.state == Cordoned && r.action == NoAction && r.auth.None? && r.cordoned
      then r.(state := Staged, cordoned := false, failureCode := QUORUM_LOST, failureDetail := detail,
              updatedAt := Truncated(now))
      else r
    case DrainTimedOut =>
      if r.state == Cordoned && r.action == NoAction && r.cordoned
      then r.(state := Blocked, cordoned := false, failureCode := DRAIN_TIMED_OUT,
              failureDetail := DRAIN_DETAIL, updatedAt := Truncated(now)) else r
    case Reauthorized(auth) =>
      if r.action == auth.action then r.(auth := Some(auth), updatedAt := Truncated(now)) else r
    case TunnelSeen(conn) =>
      if r.cordoned && r.action == NoAction && r.root.Some? && r.root.value.completedAt < conn.at &&
        PostAction(r.state) && r.freshAt != Some(conn.at)
      then r.(freshAt := Some(conn.at), observed := conn.build, updatedAt := conn.at) else r
    case EvidenceTimedOut(_) =>
      if r.cordoned && PostAction(r.state)
      then r.(state := Blocked, action := NoAction, updatedAt := Truncated(now),
              failureDetail := EVIDENCE_DETAIL,
              failureCode := if AuthAction(r) == Rollback then ROLLBACK_EVIDENCE_LATE else ACTIVATION_EVIDENCE_LATE)
      else r
    case Recovered(_) =>
      if r.state == AwaitingTunnel && AuthAction(r) == Rollback && r.cordoned
      then r.(state := Failed, action := NoAction, cordoned := false, updatedAt := now) else r
    case Completed(_) =>
      if r.state == HealthyDwell && r.action == NoAction && r.cordoned
      then r.(state := Succeeded, cordoned := false, updatedAt := now) else r
    case StageTimedOut =>
      if !r.cordoned
      then r.(state := Blocked, action := NoAction, failureCode := STAGE_TIMED_OUT,
              failureDetail := STAGE_DETAIL, updatedAt := now) else r
    case RootTimedOut =>
      if r.cordoned && Privileged(r.action)
      then r.(state := Blocked, action := NoAction, failureCode := ROOT_TIMED_OUT,
              failureDetail := ROOT_DETAIL, updatedAt := now) else r
    case Released =>
      if r.state == Pending && r.action == NoAction then r.(action := Stage, updatedAt := Truncated(now)) else r
  }

  // ---- What the server checks before it issues an update ----

  /** The tunnel that is live now is the recorded fresh one, and both the live
      and the recorded build are the one the receipt names. */
  predicate EvidenceComplete(r: Row, live: Option<Conn>)
  {
    && live.Some? && r.freshAt == Some(live.value.at)
    && r.root.Some?
    && live.value.build == r.root.value.receipt.result.release.build
    && r.observed == r.root.value.receipt.result.release.build
  }

  function Latest(a: int, b: int): int { if a < b then b else a }

  predicate RetryableStage(r: Row)
  {
    !r.cordoned && (r.state == Blocked || r.state == Withdrawn || (r.state == Failed && r.action == NoAction))
  }

  predicate MayComplete(r: Row, p: Policy, conn: Conn, now: int)
  {
    && r.action == NoAction && AuthAction(r) == Activate && r.state == HealthyDwell
    && r.activatedAt.Some? && r.root.Some? && r.healthyAt.Some?
    && EvidenceComplete(r, Some(conn))
    && var result := r.root.value.receipt.result;
       && result.kind == ReleaseResult && result.release.manifest == p.release.manifest &&
         result.artifact.digest == r.attestedBinary
       && r.running == p.release.build && r.observed == p.release.build
       && now - Latest(Latest(r.healthyAt.value, r.freshAt.value), r.updatedAt) >= p.dwell
  }

  /** The checks on the row that the server makes before each update; updates
      not listed are issued unconditionally. */
  predicate Allowed(r: Row, p: Policy, ch: Change, now: int)
  {
    match ch
    case RolledForRetry => r.state == Blocked && r.cordoned
    case StagedForRetry => RetryableStage(r)
    case Authorized(auth) => r.state == Cordoned && r.action == NoAction && auth.action == Activate &&
      now < r.updatedAt + DRAIN_TIMEOUT
    case DrainTimedOut => r.state == Cordoned && r.action == NoAction && r.cordoned &&
      now >= r.updatedAt + DRAIN_TIMEOUT
    case Reauthorized(auth) => Active(r) && r.action == auth.action && Privileged(r.action)
    case EvidenceTimedOut(live) =>
      && Active(r) && r.action == NoAction && r.cordoned && r.root.Some? && PostAction(r.state)
      && !(EvidenceComplete(r, live) && (AuthAction(r) == Rollback || r.healthyAt.Some?))
      && now >= r.root.value.completedAt + POST_ACTION_TIMEOUT
    case Recovered(conn) =>
      && r.action == NoAction && AuthAction(r) == Rollback && r.state == AwaitingTunnel && r.cordoned && r.root.Some?
      && EvidenceComplete(r, Some(conn))
    case Completed(conn) => MayComplete(r, p, conn, now)
    case StageTimedOut => !r.cordoned && r.action == Stage && (r.state == Pending || r.state == Staging) &&
      now >= r.updatedAt + STAGE_TIMEOUT
    case RootTimedOut => Active(r) && r.cordoned && Privileged(r.action) && now >= r.updatedAt + POST_ACTION_TIMEOUT
    case _ => true
  }

  // ---- Invariants of one row ----

  /** How state, desired action, fence and authorization go together. */
  ghost predicate PhaseOk(r: Row)
  {
    && r.state != Activating
    && (r.state == Pending ==> r.action == NoAction || r.action == Stage)
    && (r.state == Staging ==> r.action == Stage)
    && (r.state == Staged ==> r.action == NoAction)
    && (r.state == Cordoned ==> r.action != Stage && r.cordoned)
    && (PostAction(r.state) || r.state == Blocked ==> r.action == NoAction || r.action == Rollback)
    && (PostAction(r.state) ==> r.cordoned)
    && (r.state == Succeeded || r.state == Withdrawn ==> r.action == NoAction && !r.cordoned)
    && (r.state == Failed ==> r.cordoned == (r.action == Rollback) && (r.action == NoAction || r.action == Rollback))
    && (r.state == Pending || r.state == Staging || r.state == Staged ==> !r.cordoned)
    && (r.state == Cordoned && r.action == NoAction ==> r.auth.None? && r.activatedAt.None?)
    && (!r.cordoned && !Terminal(r.state) ==> r.auth.None? && r.activatedAt.None? && !Privileged(r.action))
    && (r.action == Activate ==> AuthAction(r) == Activate)
    && (r.action == Rollback ==> r.auth.None? || AuthAction(r) == Rollback)
    && (r.auth.Some? ==> Privileged(AuthAction(r)))
  }

  /** A result that is exactly the campaign's target for some platform. */
  ghost predicate ReachesTarget(result: Result, p: Policy)
  {
    && result.kind == ReleaseResult && result.release == p.release
    && FirstArtifact(p.artifacts, result.artifact.os, result.artifact.arch) == Some(result.artifact)
  }

  /** How receipts, tunnels and health reports follow one another. */
  ghost predicate EvidenceOk(r: Row, p: Policy, clock: int)
  {
    && (Privileged(r.action) ==> r.root.None?)
    && (r.freshAt.Some? ==> r.root.Some? && r.root.value.completedAt < r.freshAt.value)
    && (r.healthyAt.Some? ==> r.root.Some? && r.root.value.completedAt <= r.healthyAt.value <= clock)
    && (r.root.Some? ==>
          && r.root.value.completedAt <= clock
          && r.auth.Some? && r.root.value.receipt.authorization == r.auth.value
          && r.root.value.receipt.action == AuthAction(r)
          && (AuthAction(r) == Activate ==> ReachesTarget(r.root.value.receipt.result, p)))
  }

  /** What a succeeded row can show. */
  ghost predicate SuccessOk(r: Row, p: Policy)
  {
    && AuthAction(r) == Activate && r.root.Some? && r.freshAt.Some? && r.healthyAt.Some?
    && r.root.value.receipt.action == Activate && ReachesTarget(r.root.value.receipt.result, p)
    && r.running == r.observed == p.release.build
    && r.root.value.completedAt <= r.healthyAt.value && r.root.value.completedAt < r.freshAt.value
    && r.updatedAt - r.healthyAt.value >= p.dwell && r.updatedAt - r.freshAt.value >= p.dwell
  }

  ghost predicate RowOk(r: Row, p: Policy, clock: int)
  {
    PhaseOk(r) && EvidenceOk(r, p, clock) && (r.state == Succeeded ==> SuccessOk(r, p))
  }

  // ---- What an update may not do ----

  /** Not started: waiting for its cohort, or withdrawn. */
  predicate Untouched(r: Row) { (r.state == Pending && r.action == NoAction) || r.state == Withdrawn }

  /** Past the point of no return: an authorization may be out, so the fence is
      up and the row is not in the reversible drain. */
  predicate Committed(r: Row) { r.cordoned && !(r.state == Cordoned && r.action == NoAction) }

  /** An update other than the fence itself, a cohort release, a completion or a
      recovery: raises no fence, starts no row, keeps a finished row as it is,
      and lowers no fence that must stay. */
  ghost predicate Keeps(r: Row, t: Row)
  {
    && t.id == r.id && t.agent == r.agent
    && (t.cordoned ==> r.cordoned)
    && (r.state == Succeeded ==> t == r)
    && (Untouched(r) ==> Untouched(t))
    && (Committed(r) ==> Committed(t))
  }

  lemma AdminKeeps(r: Row, p: Policy, ch: Change, now: int, clock: int)
    requires RowOk(r, p, clock) && clock <= now && Allowed(r, p, ch, now)
    requires ch.Paused? || ch.Resumed? || ch.Canceled? || ch.RolledForRetry? || ch.StagedForRetry?
    ensures RowOk(Changed(r, ch, now), p, now) && Keeps(r, Changed(r, ch, now))
  {
    hide ReachesTarget;
    if ch.RolledForRetry? || ch.StagedForRetry? {
      RetryKeeps(r, p, ch, now, clock);
    } else if ch.Canceled? {
      CancelKeeps(r, p, ch, now, clock);
    } else {
      PauseKeeps(r, p, ch, now, clock);
    }
    hide *;
  }

  lemma PauseKeeps(r: Row, p: Policy, ch: Change, now: int, clock: int)
    requires RowOk(r, p, clock) && clock <= now && Allowed(r, p, ch, now) && (ch.Paused? || ch.Resumed?)
    ensures RowOk(Changed(r, ch, now), p, now) && Keeps(r, Changed(r, ch, now))
  {
    hide ReachesTarget;
  }

  lemma CancelKeeps(r: Row, p: Policy, ch: Change, now: int, clock: int)
    requires RowOk(r, p, clock) && clock <= now && Allowed(r, p, ch, now) && ch.Canceled?
    ensures RowOk(Changed(r, ch, now), p, now) && Keeps(r, Changed(r, ch, now))
  {
    hide ReachesTarget;
  }

  lemma RetryKeeps(r: Row, p: Policy, ch: Change, now: int, clock: int)
    requires RowOk(r, p, clock) && clock <= now && Allowed(r, p, ch, now) && (ch.RolledForRetry? || ch.StagedForRetry?)
    ensures RowOk(Changed(r, ch, now), p, now) && Keeps(r, Changed(r, ch, now))
  {
    hide ReachesTarget;
  }

  lemma DrainKeeps(r: Row, p: Policy, ch: Change, now: int, clock: int)
    requires RowOk(r, p, clock) && clock <= now && Allowed(r, p, ch, now)
    requires ch.Authorized? || ch.QuorumLost? || ch.DrainTimedOut? || ch.Reauthorized? || ch.StageTimedOut? ||
      ch.RootTimedOut?
    ensures RowOk(Changed(r, ch, now), p, now) && Keeps(r, Changed(r, ch, now))
  {
    hide ReachesTarget;
  }

  lemma EvidenceKeeps(r: Row, p: Policy, ch: Change, now: int, clock: int)
    requires RowOk(r, p, clock) && clock <= now && Allowed(r, p, ch, now)
    requires ch.TunnelSeen? || ch.EvidenceTimedOut?
    ensures RowOk(Changed(r, ch, now), p, now) && Keeps(r, Changed(r, ch, now))
  {
    hide ReachesTarget;
  }

  /** The fence goes up on a staged row only. */
  lemma FenceRaises(r: Row, p: Policy, now: int, clock: int)
    requires RowOk(r, p, clock) && clock <= now
    ensures var t := Changed(r, Fenced, now);
      && RowOk(t, p, now)
      && (t != r ==> r.state == Staged && !r.cordoned && t.cordoned && !Committed(t))
      && t.id == r.id && t.agent == r.agent
  {
    hide ReachesTarget;
  }

  lemma ReleaseStarts(r: Row, p: Policy, now: int, clock: int)
    requires RowOk(r, p, clock) && clock <= now
    ensures var t := Changed(r, Released, now);
      && RowOk(t, p, now)
      && (t != r ==> r.state == Pending && r.action == NoAction)
      && t.cordoned == r.cordoned && t.id == r.id && t.agent == r.agent
      && (Committed(r) ==> Committed(t)) && (r.state == Succeeded ==> t == r)
  {
    hide ReachesTarget;
  }

  /** Lowering the fence for good takes the full evidence. */
  lemma CompletionEarned(r: Row, p: Policy, conn: Conn, now: int, clock: int)
    requires RowOk(r, p, clock) && clock <= now && Allowed(r, p, Completed(conn), now)
    ensures var t := Changed(r, Completed(conn), now);
      && RowOk(t, p, now) && t.state == Succeeded && !t.cordoned && SuccessOk(t, p) && t.id == r.id &&
        t.agent == r.agent
  {
    hide ReachesTarget;
  }

  lemma RecoveryEarned(r: Row, p: Policy, conn: Conn, now: int, clock: int)
    requires RowOk(r, p, clock) && clock <= now && Allowed(r, p, Recovered(conn), now)
    ensures var t := Changed(r, Recovered(conn), now);
      && RowOk(t, p, now) && t.state == Failed && !t.cordoned && t.id == r.id && t.agent == r.agent
      && t.root.Some? && t.auth.Some? && t.root.value.receipt.action == Rollback &&
        t.root.value.receipt.authorization == t.auth.value
      && t.freshAt == Some(conn.at) && t.root.value.completedAt < conn.at
      && conn.build == t.root.value.receipt.result.release.build
  {
    hide ReachesTarget;
  }

  lemma NewRowOk(id: nat, agent: nat, canary: bool, p: Policy, now: int)
    ensures RowOk(NewRow(id, agent, if canary then Stage else NoAction, now), p, now)
  {
  }

  /** Time passing breaks nothing. */
  lemma LaterOk(r: Row, p: Policy, clock: int, now: int)
    requires RowOk(r, p, clock) && clock <= now
    ensures RowOk(r, p, now)
  {
  }
}
