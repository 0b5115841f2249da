/** A history that leads from an empty server to a succeeded assignment: the
    guards of the update steps can all be met, one after the other. */
module UpdateWitness {
  import opened Optional
  import opened UpdateRow
  import opened UpdateReport
  import opened UpdateCohorts
  import opened UpdateSystem
  import opened UpdateSafety
  import opened UpdateHistory

  const TARGET := Release(Build("2", "c"), "m", 2, 1)
  const ARTIFACT := Artifact("l", "a", "n", 1, "d")
  const POLICY := Policy(TARGET, [ARTIFACT], 1, 1, 1, 10_000 * MILLISECOND)
  const AUTHORITY := Authority(1, 1)
  const FRESH := Identity(10, 20, AUTHORITY, "l", "a", 0, 0, 0)
  const HOME := Place(1, 0)
  const LIVE := Conn(1, Build("2", "c"))
  const DONE_AT: int := 1 + 10_000 * MILLISECOND

  /** A server with one campaign of one row and one enrolled agent. */
  function One(row: Row, id: Identity, clock: int): System
  {
    System(map[1 := Campaign(POLICY, Running, 1, [row])], map[7 := id], 2, clock)
  }

  function ReportOf(kind: ReportKind, counter: nat, receipt: Option<Receipt>): Report
  {
    Report(7, counter, 1, 1, kind, "m", "d", Build("2", "c"), "", "", receipt, 5, true)
  }

  const COMMAND := Auth(7, 1, 1, 1, Activate, 1, 9, 0, AUTHORIZATION_LIFETIME, AUTHORITY, "v", TARGET, ARTIFACT)
  const RECEIPT := Receipt(7, 1, 1, 1, Activate, 1, COMMAND, 9, AUTHORITY, 20, 1, 0,
    Result(ReleaseResult, TARGET, ARTIFACT))

  const WAITING := NewRow(1, 7, Stage, 0)
  const STAGED := WAITING.(state := Staged, action := NoAction)
  const FENCED := STAGED.(state := Cordoned, cordoned := true)
  const ORDERED := FENCED.(action := Activate, auth := Some(COMMAND))
  const ACTIVATED := ORDERED.(state := AwaitingTunnel, action := NoAction, root := Some(Proof(RECEIPT, 5, 0)),
    attestedBinary := "d",
                              running := Build("2", "c"), activatedAt := Some(0))
  const CONNECTED := ACTIVATED.(freshAt := Some(1), observed := Build("2", "c"), updatedAt := 1)
  const DWELLING := CONNECTED.(state := HealthyDwell, healthyAt := Some(1))
  const SUCCEEDED := DWELLING.(state := Succeeded, cordoned := false, updatedAt := DONE_AT)

  lemma Platform()
    ensures FirstArtifact(POLICY.artifacts, "l", "a") == Some(ARTIFACT)
  {
  }

  lemma Starts()
    ensures var s := Enroll(EMPTY, 7, 10, 20, AUTHORITY, "l", "a");
      s.clock == 0 && Create(s, 1, POLICY, [7], 0) == One(WAITING, FRESH, 0)
  {
    var s := Enroll(EMPTY, 7, 10, 20, AUTHORITY, "l", "a");
    assert s == System(map[], map[7 := FRESH], 1, 0);
    assert NewRows(1, [7], POLICY, 0) == [WAITING];
  }

  lemma Rewritten(row: Row, id: Identity, clock: int, t: Row, id': Identity, now: int)
    ensures Exists(One(row, id, clock), HOME) && RowAt(One(row, id, clock), HOME) == row
    ensures WithRow(One(row, id, clock), HOME, t) == One(t, id, clock)
    ensures WithIdentity(One(t, id, clock), 7, id') == One(t, id', clock)
    ensures One(t, id', clock).(clock := now) == One(t, id', now)
  {
    var c := Campaign(POLICY, Running, 1, [row]);
    assert [row][0 := t] == [t];
    assert map[1 := c][1 := c.(rows := [t])] == map[1 := c.(rows := [t])];
    assert map[7 := id][7 := id'] == map[7 := id'];
  }

  lemma Received(row: Row, id: Identity, clock: int, m: Report, now: int, t: Row, rootCounter: Option<nat>)
    requires row.agent == m.agent == 7 && row.id == m.assignment && row.generation == m.generation && Active(row)
    requires Judge(row, 1, POLICY, id, m, now) == Applied(t, rootCounter, false)
    requires m.counter > id.lastCounter && (rootCounter.Some? ==> rootCounter.value > id.lastRoot)
    ensures var id' := id.(lastCounter := m.counter, lastRoot := if rootCounter.Some? then rootCounter.value
      else id.lastRoot);
      Receive(One(row, id, clock), m, Some(HOME), None, now) == One(t, id', clock)
  {
    hide Judge, WithRow, WithIdentity;
    Rewritten(row, id, clock, t,
      id.(lastCounter := m.counter, lastRoot := if rootCounter.Some? then rootCounter.value else id.lastRoot), now);
    hide One;
    OneParts(row, id, clock);
  }

  lemma OneParts(row: Row, id: Identity, clock: int)
    ensures var s := One(row, id, clock);
      && s.clock == clock && s.(clock := clock) == s && 7 in s.identities && s.identities[7] == id
      && 1 in s.campaigns && s.campaigns[1] == Campaign(POLICY, Running, 1, [row])
  {
  }

  lemma StagingAccepted()
    ensures Judge(WAITING, 1, POLICY, FRESH, ReportOf(StagingDone, 1, None), 0) == Applied(STAGED, None, false)
  {
    Platform();
    hide FirstArtifact;
  }

  lemma Stages()
    ensures Receive(One(WAITING, FRESH, 0), ReportOf(StagingDone, 1, None), Some(HOME), None, 0) ==
      One(STAGED, FRESH.(lastCounter := 1), 0)
  {
    hide Judge, Receive, One;
    StagingAccepted();
    Received(WAITING, FRESH, 0, ReportOf(StagingDone, 1, None), 0, STAGED, None);
  }

  lemma FenceAllowed()
    ensures CohortOf(POLICY, 1, 0) == Span(0, 1) && CohortReady([STAGED], Span(0, 1)) &&
      !CohortBroken([STAGED], Span(0, 1))
    ensures Unavailable([STAGED]) == 0 && Changed(STAGED, Fenced, 0) == FENCED
  {
    assert !Obstacle([STAGED], Span(0, 1), 0);
    assert [STAGED][..0] == [];
  }

  lemma Fences(id: Identity)
    ensures Advance(One(STAGED, id, 0), HOME, 0) == One(FENCED, id, 0)
  {
    hide CohortOf, CohortReady, CohortBroken, Unavailable, Changed, WithRow, WithPause;
    FenceAllowed();
    Rewritten(STAGED, id, 0, FENCED, id, 0);
  }

  lemma OrderAllowed()
    ensures Issued(FENCED, 1, POLICY, FRESH.(lastCounter := 1), Activate, 9, "v", 0) == Some(COMMAND)
    ensures Allowed(FENCED, POLICY, Authorized(COMMAND), 0) && Changed(FENCED, Authorized(COMMAND), 0) == ORDERED
  {
    Platform();
    hide FirstArtifact;
  }

  lemma Orders()
    ensures Authorize(One(FENCED, FRESH.(lastCounter := 1), 0), HOME, 9, "v", 0) ==
      One(ORDERED, FRESH.(lastCounter := 1, lastCommand := 1), 0)
  {
    hide Issued, Allowed, Changed, WithRow, WithIdentity;
    OrderAllowed();
    Rewritten(FENCED, FRESH.(lastCounter := 1), 0, ORDERED, FRESH.(lastCounter := 1, lastCommand := 1), 0);
  }

  lemma ReceiptAccepted(id: Identity)
    requires id == FRESH.(lastCounter := 1, lastCommand := 1)
    ensures ReceiptVerifies(ORDERED, 1, POLICY, id, RECEIPT, true, Activate, 0)
  {
    Platform();
    hide FirstArtifact;
  }

  lemma ActivationAccepted(id: Identity)
    requires id == FRESH.(lastCounter := 1, lastCommand := 1)
    ensures Judge(ORDERED, 1, POLICY, id, ReportOf(ActivationDone, 2, Some(RECEIPT)), 0) ==
      Applied(ACTIVATED, Some(1), false)
  {
    Platform();
    ReceiptAccepted(id);
    hide FirstArtifact, ReceiptVerifies;
  }

  lemma Activates(id: Identity)
    requires id == FRESH.(lastCounter := 1, lastCommand := 1)
    ensures Receive(One(ORDERED, id, 0), ReportOf(ActivationDone, 2, Some(RECEIPT)), Some(HOME), None, 0) ==
      One(ACTIVATED, id.(lastCounter := 2, lastRoot := 1), 0)
  {
    hide Judge, Receive, One;
    ActivationAccepted(id);
    Received(ORDERED, id, 0, ReportOf(ActivationDone, 2, Some(RECEIPT)), 0, ACTIVATED, Some(1));
  }

  lemma Connects(id: Identity)
    ensures SeeTunnel(One(ACTIVATED, id, 0), 7, LIVE, 1) == One(CONNECTED, id, 0)
  {
    assert SeenRows([ACTIVATED], 7, LIVE, 1) == [CONNECTED];
  }

  lemma HealthAccepted(id: Identity)
    requires id == FRESH.(lastCounter := 2, lastCommand := 1, lastRoot := 1)
    ensures Judge(CONNECTED, 1, POLICY, id, ReportOf(Healthy, 3, None), 1) == Applied(DWELLING, None, false)
  {
    Platform();
    hide FirstArtifact;
  }

  lemma Dwells(id: Identity)
    requires id == FRESH.(lastCounter := 2, lastCommand := 1, lastRoot := 1)
    ensures Receive(One(CONNECTED, id, 1), ReportOf(Healthy, 3, None), Some(HOME), None, 1) ==
      One(DWELLING, id.(lastCounter := 3), 1)
  {
    hide Judge, Receive, One;
    HealthAccepted(id);
    Received(CONNECTED, id, 1, ReportOf(Healthy, 3, None), 1, DWELLING, None);
  }

  lemma CompletionAllowed()
    ensures Allowed(DWELLING, POLICY, UpdateRow.Completed(LIVE), DONE_AT) &&
      Changed(DWELLING, UpdateRow.Completed(LIVE), DONE_AT) == SUCCEEDED
  {
  }

  lemma Completes(id: Identity)
    ensures Touch(One(DWELLING, id, 1), HOME, UpdateRow.Completed(LIVE), DONE_AT) == One(SUCCEEDED, id, 1)
    ensures CampaignRunning(One(DWELLING, id, 1), HOME)
  {
    hide Allowed, Changed, WithRow;
    CompletionAllowed();
    Rewritten(DWELLING, id, 1, SUCCEEDED, id, 1);
  }

  /** The states a list of steps leads through. */
  ghost function Through(s: System, steps: seq<Step>, times: seq<int>): seq<System>
    requires |steps| == |times|
    decreases |steps|
  {
    if steps == [] then [s] else [s] + Through(Next(s, steps[0], times[0]), steps[1..], times[1..])
  }

  ghost predicate Timely(clock: int, times: seq<int>)
    decreases |times|
  {
    times != [] ==> clock <= times[0] && Timely(times[0], times[1..])
  }

  lemma {:induction false} ThroughIsRun(s: System, steps: seq<Step>, times: seq<int>)
    requires |steps| == |times| && Timely(s.clock, times)
    ensures Run(Through(s, steps, times), steps, times) && Through(s, steps, times)[0] == s
    decreases |steps|
  {
    hide Act;
    if steps != [] {
      var t := Next(s, steps[0], times[0]);
      ThroughIsRun(t, steps[1..], times[1..]);
      var rest, all := Through(t, steps[1..], times[1..]), Through(s, steps, times);
      forall i | 0 <= i < |steps| ensures all[i].clock <= times[i] && all[i + 1] == Next(all[i], steps[i], times[i]) {
        if i > 0 {
          assert all[i] == rest[i - 1] && all[i + 1] == rest[i] && steps[i] == steps[1..][i - 1] &&
            times[i] == times[1..][i - 1];
        }
      }
    }
  }

  const STEPS: seq<Step> :=
    [Enrolling(7, 10, 20, AUTHORITY, "l", "a"), Creating(1, POLICY, [7]),
      Receiving(ReportOf(StagingDone, 1, None), Some(HOME), None),
     Advancing(HOME), Authorizing(HOME, 9, "v"),
       Receiving(ReportOf(ActivationDone, 2, Some(RECEIPT)), Some(HOME), None),
     SeeingTunnel(7, LIVE), Receiving(ReportOf(Healthy, 3, None), Some(HOME), None), Completing(HOME, LIVE)]

  const TIMES: seq<int> := [0, 0, 0, 0, 0, 0, 1, 1, DONE_AT]

  lemma TimesOk()
    ensures |TIMES| == |STEPS| == 9 && Timely(0, TIMES)
  {
    var t := TIMES;
    assert Timely(1, t[8..]) && t[7..][1..] == t[8..];
    assert Timely(1, t[7..]) && t[6..][1..] == t[7..];
    assert Timely(0, t[6..]) && t[5..][1..] == t[6..];
    assert Timely(0, t[5..]) && t[4..][1..] == t[5..];
    assert Timely(0, t[4..]) && t[3..][1..] == t[4..];
    assert Timely(0, t[3..]) && t[2..][1..] == t[3..];
    assert Timely(0, t[2..]) && t[1..][1..] == t[2..];
  }

  lemma FirstHalf(s: seq<System>)
    requires Run(s, STEPS, TIMES) && s[0] == EMPTY && |STEPS| == 9
    ensures s[4] == One(FENCED, FRESH.(lastCounter := 1), 0) &&
      s[5] == One(ORDERED, FRESH.(lastCounter := 1, lastCommand := 1), 0)
  {
    hide Create, Receive, Advance, Authorize, Enroll, One;
    Starts();
    Stages();
    Fences(FRESH.(lastCounter := 1));
    Orders();
    assert s[1] == Next(s[0], STEPS[0], TIMES[0]) && s[2] == Next(s[1], STEPS[1], TIMES[1]);
    assert s[3] == Next(s[2], STEPS[2], TIMES[2]) && s[4] == Next(s[3], STEPS[3], TIMES[3]);
    assert s[5] == Next(s[4], STEPS[4], TIMES[4]);
    OneParts(WAITING, FRESH, 0);
    OneParts(STAGED, FRESH.(lastCounter := 1), 0);
    OneParts(FENCED, FRESH.(lastCounter := 1), 0);
    OneParts(ORDERED, FRESH.(lastCounter := 1, lastCommand := 1), 0);
  }

  lemma SecondHalf(s: seq<System>, id: Identity)
    requires Run(s, STEPS, TIMES) && |STEPS| == 9 && id == FRESH.(lastCounter := 1, lastCommand := 1) &&
      s[5] == One(ORDERED, id, 0)
    ensures s[9] == One(SUCCEEDED, id.(lastCounter := 3, lastRoot := 1), DONE_AT)
  {
    hide Receive, SeeTunnel, Touch;
    Activates(id);
    Connects(id.(lastCounter := 2, lastRoot := 1));
    Dwells(id.(lastCounter := 2, lastRoot := 1));
    Completes(id.(lastCounter := 3, lastRoot := 1));
    assert s[6] == Next(s[5], STEPS[5], TIMES[5]) && s[7] == Next(s[6], STEPS[6], TIMES[6]);
    assert s[8] == Next(s[7], STEPS[7], TIMES[7]) && s[9] == Next(s[8], STEPS[8], TIMES[8]);
  }

  lemma ProofHolds()
    ensures FinishedWithProof(SUCCEEDED, POLICY)
  {
    Platform();
    hide FirstArtifact;
  }

  /** From an empty server: an activation command is issued at step 4 and the row
      has succeeded, unfenced and with all its evidence, after step 8. */
  lemma SuccessIsReachable() returns (states: seq<System>, steps: seq<Step>, times: seq<int>)
    ensures Run(states, steps, times) && states[0] == EMPTY && |steps| == 9
    ensures NewCommand(states[4], states[5], HOME) && RowAt(states[5], HOME).auth == Some(COMMAND) &&
      RowAt(states[5], HOME).cordoned
    ensures Exists(states[9], HOME) && RowAt(states[9], HOME) == SUCCEEDED && FinishedWithProof(SUCCEEDED, POLICY)
  {
    TimesOk();
    steps, times := STEPS, TIMES;
    states := Through(EMPTY, STEPS, TIMES);
    ThroughIsRun(EMPTY, STEPS, TIMES);
    hide Run, Through, Timely, FinishedWithProof;
    RunLength(states, steps, times);
    FirstHalf(states);
    SecondHalf(states, FRESH.(lastCounter := 1, lastCommand := 1));
    ProofHolds();
  }

  lemma RunLength(states: seq<System>, steps: seq<Step>, times: seq<int>)
    requires Run(states, steps, times)
    ensures |states| == |steps| + 1
  {
  }
}
