/** The signed payloads of the update protocol: validators, payload builders,
    and the proof that no two of them coincide. */
module UpdatePayloads {
  import opened Optional
  import opened SigningRecord
  import opened Widths

  // ---- Validators ----

  const MAX_UNIX_MILLIS: int := 253_402_300_799_999
  const DAY_MILLIS: int := 24 * 60 * 60 * 1000
  const MAX_ARTIFACT: int := 512 * 1024 * 1024

  predicate Lower(c: char) { 'a' <= c <= 'z' }
  predicate Upper(c: char) { 'A' <= c <= 'Z' }
  predicate Decimal10(c: char) { '0' <= c <= '9' }
  predicate HexChar(c: char) { Decimal10(c) || 'a' <= c <= 'f' }
  predicate Alphanumeric(c: char) { Lower(c) || Upper(c) || Decimal10(c) }

  predicate HexOf(s: string, n: nat) { |s| == n && forall i :: 0 <= i < |s| ==> HexChar(s[i]) }
  predicate Digest(s: string) { HexOf(s, 64) }
  predicate Commit(s: string) { HexOf(s, 40) }

  predicate PublicId(s: string)
  {
    && 1 <= |s| <= 128 && Alphanumeric(s[0])
    && forall i :: 1 <= i < |s| ==> Alphanumeric(s[i]) || s[i] == '_' || s[i] == '.' || s[i] == ':' || s[i] == '-'
  }

  predicate Platform(s: string)
  {
    && 1 <= |s| <= 32 && (Lower(s[0]) || Decimal10(s[0]))
    && forall i :: 1 <= i < |s| ==> Lower(s[i]) || Decimal10(s[i]) || s[i] == '.' || s[i] == '_' || s[i] == '-'
  }

  predicate ArtifactName(s: string)
  {
    && 1 <= |s| <= 128 && Alphanumeric(s[0])
    && forall i :: 1 <= i < |s| ==> Alphanumeric(s[i]) || s[i] == '.' || s[i] == '_' || s[i] == '-'
  }

  /** Owner and name, one to a hundred characters each, around a slash. */
  predicate Repository(s: string)
  {
    exists slash :: 1 <= slash <= 100 && slash < |s| <= slash + 101 && |s| > slash + 1 && s[slash] == '/'
      && forall i :: 0 <= i < |s| && i != slash ==> Alphanumeric(s[i]) || s[i] == '_' || s[i] == '.' || s[i] == '-'
  }

  /** The length bound of a version; its semantic-version grammar is not modelled. */
  predicate Version(s: string) { |s| <= 128 }

  predicate Positive(n: int) { 1 <= n <= MAX_INT64 }

  predicate Millis(n: int) { 0 < n <= MAX_UNIX_MILLIS }

  predicate Lifetime(start: int, end: int) { Millis(start) && Millis(end) && start < end <= start + DAY_MILLIS }

  predicate Nonce(b: string) { |b| == 32 && IsBytes(b) }

  datatype Artifact = Artifact(os: string, arch: string, name: string, size: int, digest: string)

  predicate ArtifactValid(a: Artifact)
  {
    Platform(a.os) && Platform(a.arch) && ArtifactName(a.name) && 1 <= a.size <= MAX_ARTIFACT && Digest(a.digest)
  }

  datatype Action = Activate | Rollback

  function ActionText(a: Action): string { if a == Activate then "activate" else "rollback" }

  datatype Kind = Release | Bootstrap

  function KindText(k: Kind): string { if k == Release then "release" else "bootstrap" }

  // ---- Assignment authorizations ----

  datatype Authorization = Authorization(
    agent: string, assignment: int, campaign: int, generation: int, action: Action, sequence: int, nonce: string,
    issued: int, expires: int, authorityKey: string, authorityEpoch: int, serverVersion: string, manifest: string,
    version: string, commit: string, release: int, epoch: int, artifact: Artifact)

  predicate AuthorizationValid(v: Authorization)
  {
    && PublicId(v.agent) && Positive(v.assignment) && Positive(v.campaign) && Positive(v.generation)
    && Positive(v.sequence) && Nonce(v.nonce) && Lifetime(v.issued, v.expires)
    && Digest(v.authorityKey) && Positive(v.authorityEpoch)
    && Version(v.serverVersion) && Digest(v.manifest) && Version(v.version) && Commit(v.commit)
    && Positive(v.release) && Positive(v.epoch) && ArtifactValid(v.artifact)
  }

  function AuthorizationFields(v: Authorization): seq<string>
    requires AuthorizationValid(v)
  {
    [v.agent, Decimal(v.assignment), Decimal(v.campaign), Decimal(v.generation), ActionText(v.action),
      Decimal(v.sequence), Hex(v.nonce),
     Decimal(v.issued), Decimal(v.expires), v.authorityKey, Decimal(v.authorityEpoch), v.serverVersion, v.manifest,
     v.version, v.commit, Decimal(v.release), Decimal(v.epoch),
     v.artifact.os, v.artifact.arch, v.artifact.name, Decimal(v.artifact.size), v.artifact.digest]
  }

  const AUTHORIZATION := "management-assignment-authorization"

  function AuthorizationPayload(v: Authorization): Option<string>
  {
    if AuthorizationValid(v) then Some(Record(AUTHORIZATION, AuthorizationFields(v))) else None
  }

  lemma AuthorizationShort(v: Authorization)
    requires AuthorizationValid(v)
    ensures Short([AUTHORIZATION] + AuthorizationFields(v))
  {
    hide Decimal, Hex;
    DecimalShort(v.assignment);
    DecimalShort(v.campaign);
    DecimalShort(v.generation);
    DecimalShort(v.sequence);
    DecimalShort(v.issued);
    DecimalShort(v.expires);
    DecimalShort(v.authorityEpoch);
    DecimalShort(v.release);
    DecimalShort(v.epoch);
    DecimalShort(v.artifact.size);
  }

  /** Equal payloads of valid authorizations mean equal authorizations. */
  lemma AuthorizationInjective(v: Authorization, w: Authorization)
    requires AuthorizationPayload(v).Some? && AuthorizationPayload(v) == AuthorizationPayload(w)
    ensures v == w
  {
    hide Decimal, Hex, Record;
    AuthorizationShort(v);
    AuthorizationShort(w);
    RecordInjective(AUTHORIZATION, AuthorizationFields(v), AUTHORIZATION, AuthorizationFields(w));
    var a, b := AuthorizationFields(v), AuthorizationFields(w);
    DecimalInjective(v.assignment, w.assignment);
    DecimalInjective(v.campaign, w.campaign);
    DecimalInjective(v.generation, w.generation);
    DecimalInjective(v.sequence, w.sequence);
    DecimalInjective(v.issued, w.issued);
    DecimalInjective(v.expires, w.expires);
    DecimalInjective(v.authorityEpoch, w.authorityEpoch);
    DecimalInjective(v.release, w.release);
    DecimalInjective(v.epoch, w.epoch);
    DecimalInjective(v.artifact.size, w.artifact.size);
    HexInjective(v.nonce, w.nonce);
    assert a[4] == b[4];
  }

  // ---- Enrollment receipts ----

  datatype Enrollment = Enrollment(
    agent: string, updaterKey: string, updaterDigest: string, activatorKey: string, activatorDigest: string,
    os: string, arch: string, updaterVersion: string, repository: string, authorityKey: string, authorityEpoch: int,
    enrolled: int, expires: int, generation: int)

  predicate EnrollmentValid(v: Enrollment)
  {
    && PublicId(v.agent) && Digest(v.updaterKey) && Digest(v.activatorKey)
    && v.updaterKey == v.updaterDigest && v.activatorKey == v.activatorDigest && v.updaterKey != v.activatorKey
    && Platform(v.os) && Platform(v.arch) && Version(v.updaterVersion) && Repository(v.repository)
    && Digest(v.authorityKey) && Positive(v.authorityEpoch) && Positive(v.generation) && Lifetime(v.enrolled, v.expires)
  }

  function EnrollmentFields(v: Enrollment): seq<string>
  {
    [v.agent, v.updaterKey, v.updaterDigest, v.activatorKey, v.activatorDigest, v.os, v.arch, v.updaterVersion,
      v.repository,
     v.authorityKey, Decimal(v.authorityEpoch), Decimal(v.enrolled), Decimal(v.expires), Decimal(v.generation)]
  }

  const ENROLLMENT := "management-enrollment-receipt"

  function EnrollmentPayload(v: Enrollment): Option<string>
  {
    if EnrollmentValid(v) then Some(Record(ENROLLMENT, EnrollmentFields(v))) else None
  }

  lemma EnrollmentShort(v: Enrollment)
    requires EnrollmentValid(v)
    ensures Short([ENROLLMENT] + EnrollmentFields(v))
  {
    hide Decimal;
    DecimalShort(v.authorityEpoch);
    DecimalShort(v.enrolled);
    DecimalShort(v.expires);
    DecimalShort(v.generation);
  }

  /** Equal payloads of valid enrollment receipts mean equal receipts. */
  lemma EnrollmentInjective(v: Enrollment, w: Enrollment)
    requires EnrollmentPayload(v).Some? && EnrollmentPayload(v) == EnrollmentPayload(w)
    ensures v == w
  {
    hide Decimal, Record, Repository;
    EnrollmentShort(v);
    EnrollmentShort(w);
    RecordInjective(ENROLLMENT, EnrollmentFields(v), ENROLLMENT, EnrollmentFields(w));
    DecimalInjective(v.authorityEpoch, w.authorityEpoch);
    DecimalInjective(v.enrolled, w.enrolled);
    DecimalInjective(v.expires, w.expires);
    DecimalInjective(v.generation, w.generation);
  }

  // ---- Root-action receipts ----

  datatype RootReceipt = RootReceipt(
    agent: string, assignment: int, campaign: int, generation: int, action: Action, sequence: int,
      authorization: string,
    nonce: string, authorityKey: string, authorityEpoch: int, activatorKey: string, counter: int, completed: int,
    kind: Kind, manifest: string, version: string, commit: string, release: int, epoch: int, artifact: Artifact)

  /** A bootstrap slot has no release manifest and only a rollback reaches it. */
  predicate ResultValid(v: RootReceipt)
  {
    && Version(v.version) && Commit(v.commit) && ArtifactValid(v.artifact)
    && match v.kind
       case Release => Digest(v.manifest) && Positive(v.release) && Positive(v.epoch)
       case Bootstrap => v.action == Rollback && v.manifest == "" && v.release == 0 && v.epoch == 0
  }

  predicate RootReceiptValid(v: RootReceipt)
  {
    && PublicId(v.agent) && Positive(v.assignment) && Positive(v.campaign) && Positive(v.generation)
    && Positive(v.sequence) && Nonce(v.nonce) && Digest(v.authorization) && Digest(v.authorityKey) &&
      Positive(v.authorityEpoch)
    && Digest(v.activatorKey) && Positive(v.counter) && Millis(v.completed) && ResultValid(v)
  }

  function RootReceiptFields(v: RootReceipt): seq<string>
    requires RootReceiptValid(v)
  {
    [v.agent, Decimal(v.assignment), Decimal(v.campaign), Decimal(v.generation), ActionText(v.action),
      Decimal(v.sequence),
     v.authorization, Hex(v.nonce), v.authorityKey, Decimal(v.authorityEpoch), v.activatorKey, Decimal(v.counter),
     Decimal(v.completed), KindText(v.kind), v.manifest, v.version, v.commit, Decimal(v.release), Decimal(v.epoch),
     v.artifact.os, v.artifact.arch, v.artifact.name, Decimal(v.artifact.size), v.artifact.digest]
  }

  const ROOT_RECEIPT := "root-action-receipt"

  function RootReceiptPayload(v: RootReceipt): Option<string>
  {
    if RootReceiptValid(v) then Some(Record(ROOT_RECEIPT, RootReceiptFields(v))) else None
  }

  lemma RootReceiptShort(v: RootReceipt)
    requires RootReceiptValid(v)
    ensures Short([ROOT_RECEIPT] + RootReceiptFields(v))
  {
    hide Decimal, Hex;
    DecimalShort(v.assignment);
    DecimalShort(v.campaign);
    DecimalShort(v.generation);
    DecimalShort(v.sequence);
    DecimalShort(v.authorityEpoch);
    DecimalShort(v.counter);
    DecimalShort(v.completed);
    DecimalShort(v.release);
    DecimalShort(v.epoch);
    DecimalShort(v.artifact.size);
  }

  /** Equal payloads of valid root receipts mean equal receipts. */
  lemma RootReceiptInjective(v: RootReceipt, w: RootReceipt)
    requires RootReceiptPayload(v).Some? && RootReceiptPayload(v) == RootReceiptPayload(w)
    ensures v == w
  {
    hide Decimal, Hex, Record;
    RootReceiptShort(v);
    RootReceiptShort(w);
    RecordInjective(ROOT_RECEIPT, RootReceiptFields(v), ROOT_RECEIPT, RootReceiptFields(w));
    var a, b := RootReceiptFields(v), RootReceiptFields(w);
    DecimalInjective(v.assignment, w.assignment);
    DecimalInjective(v.campaign, w.campaign);
    DecimalInjective(v.generation, w.generation);
    DecimalInjective(v.sequence, w.sequence);
    DecimalInjective(v.authorityEpoch, w.authorityEpoch);
    DecimalInjective(v.counter, w.counter);
    DecimalInjective(v.completed, w.completed);
    DecimalInjective(v.release, w.release);
    DecimalInjective(v.epoch, w.epoch);
    DecimalInjective(v.artifact.size, w.artifact.size);
    HexInjective(v.nonce, w.nonce);
    assert a[4] == b[4] && a[13] == b[13];
  }

  // ---- Requests of the updater, which are signed without validation ----

  const CHECK := "updater-check"
  const REPORT := "updater-report"
  const ACTIVATION := "root-activation"

  function CheckPayload(agent: string, counter: int): string { Record(CHECK, [agent, Decimal(counter)]) }

  datatype Report = Report(
    agent: string, counter: int, assignment: int, generation: int, state: int, manifest: string, binary: string,
    version: string, commit: string, failureCode: string, failureDetail: string, activationCounter: int,
    activationNonce: string, activatorSignature: string)

  predicate ReportSized(v: Report)
  {
    && |v.agent| < WORD && |v.manifest| < WORD && |v.binary| < WORD && |v.version| < WORD && |v.commit| < WORD
    && |v.failureCode| < WORD && |v.failureDetail| < WORD
    && IsBytes(v.activationNonce) && 2 * |v.activationNonce| < WORD && IsBytes(v.activatorSignature) &&
      2 * |v.activatorSignature| < WORD
    && Uint64(v.counter) && Int64(v.assignment) && Int64(v.generation) && Int64(v.state) && Uint64(v.activationCounter)
  }

  function ReportFields(v: Report): seq<string>
    requires IsBytes(v.activationNonce) && IsBytes(v.activatorSignature)
  {
    [v.agent, Decimal(v.counter), Decimal(v.assignment), Decimal(v.generation), Decimal(v.state), v.manifest,
      v.binary, v.version,
     v.commit, v.failureCode, v.failureDetail, Decimal(v.activationCounter), Hex(v.activationNonce),
       Hex(v.activatorSignature)]
  }

  lemma ReportShort(v: Report)
    requires ReportSized(v)
    ensures Short([REPORT] + ReportFields(v))
  {
    hide Decimal, Hex;
    DecimalShort(v.counter);
    DecimalShort(v.assignment);
    DecimalShort(v.generation);
    DecimalShort(v.state);
    DecimalShort(v.activationCounter);
  }

  lemma ReportInjective(v: Report, w: Report)
    requires ReportSized(v) && ReportSized(w) && Record(REPORT, ReportFields(v)) == Record(REPORT, ReportFields(w))
    ensures v == w
  {
    hide Decimal, Hex, Record;
    ReportShort(v);
    ReportShort(w);
    RecordInjective(REPORT, ReportFields(v), REPORT, ReportFields(w));
    DecimalInjective(v.counter, w.counter);
    DecimalInjective(v.assignment, w.assignment);
    DecimalInjective(v.generation, w.generation);
    DecimalInjective(v.state, w.state);
    DecimalInjective(v.activationCounter, w.activationCounter);
    HexInjective(v.activationNonce, w.activationNonce);
    HexInjective(v.activatorSignature, w.activatorSignature);
  }

  datatype Activation = Activation(
    agent: string, assignment: int, generation: int, counter: int, nonce: string, manifest: string, version: string,
    commit: string, release: int, epoch: int, os: string, arch: string, name: string, size: int, digest: string)

  predicate ActivationSized(v: Activation)
  {
    && |v.agent| < WORD && |v.manifest| < WORD && |v.version| < WORD && |v.commit| < WORD && |v.os| < WORD
    && |v.arch| < WORD && |v.name| < WORD && |v.digest| < WORD && IsBytes(v.nonce) && 2 * |v.nonce| < WORD
    && Int64(v.assignment) && Int64(v.generation) && Uint64(v.counter) && Int64(v.release) && Int64(v.epoch) &&
      Int64(v.size)
  }

  function ActivationFields(v: Activation): seq<string>
    requires IsBytes(v.nonce)
  {
    [v.agent, Decimal(v.assignment), Decimal(v.generation), Decimal(v.counter), Hex(v.nonce), v.manifest, v.version,
      v.commit,
     Decimal(v.release), Decimal(v.epoch), v.os, v.arch, v.name, Decimal(v.size), v.digest]
  }

  lemma ActivationShort(v: Activation)
    requires ActivationSized(v)
    ensures Short([ACTIVATION] + ActivationFields(v))
  {
    hide Decimal, Hex;
    DecimalShort(v.assignment);
    DecimalShort(v.generation);
    DecimalShort(v.counter);
    DecimalShort(v.release);
    DecimalShort(v.epoch);
    DecimalShort(v.size);
  }

  lemma ActivationInjective(v: Activation, w: Activation)
    requires ActivationSized(v) && ActivationSized(w)
    requires Record(ACTIVATION, ActivationFields(v)) == Record(ACTIVATION, ActivationFields(w))
    ensures v == w
  {
    hide Decimal, Hex, Record;
    ActivationShort(v);
    ActivationShort(w);
    RecordInjective(ACTIVATION, ActivationFields(v), ACTIVATION, ActivationFields(w));
    DecimalInjective(v.assignment, w.assignment);
    DecimalInjective(v.generation, w.generation);
    DecimalInjective(v.counter, w.counter);
    DecimalInjective(v.release, w.release);
    DecimalInjective(v.epoch, w.epoch);
    DecimalInjective(v.size, w.size);
    HexInjective(v.nonce, w.nonce);
  }

  lemma CheckInjective(agent: string, counter: int, agent': string, counter': int)
    requires |agent| < WORD && |agent'| < WORD && Uint64(counter) && Uint64(counter')
    requires CheckPayload(agent, counter) == CheckPayload(agent', counter')
    ensures agent == agent' && counter == counter'
  {
    hide Decimal, Record;
    DecimalShort(counter);
    DecimalShort(counter');
    RecordInjective(CHECK, [agent, Decimal(counter)], CHECK, [agent', Decimal(counter')]);
    DecimalInjective(counter, counter');
  }

  // ---- Domain separation ----

  function NameOf(k: nat): string
    requires k < 6
  {
    [CHECK, REPORT, ACTIVATION, AUTHORIZATION, ENROLLMENT, ROOT_RECEIPT][k]
  }

  lemma NamesDiffer(j: nat, k: nat)
    requires j < 6 && k < 6 && NameOf(j) == NameOf(k)
    ensures j == k
  {
    assert |CHECK| == 13 && |REPORT| == 14 && |ACTIVATION| == 15 && |AUTHORIZATION| == 35 && |ENROLLMENT| == 29 &&
      |ROOT_RECEIPT| == 19;
  }

  /** Payloads of different kinds never coincide, whatever they carry. */
  lemma KindsNeverCoincide(j: nat, k: nat, values: seq<string>, values': seq<string>)
    requires j < 6 && k < 6 && j != k && Short(values) && Short(values')
    ensures Record(NameOf(j), values) != Record(NameOf(k), values')
  {
    hide Record;
    NamesShort(j, values);
    NamesShort(k, values');
    if Record(NameOf(j), values) == Record(NameOf(k), values') {
      RecordInjective(NameOf(j), values, NameOf(k), values');
      NamesDiffer(j, k);
    }
  }

  lemma NamesShort(k: nat, values: seq<string>)
    requires k < 6 && Short(values)
    ensures Short([NameOf(k)] + values)
  {
    assert |NameOf(k)| <= 35;
  }
}
