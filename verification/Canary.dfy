/** The durable objects of the native canary, and the identities they carry. A digest is modelled by
    its preimage, which makes it injective. */
module Canary {
  import opened Options
  import opened Strings
  import opened IdLists

  /** A time, or the empty string. */
  datatype Stamp = Unset | At(ns: int)

  datatype Digest =
    | Absent
    | Opaque(hex: string)
    | OfCohort(ids: seq<string>)
    | OfGeneration(generation: Generation)
    | OfReport(report: Report)
    | OfSupervisor(state: Supervisor)

  /** The canonical identity envelope of one canary generation. */
  datatype Generation = Generation(
    project: string, commit: string, version: string, build: string,
    contract: Digest, registryIdentity: Digest, autonomyPolicy: Digest, executionPolicy: Digest,
    cohort: seq<string>, targetWidth: int, inactivityMs: int, hardStops: seq<string>, reportPath: string)

  datatype Decision = Undecided | Passed | Failed

  /** loop.CanaryState, without the counters nothing here reads. */
  datatype CanaryState = CanaryState(
    cohort: seq<string>, cohortDigest: Digest, startedAt: Stamp, inactivityMs: int, targetWidth: int,
    hardStops: seq<string>, hardStop: string,
    commit: string, version: string, build: string,
    contract: Digest, registryIdentity: Digest, autonomyPolicy: Digest, executionPolicy: Digest,
    generation: Digest, reportPath: string,
    runIDs: seq<string>, terminal: map<string, string>, pressure: seq<string>,
    endedAt: Stamp, decision: Decision, reportDigest: Digest, reportGeneratedAt: Stamp, publishedAt: Stamp)

  /** loop.CanarySpec. */
  datatype Spec = Spec(
    cohort: seq<string>, targetWidth: int, inactivityMs: int, hardStops: seq<string>,
    commit: string, version: string, build: string,
    contract: Digest, registryIdentity: Digest, autonomyPolicy: Digest, executionPolicy: Digest,
    generation: Digest, reportPath: string)

  datatype Mode = Starting | Running | Idle | Draining | Stopped | CircuitOpen

  /** The fields of the checkpoint that only a reset touches. */
  datatype Progress = Progress(
    startedAt: Stamp, lastObserved: Stamp, currentRun: string, lastRun: string, lastCode: int,
    lastReason: string, idleBackoffMs: int, fingerprint: string, identical: nat, consecutive: nat)

  const NO_PROGRESS := Progress(Unset, Unset, "", "", 0, "", 0, "", 0, 0)

  /** loop.State, the supervisor checkpoint. */
  datatype Supervisor = Supervisor(
    project: string, mode: Mode, pid: int, progress: Progress, circuitReason: string, canary: Option<CanaryState>)

  /** metrics.AutonomyReport; `consistent` says that the file passes ValidateAutonomyReport. */
  datatype Report = Report(
    project: string, commit: string, version: string, build: string,
    contract: Digest, registryIdentity: Digest, generation: Digest, executionPolicy: Digest,
    cohort: seq<string>, cohortDigest: Digest, startedAt: Stamp, generatedAt: Stamp,
    passed: bool, defaultThresholds: bool, evidenceDigest: Digest, consistent: bool)

  datatype MarkerStatus = Pending | Validated

  /** The promotion marker (schema 3). */
  datatype Marker = Marker(project: string, status: MarkerStatus, canary: CanaryState)

  datatype Posture = Registered | Inventoried | Migrated | ValidatedPosture

  /** The project's registry record: posture, validation identity digest, and whether the last
      write was also audited and committed. */
  datatype Registry = Registry(project: string, posture: Posture, identity: Digest, committed: bool)

  /** What names one retired generation's archive directory and history record. */
  datatype Key = Key(project: string, generation: Digest, startedAt: Stamp, reportDigest: Digest, reportPath: string)

  datatype PolicySupersession = PolicySupersession(
    operatorRequested: bool,
    previousContract: Digest, currentContract: Digest,
    previousAutonomy: Digest, currentAutonomy: Digest,
    previousExecution: Digest, currentExecution: Digest,
    previousHardStops: seq<string>, currentHardStops: seq<string>)

  datatype CohortSupersession = CohortSupersession(
    operatorRequested: bool, previous: seq<string>, current: seq<string>,
    previousDigest: Digest, currentDigest: Digest)

  /** loop.CanaryGenerationArchive, the retirement manifest. Archive paths follow from `key`. */
  datatype History = History(
    retiredAt: Stamp, reason: string, project: string,
    previousGeneration: Digest, currentGeneration: Digest,
    previousRegistry: Digest, currentRegistry: Digest,
    canary: CanaryState, policy: Option<PolicySupersession>, cohort: Option<CohortSupersession>,
    key: Key, archivedState: Digest, archivedReport: Digest)

  /** The operator's control sidecar. */
  datatype Control = Control(stop: bool, drain: bool)

  const NO_CONTROL := Control(false, false)

  /** Everything durable. `report` is the file at the fixed report path. */
  datatype Disk = Disk(
    supervisor: Supervisor, marker: Option<Marker>, registry: Registry, report: Option<Report>,
    archivedReports: map<Key, Report>, archivedStates: map<Key, Supervisor>, history: map<Key, History>,
    drain: bool, control: Control)

  /** What a run reads from its surroundings: the clock, the commit of a clean checkout, which
      commits descend from which, and the live processes. */
  datatype Machine = Machine(now: Stamp, clean: Option<string>, descends: set<(string, string)>, alive: set<int>)

  // ---- identities ----------------------------------------------------------------------------

  predicate Blank(s: string) { TrimSpace(s) == [] }

  function TrimAll(ids: seq<string>): (r: seq<string>)
    ensures |r| == |ids| && forall i | 0 <= i < |ids| :: r[i] == TrimSpace(ids[i])
  {
    if ids == [] then [] else [TrimSpace(ids[0])] + TrimAll(ids[1..])
  }

  /** The first occurrences of the non-empty entries. */
  function Dedup(ids: seq<string>): seq<string> {
    if ids == [] then []
    else
      var last := ids[|ids| - 1];
      var r := Dedup(ids[..|ids| - 1]);
      if last == [] || last in r then r else r + [last]
  }

  /** loop.normalizedCohort. */
  function Normalize(ids: seq<string>): seq<string> { SortStrings(Dedup(TrimAll(ids))) }

  /** metrics.AutonomyCohortDigest: no digest for an empty list, a blank id or a duplicate. */
  function CohortDigest(ids: seq<string>): Digest {
    if ids == [] || |Dedup(TrimAll(ids))| != |ids| then Absent else OfCohort(SortStrings(TrimAll(ids)))
  }

  const REQUIRED_HARD_STOPS := [
    "unjustified-frontier-implementation", "engine-invariant", "cohort-admission-violation",
    "host-memory-pressure", "token-semantics-inconsistent", "operator-intervention",
    "canary-inactivity-timeout"]

  /** loop.CanonicalCanaryHardStops. */
  function HardStops(extra: seq<string>): seq<string> { Normalize(REQUIRED_HARD_STOPS + extra) }

  predicate HexLower(c: char) { '0' <= c <= '9' || 'a' <= c <= 'f' }

  predicate ValidCommit(c: string) {
    (|c| == 40 || |c| == 64) && forall i | 0 <= i < |c| :: HexLower(c[i])
  }

  lemma ValidCommitTrimmed(c: string)
    ensures ValidCommit(c) ==> TrimSpace(c) == c
  {
    if ValidCommit(c) {
      assert HexLower(c[0]) && HexLower(c[|c| - 1]);
      TrimmedIsFixed(c);
    }
  }

  const DEFAULT_INACTIVITY_MS := 30 * 60 * 1000

  function EffectiveInactivity(ms: int): int { if ms <= 0 then DEFAULT_INACTIVITY_MS else ms }

  /** loop.CanaryGenerationDigest; None stands for its error. */
  function SpecGeneration(project: string, s: Spec): Option<Digest> {
    var cohort := Normalize(s.cohort);
    if Blank(project) || |cohort| < 2 || |cohort| != |s.cohort| || s.targetWidth < 2 || s.targetWidth > |cohort|
      || !ValidCommit(TrimSpace(s.commit)) || Blank(s.version) || Blank(s.build)
      || s.contract == Absent || s.registryIdentity == Absent
      || s.autonomyPolicy == Absent || s.executionPolicy == Absent || Blank(s.reportPath)
    then None
    else Some(OfGeneration(Generation(
      TrimSpace(project), TrimSpace(s.commit), TrimSpace(s.version), TrimSpace(s.build),
      s.contract, s.registryIdentity, s.autonomyPolicy, s.executionPolicy,
      cohort, s.targetWidth, EffectiveInactivity(s.inactivityMs), HardStops(s.hardStops), s.reportPath)))
  }

  /** loop.CanaryStateGenerationDigest. */
  function StateGeneration(project: string, c: CanaryState): Option<Digest> {
    SpecGeneration(project, Spec(c.cohort, c.targetWidth, c.inactivityMs, c.hardStops, c.commit, c.version, c.build,
      c.contract, c.registryIdentity, c.autonomyPolicy, c.executionPolicy, Absent, c.reportPath))
  }

  predicate SameCohort(c: CanaryState, s: Spec) {
    SortStrings(c.cohort) == SortStrings(s.cohort) && c.cohortDigest == CohortDigest(SortStrings(c.cohort))
  }

  predicate SameEnvelope(c: CanaryState, s: Spec) {
    c.targetWidth == s.targetWidth && c.inactivityMs == s.inactivityMs && c.reportPath == s.reportPath
  }

  predicate SamePolicy(c: CanaryState, s: Spec) {
    HardStops(c.hardStops) == HardStops(s.hardStops) && c.contract == s.contract
    && c.autonomyPolicy == s.autonomyPolicy && c.executionPolicy == s.executionPolicy
  }

  predicate SameNonBinaryPolicy(c: CanaryState, s: Spec) {
    SameCohort(c, s) && SameEnvelope(c, s) && SamePolicy(c, s)
  }

  /** sameNativeCanaryIdentity. */
  predicate SameIdentity(a: CanaryState, b: CanaryState) {
    a.registryIdentity == b.registryIdentity && a.generation == b.generation
    && a.cohortDigest == b.cohortDigest && a.commit == b.commit && a.build == b.build
    && a.contract == b.contract && a.executionPolicy == b.executionPolicy
    && a.reportPath == b.reportPath && a.reportDigest == b.reportDigest
  }

  predicate StrictDescendant(m: Machine, previous: string, current: string) {
    ValidCommit(previous) && ValidCommit(current) && previous != current && (previous, current) in m.descends
  }

  // ---- reports -------------------------------------------------------------------------------

  const FIXED_REPORT_PATH := ".plan-logs/koryph/canary/autonomous-loop-reliability.json"

  const MAX_AGE_NS := 5 * 60 * 1_000_000_000
  const MAX_SKEW_NS := 5 * 60 * 1_000_000_000

  predicate Fresh(generated: Stamp, published: Stamp) {
    generated.At? && published.At?
    && published.ns - MAX_AGE_NS <= generated.ns <= published.ns + MAX_SKEW_NS
  }

  /** validateAutonomyExpectation on what the canary expects of its report. */
  predicate Expectable(project: string, c: CanaryState) {
    && CohortDigest(c.cohort) != Absent && CohortDigest(c.cohort) == c.cohortDigest
    && !Blank(project) && ValidCommit(c.commit) && !Blank(c.version) && !Blank(c.build)
    && c.contract != Absent && c.registryIdentity != Absent && c.generation != Absent
    && c.executionPolicy != Absent && c.reportDigest != Absent
    && c.startedAt.At? && c.reportGeneratedAt.At? && c.publishedAt.At?
  }

  /** LoadAutonomyReportExpected accepts `r` for the passed canary `c`. */
  predicate Authentic(project: string, c: CanaryState, r: Report) {
    && Expectable(project, c) && r.consistent && r.defaultThresholds && r.passed
    && r.project == project && r.commit == c.commit && r.version == c.version && r.build == c.build
    && r.contract == c.contract && r.registryIdentity == c.registryIdentity
    && r.generation == c.generation && r.executionPolicy == c.executionPolicy
    && r.cohortDigest == c.cohortDigest && OfCohort(r.cohort) == c.cohortDigest
    && r.startedAt == c.startedAt && r.evidenceDigest == c.reportDigest
    && r.generatedAt == c.reportGeneratedAt && Fresh(r.generatedAt, c.publishedAt)
  }

  /** authenticateRetirableCanaryReport. */
  predicate Retirable(project: string, c: CanaryState, generation: Digest, r: Report) {
    && !r.passed && r.project == project && r.commit == c.commit && r.version == c.version && r.build == c.build
    && r.contract == c.contract && r.registryIdentity == c.registryIdentity
    && r.cohortDigest == c.cohortDigest && r.startedAt == c.startedAt && r.evidenceDigest == c.reportDigest
    && (r.generation == Absent || r.generation == generation)
    && (r.executionPolicy == Absent || r.executionPolicy == c.executionPolicy)
  }

  /** The checks of loadNativeCanaryPromotionMarker on a schema-3 marker. */
  predicate MarkerLoads(m: Marker) {
    m.project != [] && m.canary.cohortDigest != Absent && m.canary.registryIdentity != Absent
    && m.canary.reportDigest != Absent && m.canary.generation != Absent
  }
}
