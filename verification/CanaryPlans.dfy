/** The four evidence transactions of the canary loop as checks followed by ordered writes. */
module CanaryPlans {
  import opened Options
  import opened Canary
  import opened DurableWrites
  import opened IdLists

  /** What a transaction decides to do: an error before any write, nothing to do, or the writes in
      order, after which it either completes or still reports an error. */
  datatype Plan = Refuse | Nothing | Do(writes: seq<Write>, completes: bool)

  datatype Ending = Failure | Skipped | Success

  datatype Ran = Ran(disk: Disk, ending: Ending)

  /** Carrying out a plan on `d`, whose writes meet `fates`. */
  function RunPlan(d: Disk, plan: Plan, fates: seq<Fate>): Ran {
    match plan
    case Refuse => Ran(d, Failure)
    case Nothing => Ran(d, Skipped)
    case Do(ws, completes) =>
      var o := Exec(d, ws, fates);
      Ran(o.disk, if o.finished && completes then Success else Failure)
  }

  // ---- reconcilePassedNativeCanary and completePassedNativeCanary --------------------------------

  datatype Request = Request(cohort: seq<string>, target: int)

  predicate RequestMatches(d: Disk, project: string, c: CanaryState, req: Request) {
    && CohortDigest(req.cohort) != Absent && CohortDigest(req.cohort) == c.cohortDigest
    && req.target == c.targetWidth
    && d.registry.identity == c.registryIdentity
    && project == d.registry.project && c.hardStop == [] && c.reportPath == FIXED_REPORT_PATH
    && d.report.Some? && Authentic(project, c, d.report.value)
  }

  function Completed(s: Supervisor): Supervisor { s.(canary := None, mode := Stopped, pid := 0) }

  /** The supervisor state the reconciler works on: the marker stands in for a cleared checkpoint. */
  function Reconciled(d: Disk): Supervisor {
    if d.supervisor.canary.None? && d.marker.Some?
    then d.supervisor.(project := d.marker.value.project, canary := Some(d.marker.value.canary))
    else d.supervisor
  }

  function PromotionWrites(d: Disk, s: Supervisor, c: CanaryState): (seq<Write>, bool) {
    var pending := PutMarker(Marker(s.project, Pending, c));
    var finish := [PutSupervisor(Completed(s)), PutMarker(Marker(s.project, Validated, c))];
    match d.registry.posture
    case Migrated => ([pending] + ([CasRegistry(Migrated, ValidatedPosture, c.registryIdentity)] + finish), true)
    case ValidatedPosture =>
      if d.marker.Some? && d.marker.value.status == Pending
      then ([pending] + ([CasRegistry(ValidatedPosture, ValidatedPosture, c.registryIdentity)] + finish), true)
      else ([pending] + finish, true)
    case _ => ([pending], false)
  }

  function ReconcilePlan(d: Disk, req: Request): Plan {
    if d.marker.Some? && !MarkerLoads(d.marker.value) then Refuse
    else if d.supervisor.canary.None? && d.marker.None? then Nothing
    else
      var s := Reconciled(d);
      var c := s.canary.value;
      if c.decision != Passed then Nothing
      else if d.supervisor.canary.None? && d.marker.value.status == Validated then
        if RequestMatches(d, s.project, c, req) && d.registry.posture == ValidatedPosture then Do([], true) else Refuse
      else CompletionPlan(d, s, c, req)
  }

  /** completePassedNativeCanary for the canary `c` of the reconciled state `s`. */
  function CompletionPlan(d: Disk, s: Supervisor, c: CanaryState, req: Request): Plan {
    if !RequestMatches(d, s.project, c, req) then Refuse
    else if d.marker.Some? && (d.marker.value.project != s.project
      || d.marker.value.canary.cohortDigest != c.cohortDigest
      || d.marker.value.canary.reportDigest != c.reportDigest)
    then Refuse
    else
      var (writes, completes) := PromotionWrites(d, s, c);
      Do(writes, completes)
  }

  lemma PromotionShape(d: Disk, s: Supervisor, c: CanaryState)
    ensures var ws := PromotionWrites(d, s, c).0;
      var pending, done := PutMarker(Marker(s.project, Pending, c)), PutMarker(Marker(s.project, Validated, c));
      && ws != [] && ws[0] == pending
      && (d.registry.posture == Migrated ==>
            ws[1..] == [CasRegistry(Migrated, ValidatedPosture, c.registryIdentity), PutSupervisor(Completed(s)), done])
      && (d.registry.posture == ValidatedPosture ==>
            ws[1..] == (if d.marker.Some? && d.marker.value.status == Pending
              then [CasRegistry(ValidatedPosture, ValidatedPosture, c.registryIdentity)] else [])
              + [PutSupervisor(Completed(s)), done])
      && (d.registry.posture != Migrated && d.registry.posture != ValidatedPosture ==> ws[1..] == [])
      && (PromotionWrites(d, s, c).1 <==> d.registry.posture == Migrated || d.registry.posture == ValidatedPosture)
  {
  }

  /** A reconcile's writes are those of a promotion, or none. */
  lemma ReconcileShape(d: Disk, req: Request)
    requires ReconcilePlan(d, req).Do?
    ensures var p := ReconcilePlan(d, req); var s := Reconciled(d);
      && s.canary.Some? && s.canary.value.decision == Passed
      && RequestMatches(d, s.project, s.canary.value, req)
      && (d.marker.Some? ==> MarkerLoads(d.marker.value))
      && ((p.writes == [] && p.completes && d.registry.posture == ValidatedPosture)
          || (p.writes, p.completes) == PromotionWrites(d, s, s.canary.value))
  {
    hide RequestMatches;
    hide MarkerLoads;
    hide PromotionWrites;
  }

  // ---- retireStaleNativeCanaryEvidence -------------------------------------------------------

  datatype RetireOptions = RetireOptions(supersedePolicy: bool, supersedeCohort: bool)

  /** Fills in the digests a schema-3 checkpoint did not store. */
  function Upgraded(c: CanaryState, s: Spec): CanaryState {
    c.(autonomyPolicy := if c.autonomyPolicy == Absent then s.autonomyPolicy else c.autonomyPolicy,
       executionPolicy := if c.executionPolicy == Absent then s.executionPolicy else c.executionPolicy)
  }

  predicate TerminalFailure(s: Supervisor, c: CanaryState, m: Machine) {
    && c.decision == Failed && c.endedAt != Unset && c.reportDigest != Absent
    && c.reportGeneratedAt != Unset && c.publishedAt != Unset
    && s.pid !in m.alive
    && (s.mode == CircuitOpen || s.mode == Stopped)
  }

  predicate BinaryUnchanged(c: CanaryState, s: Spec) {
    c.commit == s.commit && c.version == s.version && c.build == s.build
  }

  /** The new binary is a clean strict descendant of the one the canary ran. */
  predicate BinaryAdvanced(c: CanaryState, s: Spec, m: Machine) {
    c.commit != s.commit && c.build != s.build && m.clean == Some(s.commit) && StrictDescendant(m, c.commit, s.commit)
  }

  /** Why a retirement may, need not, or must not go ahead, for an upgraded canary of another
      generation than `s`. */
  datatype Supersession = Forbidden | Unneeded | Allowed

  function Supersede(c: CanaryState, s: Spec, opt: RetireOptions, m: Machine): Supersession {
    if !SameEnvelope(c, s) then Forbidden
    else if !SameCohort(c, s) && !opt.supersedeCohort then Forbidden
    else if !SamePolicy(c, s) && !opt.supersedePolicy then Forbidden
    else if !BinaryUnchanged(c, s) && !BinaryAdvanced(c, s, m) then Forbidden
    else if (!SameCohort(c, s) || !SamePolicy(c, s)) && BinaryUnchanged(c, s) then Forbidden
    else if c.registryIdentity == s.registryIdentity && BinaryUnchanged(c, s) then Unneeded
    else Allowed
  }

  /** nativeCanaryRolloverReason. */
  function RolloverReason(registry: bool, binary: bool, policy: bool, cohort: bool): string {
    if policy && cohort && registry then
      "installed binary and registry validation identity changed; operator superseded failed canary policy and cohort"
    else if policy && cohort then "installed binary advanced; operator superseded failed canary policy and cohort"
    else if cohort && registry then
      "installed binary and registry validation identity changed; operator superseded failed canary cohort"
    else if cohort then "installed binary advanced; operator superseded failed canary cohort"
    else if policy && registry then
      "installed binary and registry validation identity changed; operator superseded failed canary policy"
    else if policy then "installed binary advanced; operator superseded failed canary policy"
    else if registry && binary then "installed binary and registry validation identity changed"
    else if binary then "installed binary advanced"
    else "registry validation identity changed"
  }

  function HistoryKey(project: string, c: CanaryState): Key {
    Key(project, c.generation, c.startedAt, c.reportDigest, c.reportPath)
  }

  function PolicyRecord(c: CanaryState, s: Spec): Option<PolicySupersession> {
    if SamePolicy(c, s) then None
    else Some(PolicySupersession(true, c.contract, s.contract, c.autonomyPolicy, s.autonomyPolicy,
      c.executionPolicy, s.executionPolicy, HardStops(c.hardStops), HardStops(s.hardStops)))
  }

  function CohortRecord(c: CanaryState, s: Spec): Option<CohortSupersession> {
    if SameCohort(c, s) then None
    else Some(CohortSupersession(true, SortStrings(c.cohort), SortStrings(s.cohort),
      c.cohortDigest, CohortDigest(SortStrings(s.cohort))))
  }

  function HistoryRecord(project: string, c: CanaryState, s: Spec, now: Stamp, state: Supervisor, r: Report): History {
    History(now,
      RolloverReason(c.registryIdentity != s.registryIdentity, !BinaryUnchanged(c, s), !SamePolicy(c, s), !SameCohort(c, s)),
      project, c.generation, s.generation, c.registryIdentity, s.registryIdentity,
      c, PolicyRecord(c, s), CohortRecord(c, s), HistoryKey(project, c), OfSupervisor(state), OfReport(r))
  }

  /** resetNativeCanarySupervisorState. */
  function Reset(s: Supervisor): Supervisor { Supervisor(s.project, Stopped, 0, NO_PROGRESS, "", None) }

  /** The live report, or the archived one when an earlier attempt already removed it. */
  function RetiredReport(d: Disk, key: Key): Option<Report> {
    if d.report.Some? then d.report
    else if key in d.archivedReports then Some(d.archivedReports[key]) else None
  }

  function RetireWrites(d: Disk, project: string, c: CanaryState, s: Spec, m: Machine, r: Report): seq<Write> {
    var key := HistoryKey(project, c);
    [ArchiveReport(key, r)] + ([ArchiveState(key, d.supervisor)]
      + ([PutHistory(key, HistoryRecord(project, c, s, m.now, d.supervisor, r))] + ReleaseWrites(d, r)))
  }

  /** Once the evidence is archived: the fixed report path, the sentinels, and the checkpoint last. */
  function ReleaseWrites(d: Disk, r: Report): seq<Write> {
    var reset := [ConsumeDrain, ClearControl, PutSupervisor(Reset(d.supervisor))];
    if d.report.Some? then [RemoveReport(r)] + reset else reset
  }

  /** What the checkpoint holds for a retirement under `s`: an error, nothing to do, or the canary to
      retire, with its digests filled in. */
  datatype Subject = Unfit | NotDue | Stale(canary: CanaryState)

  function RetireSubject(state: Supervisor, project: string, s: Spec, opt: RetireOptions, m: Machine): Subject {
    if state.canary.None? then NotDue
    else if state.project != [] && state.project != project then Unfit
    else
      var c0 := state.canary.value;
      if c0.decision == Passed || !TerminalFailure(state, c0, m) then Unfit
      else if c0.reportPath != FIXED_REPORT_PATH || s.reportPath != FIXED_REPORT_PATH then Unfit
      else
        var c1 := Upgraded(c0, s);
        var generation := StateGeneration(project, c1);
        if generation.None? || (c1.generation != Absent && c1.generation != generation.value) then Unfit
        else
          var c := c1.(generation := generation.value);
          if SpecGeneration(project, s) != Some(s.generation) then Unfit
          else if c.generation == s.generation then NotDue
          else match Supersede(c, s, opt, m)
            case Forbidden => Unfit
            case Unneeded => NotDue
            case Allowed => Stale(c)
  }

  /** With a marker on disk every path ends in an error before any write; the branches that would
      archive and remove the marker are never reached. */
  function RetirePlan(d: Disk, project: string, s: Spec, opt: RetireOptions, m: Machine): Plan {
    if d.marker.Some? then Refuse
    else match RetireSubject(d.supervisor, project, s, opt, m)
      case Unfit => Refuse
      case NotDue => Nothing
      case Stale(c) =>
        var r := RetiredReport(d, HistoryKey(project, c));
        if r.None? || !r.value.consistent || !Retirable(project, c, c.generation, r.value) then Refuse
        else Do(RetireWrites(d, project, c, s, m, r.value), true)
  }

  // ---- rolloverStoppedEmptyNativeCanary ------------------------------------------------------

  /** No run, outcome, sample, hard stop or publication: nothing a rollover could lose. */
  predicate EvidenceEmpty(c: CanaryState) {
    && c.runIDs == [] && c.terminal == map[] && c.pressure == [] && c.hardStop == []
    && c.endedAt == Unset && c.reportDigest == Absent && c.reportGeneratedAt == Unset && c.publishedAt == Unset
  }

  predicate SupersededBinary(project: string, c: CanaryState, s: Spec, m: Machine) {
    && SameNonBinaryPolicy(c, s) && c.registryIdentity == s.registryIdentity && BinaryAdvanced(c, s, m)
  }

  function RolloverPlan(d: Disk, project: string, s: Spec, m: Machine): Plan {
    if d.supervisor.canary.None? || d.supervisor.canary.value.decision != Undecided then Nothing
    else if d.supervisor.project != [] && d.supervisor.project != project then Refuse
    else
      var c := d.supervisor.canary.value;
      if StateGeneration(project, c) != Some(c.generation) || SpecGeneration(project, s) != Some(s.generation) then Refuse
      else if c.generation == s.generation then Nothing
      else if d.supervisor.mode != Stopped || d.supervisor.pid in m.alive || !EvidenceEmpty(c) then Refuse
      else if c.reportPath == FIXED_REPORT_PATH && d.report.Some? then Refuse
      else if !SupersededBinary(project, c, s, m) then Refuse
      else Do([ConsumeDrain, PutSupervisor(Reset(d.supervisor))], true)
  }

  // ---- finalizeStoppedNativeCanaryIntervention -----------------------------------------------

  /** What the ledger says about the canary's runs, and what the publisher would publish. */
  datatype Containment = Containment(allTerminal: bool, aborted: bool, published: Option<Report>)

  const OPERATOR_INTERVENTION := "operator-intervention"

  function Ended(s: Supervisor, c: CanaryState, now: Stamp): CanaryState {
    c.(hardStop := OPERATOR_INTERVENTION, endedAt := if c.endedAt == Unset then now else c.endedAt)
  }

  function Tripped(s: Supervisor, c: CanaryState): Supervisor {
    s.(mode := CircuitOpen, circuitReason := "canary hard stop: operator-intervention", canary := Some(c))
  }

  function Decided(c: CanaryState, r: Report, now: Stamp): CanaryState {
    c.(decision := Failed, reportDigest := r.evidenceDigest, reportGeneratedAt := r.generatedAt,
       reportPath := FIXED_REPORT_PATH, publishedAt := now)
  }

  function FinalizePlan(d: Disk, project: string, s: Spec, m: Machine, k: Containment): Plan {
    if d.supervisor.canary.None? || d.supervisor.canary.value.decision != Undecided
      || d.supervisor.canary.value.runIDs == [] then Nothing
    else
      var c := d.supervisor.canary.value;
      if StateGeneration(project, c) != Some(c.generation) || SpecGeneration(project, s) != Some(s.generation) then Refuse
      else if c.generation == s.generation then Nothing
      else if d.supervisor.project != [] && d.supervisor.project != project then Refuse
      else if d.supervisor.mode != Stopped || d.supervisor.pid in m.alive then Refuse
      else if !d.control.stop && !d.control.drain then Refuse
      else if !SupersededBinary(project, c, s, m) then Refuse
      else if !k.allTerminal || !k.aborted then Refuse
      else if c.hardStop != [] && c.hardStop != OPERATOR_INTERVENTION then Refuse
      else
        FinalizeWrites(d.supervisor, Ended(d.supervisor, c, m.now), m, k)
  }

  function FinalizeWrites(state: Supervisor, ended: CanaryState, m: Machine, k: Containment): (p: Plan)
    ensures p.Do?
  {
    var checkpoint := PutSupervisor(Tripped(state, ended));
    match k.published
    case None => Do([checkpoint], false)
    case Some(r) =>
      if r.passed then Do([checkpoint, PublishReport(r)], false)
      else Do([checkpoint, PublishReport(r), PutSupervisor(Tripped(state, Decided(ended, r, m.now)))], true)
  }
}
