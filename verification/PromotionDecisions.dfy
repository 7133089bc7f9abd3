/** When a passed canary is promoted, in the fields of the checkpoint, the request and the report, and
    what the reconcile then leaves on disk. */
module PromotionDecisions {
  import opened Options
  import opened Strings
  import opened Canary
  import opened Cohorts
  import opened Generations
  import opened DurableWrites
  import opened CanaryPlans
  import opened RetirementDecisions

  /** Says everything a passing report must be matched against. */
  predicate Named(project: string, c: CanaryState) {
    && TrimSpace(project) != [] && CommitId(c.commit) && TrimSpace(c.version) != [] && TrimSpace(c.build) != []
    && c.contract != Absent && c.registryIdentity != Absent && c.generation != Absent
    && c.executionPolicy != Absent && c.reportDigest != Absent && c.startedAt != Unset
  }

  /** A passing report under the default thresholds that agrees with the canary field by field. */
  predicate Confirms(project: string, c: CanaryState, r: Report) {
    && r.consistent && r.passed && r.defaultThresholds && r.project == project
    && r.commit == c.commit && r.version == c.version && r.build == c.build && r.contract == c.contract
    && r.registryIdentity == c.registryIdentity && r.generation == c.generation && r.executionPolicy == c.executionPolicy
    && r.cohortDigest == c.cohortDigest && OfCohort(r.cohort) == c.cohortDigest && CohortDigest(c.cohort) == c.cohortDigest
    && r.startedAt == c.startedAt && r.evidenceDigest == c.reportDigest && r.generatedAt == c.reportGeneratedAt
  }

  /** Generated within five minutes of its publication, on either side. */
  predicate Timely(r: Report, c: CanaryState) {
    && r.generatedAt.At? && c.publishedAt.At?
    && -300_000_000_000 <= c.publishedAt.ns - r.generatedAt.ns <= 300_000_000_000
  }

  /** The request, the registry and the report at the fixed path bear the canary out. */
  predicate Promotable(d: Disk, project: string, c: CanaryState, req: Request) {
    && CohortDigest(req.cohort) == c.cohortDigest != Absent && req.target == c.targetWidth
    && d.registry.project == project && d.registry.identity == c.registryIdentity
    && c.hardStop == "" && c.reportPath == REPORT_PATH
    && d.report.Some? && Named(project, c) && Confirms(project, c, d.report.value) && Timely(d.report.value, c)
  }

  lemma AuthenticIff(project: string, c: CanaryState, r: Report)
    ensures Authentic(project, c, r) <==>
      Named(project, c) && Confirms(project, c, r) && Timely(r, c) && c.cohortDigest != Absent
  {
    CommitIdIff(c.commit);
    hide CohortDigest;
    hide TrimSpace;
    hide CommitId;
    hide ValidCommit;
  }

  lemma PromotableIff(d: Disk, project: string, c: CanaryState, req: Request)
    ensures RequestMatches(d, project, c, req) <==> Promotable(d, project, c, req)
  {
    if d.report.Some? { AuthenticIff(project, c, d.report.value); }
    hide Authentic;
    hide Named;
    hide Confirms;
    hide Timely;
    hide CohortDigest;
  }

  /** A marker that can be read back. */
  predicate Readable(m: Marker) {
    m.project != "" && Absent !in {m.canary.cohortDigest, m.canary.registryIdentity, m.canary.reportDigest, m.canary.generation}
  }

  /** The project and the canary at issue: the checkpoint's, or the marker's once that is cleared. */
  function OwnerOf(d: Disk): string {
    if d.supervisor.canary.None? && d.marker.Some? then d.marker.value.project else d.supervisor.project
  }

  function CanaryAtIssue(d: Disk): Option<CanaryState> {
    if d.supervisor.canary.None? && d.marker.Some? then Some(d.marker.value.canary) else d.supervisor.canary
  }

  /** The marker is about the same canary. */
  predicate Agrees(m: Marker, project: string, c: CanaryState) {
    m.project == project && m.canary.cohortDigest == c.cohortDigest && m.canary.reportDigest == c.reportDigest
  }

  /** The disk once `c` is promoted. */
  function PromotedDisk(d: Disk, project: string, c: CanaryState, committed: bool): Disk {
    d.(marker := Some(Marker(project, Validated, c)),
       supervisor := Supervisor(project, Stopped, 0, d.supervisor.progress, d.supervisor.circuitReason, None),
       registry := Registry(d.registry.project, ValidatedPosture, d.registry.identity, committed))
  }

  /** What the writes of a promotion come to. */
  function WrittenOutcome(d: Disk, project: string, c: CanaryState): Ran {
    match d.registry.posture
    case Migrated => Ran(PromotedDisk(d, project, c, true), Success)
    case ValidatedPosture =>
      Ran(PromotedDisk(d, project, c, d.registry.committed || (d.marker.Some? && d.marker.value.status == Pending)), Success)
    case _ => Ran(d.(marker := Some(Marker(project, Pending, c))), Failure)
  }

  /** What one undisturbed reconcile comes to, on any disk. */
  function ReconcileOutcome(d: Disk, req: Request): Ran {
    if d.marker.Some? && !Readable(d.marker.value) then Ran(d, Failure)
    else if CanaryAtIssue(d).None? || CanaryAtIssue(d).value.decision != Passed then Ran(d, Skipped)
    else
      var project, c := OwnerOf(d), CanaryAtIssue(d).value;
      if !Promotable(d, project, c, req) || (d.marker.Some? && !Agrees(d.marker.value, project, c)) then Ran(d, Failure)
      else if d.supervisor.canary.None? && d.marker.value.status == Validated then
        Ran(d, if d.registry.posture == ValidatedPosture then Success else Failure)
      else WrittenOutcome(d, project, c)
  }

  /** A reconcile promotes exactly the promotable canary of a project ready for it, skips what is not a
      passed canary, and otherwise is an error, which writes nothing but the pending marker, and that only
      for a promotable canary under a posture short of migrated. */
  lemma ReconcileDecided(d: Disk, req: Request)
    ensures RunPlan(d, ReconcilePlan(d, req), []) == ReconcileOutcome(d, req)
  {
    hide *;
    ReconcileCases(d, req);
    OutcomeCases(d, req);
    RunCases(d);
    if d.marker.Some? { ReadableIff(d.marker.value); }
    if CanaryAtIssue(d).Some? {
      var project, c := OwnerOf(d), CanaryAtIssue(d).value;
      PromotableIff(d, project, c, req);
      OwnMarkerAgrees(d);
      if Promotable(d, project, c, req) {
        IdentityMatches(d, project, c, req);
        ReconciledIs(d);
        PromotionRun(d, Reconciled(d), c);
      }
    }
  }

  lemma ReadableIff(m: Marker)
    ensures MarkerLoads(m) <==> Readable(m)
  {
  }

  lemma RunCases(d: Disk)
    ensures RunPlan(d, Refuse, []) == Ran(d, Failure) && RunPlan(d, Nothing, []) == Ran(d, Skipped)
    ensures RunPlan(d, Do([], true), []) == Ran(d, Success)
  {
  }

  lemma OwnMarkerAgrees(d: Disk)
    ensures d.supervisor.canary.None? && d.marker.Some? && CanaryAtIssue(d).Some? ==>
      Agrees(d.marker.value, OwnerOf(d), CanaryAtIssue(d).value)
  {
  }

  lemma IdentityMatches(d: Disk, project: string, c: CanaryState, req: Request)
    requires Promotable(d, project, c, req)
    ensures d.registry.identity == c.registryIdentity
  {
    hide Confirms;
    hide Named;
    hide Timely;
    hide CohortDigest;
  }

  lemma ReconciledIs(d: Disk)
    ensures var s := Reconciled(d);
      s.project == OwnerOf(d) && s.progress == d.supervisor.progress && s.circuitReason == d.supervisor.circuitReason
  {
  }

  lemma ReconcileCases(d: Disk, req: Request)
    ensures ReconcilePlan(d, req) ==
      if d.marker.Some? && !MarkerLoads(d.marker.value) then Refuse
      else if CanaryAtIssue(d).None? || CanaryAtIssue(d).value.decision != Passed then Nothing
      else
        var project, c := OwnerOf(d), CanaryAtIssue(d).value;
        if !RequestMatches(d, project, c, req) then Refuse
        else if d.supervisor.canary.None? && d.marker.Some? && d.marker.value.status == Validated then
          if d.registry.posture == ValidatedPosture then Do([], true) else Refuse
        else if d.marker.Some? && !Agrees(d.marker.value, project, c) then Refuse
        else Do(PromotionWrites(d, Reconciled(d), c).0, PromotionWrites(d, Reconciled(d), c).1)
  {
    hide RequestMatches;
    hide PromotionWrites;
    hide MarkerLoads;
  }

  lemma OutcomeCases(d: Disk, req: Request)
    ensures ReconcileOutcome(d, req) ==
      if d.marker.Some? && !Readable(d.marker.value) then Ran(d, Failure)
      else if CanaryAtIssue(d).None? || CanaryAtIssue(d).value.decision != Passed then Ran(d, Skipped)
      else
        var project, c := OwnerOf(d), CanaryAtIssue(d).value;
        if !Promotable(d, project, c, req) || (d.marker.Some? && !Agrees(d.marker.value, project, c)) then Ran(d, Failure)
        else if d.supervisor.canary.None? && d.marker.Some? && d.marker.value.status == Validated then
          Ran(d, if d.registry.posture == ValidatedPosture then Success else Failure)
        else WrittenOutcome(d, project, c)
  {
    hide Promotable;
    hide Readable;
    hide PromotedDisk;
    hide Agrees;
  }

  /** The writes, all of which persist. */
  lemma PromotionRun(d: Disk, s: Supervisor, c: CanaryState)
    requires d.registry.identity == c.registryIdentity
    requires s.progress == d.supervisor.progress && s.circuitReason == d.supervisor.circuitReason
    ensures RunPlan(d, Do(PromotionWrites(d, s, c).0, PromotionWrites(d, s, c).1), []) == WrittenOutcome(d, s.project, c)
  {
    var pending, done := PutMarker(Marker(s.project, Pending, c)), PutMarker(Marker(s.project, Validated, c));
    var finish := [PutSupervisor(Completed(s)), done];
    var d1 := d.(marker := Some(pending.marker));
    HeadOfNone();
    PromotionShape(d, s, c);
    hide PromotionWrites;
    var ws := PromotionWrites(d, s, c).0;
    assert ws == [pending] + ws[1..];
    ExecStep(d, pending, ws[1..], []);
    var recovering := d.marker.Some? && d.marker.value.status == Pending;
    if d.registry.posture == Migrated || (d.registry.posture == ValidatedPosture && recovering) {
      var cas := CasRegistry(d.registry.posture, ValidatedPosture, c.registryIdentity);
      var d2 := d1.(registry := Registry(d.registry.project, ValidatedPosture, d.registry.identity, true));
      assert ws[1..] == [cas] + finish;
      ExecStep(d1, cas, finish, []);
      FinishRun(d2, s, done);
    } else if d.registry.posture == ValidatedPosture {
      assert ws[1..] == finish;
      FinishRun(d1, s, done);
    }
    hide Exec;
  }

  lemma FinishRun(d: Disk, s: Supervisor, done: Write)
    requires done.PutMarker?
    ensures Exec(d, [PutSupervisor(Completed(s)), done], []) == Outcome(
      d.(supervisor := Supervisor(s.project, Stopped, 0, s.progress, s.circuitReason, None), marker := Some(done.marker)), true)
  {
    HeadOfNone();
    var e := d.(supervisor := Completed(s));
    ExecStep(d, PutSupervisor(Completed(s)), [done], []);
    ExecStep(e, done, [], []);
    assert [done] + [] == [done];
  }
}
