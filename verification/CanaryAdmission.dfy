/** Canary admission: the transactions a canary-mode loop goes through, in order, before its
    supervisor may start. */
module CanaryAdmission {
  import opened Options
  import opened Strings
  import opened Canary
  import opened DurableWrites
  import opened CanaryPlans
  import opened CanaryHost
  import opened CanaryProtocol
  import opened CanaryRuns

  /** What an invocation brings: the request, the identities of the installed binary and checkout,
      and how the writes of each transaction fare. */
  datatype Invocation = Invocation(
    project: string, req: Request, opt: RetireOptions, m: Machine, containment: Containment,
    // nativeCanarySpecWithPolicy, or its error
    newSpec: Option<Spec>,
    // the installed binary, the AGENTS.md digest, the default autonomy policy, and the execution
    // policy of the resumed spec
    commit: string, version: string, build: string, registryIdentity: Digest, cleanResume: bool,
    contract: Digest, autonomyPolicy: Digest, executionPolicy: Digest,
    reconcileFates: seq<Fate>, finalizeFates: seq<Fate>, rolloverFates: seq<Fate>, retireFates: seq<Fate>)

  /** What becomes of it. */
  datatype Admission = Rejected | Handled(promoted: bool) | Admitted(spec: Spec)

  predicate SteadyModeReady(p: Posture) { p == Migrated || p == ValidatedPosture }

  /** The spec of an unfinished canary that is resumed. */
  function ResumingSpec(c: CanaryState, cohort: seq<string>, target: int): Spec {
    Spec(cohort, target, c.inactivityMs, c.hardStops, c.commit, c.version, c.build, c.contract,
      c.registryIdentity, c.autonomyPolicy, c.executionPolicy, c.generation, c.reportPath)
  }

  /** resumedNativeCanarySpecWithPolicy. */
  method ResumedSpec(c: CanaryState, i: Invocation) returns (spec: Option<Spec>)
    ensures spec == if Resumes(c, i) then Some(ResumingSpec(c, i.req.cohort, i.req.target)) else None
  {
    hide CohortDigest;
    hide SpecGeneration;
    var digest := CohortDigest(i.req.cohort);
    if digest == Absent || digest != c.cohortDigest || i.req.target != c.targetWidth {
      return None;
    }
    if TrimSpace(i.commit) != c.commit || TrimSpace(i.version) != c.version || i.build != c.build {
      return None;
    }
    if i.registryIdentity != c.registryIdentity || !i.cleanResume {
      return None;
    }
    if c.contract != i.contract || c.reportPath != FIXED_REPORT_PATH {
      return None;
    }
    var s := ResumingSpec(c, i.req.cohort, i.req.target);
    if i.autonomyPolicy != s.autonomyPolicy || i.executionPolicy != s.executionPolicy
      || SpecGeneration(i.project, s) != Some(s.generation) {
      return None;
    }
    return Some(s);
  }

  /** The identity of the unfinished canary is the one this invocation would give it. */
  predicate Resumes(c: CanaryState, i: Invocation) {
    && CohortDigest(i.req.cohort) != Absent && c.cohortDigest == CohortDigest(i.req.cohort) && c.targetWidth == i.req.target
    && c.commit == TrimSpace(i.commit) && c.version == TrimSpace(i.version) && c.build == i.build
    && c.registryIdentity == i.registryIdentity && i.cleanResume
    && c.contract == i.contract && c.reportPath == FIXED_REPORT_PATH
    && c.autonomyPolicy == i.autonomyPolicy && c.executionPolicy == i.executionPolicy
    && SpecGeneration(i.project, ResumingSpec(c, i.req.cohort, i.req.target)) == Some(c.generation)
  }

  // ---- admission as a function of the disk -----------------------------------------------------

  datatype Admitting = Admitting(disk: Disk, outcome: Admission)

  predicate Decides(d: Disk, decision: Decision) { d.supervisor.canary.Some? && d.supervisor.canary.value.decision == decision }

  function Reconciling(d: Disk, i: Invocation): Ran { RunPlan(d, ReconcilePlan(d, i.req), i.reconcileFates) }

  function FinalizingOf(d: Disk, i: Invocation, spec: Spec): Ran {
    RunPlan(d, FinalizePlan(d, i.project, spec, i.m, i.containment), i.finalizeFates)
  }

  function RollingOf(d: Disk, i: Invocation, spec: Spec): Ran {
    if Decides(d, Undecided) then RunPlan(d, RolloverPlan(d, i.project, spec, i.m), i.rolloverFates) else Ran(d, Skipped)
  }

  function RetiringOf(d: Disk, i: Invocation, spec: Spec): Ran {
    RunPlan(d, RetirePlan(d, i.project, spec, i.opt, i.m), i.retireFates)
  }

  function AdmissionOf(d: Disk, i: Invocation): Admitting {
    if d.marker.Some? && !MarkerLoads(d.marker.value) then Admitting(d, Rejected)
    else if Decides(d, Passed) || d.marker.Some? then
      var r := Reconciling(d, i);
      if r.ending == Success then Admitting(r.disk, Handled(d.registry.posture == Migrated))
      else if r.ending == Failure || d.marker.Some? then Admitting(r.disk, Rejected)
      else AdmitOpen(r.disk, i)
    else AdmitOpen(d, i)
  }

  /** Admission once no marker and no passed canary stand in its way. */
  function AdmitOpen(d: Disk, i: Invocation): Admitting {
    if !Decides(d, Undecided) then AdmitDecided(d, i)
    else if i.newSpec.None? then Admitting(d, Rejected)
    else
      var f := FinalizingOf(d, i, i.newSpec.value);
      if f.ending == Failure then Admitting(f.disk, Rejected)
      else
        var r := RollingOf(f.disk, i, i.newSpec.value);
        if r.ending == Failure then Admitting(r.disk, Rejected) else AdmitDecided(r.disk, i)
  }

  function AdmitDecided(d: Disk, i: Invocation): Admitting {
    if !Decides(d, Failed) then Admitting(d, Opening(d, i))
    else if i.newSpec.None? then Admitting(d, Rejected)
    else
      var r := RetiringOf(d, i, i.newSpec.value);
      Admitting(r.disk, if r.ending == Success then Opening(r.disk, i) else Rejected)
  }

  /** The posture check and the spec, on the disk the transactions left. */
  function Opening(d: Disk, i: Invocation): Admission {
    if !SteadyModeReady(d.registry.posture) then Rejected
    else if d.supervisor.canary.Some? then
      if Resumes(d.supervisor.canary.value, i) then Admitted(ResumingSpec(d.supervisor.canary.value, i.req.cohort, i.req.target))
      else Rejected
    else if i.newSpec.Some? then Admitted(i.newSpec.value) else Rejected
  }

  // ---- what a completed transaction leaves -----------------------------------------------------

  lemma LastPut(d: Disk, ws: seq<Write>, s: Supervisor, fates: seq<Fate>)
    requires ws != [] && ws[|ws| - 1] == PutSupervisor(s) && Exec(d, ws, fates).finished
    ensures Exec(d, ws, fates).disk.supervisor == s
  {
    var n := |ws| - 1;
    assert ws == ws[..n] + [PutSupervisor(s)];
    ExecConcat(d, ws[..n], [PutSupervisor(s)], fates);
    var e := Exec(d, ws[..n], fates);
    ExecStep(e.disk, PutSupervisor(s), [], Drop(fates, n));
    assert [PutSupervisor(s)] + [] == [PutSupervisor(s)];
  }

  lemma RollingClears(d: Disk, project: string, s: Spec, m: Machine, fates: seq<Fate>)
    requires RunPlan(d, RolloverPlan(d, project, s, m), fates).ending == Success
    ensures RunPlan(d, RolloverPlan(d, project, s, m), fates).disk.supervisor == Reset(d.supervisor)
  {
    hide StateGeneration;
    hide SpecGeneration;
    hide SupersededBinary;
    hide Exec;
    LastPut(d, [ConsumeDrain, PutSupervisor(Reset(d.supervisor))], Reset(d.supervisor), fates);
  }

  lemma RetiringClears(d: Disk, project: string, s: Spec, opt: RetireOptions, m: Machine, fates: seq<Fate>)
    requires RunPlan(d, RetirePlan(d, project, s, opt, m), fates).ending == Success
    ensures RunPlan(d, RetirePlan(d, project, s, opt, m), fates).disk.supervisor == Reset(d.supervisor)
  {
    hide RetireSubject;
    hide Retirable;
    hide RetireWrites;
    hide Exec;
    var c := RetireSubject(d.supervisor, project, s, opt, m).canary;
    var r := RetiredReport(d, HistoryKey(project, c)).value;
    RetireEnds(d, project, c, s, m, r);
    LastPut(d, RetireWrites(d, project, c, s, m, r), Reset(d.supervisor), fates);
  }

  lemma RetireEnds(d: Disk, project: string, c: CanaryState, s: Spec, m: Machine, r: Report)
    ensures var ws := RetireWrites(d, project, c, s, m, r);
      ws != [] && ws[|ws| - 1] == PutSupervisor(Reset(d.supervisor))
  {
    hide HistoryRecord;
  }

  // ---- the loop ------------------------------------------------------------------------------

  /** cmdLoop in canary mode, up to the start of the supervisor. */
  method AdmitCanary(h: Host, i: Invocation) returns (outcome: Admission)
    modifies h
    ensures Admitting(h.Contents(), outcome) == AdmissionOf(old(h.Contents()), i)
  {
    hide ReconcilePlan;
    hide RunPlan;
    hide MarkerLoads;
    hide AdmitOpen;
    ghost var d := h.Contents();
    var marked := h.marker.Some?;
    if marked && !MarkerLoads(h.marker.value) {
      return Rejected;
    }
    if (h.supervisor.canary.Some? && h.supervisor.canary.value.decision == Passed) || marked {
      var ending, promoted := h.ReconcilePassed(i.req, i.reconcileFates);
      if ending == Failure {
        return Rejected;
      }
      if ending == Success {
        return Handled(promoted);
      }
      if marked {
        return Rejected;
      }
    }
    outcome := AdmitWithoutMarker(h, i);
  }

  method AdmitWithoutMarker(h: Host, i: Invocation) returns (outcome: Admission)
    modifies h
    ensures Admitting(h.Contents(), outcome) == AdmitOpen(old(h.Contents()), i)
  {
    hide FinalizePlan;
    hide RolloverPlan;
    hide RetirePlan;
    hide RunPlan;
    hide ResumingSpec;
    hide Resumes;
    var admitted: Option<Spec> := None;
    if h.supervisor.canary.Some? && h.supervisor.canary.value.decision == Undecided {
      if i.newSpec.None? {
        return Rejected;
      }
      var ending := h.FinalizeInterrupted(i.project, i.newSpec.value, i.m, i.containment, i.finalizeFates);
      if ending == Failure {
        return Rejected;
      }
      if h.supervisor.canary.Some? && h.supervisor.canary.value.decision == Undecided {
        ghost var before := h.Contents();
        ending := h.RolloverEmpty(i.project, i.newSpec.value, i.m, i.rolloverFates);
        if ending == Failure {
          return Rejected;
        }
        if ending == Success {
          RollingClears(before, i.project, i.newSpec.value, i.m, i.rolloverFates);
          admitted := i.newSpec;
        }
      }
    }
    if h.supervisor.canary.Some? && h.supervisor.canary.value.decision == Failed {
      if i.newSpec.None? {
        return Rejected;
      }
      admitted := i.newSpec;
      ghost var before := h.Contents();
      var ending := h.RetireStale(i.project, i.newSpec.value, i.opt, i.m, i.retireFates);
      if ending != Success {
        return Rejected;
      }
      RetiringClears(before, i.project, i.newSpec.value, i.opt, i.m, i.retireFates);
    }
    if !SteadyModeReady(h.registry.posture) {
      return Rejected;
    }
    var spec := admitted;
    if spec.None? {
      if h.supervisor.canary.Some? {
        spec := ResumedSpec(h.supervisor.canary.value, i);
      } else {
        spec := i.newSpec;
      }
    }
    outcome := if spec.Some? then Admitted(spec.value) else Rejected;
  }
}
