/** What an admission guarantees to the supervisor it starts, and to the evidence it finds. */
module AdmissionSafety {
  import opened Options
  import opened Strings
  import opened Canary
  import opened DurableWrites
  import opened CanaryPlans
  import opened CanaryProtocol
  import opened CanarySafety
  import opened CanaryRuns
  import opened CanaryAdmission
  import opened Cohorts

  // ---- the marker ----------------------------------------------------------------------------

  predicate NoMarkerWrite(ws: seq<Write>) { forall i | 0 <= i < |ws| :: !ws[i].PutMarker? }

  lemma {:induction false} ExecMarker(d: Disk, ws: seq<Write>, fates: seq<Fate>)
    requires NoMarkerWrite(ws)
    ensures Exec(d, ws, fates).disk.marker == d.marker
    decreases |ws|
  {
    if ws != [] {
      EffectMarker(d, ws[0], Head(fates));
      hide Effect;
      hide Continues;
      ExecMarker(Effect(d, ws[0], Head(fates)), ws[1..], Tail(fates));
    }
  }

  lemma EffectMarker(d: Disk, w: Write, f: Fate)
    requires !w.PutMarker?
    ensures Effect(d, w, f).marker == d.marker
  {
  }

  lemma PlanMarker(d: Disk, p: Plan, fates: seq<Fate>)
    requires NoMarkerWrite(Writes(p))
    ensures RunPlan(d, p, fates).disk.marker == d.marker
  {
    if p.Do? { ExecMarker(d, p.writes, fates); }
  }

  lemma RetireNoMarker(d: Disk, project: string, s: Spec, opt: RetireOptions, m: Machine)
    ensures NoMarkerWrite(Writes(RetirePlan(d, project, s, opt, m)))
  {
    hide RetireWrites;
    hide Retirable;
    hide RetireSubject;
    hide HistoryRecord;
    hide RetireWrite;
    var c := RetireSubject(d.supervisor, project, s, opt, m);
    if RetirePlan(d, project, s, opt, m).Do? && c.Stale? {
      var r := RetiredReport(d, HistoryKey(project, c.canary)).value;
      RetireWritesFit(d, project, c.canary, s, m, r);
      var h := HistoryRecord(project, c.canary, s, m.now, d.supervisor, r);
      var ws := RetireWrites(d, project, c.canary, s, m, r);
      forall i | 0 <= i < |ws| ensures !ws[i].PutMarker? { NotMarker(ws[i], d.supervisor, h, r); }
    }
  }

  lemma NotMarker(w: Write, s: Supervisor, h: History, r: Report)
    requires RetireWrite(w, s, h, r)
    ensures !w.PutMarker?
  {
  }

  // ---- each stage ----------------------------------------------------------------------------

  lemma FinalizeLeaves(d: Disk, i: Invocation, spec: Spec)
    ensures var f := FinalizingOf(d, i, spec);
      && f.disk.marker == d.marker
      && (f.ending == Skipped ==> f.disk == d)
      && (f.ending == Success ==> Decides(f.disk, Failed))
  {
    hide StateGeneration;
    hide SpecGeneration;
    hide SupersededBinary;
    hide Exec;
    var p := FinalizePlan(d, i.project, spec, i.m, i.containment);
    PlanMarker(d, p, i.finalizeFates);
    if p.Do? && p.completes && Exec(d, p.writes, i.finalizeFates).finished {
      LastPut(d, p.writes, p.writes[2].state, i.finalizeFates);
    }
  }

  lemma RollingLeaves(d: Disk, i: Invocation, spec: Spec)
    ensures var r := RollingOf(d, i, spec);
      && r.disk.marker == d.marker
      && (r.ending == Skipped ==> r.disk == d)
      && (r.ending == Success ==> r.disk.supervisor.canary == None)
  {
    hide StateGeneration;
    hide SpecGeneration;
    hide SupersededBinary;
    hide Exec;
    var p := RolloverPlan(d, i.project, spec, i.m);
    PlanMarker(d, p, i.rolloverFates);
    if Decides(d, Undecided) && RunPlan(d, p, i.rolloverFates).ending == Success {
      RollingClears(d, i.project, spec, i.m, i.rolloverFates);
    }
  }

  lemma RetiringLeaves(d: Disk, i: Invocation, spec: Spec)
    ensures var r := RetiringOf(d, i, spec);
      && r.disk.marker == d.marker
      && (r.ending == Success ==> r.disk.supervisor.canary == None)
  {
    RetireNoMarker(d, i.project, spec, i.opt, i.m);
    hide RetirePlan;
    PlanMarker(d, RetirePlan(d, i.project, spec, i.opt, i.m), i.retireFates);
    if RetiringOf(d, i, spec).ending == Success { RetiringClears(d, i.project, spec, i.opt, i.m, i.retireFates); }
    hide RunPlan;
  }

  /** What the supervisor starts on: no marker, a posture ready for scheduling, and either no canary,
      with a spec of the installed binary, or an unfinished one whose every identity is this
      invocation's. */
  predicate Startable(d: Disk, i: Invocation, spec: Spec) {
    && d.marker == None && SteadyModeReady(d.registry.posture)
    && (d.supervisor.canary == None ==> i.newSpec == Some(spec))
    && (d.supervisor.canary.Some? ==>
          var c := d.supervisor.canary.value;
          c.decision == Undecided && Resumes(c, i) && spec == ResumingSpec(c, i.req.cohort, i.req.target))
  }

  lemma OpeningStartable(d: Disk, i: Invocation)
    requires d.marker == None && !Decides(d, Passed) && !Decides(d, Failed)
    requires Opening(d, i).Admitted?
    ensures Startable(d, i, Opening(d, i).spec)
  {
    hide Resumes;
  }

  lemma DecidedStartable(d: Disk, i: Invocation)
    requires d.marker == None && !Decides(d, Passed) && AdmitDecided(d, i).outcome.Admitted?
    ensures Startable(AdmitDecided(d, i).disk, i, AdmitDecided(d, i).outcome.spec)
  {
    hide RetiringOf;
    hide Opening;
    if Decides(d, Failed) {
      RetiringLeaves(d, i, i.newSpec.value);
      OpeningStartable(RetiringOf(d, i, i.newSpec.value).disk, i);
    } else {
      OpeningStartable(d, i);
    }
  }

  lemma OpenStartable(d: Disk, i: Invocation)
    requires d.marker == None && !Decides(d, Passed) && AdmitOpen(d, i).outcome.Admitted?
    ensures Startable(AdmitOpen(d, i).disk, i, AdmitOpen(d, i).outcome.spec)
  {
    hide FinalizingOf;
    hide RollingOf;
    hide AdmitDecided;
    hide Startable;
    if Decides(d, Undecided) {
      var f := FinalizingOf(d, i, i.newSpec.value);
      FinalizeLeaves(d, i, i.newSpec.value);
      RollingLeaves(f.disk, i, i.newSpec.value);
      var r := RollingOf(f.disk, i, i.newSpec.value);
      DecidedStartable(r.disk, i);
    } else {
      DecidedStartable(d, i);
    }
  }

  /** A passed canary in the checkpoint is never skipped. */
  lemma PassedIsReconciled(d: Disk, req: Request)
    ensures Decides(d, Passed) ==> ReconcilePlan(d, req) != Nothing
  {
    hide RequestMatches;
    hide MarkerLoads;
  }

  /** A canary-mode loop starts its supervisor only on a startable disk, whatever the disk was and
      however the writes of the transactions before it fared. */
  lemma AdmittedStartable(d: Disk, i: Invocation)
    requires AdmissionOf(d, i).outcome.Admitted?
    ensures d.marker == None && Startable(AdmissionOf(d, i).disk, i, AdmissionOf(d, i).outcome.spec)
  {
    hide AdmitOpen;
    hide ReconcilePlan;
    hide Startable;
    PassedIsReconciled(d, i.req);
    assert !Decides(d, Passed);
    OpenStartable(d, i);
  }

  // ---- resuming ------------------------------------------------------------------------------

  /** Specs whose cohorts have the same length and normal form have the same generation. */
  lemma GenerationOfIds(project: string, s: Spec, t: Spec)
    requires t == s.(cohort := t.cohort, generation := t.generation)
    requires Normalize(s.cohort) == Normalize(t.cohort) && |s.cohort| == |t.cohort|
    ensures SpecGeneration(project, s) == SpecGeneration(project, t)
  {
    hide Normalize;
    hide TrimSpace;
    hide ValidCommit;
    hide HardStops;
  }

  /** Resuming keeps the generation of the checkpoint, whatever the order in which the invocation lists
      the cohort; and the ids are the checkpoint's. */
  lemma ResumedGeneration(c: CanaryState, i: Invocation)
    requires Resumes(c, i) && c.cohortDigest == CohortDigest(c.cohort)
    ensures StateGeneration(i.project, c) == Some(c.generation)
    ensures Members(i.req.cohort) == Members(c.cohort)
  {
    ResumesMeans(c, i);
    DigestDecidesIds(c.cohort, i.req.cohort);
    CohortDigestIs(c.cohort);
    CohortDigestIs(i.req.cohort);
    NormalizeDecidesMembers(c.cohort, i.req.cohort);
    hide *;
    GenerationOfIds(i.project, ResumingSpec(c, i.req.cohort, i.req.target), ResumingSpec(c, c.cohort, c.targetWidth));
    StateGenerationIs(i.project, c);
  }

  lemma ResumesMeans(c: CanaryState, i: Invocation)
    requires Resumes(c, i)
    ensures CohortDigest(i.req.cohort) != Absent && c.cohortDigest == CohortDigest(i.req.cohort) && c.targetWidth == i.req.target
    ensures SpecGeneration(i.project, ResumingSpec(c, i.req.cohort, i.req.target)) == Some(c.generation)
    ensures ResumingSpec(c, c.cohort, c.targetWidth)
         == ResumingSpec(c, i.req.cohort, i.req.target).(cohort := c.cohort, generation := c.generation)
  {
    hide CohortDigest;
    hide SpecGeneration;
  }

  lemma StateGenerationIs(project: string, c: CanaryState)
    ensures StateGeneration(project, c) == SpecGeneration(project, ResumingSpec(c, c.cohort, c.targetWidth))
  {
    GenerationOfIds(project, ResumingSpec(c, c.cohort, c.targetWidth).(generation := Absent), ResumingSpec(c, c.cohort, c.targetWidth));
    hide SpecGeneration;
  }

  /** The converse of AdmittedStartable for an unfinished canary: an invocation that matches its every
      identity, and whose own spec is of its generation, is admitted, and writes nothing on the way. */
  lemma ResumeAdmits(d: Disk, i: Invocation, s: Spec)
    requires d.marker == None && SteadyModeReady(d.registry.posture) && Decides(d, Undecided)
    requires var c := d.supervisor.canary.value;
      Resumes(c, i) && c.cohortDigest == CohortDigest(c.cohort) && s.generation == c.generation
    requires i.newSpec == Some(s) && SpecGeneration(i.project, s) == Some(s.generation)
    requires d.supervisor.project == [] || d.supervisor.project == i.project
    ensures AdmissionOf(d, i) == Admitting(d, Admitted(ResumingSpec(d.supervisor.canary.value, i.req.cohort, i.req.target)))
  {
    ResumedGeneration(d.supervisor.canary.value, i);
    NothingSuperseded(d, i, s);
    hide *;
    StraightToOpening(d, i, s);
    OpensResumed(d, i);
  }

  lemma StraightToOpening(d: Disk, i: Invocation, s: Spec)
    requires d.marker == None && Decides(d, Undecided) && i.newSpec == Some(s)
    requires FinalizePlan(d, i.project, s, i.m, i.containment) == Nothing && RolloverPlan(d, i.project, s, i.m) == Nothing
    ensures AdmissionOf(d, i) == Admitting(d, Opening(d, i))
  {
    hide FinalizePlan;
    hide RolloverPlan;
    hide RetiringOf;
    hide Reconciling;
    hide Opening;
  }

  lemma OpensResumed(d: Disk, i: Invocation)
    requires SteadyModeReady(d.registry.posture) && d.supervisor.canary.Some? && Resumes(d.supervisor.canary.value, i)
    ensures Opening(d, i) == Admitted(ResumingSpec(d.supervisor.canary.value, i.req.cohort, i.req.target))
  {
    hide Resumes;
  }

  lemma NothingSuperseded(d: Disk, i: Invocation, s: Spec)
    requires Decides(d, Undecided)
    requires StateGeneration(i.project, d.supervisor.canary.value) == Some(d.supervisor.canary.value.generation)
    requires SpecGeneration(i.project, s) == Some(s.generation) && s.generation == d.supervisor.canary.value.generation
    requires d.supervisor.project == [] || d.supervisor.project == i.project
    ensures FinalizePlan(d, i.project, s, i.m, i.containment) == Nothing && RolloverPlan(d, i.project, s, i.m) == Nothing
  {
    hide StateGeneration;
    hide SpecGeneration;
    hide SupersededBinary;
  }

  // ---- a handled canary ----------------------------------------------------------------------

  lemma ReconcileFinished(d: Disk, req: Request, fates: seq<Fate>)
    requires RunPlan(d, ReconcilePlan(d, req), fates).ending == Success
    ensures var e := RunPlan(d, ReconcilePlan(d, req), fates).disk;
      && e.registry.posture == ValidatedPosture && e.supervisor.canary == None
      && e.marker == Some(Marker(Reconciled(d).project, Validated, Reconciled(d).canary.value))
      && Reconciled(d).canary.value.decision == Passed
  {
    hide RequestMatches;
    hide PromotionWrites;
    hide Exec;
    hide MarkerLoads;
    ReconcileShape(d, req);
    var p := ReconcilePlan(d, req);
    if p.writes != [] {
      PromotionFinished(d, Reconciled(d), Reconciled(d).canary.value, fates);
    } else {
      NothingWritten(d, req, fates);
    }
  }

  lemma NothingWritten(d: Disk, req: Request, fates: seq<Fate>)
    requires ReconcilePlan(d, req) == Do([], true)
    ensures RunPlan(d, ReconcilePlan(d, req), fates).disk == d
    ensures d.supervisor.canary == None && d.registry.posture == ValidatedPosture
    ensures d.marker == Some(Marker(Reconciled(d).project, Validated, Reconciled(d).canary.value))
  {
    hide RequestMatches;
    hide MarkerLoads;
  }

  lemma PromotionFinished(d: Disk, s: Supervisor, c: CanaryState, fates: seq<Fate>)
    requires PromotionWrites(d, s, c).1 && Exec(d, PromotionWrites(d, s, c).0, fates).finished
    ensures var e := Exec(d, PromotionWrites(d, s, c).0, fates).disk;
      && e.registry.posture == ValidatedPosture && e.supervisor == Completed(s)
      && e.marker == Some(Marker(s.project, Validated, c))
  {
    PromotionShape(d, s, c);
    var ws := PromotionWrites(d, s, c).0;
    var clear := [PutSupervisor(Completed(s)), PutMarker(Marker(s.project, Validated, c))];
    var n := |ws| - 2;
    assert ws == ws[..n] + clear;
    ExecConcat(d, ws[..n], clear, fates);
    var mid := Exec(d, ws[..n], fates);
    hide PromotionWrites;
    LastTwo(mid.disk, s, c, Drop(fates, n));
    assert mid.disk.registry.posture == ValidatedPosture by {
      hide Exec;
      BeforeLastTwo(d, ws[..n], c, fates);
    }
    hide Exec;
  }

  lemma LastTwo(d: Disk, s: Supervisor, c: CanaryState, fates: seq<Fate>)
    requires Exec(d, [PutSupervisor(Completed(s)), PutMarker(Marker(s.project, Validated, c))], fates).finished
    ensures Exec(d, [PutSupervisor(Completed(s)), PutMarker(Marker(s.project, Validated, c))], fates).disk
         == d.(supervisor := Completed(s), marker := Some(Marker(s.project, Validated, c)))
  {
    var done := PutMarker(Marker(s.project, Validated, c));
    ExecStep(d, PutSupervisor(Completed(s)), [done], fates);
    ExecStep(d.(supervisor := Completed(s)), done, [], Tail(fates));
  }

  lemma BeforeLastTwo(d: Disk, ws: seq<Write>, c: CanaryState, fates: seq<Fate>)
    requires ws != [] && ws[0].PutMarker? && Exec(d, ws, fates).finished
    requires ws[1..] == [] || (|ws| == 2 && ws[1].CasRegistry? && ws[1].to == ValidatedPosture)
    requires ws[1..] == [] ==> d.registry.posture == ValidatedPosture
    ensures Exec(d, ws, fates).disk.registry.posture == ValidatedPosture
  {
    ExecStep(d, ws[0], ws[1..], fates);
    assert ws == [ws[0]] + ws[1..];
    var e := Effect(d, ws[0], Head(fates));
    if ws[1..] != [] {
      assert ws[1..] == [ws[1]] + [];
      ExecStep(e, ws[1], [], Tail(fates));
    }
  }

  /** A loop that reports the canary as handled leaves it promoted: the registry validated, the
      checkpoint free of it, the marker validated with a passed canary. */
  lemma HandledIsPromoted(d: Disk, i: Invocation)
    requires AdmissionOf(d, i).outcome.Handled?
    ensures var e := AdmissionOf(d, i).disk;
      && e.registry.posture == ValidatedPosture && e.supervisor.canary == None
      && e.marker.Some? && e.marker.value.status == Validated && e.marker.value.canary.decision == Passed
  {
    NotHandledLater(d, i);
    hide AdmitOpen;
    hide ReconcilePlan;
    hide RunPlan;
    ReconcileFinished(d, i.req, i.reconcileFates);
  }

  lemma NotHandledLater(d: Disk, i: Invocation)
    ensures forall e :: !AdmitOpen(e, i).outcome.Handled?
  {
    hide RunPlan;
    hide FinalizePlan;
    hide RolloverPlan;
    hide RetirePlan;
    hide Resumes;
  }

  // ---- an interrupted finalization -------------------------------------------------------------

  /** A finalization cut short after its first checkpoint is not replayed: it left the circuit open,
      and both transactions for unfinished canaries insist on a stopped supervisor. From then on they
      refuse every spec but one of the canary's own generation, for which they do nothing. */
  lemma FinalizationSticks(d: Disk, i: Invocation, spec: Spec, later: Invocation, next: Spec)
    requires var e := FinalizingOf(d, i, spec).disk; e.supervisor != d.supervisor && Decides(e, Undecided)
    ensures var e := FinalizingOf(d, i, spec).disk;
      var own := StateGeneration(later.project, e.supervisor.canary.value) == Some(e.supervisor.canary.value.generation)
        && SpecGeneration(later.project, next) == Some(next.generation)
        && e.supervisor.canary.value.generation == next.generation;
      && FinalizePlan(e, later.project, next, later.m, later.containment) == (if own then Nothing else Refuse)
      && (RolloverPlan(e, later.project, next, later.m) == if own
            && (e.supervisor.project == [] || e.supervisor.project == later.project) then Nothing else Refuse)
  {
    FinalizingTrips(d, i, spec);
    hide FinalizingOf;
    hide StateGeneration;
    hide SpecGeneration;
    hide SupersededBinary;
  }

  lemma FinalizingTrips(d: Disk, i: Invocation, spec: Spec)
    requires var e := FinalizingOf(d, i, spec).disk; e.supervisor != d.supervisor
    ensures var e := FinalizingOf(d, i, spec).disk;
      e.supervisor.mode == CircuitOpen && e.supervisor.canary.Some? && e.supervisor.canary.value.runIDs != []
  {
    hide StateGeneration;
    hide SpecGeneration;
    hide SupersededBinary;
    var p := FinalizePlan(d, i.project, spec, i.m, i.containment);
    if p.Do? { ExecTrips(d, d.supervisor, p.writes, i.finalizeFates); }
  }

  predicate Trips(w: Write) {
    w.PutSupervisor? ==> w.state.mode == CircuitOpen && w.state.canary.Some? && w.state.canary.value.runIDs != []
  }

  lemma {:induction false} ExecTrips(d: Disk, s: Supervisor, ws: seq<Write>, fates: seq<Fate>)
    requires forall i | 0 <= i < |ws| :: Trips(ws[i])
    requires d.supervisor == s || Trips(PutSupervisor(d.supervisor))
    ensures var e := Exec(d, ws, fates).disk; e.supervisor == s || Trips(PutSupervisor(e.supervisor))
    decreases |ws|
  {
    if ws != [] {
      EffectTrips(d, s, ws[0], Head(fates));
      hide Effect;
      hide Continues;
      ExecTrips(Effect(d, ws[0], Head(fates)), s, ws[1..], Tail(fates));
    }
  }

  lemma EffectTrips(d: Disk, s: Supervisor, w: Write, f: Fate)
    requires Trips(w) && (d.supervisor == s || Trips(PutSupervisor(d.supervisor)))
    ensures var e := Effect(d, w, f); e.supervisor == s || Trips(PutSupervisor(e.supervisor))
  {
  }

  // ---- admissions are runs -------------------------------------------------------------------

  ghost predicate ReachesFree(s: System, d: Disk) { exists steps :: Run(s, steps).work.Free? && Run(s, steps).disk == d }

  lemma ThenTransaction(s: System, d: Disk, step: Step, fates: seq<Fate>)
    requires ReachesFree(s, d) && Starts(step)
    ensures ReachesFree(s, RunPlan(d, PlanOf(d, step), fates).disk)
  {
    hide Run;
    hide RunPlan;
    hide PlanOf;
    hide Performs;
    var steps :| Run(s, steps).work.Free? && Run(s, steps).disk == d;
    TransactionIsRun(Run(s, steps), step, fates);
    RunConcat(s, steps, Transaction(d, step, fates));
    assert Run(s, steps + Transaction(d, step, fates)).work.Free?;
  }

  lemma ThenDecided(s: System, d: Disk, i: Invocation)
    requires ReachesFree(s, d)
    ensures ReachesFree(s, AdmitDecided(d, i).disk)
  {
    if Decides(d, Failed) && i.newSpec.Some? {
      ThenTransaction(s, d, StartRetire(i.project, i.newSpec.value, i.opt, i.m), i.retireFates);
    }
    hide RunPlan;
    hide RetirePlan;
    hide ReachesFree;
    hide Opening;
  }

  lemma ThenOpen(s: System, d: Disk, i: Invocation)
    requires ReachesFree(s, d)
    ensures ReachesFree(s, AdmitOpen(d, i).disk)
  {
    hide RunPlan;
    hide FinalizePlan;
    hide RolloverPlan;
    hide ReachesFree;
    hide AdmitDecided;
    if Decides(d, Undecided) && i.newSpec.Some? {
      ThenTransaction(s, d, StartFinalize(i.project, i.newSpec.value, i.m, i.containment), i.finalizeFates);
      var f := FinalizingOf(d, i, i.newSpec.value);
      ThenTransaction(s, f.disk, StartRollover(i.project, i.newSpec.value, i.m), i.rolloverFates);
      ThenDecided(s, RollingOf(f.disk, i, i.newSpec.value).disk, i);
    } else {
      ThenDecided(s, d, i);
    }
  }

  /** An admission is a run of the protocol, so everything that holds of runs, the safety of evidence
      and of promotion among it, holds across admissions, completed or cut short. */
  lemma AdmissionIsRun(s: System, i: Invocation)
    requires s.work.Free?
    ensures ReachesFree(s, AdmissionOf(s.disk, i).disk)
  {
    assert ReachesFree(s, s.disk) by { assert Run(s, []) == s; }
    hide ReachesFree;
    hide RunPlan;
    hide ReconcilePlan;
    hide AdmitOpen;
    hide Run;
    ThenTransaction(s, s.disk, StartReconcile(i.req), i.reconcileFates);
    ThenOpen(s, s.disk, i);
    ThenOpen(s, Reconciling(s.disk, i).disk, i);
  }
}
