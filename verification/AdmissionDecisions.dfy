/** What an invocation comes to on each kind of checkpoint. */
module AdmissionDecisions {
  import opened Options
  import opened Strings
  import opened Canary
  import opened Cohorts
  import opened Generations
  import opened DurableWrites
  import opened CanaryPlans
  import opened CanaryAdmission
  import opened AdmissionSafety
  import opened RetirementDecisions
  import opened StoppedDecisions
  import opened PromotionDecisions

  /** Onboarding is complete. */
  predicate Ready(d: Disk) { d.registry.posture in {Migrated, ValidatedPosture} }

  /** Without a canary and a marker nothing is written, and the supervisor starts under the new spec if
      there is one and the project is ready. */
  lemma FreshDecided(d: Disk, i: Invocation)
    requires d.marker == None && d.supervisor.canary == None
    ensures AdmissionOf(d, i) ==
      Admitting(d, if Ready(d) && i.newSpec.Some? then Admitted(i.newSpec.value) else Rejected)
  {
    hide FinalizingOf;
    hide RollingOf;
    hide RetiringOf;
    hide Reconciling;
  }

  /** A stopped empty canary that a descendant build supersedes gives way to that build's, whatever
      became of the drain sentinel. */
  lemma RolledOverAdmitted(d: Disk, i: Invocation, s: Spec)
    requires d.marker == None && Ready(d) && i.newSpec == Some(s)
    requires RollsOver(d, i.project, s, i.m) && Head(Tail(i.rolloverFates)) == Persists
    ensures AdmissionOf(d, i) == Admitting(
      d.(drain := d.drain && Head(i.rolloverFates) == Fails, supervisor := Cleared(d.supervisor.project)), Admitted(s))
  {
    RolloverDecided(d, i.project, s, i.m, i.rolloverFates);
    RollsOverMeans(d, i.project, s, i.m);
    NothingToFinalize(d, i.project, s, i.m, i.containment);
    hide RollsOver;
    hide FinalizePlan;
    hide RolloverPlan;
    hide Cleared;
    ClearedIs(d.supervisor.project);
    OpenUndecided(d, i, s);
    hide RunPlan;
    hide Reconciling;
  }

  lemma RollsOverMeans(d: Disk, project: string, s: Spec, m: Machine)
    requires RollsOver(d, project, s, m)
    ensures Decides(d, Undecided) && d.supervisor.canary.value.runIDs == []
  {
    hide Superseded;
  }

  lemma NothingToFinalize(d: Disk, project: string, s: Spec, m: Machine, k: Containment)
    requires d.supervisor.canary.Some? && d.supervisor.canary.value.runIDs == []
    ensures FinalizePlan(d, project, s, m, k) == Nothing
  {
  }

  lemma ClearedIs(project: string)
    ensures Cleared(project).canary == None && Cleared(project).project == project
  {
  }

  /** The two stages of an undecided canary, one after the other. */
  lemma OpenUndecided(d: Disk, i: Invocation, s: Spec)
    requires d.marker == None && Decides(d, Undecided) && i.newSpec == Some(s)
    ensures AdmissionOf(d, i) ==
      var f := FinalizingOf(d, i, s);
      if f.ending == Failure then Admitting(f.disk, Rejected)
      else
        var r := RollingOf(f.disk, i, s);
        if r.ending == Failure then Admitting(r.disk, Rejected) else AdmitDecided(r.disk, i)
  {
    hide FinalizingOf;
    hide RollingOf;
    hide RetiringOf;
    hide Reconciling;
    hide AdmitDecided;
  }

  /** A failed canary is retired or the invocation rejected, on the disk its retirement left; a successful
      retirement makes way for the new spec. */
  lemma FailedDecided(d: Disk, i: Invocation)
    requires d.marker == None && Decides(d, Failed)
    ensures AdmissionOf(d, i) ==
      if i.newSpec.None? then Admitting(d, Rejected)
      else
        var r := RunPlan(d, RetirePlan(d, i.project, i.newSpec.value, i.opt, i.m), i.retireFates);
        Admitting(r.disk, if r.ending == Success && Ready(d) then Admitted(i.newSpec.value) else Rejected)
  {
    if i.newSpec.Some? { RetiredOpens(d, i, i.newSpec.value); }
    hide FinalizingOf;
    hide RollingOf;
    hide RunPlan;
    hide RetirePlan;
    hide Reconciling;
    hide Opening;
  }

  lemma RetiredOpens(d: Disk, i: Invocation, s: Spec)
    requires i.newSpec == Some(s) && Decides(d, Failed)
    ensures var r := RunPlan(d, RetirePlan(d, i.project, s, i.opt, i.m), i.retireFates);
      AdmitDecided(d, i) == Admitting(r.disk, if r.ending == Success && Ready(d) then Admitted(s) else Rejected)
  {
    if RunPlan(d, RetirePlan(d, i.project, s, i.opt, i.m), i.retireFates).ending == Success {
      RetiringClears(d, i.project, s, i.opt, i.m, i.retireFates);
    }
    RetiringKeepsPosture(d, i.project, s, i.opt, i.m, i.retireFates);
    ClearedCanary(d.supervisor);
    hide RetirePlan;
    hide RunPlan;
    hide Resumes;
    hide Reset;
  }

  lemma ClearedCanary(s: Supervisor)
    ensures Reset(s).canary == None
  {
  }

  predicate NoRegistryWrite(ws: seq<Write>) { forall i | 0 <= i < |ws| :: !ws[i].CasRegistry? }

  lemma {:induction false} ExecRegistry(d: Disk, ws: seq<Write>, fates: seq<Fate>)
    requires NoRegistryWrite(ws)
    ensures Exec(d, ws, fates).disk.registry == d.registry
    decreases |ws|
  {
    if ws != [] {
      EffectRegistry(d, ws[0], Head(fates));
      hide Effect;
      hide Continues;
      ExecRegistry(Effect(d, ws[0], Head(fates)), ws[1..], Tail(fates));
    }
  }

  lemma EffectRegistry(d: Disk, w: Write, f: Fate)
    requires !w.CasRegistry?
    ensures Effect(d, w, f).registry == d.registry
  {
  }

  lemma RetiringKeepsPosture(d: Disk, project: string, s: Spec, opt: RetireOptions, m: Machine, fates: seq<Fate>)
    ensures RunPlan(d, RetirePlan(d, project, s, opt, m), fates).disk.registry == d.registry
  {
    hide RetireSubject;
    hide Retirable;
    hide HistoryRecord;
    var p := RetirePlan(d, project, s, opt, m);
    if p.Do? {
      assert NoRegistryWrite(p.writes);
      ExecRegistry(d, p.writes, fates);
    }
    hide Exec;
  }

  /** A stopped canary that ran, was contained and is superseded: one undisturbed invocation finalizes it,
      archives it and starts the descendant build's canary. */
  lemma InterruptedReplaced(d: Disk, i: Invocation, s: Spec, r: Report) returns (h: History)
    requires d.marker == None && Ready(d) && i.newSpec == Some(s) && s.reportPath == REPORT_PATH && i.m.now != Unset
    requires Finalizes(d, i.project, s, i.m, i.containment)
    requires i.containment.published == Some(r) && d.report in {None, Some(r)}
    requires d.supervisor.canary.Some? && PublishedFor(i.project, d.supervisor.canary.value, r)
    requires i.finalizeFates == [] && i.retireFates == []
    ensures var e := Finalized(d, d.supervisor.canary.value, r, i.m.now);
      var c := e.supervisor.canary.value;
      && h.canary == c && h.retiredAt == i.m.now
      && (PlacesFree(e, KeyOf(i.project, c), r, h) ==>
            AdmissionOf(d, i).outcome == Admitted(s) && Released(e, AdmissionOf(d, i).disk, KeyOf(i.project, c), h))
  {
    hide *;
    var was := d.supervisor.canary.value;
    var e := Finalized(d, was, r, i.m.now);
    FinalizedRetires(d, i.project, s, i.m, i.containment, i.opt, r);
    FinalizedIs(d, was, r, i.m.now);
    h := RetirementDecided(e, i.project, s, i.opt, i.m);
    FixedReport(e, KeyOf(i.project, e.supervisor.canary.value));
    TellsCanary(h, i.project, e.supervisor.canary.value, s, e.supervisor, r);
    FinalizesFirst(d, i, s, r);
    StillReady(d, was, r, i.m.now);
    FailedDecides(d, was, r, i.m.now);
    if PlacesFree(e, KeyOf(i.project, e.supervisor.canary.value), r, h) { RetiredOpens(e, i, s); }
  }

  lemma TellsCanary(h: History, project: string, c: CanaryState, s: Spec, state: Supervisor, r: Report)
    requires Tells(h, project, c, s, state, r)
    ensures h.canary == c
  {
    hide PolicyDrift;
    hide CohortDrift;
  }

  lemma StillReady(d: Disk, was: CanaryState, r: Report, now: Stamp)
    ensures Ready(Finalized(d, was, r, now)) == Ready(d)
  {
    hide FailedBy;
    hide EndedBy;
  }

  lemma FailedDecides(d: Disk, was: CanaryState, r: Report, now: Stamp)
    ensures Decides(Finalized(d, was, r, now), Failed)
  {
  }

  lemma FinalizesFirst(d: Disk, i: Invocation, s: Spec, r: Report)
    requires d.marker == None && i.newSpec == Some(s) && i.finalizeFates == []
    requires Finalizes(d, i.project, s, i.m, i.containment) && i.containment.published == Some(r) && d.report in {None, Some(r)}
    requires d.supervisor.canary.Some? && PublishedFor(i.project, d.supervisor.canary.value, r)
    ensures AdmissionOf(d, i) == AdmitDecided(Finalized(d, d.supervisor.canary.value, r, i.m.now), i)
  {
    hide *;
    FinalizationDecided(d, i.project, s, i.m, i.containment, []);
    HeadOfNone();
    NotPassed(i.project, d.supervisor.canary.value, r);
    FinalizesUndecided(d, i.project, s, i.m, i.containment);
    OpenUndecided(d, i, s);
    FinalizingIs(d, i, s);
    FailedDecides(d, d.supervisor.canary.value, r, i.m.now);
    FinalizedAs(d, d.supervisor.canary.value, r, i.m.now);
    RollingSkipped(Finalized(d, d.supervisor.canary.value, r, i.m.now), i, s);
  }

  lemma NotPassed(project: string, c: CanaryState, r: Report)
    requires PublishedFor(project, c, r)
    ensures !r.passed
  {
  }

  lemma FinalizesUndecided(d: Disk, project: string, s: Spec, m: Machine, k: Containment)
    requires Finalizes(d, project, s, m, k)
    ensures Decides(d, Undecided)
  {
    hide Superseded;
  }

  lemma FinalizingIs(d: Disk, i: Invocation, s: Spec)
    ensures FinalizingOf(d, i, s) == RunPlan(d, FinalizePlan(d, i.project, s, i.m, i.containment), i.finalizeFates)
  {
    hide RunPlan;
    hide FinalizePlan;
  }

  lemma FinalizedAs(d: Disk, c: CanaryState, r: Report, now: Stamp)
    ensures Finalized(d, c, r, now) == d.(report := Some(r), supervisor := OpenOn(d.supervisor, FailedBy(EndedBy(c, now), r, now)))
  {
    hide FailedBy;
    hide EndedBy;
    hide OpenOn;
  }

  lemma RollingSkipped(d: Disk, i: Invocation, s: Spec)
    requires Decides(d, Failed)
    ensures RollingOf(d, i, s) == Ran(d, Skipped)
  {
  }

  /** Every identity of the unfinished canary is the invocation's: the cohort's ids, the width, the build,
      the registry, a clean checkout, the policies, and the generation all of them make up. */
  ghost predicate SameIdentities(c: CanaryState, i: Invocation) {
    && Clean(i.req.cohort) && c.cohortDigest == OfCohort(Normalize(i.req.cohort)) && c.targetWidth == i.req.target
    && c.commit == TrimSpace(i.commit) && c.version == TrimSpace(i.version) && c.build == i.build
    && c.registryIdentity == i.registryIdentity && i.cleanResume && c.contract == i.contract
    && c.reportPath == REPORT_PATH && c.autonomyPolicy == i.autonomyPolicy && c.executionPolicy == i.executionPolicy
    && Complete(i.project, ResumingSpec(c, i.req.cohort, i.req.target))
    && c.generation.OfGeneration? && Identifies(c.generation.generation, i.project, ResumingSpec(c, i.req.cohort, i.req.target))
  }

  lemma ResumesIff(c: CanaryState, i: Invocation)
    ensures Resumes(c, i) <==> SameIdentities(c, i)
  {
    var s := ResumingSpec(c, i.req.cohort, i.req.target);
    CohortDigestIs(i.req.cohort);
    GenerationIff(i.project, s, if c.generation.OfGeneration? then c.generation.generation else Envelope(i.project, s));
    hide CohortDigest;
    hide Clean;
    hide Normalize;
    hide TrimSpace;
    hide Complete;
    hide Identifies;
    hide SpecGeneration;
    hide ResumingSpec;
    hide Envelope;
  }

  /** An unfinished canary that is neither finalized nor rolled over: resumed exactly by an invocation of
      its every identity, whose own spec is of its generation, in a project that is ready; and nothing is
      written either way. */
  lemma UnfinishedDecided(d: Disk, i: Invocation, s: Spec)
    requires d.marker == None && Decides(d, Undecided) && i.newSpec == Some(s)
    requires !Finalizes(d, i.project, s, i.m, i.containment) && !RollsOver(d, i.project, s, i.m)
    ensures var c := d.supervisor.canary.value;
      AdmissionOf(d, i) == Admitting(d,
        if Unfinished(d, i.project, s) && c.generation == s.generation && Ready(d) && SameIdentities(c, i)
        then Admitted(ResumingSpec(c, i.req.cohort, i.req.target)) else Rejected)
  {
    hide *;
    UndecidedIs(d);
    var c := d.supervisor.canary.value;
    ResumesIff(c, i);
    OpenUndecided(d, i, s);
    FinalizePlanned(d, i.project, s, i.m, i.containment);
    RolloverPlanned(d, i.project, s, i.m);
    StagesIdle(d, i, s);
    UnfinishedMeans(d, i.project, s);
    UndecidedOpens(d, i);
  }

  /** Without a spec of the installed binary an unfinished canary is left as it is. */
  lemma NoSpecRejected(d: Disk, i: Invocation)
    requires d.marker == None && Decides(d, Undecided) && i.newSpec == None
    ensures AdmissionOf(d, i) == Admitting(d, Rejected)
  {
    hide Reconciling;
  }

  lemma UndecidedIs(d: Disk)
    requires Decides(d, Undecided)
    ensures d.supervisor.canary.Some? && d.supervisor.canary.value.decision == Undecided
  {
  }

  lemma StagesIdle(d: Disk, i: Invocation, s: Spec)
    requires Decides(d, Undecided)
    requires var p := FinalizePlan(d, i.project, s, i.m, i.containment); p == Nothing || p == Refuse
    requires var p := RolloverPlan(d, i.project, s, i.m); p == Nothing || p == Refuse
    ensures FinalizingOf(d, i, s) == Ran(d, if FinalizePlan(d, i.project, s, i.m, i.containment) == Nothing then Skipped else Failure)
    ensures RollingOf(d, i, s) == Ran(d, if RolloverPlan(d, i.project, s, i.m) == Nothing then Skipped else Failure)
  {
    hide FinalizePlan;
    hide RolloverPlan;
  }

  lemma UnfinishedMeans(d: Disk, project: string, s: Spec)
    requires Decides(d, Undecided)
    ensures var c := d.supervisor.canary.value;
      Unfinished(d, project, s) <==>
        ((d.supervisor.project == "" || d.supervisor.project == project)
         && StateGeneration(project, c) == Some(c.generation) && SpecGeneration(project, s) == Some(s.generation))
  {
    hide StateGeneration;
    hide SpecGeneration;
  }

  lemma UndecidedOpens(d: Disk, i: Invocation)
    requires Decides(d, Undecided)
    ensures var c := d.supervisor.canary.value;
      AdmitDecided(d, i) == Admitting(d,
        if Ready(d) && Resumes(c, i) then Admitted(ResumingSpec(c, i.req.cohort, i.req.target)) else Rejected)
  {
    hide Resumes;
    hide RetiringOf;
    hide ResumingSpec;
  }

  /** A passed canary, or any marker, is settled before anything else: promoted and reported so, or an
      error; a marker that settles nothing is one too. */
  lemma SettledFirst(d: Disk, i: Invocation)
    requires d.marker.Some? || Decides(d, Passed)
    requires i.reconcileFates == []
    ensures var r := ReconcileOutcome(d, i.req);
      AdmissionOf(d, i) == Admitting(r.disk,
        if r.ending == Success then Handled(d.registry.posture == Migrated) else Rejected)
  {
    ReconcileDecided(d, i.req);
    OutcomeNeverSkips(d, i.req);
    UnreadableRejected(d, i);
    hide ReconcileOutcome;
    hide ReconcilePlan;
    hide RunPlan;
    hide AdmitOpen;
    hide MarkerLoads;
  }

  lemma OutcomeNeverSkips(d: Disk, req: Request)
    ensures Decides(d, Passed) && d.marker == None ==> ReconcileOutcome(d, req).ending != Skipped
  {
    hide Promotable;
    hide PromotedDisk;
  }

  lemma UnreadableRejected(d: Disk, i: Invocation)
    ensures d.marker.Some? && !MarkerLoads(d.marker.value) ==> ReconcileOutcome(d, i.req) == Ran(d, Failure)
  {
    if d.marker.Some? { ReadableIff(d.marker.value); }
    hide Promotable;
    hide MarkerLoads;
    hide Readable;
    hide PromotedDisk;
  }
}
