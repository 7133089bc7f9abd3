/** Concrete canaries that are promoted, retired, rolled over and finalized. */
module DecisionExamples {
  import opened Options
  import opened Strings
  import opened IdLists
  import opened Canary
  import opened Generations
  import opened DurableWrites
  import opened CanaryPlans
  import opened CanaryAdmission
  import opened CanaryExamples
  import A = AdmissionDecisions
  import D = RetirementDecisions
  import P = PromotionDecisions
  import R = Retirement
  import S = StoppedDecisions

  /** The spec of the later build. */
  function Later(): Spec { Named(Bare(LATER_COMMIT, "w", "registry", "x")) }

  lemma CommitIds()
    ensures CommitId(COMMIT) && CommitId(LATER_COMMIT) && COMMIT != LATER_COMMIT
  {
    CommitIdIff(COMMIT);
    CommitIdIff(LATER_COMMIT);
    CommitsValid();
    hide ValidCommit;
    hide CommitId;
    hide COMMIT;
    hide LATER_COMMIT;
  }

  // ---- promotion -----------------------------------------------------------------------------

  /** A passed canary whose report was generated at 0 and published at `at`. */
  function PassedAt(at: int): CanaryState {
    Sample(Passed, Opaque("autonomy"), Opaque("generation")).(publishedAt := At(at))
  }

  /** It is promoted exactly if the two are at most five minutes apart. */
  lemma PromotionAge(at: int)
    ensures var d := DiskOf(PassedAt(at));
      RunPlan(d, ReconcilePlan(d, Request(COHORT, 2)), []).ending == Success <==> -300_000_000_000 <= at <= 300_000_000_000
  {
    hide *;
    var d, c := DiskOf(PassedAt(at)), PassedAt(at);
    P.ReconcileDecided(d, Request(COHORT, 2));
    AgeDecides(at);
    PassedIs(at);
    OutcomeOf(d, c);
  }

  lemma PassedIs(at: int)
    ensures var d, c := DiskOf(PassedAt(at)), PassedAt(at);
      && d.supervisor.canary == Some(c) && c.decision == Passed && d.marker == None && d.registry.posture == Migrated
      && d.supervisor.project == "p"
  {
    hide COHORT;
    hide COMMIT;
    hide FIXED_REPORT_PATH;
  }

  lemma OutcomeOf(d: Disk, c: CanaryState)
    requires d.supervisor.canary == Some(c) && c.decision == Passed && d.marker == None && d.registry.posture == Migrated
    requires d.supervisor.project == "p"
    ensures P.ReconcileOutcome(d, Request(COHORT, 2)).ending == Success <==> P.Promotable(d, "p", c, Request(COHORT, 2))
  {
    hide P.Promotable;
    hide P.PromotedDisk;
    hide COHORT;
  }

  lemma AgeDecides(at: int)
    ensures P.Promotable(DiskOf(PassedAt(at)), "p", PassedAt(at), Request(COHORT, 2)) <==> -300_000_000_000 <= at <= 300_000_000_000
  {
    CohortFacts();
    Words();
    CommitIds();
    SameReportPath();
    hide CohortDigest;
    hide COHORT;
    hide COMMIT;
    hide LATER_COMMIT;
    hide CommitId;
    hide ValidCommit;
    hide TrimSpace;
    hide FIXED_REPORT_PATH;
    hide D.REPORT_PATH;
  }

  lemma SameReportPath()
    ensures FIXED_REPORT_PATH == D.REPORT_PATH
  {
  }

  // ---- retirement ----------------------------------------------------------------------------

  /** A failed canary, and a clean build of a descendant commit with everything else unchanged: it is
      archived without any flag. */
  lemma DescendantRetires()
    ensures var d := DiskOf(Sample(Failed, Opaque("x"), Absent));
      RunPlan(d, RetirePlan(d, "p", Later(), RetireOptions(false, false), LATER), []).ending == Success
  {
    hide *;
    var d := DiskOf(Sample(Failed, Opaque("x"), Absent));
    LaterFacts();
    FilledFacts("x");
    FilledIs();
    SampleFields(Filled("x").generation);
    LaterBuild(Filled("x"));
    RetiresLater(d);
    var h := D.RetirementDecided(d, "p", Later(), RetireOptions(false, false), LATER);
    NothingThere(d);
    D.CanaryThere(d, "p", Later(), RetireOptions(false, false), LATER);
    var k := D.KeyOf("p", D.FilledFrom("p", d.supervisor.canary.value, Later()));
    assert D.PlacesFree(d, k, D.ReportFor(d, k).value, h);
  }

  lemma LaterFacts()
    ensures var s := Later();
      SpecGeneration("p", s) == Some(s.generation) && s == Bare(LATER_COMMIT, "w", "registry", "x").(generation := s.generation)
  {
    NamedFacts(LATER_COMMIT, "w", "registry", "x");
    hide Named;
    hide SpecGeneration;
  }

  lemma SampleFields(generation: Digest)
    ensures var c := Sample(Failed, Opaque("x"), generation);
      && c.cohort == COHORT && c.cohortDigest == OfCohort(COHORT) && c.targetWidth == 2 && c.inactivityMs == 1
      && c.hardStops == [] && c.commit == COMMIT && c.build == "v"
      && c.contract == Opaque("contract") && c.registryIdentity == Opaque("registry")
      && c.autonomyPolicy == Opaque("x") && c.executionPolicy == Opaque("execution")
  {
    hide COHORT;
    hide COMMIT;
    hide FIXED_REPORT_PATH;
  }

  lemma FilledIs()
    ensures D.FilledFrom("p", Sample(Failed, Opaque("x"), Absent), Later()) == Filled("x")
  {
    hide StateGeneration;
    hide Named;
    hide COHORT;
    hide COMMIT;
    hide LATER_COMMIT;
    hide FIXED_REPORT_PATH;
  }

  /** The later build supersedes any canary of the sample's identities. */
  lemma LaterBuild(c: CanaryState)
    requires c.cohort == COHORT && c.cohortDigest == OfCohort(COHORT) && c.targetWidth == 2 && c.inactivityMs == 1
    requires c.hardStops == [] && c.commit == COMMIT && c.build == "v"
    requires c.contract == Opaque("contract") && c.registryIdentity == Opaque("registry")
    requires c.autonomyPolicy == Opaque("x") && c.executionPolicy == Opaque("execution")
    ensures D.MaySupersede(c, Later(), RetireOptions(false, false), LATER)
    ensures !D.CohortDrift(c, Later()) && !D.PolicyDrift(c, Later()) && D.DescendantBuild(c, Later(), LATER)
    ensures Later().targetWidth == 2 && Later().inactivityMs == 1
      && Later().registryIdentity == c.registryIdentity && Later().reportPath == FIXED_REPORT_PATH
  {
    LaterFacts();
    CohortFacts();
    CommitIds();
    hide Named;
    hide Later;
    hide SpecGeneration;
    hide CohortDigest;
    hide CommitId;
    hide StopsOf;
    hide Elements;
    hide COHORT;
    hide COMMIT;
    hide LATER_COMMIT;
    hide FIXED_REPORT_PATH;
  }

  lemma RetiresLater(d: Disk)
    requires d == DiskOf(Sample(Failed, Opaque("x"), Absent))
    requires D.FilledFrom("p", Sample(Failed, Opaque("x"), Absent), Later()) == Filled("x")
    requires StateGeneration("p", Sample(Failed, Opaque("x"), Absent)) == Some(Filled("x").generation)
    requires Filled("x") == Sample(Failed, Opaque("x"), Filled("x").generation)
    requires SpecGeneration("p", Later()) == Some(Later().generation) && Later().reportPath == FIXED_REPORT_PATH
    requires D.MaySupersede(Filled("x"), Later(), RetireOptions(false, false), LATER)
    ensures D.Retires(d, "p", Later(), RetireOptions(false, false), LATER)
  {
    StateSkips();
    SameReportPath();
    hide Filled;
    hide Later;
    hide StateGeneration;
    hide SpecGeneration;
    hide D.FilledFrom;
    hide D.MaySupersede;
    hide COHORT;
    hide COMMIT;
    hide LATER_COMMIT;
    hide FIXED_REPORT_PATH;
    hide D.REPORT_PATH;
  }

  lemma StateSkips()
    ensures StateGeneration("p", Filled("x")) == StateGeneration("p", Sample(Failed, Opaque("x"), Absent))
  {
    FilledFacts("x");
    R.StateGenerationSkips("p", Sample(Failed, Opaque("x"), Absent), Filled("x").generation);
    hide Filled;
    hide StateGeneration;
    hide COHORT;
    hide COMMIT;
    hide FIXED_REPORT_PATH;
  }

  lemma NothingThere(d: Disk)
    requires d == DiskOf(Sample(Failed, Opaque("x"), Absent))
    ensures forall k, r, h :: D.PlacesFree(d, k, r, h)
  {
    hide COHORT;
    hide COMMIT;
    hide FIXED_REPORT_PATH;
  }

  // ---- stopped canaries ------------------------------------------------------------------------

  /** The unfinished canary of the earlier build. */
  function Earlier(): CanaryState {
    var g := SpecGeneration("p", Bare(COMMIT, "v", "registry", "x"));
    Stopping(if g.Some? then g.value else Absent)
  }

  lemma EarlierFacts()
    ensures var c := Earlier();
      StateGeneration("p", c) == Some(c.generation) && c == Stopping(c.generation)
  {
    BareHasGeneration(COMMIT, "v", "registry", "x");
    StoppingStates(Earlier().generation);
    hide SpecGeneration;
    hide StateGeneration;
    hide COHORT;
    hide COMMIT;
    hide FIXED_REPORT_PATH;
  }

  /** It ran and was stopped: the invocation of the later build finalizes it with the failed report it
      publishes, archives it, and is admitted. */
  lemma InterruptedHappens()
    ensures var d := DiskOf(Earlier()).(report := None);
      AdmissionOf(d, Publishing()).outcome == Admitted(Later())
  {
    hide *;
    var d, i := DiskOf(Earlier()).(report := None), Publishing();
    EarlierFacts();
    LaterFacts();
    EarlierIs();
    LaterBuild(Earlier());
    EarlierFinalizes(d);
    PublishingIs();
    ReportFor();
    var h := A.InterruptedReplaced(d, i, Later(), ReportOf(Earlier()));
    StillNothing(d, ReportOf(Earlier()));
  }

  function Publishing(): Invocation {
    Finalizer(Later()).(containment := Containment(true, true, Some(ReportOf(Earlier()))))
  }

  lemma PublishingIs()
    ensures var i := Publishing();
      && i.project == "p" && i.m == LATER && i.newSpec == Some(Later()) && i.m.now != Unset
      && i.containment == Containment(true, true, Some(ReportOf(Earlier()))) && i.finalizeFates == [] && i.retireFates == []
  {
    hide Later;
    hide ReportOf;
    hide Earlier;
    hide COHORT;
    hide COMMIT;
    hide LATER_COMMIT;
  }

  lemma EarlierIs()
    ensures var c := Earlier();
      && c.cohort == COHORT && c.cohortDigest == OfCohort(COHORT) && c.targetWidth == 2 && c.inactivityMs == 1
      && c.hardStops == [] && c.commit == COMMIT && c.version == "v" && c.build == "v"
      && c.contract == Opaque("contract") && c.registryIdentity == Opaque("registry")
      && c.autonomyPolicy == Opaque("x") && c.executionPolicy == Opaque("execution")
      && c.reportPath == FIXED_REPORT_PATH && c.decision == Undecided && c.runIDs == ["run"] && c.hardStop == ""
  {
    hide SpecGeneration;
    hide COHORT;
    hide COMMIT;
    hide FIXED_REPORT_PATH;
  }

  lemma EarlierFinalizes(d: Disk)
    requires d == DiskOf(Earlier()).(report := None)
    requires StateGeneration("p", Earlier()) == Some(Earlier().generation)
    requires SpecGeneration("p", Later()) == Some(Later().generation)
    requires !D.CohortDrift(Earlier(), Later()) && !D.PolicyDrift(Earlier(), Later()) && D.DescendantBuild(Earlier(), Later(), LATER)
    requires Later().targetWidth == 2 && Later().inactivityMs == 1
      && Later().registryIdentity == Earlier().registryIdentity && Later().reportPath == FIXED_REPORT_PATH
    ensures S.Finalizes(d, "p", Later(), LATER, Containment(true, true, Some(ReportOf(Earlier()))))
    ensures d.marker == None && A.Ready(d) && d.report == None && d.supervisor.canary == Some(Earlier())
    ensures Later().reportPath == D.REPORT_PATH
  {
    EarlierIs();
    SameReportPath();
    hide Earlier;
    hide Later;
    hide ReportOf;
    hide StateGeneration;
    hide SpecGeneration;
    hide D.CohortDrift;
    hide D.PolicyDrift;
    hide D.DescendantBuild;
    hide COHORT;
    hide COMMIT;
    hide LATER_COMMIT;
    hide FIXED_REPORT_PATH;
    hide D.REPORT_PATH;
  }

  lemma ReportFor()
    ensures S.PublishedFor("p", Earlier(), ReportOf(Earlier()))
  {
    EarlierIs();
    EarlierEnded();
    hide Earlier;
    hide COHORT;
    hide COMMIT;
    hide FIXED_REPORT_PATH;
  }

  lemma EarlierEnded()
    ensures Earlier().reportDigest == Opaque("evidence")
  {
    hide SpecGeneration;
    hide COHORT;
    hide COMMIT;
    hide FIXED_REPORT_PATH;
  }

  lemma StillNothing(d: Disk, r: Report)
    requires d == DiskOf(Earlier()).(report := None)
    ensures d.supervisor.canary == Some(Earlier())
    ensures forall k, q, h :: D.PlacesFree(S.Finalized(d, Earlier(), r, LATER.now), k, q, h)
  {
    hide Earlier;
    hide S.FailedBy;
    hide S.EndedBy;
    hide ReportOf;
    hide LATER;
  }

  /** It never ran: the later build's invocation rolls it over and is admitted. */
  lemma RolloverHappens()
    ensures var d := DiskOf(Untouched()).(report := None);
      AdmissionOf(d, Finalizer(Later())).outcome == Admitted(Later())
  {
    hide *;
    var d, i := DiskOf(Untouched()).(report := None), Finalizer(Later());
    EarlierFacts();
    EarlierIs();
    LaterFacts();
    UntouchedIs();
    LaterBuild(Untouched());
    UntouchedRollsOver(d);
    FinalizerAlso();
    HeadOfNone();
    A.RolledOverAdmitted(d, i, Later());
  }

  /** The earlier build's canary before its first run. */
  function Untouched(): CanaryState {
    Earlier().(runIDs := [], endedAt := Unset, reportDigest := Absent, reportGeneratedAt := Unset, publishedAt := Unset)
  }

  lemma UntouchedIs()
    ensures var c := Untouched();
      && c.cohort == COHORT && c.cohortDigest == OfCohort(COHORT) && c.targetWidth == 2 && c.inactivityMs == 1
      && c.hardStops == [] && c.commit == COMMIT && c.version == "v" && c.build == "v"
      && c.contract == Opaque("contract") && c.registryIdentity == Opaque("registry")
      && c.autonomyPolicy == Opaque("x") && c.executionPolicy == Opaque("execution")
      && c.reportPath == FIXED_REPORT_PATH && c.decision == Undecided && S.Empty(c)
      && c.generation == Earlier().generation
    ensures StateGeneration("p", Untouched()) == StateGeneration("p", Earlier())
  {
    EarlierIs();
    EarlierQuiet();
    S.SameState("p", Untouched(), Earlier());
    hide Earlier;
    hide StateGeneration;
    hide COHORT;
    hide COMMIT;
    hide FIXED_REPORT_PATH;
  }

  lemma EarlierQuiet()
    ensures Earlier().terminal == map[] && Earlier().pressure == []
    ensures SpecOf(Untouched()) == SpecOf(Earlier())
  {
    hide SpecGeneration;
    hide COHORT;
    hide COMMIT;
    hide FIXED_REPORT_PATH;
  }

  lemma UntouchedRollsOver(d: Disk)
    requires d == DiskOf(Untouched()).(report := None)
    requires StateGeneration("p", Untouched()) == Some(Untouched().generation)
    requires SpecGeneration("p", Later()) == Some(Later().generation)
    requires Untouched().decision == Undecided && S.Empty(Untouched())
    requires Untouched().targetWidth == 2 && Untouched().inactivityMs == 1 && Untouched().reportPath == FIXED_REPORT_PATH
    requires !D.CohortDrift(Untouched(), Later()) && !D.PolicyDrift(Untouched(), Later())
      && D.DescendantBuild(Untouched(), Later(), LATER)
    requires Later().targetWidth == 2 && Later().inactivityMs == 1
      && Later().registryIdentity == Untouched().registryIdentity && Later().reportPath == FIXED_REPORT_PATH
    ensures S.RollsOver(d, "p", Later(), LATER) && d.marker == None && A.Ready(d)
  {
    hide Untouched;
    hide Later;
    hide ReportOf;
    hide StateGeneration;
    hide SpecGeneration;
    hide D.CohortDrift;
    hide D.PolicyDrift;
    hide D.DescendantBuild;
    hide S.Empty;
    hide COHORT;
    hide COMMIT;
    hide LATER_COMMIT;
    hide FIXED_REPORT_PATH;
    hide D.REPORT_PATH;
  }

  lemma FinalizerAlso()
    ensures var i := Finalizer(Later());
      i.project == "p" && i.m == LATER && i.newSpec == Some(Later()) && i.rolloverFates == []
  {
    hide Later;
    hide COHORT;
    hide COMMIT;
    hide LATER_COMMIT;
  }
}
