/** A concrete project on which the premises of the canary results hold, and on which each of the
    findings about it happens. */
module CanaryExamples {
  import opened Options
  import opened Strings
  import opened IdLists
  import opened Canary
  import opened DurableWrites
  import opened CanaryPlans
  import opened CanaryAdmission
  import Promotion
  import AdmissionSafety
  import R = Retirement

  const COHORT := ["a", "b"]
  const COMMIT := "aaaaaaaaaaaaaaaaaaaaaaaaaaaaaaaaaaaaaaaa"
  const LATER_COMMIT := "bbbbbbbbbbbbbbbbbbbbbbbbbbbbbbbbbbbbbbbb"

  lemma CohortFacts()
    ensures CohortDigest(COHORT) == OfCohort(COHORT) && Normalize(COHORT) == COHORT && SortStrings(COHORT) == COHORT
  {
    TrimmedIsFixed("a");
    TrimmedIsFixed("b");
    hide TrimSpace;
    assert COHORT[1..] == ["b"] && ["b"][1..] == [];
    assert TrimAll(["b"]) == ["b"];
    assert TrimAll(COHORT) == COHORT;
    assert COHORT[..1] == ["a"] && ["a"][..0] == [];
    assert Dedup(["a"]) == ["a"];
    assert Dedup(COHORT) == COHORT;
    assert SortStrings(["b"]) == ["b"];
    assert Less("a", "b");
    assert SortStrings(COHORT) == COHORT;
  }

  lemma NotBlank(s: string)
    requires s != [] && !IsSpace(s[|s| - 1])
    ensures !Blank(s)
  {
    TrimSpaceCuts(s);
    assert s[|s| - 1] in s;
    hide TrimSpace;
  }

  lemma CommitsValid()
    ensures ValidCommit(COMMIT) && ValidCommit(LATER_COMMIT) && COMMIT != LATER_COMMIT
  {
    assert |COMMIT| == 40 && |LATER_COMMIT| == 40 && COMMIT[39] == 'a' && LATER_COMMIT[39] == 'b';
  }

  lemma PathEnds()
    ensures |FIXED_REPORT_PATH| == 57 && FIXED_REPORT_PATH[56] == 'n'
  {
  }

  lemma Words()
    ensures !Blank("p") && !Blank("v") && !Blank("w") && !Blank(FIXED_REPORT_PATH)
    ensures ValidCommit(COMMIT) && TrimSpace(COMMIT) == COMMIT
    ensures ValidCommit(LATER_COMMIT) && TrimSpace(LATER_COMMIT) == LATER_COMMIT && COMMIT != LATER_COMMIT
  {
    hide TrimSpace;
    hide Blank;
    hide ValidCommit;
    CommitsValid();
    NotBlank("p");
    NotBlank("v");
    NotBlank("w");
    PathEnds();
    NotBlank(FIXED_REPORT_PATH);
    ValidCommitTrimmed(COMMIT);
    ValidCommitTrimmed(LATER_COMMIT);
  }

  /** A canary that ran, and what it may still hold besides. */
  function Sample(decision: Decision, autonomy: Digest, generation: Digest): CanaryState {
    CanaryState(COHORT, OfCohort(COHORT), At(0), 1, 2, [], [], COMMIT, "v", "v",
      Opaque("contract"), Opaque("registry"), autonomy, Opaque("execution"), generation, FIXED_REPORT_PATH,
      ["run"], map[], [], At(0), decision, Opaque("evidence"), At(0), At(0))
  }

  function ReportOf(c: CanaryState): Report {
    Report("p", c.commit, c.version, c.build, c.contract, c.registryIdentity, c.generation, c.executionPolicy,
      COHORT, c.cohortDigest, c.startedAt, At(0), c.decision == Passed, true, c.reportDigest, true)
  }

  function DiskOf(c: CanaryState): Disk {
    Disk(Supervisor("p", Stopped, 0, NO_PROGRESS, [], Some(c)), None, Registry("p", Migrated, c.registryIdentity, true),
      Some(ReportOf(c)), map[], map[], map[], true, Control(false, true))
  }

  // ---- promotion -----------------------------------------------------------------------------

  /** A passed canary that is ready for promotion. */
  lemma ReadyExists()
    ensures var c := Sample(Passed, Opaque("autonomy"), Opaque("generation"));
      Promotion.Ready(DiskOf(c), c, Request(COHORT, 2))
  {
    CohortFacts();
    SampleAuthentic();
    hide Authentic;
    hide CohortDigest;
    hide COMMIT;
    hide FIXED_REPORT_PATH;
  }

  lemma SampleAuthentic()
    ensures var c := Sample(Passed, Opaque("autonomy"), Opaque("generation")); Authentic("p", c, ReportOf(c))
  {
    SampleExpectable();
    hide Expectable;
    hide COHORT;
    hide COMMIT;
    hide FIXED_REPORT_PATH;
  }

  lemma SampleExpectable()
    ensures Expectable("p", Sample(Passed, Opaque("autonomy"), Opaque("generation")))
  {
    hide CohortDigest;
    hide ValidCommit;
    hide Blank;
    hide TrimSpace;
    hide COHORT;
    hide COMMIT;
    hide LATER_COMMIT;
    hide FIXED_REPORT_PATH;
    CohortFacts();
    Words();
  }

  // ---- retirement ----------------------------------------------------------------------------

  /** The spec of an installed binary, without its generation. */
  function Bare(commit: string, build: string, registry: string, autonomy: string): Spec {
    Spec(COHORT, 2, 1, [], commit, "v", build,
      Opaque("contract"), Opaque(registry), Opaque(autonomy), Opaque("execution"), Absent, FIXED_REPORT_PATH)
  }

  function Named(s: Spec): Spec {
    var g := SpecGeneration("p", s);
    s.(generation := if g.Some? then g.value else Absent)
  }

  /** The failed canary filled in, with its generation. */
  function Filled(autonomy: string): CanaryState {
    var c := Sample(Failed, Opaque(autonomy), Absent);
    var g := StateGeneration("p", c);
    c.(generation := if g.Some? then g.value else Absent)
  }

  const QUIET := Machine(At(0), None, {}, {})

  /** The retirement of a failed canary, which stored `stored` for its autonomy policy, by the binary
      that ran it, under another registry identity. */
  function JobOf(stored: Digest, registry: string, autonomy: string): R.Job {
    var c := Sample(Failed, stored, Absent);
    R.Job(DiskOf(c), "p", Named(Bare(COMMIT, "v", registry, autonomy)), RetireOptions(false, false), Filled(autonomy), ReportOf(c))
  }

  lemma BareHasGeneration(commit: string, build: string, registry: string, autonomy: string)
    requires commit == COMMIT || commit == LATER_COMMIT
    requires build == "v" || build == "w"
    ensures SpecGeneration("p", Bare(commit, build, registry, autonomy)).Some?
  {
    hide Normalize;
    hide TrimSpace;
    hide HardStops;
    hide ValidCommit;
    hide Blank;
    hide COMMIT;
    hide LATER_COMMIT;
    CohortFacts();
    Words();
  }

  /** A generation digest does not cover itself, and tells builds, registries and policies apart. */
  lemma GenerationSkips(project: string, s: Spec, generation: Digest)
    ensures SpecGeneration(project, s) == SpecGeneration(project, s.(generation := generation))
  {
  }

  lemma BareStates(autonomy: string)
    ensures StateGeneration("p", Sample(Failed, Opaque(autonomy), Absent)) == SpecGeneration("p", Bare(COMMIT, "v", "registry", autonomy))
  {
    hide SpecGeneration;
  }

  lemma NamedFacts(commit: string, build: string, registry: string, autonomy: string)
    requires commit == COMMIT || commit == LATER_COMMIT
    requires build == "v" || build == "w"
    ensures var s := Named(Bare(commit, build, registry, autonomy));
      && SpecGeneration("p", s) == Some(s.generation) && R.NormalCohort(s)
      && s == Bare(commit, build, registry, autonomy).(generation := s.generation)
  {
    BareHasGeneration(commit, build, registry, autonomy);
    var s := Bare(commit, build, registry, autonomy);
    GenerationSkips("p", s, Named(s).generation);
    CohortFacts();
    hide SpecGeneration;
    hide Normalize;
  }

  lemma FilledFacts(autonomy: string)
    ensures var c := Filled(autonomy);
      && StateGeneration("p", Sample(Failed, Opaque(autonomy), Absent)) == Some(c.generation)
      && c == Sample(Failed, Opaque(autonomy), c.generation)
  {
    BareHasGeneration(COMMIT, "v", "registry", autonomy);
    BareStates(autonomy);
    hide StateGeneration;
    hide SpecGeneration;
  }

  lemma GenerationsDiffer(s: Spec, t: Spec)
    requires SpecGeneration("p", s).Some? && (s.registryIdentity != t.registryIdentity || s.autonomyPolicy != t.autonomyPolicy)
    ensures SpecGeneration("p", s) != SpecGeneration("p", t)
  {
    if SpecGeneration("p", s) == SpecGeneration("p", t) { R.SameGenerationFields("p", s, t); }
    hide SpecGeneration;
  }

  lemma JobIsDue(stored: Digest, registry: string, autonomy: string)
    requires (stored == Absent || stored == Opaque(autonomy)) && registry != "registry"
    ensures var j := JobOf(stored, registry, autonomy);
      && R.Due(j, QUIET) && R.NoConflict(j) && R.NormalCohort(j.spec)
      && j.start.drain && j.start.report == Some(j.report)
  {
    var s, full := Named(Bare(COMMIT, "v", registry, autonomy)), Filled(autonomy);
    NamedFacts(COMMIT, "v", registry, autonomy);
    FilledFacts(autonomy);
    BareStates(autonomy);
    BareHasGeneration(COMMIT, "v", registry, autonomy);
    GenerationsDiffer(Bare(COMMIT, "v", registry, autonomy), Bare(COMMIT, "v", "registry", autonomy));
    GenerationSkips("p", Bare(COMMIT, "v", registry, autonomy), s.generation);
    Superseded(s, full, registry, autonomy);
    IsDue(stored, s, full, registry, autonomy);
    hide *;
    JobIs(stored, registry, autonomy);
  }

  lemma JobIs(stored: Digest, registry: string, autonomy: string)
    ensures JobOf(stored, registry, autonomy) ==
      R.Job(DiskOf(Sample(Failed, stored, Absent)), "p", Named(Bare(COMMIT, "v", registry, autonomy)), RetireOptions(false, false),
        Filled(autonomy), ReportOf(Sample(Failed, stored, Absent)))
    ensures var j := JobOf(stored, registry, autonomy); j.start.drain && j.start.report == Some(j.report) && j.start.marker == None
    ensures JobOf(stored, registry, autonomy).start.supervisor.canary == Some(Sample(Failed, stored, Absent))
  {
    hide Named;
    hide Filled;
    hide COMMIT;
  }

  lemma IsDue(stored: Digest, s: Spec, full: CanaryState, registry: string, autonomy: string)
    requires stored == Absent || stored == Opaque(autonomy)
    requires s == Bare(COMMIT, "v", registry, autonomy).(generation := s.generation)
    requires full == Sample(Failed, Opaque(autonomy), full.generation)
    requires SpecGeneration("p", s) == Some(s.generation)
    requires StateGeneration("p", Sample(Failed, Opaque(autonomy), Absent)) == Some(full.generation)
    requires full.generation != s.generation
    requires Supersede(full, s, RetireOptions(false, false), QUIET) == Allowed
    ensures var c := Sample(Failed, stored, Absent);
      var j := R.Job(DiskOf(c), "p", s, RetireOptions(false, false), full, ReportOf(c));
      R.Due(j, QUIET) && R.NoConflict(j)
  {
    hide StateGeneration;
    hide SpecGeneration;
    hide Supersede;
    hide COMMIT;
    hide COHORT;
    hide FIXED_REPORT_PATH;
    hide HistoryRecord;
    assert Upgraded(Sample(Failed, stored, Absent), s) == Sample(Failed, Opaque(autonomy), Absent);
  }

  lemma Superseded(s: Spec, full: CanaryState, registry: string, autonomy: string)
    requires full == Sample(Failed, Opaque(autonomy), full.generation) && registry != "registry"
    requires s == Bare(COMMIT, "v", registry, autonomy).(generation := s.generation)
    ensures Supersede(full, s, RetireOptions(false, false), QUIET) == Allowed
  {
    CohortFacts();
    hide HardStops;
    hide CohortDigest;
    hide SortStrings;
    hide COMMIT;
  }

  /** The drain sentinel outlives a retirement of this project. */
  lemma DrainSurvives()
    ensures var j := JobOf(Opaque("x"), "second", "x");
      var r := RunPlan(j.start, R.PlanFor(j, j.start, QUIET), [Persists, Persists, Persists, Persists, Fails]);
      r.ending == Success && r.disk.drain
  {
    hide *;
    var j := JobOf(Opaque("x"), "second", "x");
    assert "second" != "registry";
    JobIsDue(Opaque("x"), "second", "x");
    R.DrainCanSurvive(j, QUIET);
    R.CheckpointOf(j, 6, QUIET.now, true, QUIET);
  }

  /** Two builds that differ in their registry identity, one checkpoint that stores its policies: what
      the one began the other cannot complete. */
  lemma OtherBuildRefused()
    ensures var a, b := JobOf(Opaque("x"), "second", "x"), JobOf(Opaque("x"), "third", "x");
      var d := R.Stage(a, 3, At(0), true);
      && R.Due(a, QUIET) && R.Due(b, QUIET) && R.NoConflict(a)
      && RunPlan(d, R.PlanFor(b, d, QUIET), []) == Ran(d, Failure)
      && RunPlan(d, R.PlanFor(a, d, QUIET), []).ending == Success
  {
    hide *;
    var a, b := JobOf(Opaque("x"), "second", "x"), JobOf(Opaque("x"), "third", "x");
    assert "second" != "registry" && "third" != "registry";
    JobIsDue(Opaque("x"), "second", "x");
    JobIsDue(Opaque("x"), "third", "x");
    JobIs(Opaque("x"), "second", "x");
    JobIs(Opaque("x"), "third", "x");
    PairFacts(Opaque("x"), "second", "third", "x", "x");
    R.OnlySameGenerationResumes(a, b, QUIET, QUIET, 3, At(0), true);
    R.OnlySameGenerationResumes(a, a, QUIET, QUIET, 3, At(0), true);
  }

  lemma PairFacts(stored: Digest, first: string, second: string, one: string, other: string)
    ensures var a, b := JobOf(stored, first, one), JobOf(stored, second, other);
      && R.SameCheckpoint(a, b) && R.SameCheckpoint(a, a)
      && a.start.supervisor.canary.Some? && R.AlikeDigests(a, a)
      && (R.AlikeDigests(a, b) <==> stored != Absent || one == other)
      && ((a.spec.generation != b.spec.generation) <==> (first != second || one != other))
      && R.DrainOk(a, 3, true)
  {
    hide *;
    SpecsApart(first, second, one, other);
    JobSpec(stored, first, one);
    JobSpec(stored, second, other);
    JobIs(stored, first, one);
    JobIs(stored, second, other);
    NamedFacts(COMMIT, "v", first, one);
    NamedFacts(COMMIT, "v", second, other);
    Alike(JobOf(stored, first, one), JobOf(stored, second, other), stored, one, other);
    Alike(JobOf(stored, first, one), JobOf(stored, first, one), stored, one, one);
  }

  lemma JobSpec(stored: Digest, registry: string, autonomy: string)
    ensures var j := JobOf(stored, registry, autonomy);
      && j.spec == Named(Bare(COMMIT, "v", registry, autonomy)) && j.project == "p"
      && j.start == DiskOf(Sample(Failed, stored, Absent)) && j.spec.autonomyPolicy == Opaque(autonomy)
  {
    hide Filled;
    hide COMMIT;
    hide SpecGeneration;
  }

  lemma SpecsApart(first: string, second: string, one: string, other: string)
    ensures var s, t := Named(Bare(COMMIT, "v", first, one)), Named(Bare(COMMIT, "v", second, other));
      s.generation != t.generation <==> first != second || one != other
  {
    NamedFacts(COMMIT, "v", first, one);
    NamedFacts(COMMIT, "v", second, other);
    if first != second || one != other {
      GenerationsDiffer(Named(Bare(COMMIT, "v", first, one)), Named(Bare(COMMIT, "v", second, other)));
    }
    hide SpecGeneration;
    hide Named;
    hide COMMIT;
    hide COHORT;
    hide R.NormalCohort;
  }

  lemma Alike(a: R.Job, b: R.Job, stored: Digest, one: string, other: string)
    requires a.start == b.start == DiskOf(Sample(Failed, stored, Absent)) && a.project == b.project
    requires a.spec.autonomyPolicy == Opaque(one) && b.spec.autonomyPolicy == Opaque(other)
    ensures R.SameCheckpoint(a, b) && a.start.supervisor.canary.Some? && R.DrainOk(a, 3, true)
    ensures R.AlikeDigests(a, b) <==> stored != Absent || one == other
  {
    hide COMMIT;
    hide COHORT;
    hide FIXED_REPORT_PATH;
  }

  /** A checkpoint that lacks its autonomy policy, two builds with different ones: the second completes
      its own retirement beside the one the first began, and the canary ends up in two records. */
  lemma OtherBuildCompletes()
    ensures var a, b := JobOf(Absent, "second", "A"), JobOf(Absent, "second", "B");
      var d := R.Stage(a, 3, At(0), true);
      var r := RunPlan(d, R.PlanFor(b, d, QUIET), []);
      && R.Due(a, QUIET) && R.Due(b, QUIET) && R.NoConflict(a) && a.spec.generation != b.spec.generation
      && r.ending == Success
      && R.JobKey(a) != R.JobKey(b) && R.JobKey(a) in r.disk.history && R.JobKey(b) in r.disk.history
  {
    hide *;
    var a, b := JobOf(Absent, "second", "A"), JobOf(Absent, "second", "B");
    assert "second" != "registry" && "A" != "B";
    JobIsDue(Absent, "second", "A");
    JobIsDue(Absent, "second", "B");
    JobIs(Absent, "second", "A");
    JobIs(Absent, "second", "B");
    PairFacts(Absent, "second", "second", "A", "B");
    R.SameCaseIff(a, b, QUIET, QUIET);
    BothRecords(a, b);
  }

  lemma BothRecords(a: R.Job, b: R.Job)
    requires R.SameCheckpoint(a, b) && R.Due(b, QUIET) && R.NoConflict(b) && R.JobKey(a) != R.JobKey(b)
    requires b.start.report == Some(b.report) && b.start.marker == None
    ensures var d := R.Stage(a, 3, At(0), true);
      var r := RunPlan(d, R.PlanFor(b, d, QUIET), []);
      r.ending == Success && R.JobKey(a) in r.disk.history && R.JobKey(b) in r.disk.history
  {
    hide *;
    var d := R.Stage(a, 3, At(0), true);
    var own := b.(start := d);
    R.BesideStage(a, b, 3, At(0), true);
    ThirdStage(a, b);
    R.DueBeside(b, d, QUIET);
    DueAuthentic(b);
    assert b.(start := d, report := b.report) == own && own == b.(start := own.start, report := own.report);
    assert b.(report := own.report) == b;
    R.NoConflictBeside(b, own);
    R.RetirementEnds(own, QUIET);
    var e := RunPlan(own.start, R.PlanFor(own, own.start, QUIET), []).disk;
    assert R.JobKey(a) in d.history - {R.JobKey(own)} by { R.JobKeyIs(own); R.JobKeyIs(b); }
    assert R.JobKey(a) in e.history - {R.JobKey(own)};
    R.PlanForOwn(b, own, d, QUIET);
    R.JobKeyIs(own);
    R.JobKeyIs(b);
  }

  lemma ThirdStage(a: R.Job, b: R.Job)
    requires R.SameCheckpoint(a, b) && b.start.report == Some(b.report)
    ensures var d := R.Stage(a, 3, At(0), true);
      R.JobKey(a) in d.history && RetiredReport(d, R.JobKey(b)) == Some(b.report)
  {
    hide R.Record;
  }

  lemma DueAuthentic(j: R.Job)
    requires R.Due(j, QUIET)
    ensures j.report.consistent && Retirable(j.project, j.canary, j.canary.generation, j.report)
  {
    hide RetireSubject;
    hide Retirable;
  }

  /** The same due retirement, with a promotion marker on disk: refused, and nothing written. */
  lemma MarkerRefuses(marker: Marker, fates: seq<Fate>)
    ensures var j := JobOf(Opaque("x"), "second", "x");
      var d := j.start.(marker := Some(marker));
      && R.PlanFor(j, j.start, QUIET).Do?
      && RunPlan(d, R.PlanFor(j, d, QUIET), fates) == Ran(d, Failure)
  {
    hide *;
    var j := JobOf(Opaque("x"), "second", "x");
    assert "second" != "registry";
    JobIsDue(Opaque("x"), "second", "x");
    R.DueWrites(j, QUIET);
    RefusesMarked(j, marker, fates);
  }

  lemma RefusesMarked(j: R.Job, marker: Marker, fates: seq<Fate>)
    ensures var d := j.start.(marker := Some(marker)); RunPlan(d, R.PlanFor(j, d, QUIET), fates) == Ran(d, Failure)
  {
    hide RetireSubject;
    hide Retirable;
  }

  // ---- finalization --------------------------------------------------------------------------

  /** The checkout of the later build. */
  const LATER := Machine(At(1), Some(LATER_COMMIT), {(COMMIT, LATER_COMMIT)}, {})

  function Stopping(generation: Digest): CanaryState { Sample(Undecided, Opaque("x"), generation) }

  /** An invocation of the later build, whose publication does not come about. */
  function Finalizer(s: Spec): Invocation {
    Invocation("p", Request(COHORT, 2), RetireOptions(false, false), LATER, Containment(true, true, None), Some(s),
      LATER_COMMIT, "v", "w", Opaque("registry"), true, Opaque("contract"), Opaque("x"), Opaque("execution"), [], [], [], [])
  }

  lemma StoppingStates(generation: Digest)
    ensures StateGeneration("p", Stopping(generation)) == SpecGeneration("p", Bare(COMMIT, "v", "registry", "x"))
  {
    hide SpecGeneration;
  }

  lemma LaterSupersedes(generation: Digest, s: Spec)
    requires s == Bare(LATER_COMMIT, "w", "registry", "x").(generation := s.generation)
    ensures SupersededBinary("p", Stopping(generation), s, LATER)
  {
    CohortFacts();
    Words();
    hide HardStops;
    hide CohortDigest;
    hide SortStrings;
    hide ValidCommit;
    hide TrimSpace;
    hide COMMIT;
    hide LATER_COMMIT;
  }

  lemma CommitsApart(s: Spec, t: Spec)
    requires SpecGeneration("p", s).Some? && s.commit == COMMIT && t.commit == LATER_COMMIT
    ensures SpecGeneration("p", s) != SpecGeneration("p", t)
  {
    Words();
    if SpecGeneration("p", s) == SpecGeneration("p", t) { R.SameGenerationFields("p", s, t); }
    hide SpecGeneration;
    hide TrimSpace;
    hide COMMIT;
    hide LATER_COMMIT;
  }

  /** A finalization whose publication failed, and the same invocation again: both transactions refuse,
      although the first time the finalization was due. */
  lemma FinalizationStuck() returns (d: Disk, s: Spec)
    ensures var i := Finalizer(s);
      var e := FinalizingOf(d, i, s).disk;
      && FinalizePlan(d, "p", s, LATER, i.containment).Do?
      && e.supervisor != d.supervisor && Decides(e, Undecided)
      && FinalizePlan(e, "p", s, LATER, i.containment) == Refuse && RolloverPlan(e, "p", s, LATER) == Refuse
  {
    var first, second := Bare(COMMIT, "v", "registry", "x"), Bare(LATER_COMMIT, "w", "registry", "x");
    BareHasGeneration(COMMIT, "v", "registry", "x");
    NamedFacts(LATER_COMMIT, "w", "registry", "x");
    var g := SpecGeneration("p", first).value;
    s := Named(second);
    d := DiskOf(Stopping(g));
    StoppingStates(g);
    LaterSupersedes(g, s);
    CommitsApart(first, s);
    hide *;
    FirstTry(d, g, s);
    AdmissionSafety.FinalizationSticks(d, Finalizer(s), s, Finalizer(s), s);
    FinalizerIs(s);
  }

  lemma FinalizerIs(s: Spec)
    ensures var i := Finalizer(s); i.project == "p" && i.m == LATER && i.containment == Containment(true, true, None) && i.finalizeFates == []
  {
    hide LATER;
  }

  lemma FirstTry(d: Disk, g: Digest, s: Spec)
    requires d == DiskOf(Stopping(g)) && StateGeneration("p", Stopping(g)) == Some(g)
    requires SpecGeneration("p", s) == Some(s.generation) && s.generation != g
    requires SupersededBinary("p", Stopping(g), s, LATER)
    ensures FinalizePlan(d, "p", s, LATER, Containment(true, true, None)).Do?
    ensures var e := FinalizingOf(d, Finalizer(s), s).disk;
      && e.supervisor != d.supervisor && Decides(e, Undecided)
      && e.supervisor.canary.Some? && e.supervisor.canary.value.generation == g
  {
    var tripped := Tripped(d.supervisor, Ended(d.supervisor, Stopping(g), LATER.now));
    PlansCheckpoint(d, g, s);
    FinalizerIs(s);
    OneCheckpoint(d, tripped);
    assert FinalizingOf(d, Finalizer(s), s).disk == d.(supervisor := tripped) by {
      hide FinalizePlan;
      hide RunPlan;
      hide Finalizer;
      hide Tripped;
    }
    hide FinalizingOf;
    hide FinalizePlan;
    hide RunPlan;
    hide SupersededBinary;
    hide StateGeneration;
    hide SpecGeneration;
    hide COMMIT;
    hide COHORT;
    hide FIXED_REPORT_PATH;
  }

  lemma OneCheckpoint(d: Disk, s: Supervisor)
    ensures RunPlan(d, Do([PutSupervisor(s)], false), []) == Ran(d.(supervisor := s), Failure)
  {
    ExecStep(d, PutSupervisor(s), [], []);
    HeadOfNone();
    assert [PutSupervisor(s)] + [] == [PutSupervisor(s)];
  }

  lemma PlansCheckpoint(d: Disk, g: Digest, s: Spec)
    requires d == DiskOf(Stopping(g)) && StateGeneration("p", Stopping(g)) == Some(g)
    requires SpecGeneration("p", s) == Some(s.generation) && s.generation != g
    requires SupersededBinary("p", Stopping(g), s, LATER)
    ensures FinalizePlan(d, "p", s, LATER, Containment(true, true, None))
         == Do([PutSupervisor(Tripped(d.supervisor, Ended(d.supervisor, Stopping(g), LATER.now)))], false)
  {
    hide StateGeneration;
    hide SpecGeneration;
    hide SupersededBinary;
    hide COMMIT;
    hide LATER_COMMIT;
    hide COHORT;
    hide FIXED_REPORT_PATH;
  }

  // ---- resuming ------------------------------------------------------------------------------

  /** The build that ran the unfinished canary. */
  function Resumer(s: Spec): Invocation {
    Finalizer(s).(commit := COMMIT, build := "v")
  }

  /** An invocation that resumes, so admissions do start a supervisor on an unfinished canary. */
  lemma ResumeHappens() returns (d: Disk, i: Invocation)
    ensures d.supervisor.canary.Some? && AdmissionOf(d, i).outcome.Admitted? && AdmissionOf(d, i).disk == d
  {
    hide *;
    var s := Named(Bare(COMMIT, "v", "registry", "x"));
    i, d := Resumer(s), DiskOf(Stopping(s.generation));
    NamedFacts(COMMIT, "v", "registry", "x");
    SampleResumes(s);
    StoppingOnDisk(s);
    AdmissionSafety.ResumeAdmits(d, i, s);
  }

  lemma StoppingOnDisk(s: Spec)
    ensures var d, i, c := DiskOf(Stopping(s.generation)), Resumer(s), Stopping(s.generation);
      && d.supervisor.canary == Some(c) && d.marker == None && SteadyModeReady(d.registry.posture) && Decides(d, Undecided)
      && d.supervisor.project == "p" && i.newSpec == Some(s) && i.project == "p"
      && c.cohortDigest == CohortDigest(c.cohort) && c.generation == s.generation
  {
    CohortFacts();
    hide CohortDigest;
    hide COHORT;
    hide COMMIT;
    hide FIXED_REPORT_PATH;
  }

  lemma SampleResumes(s: Spec)
    requires s == Bare(COMMIT, "v", "registry", "x").(generation := s.generation) && SpecGeneration("p", s) == Some(s.generation)
    ensures Resumes(Stopping(s.generation), Resumer(s))
  {
    CohortFacts();
    Words();
    TrimmedIsFixed("v");
    assert ResumingSpec(Stopping(s.generation), COHORT, 2) == s;
    hide SpecGeneration;
    hide CohortDigest;
    hide TrimSpace;
    hide COHORT;
    hide COMMIT;
    hide FIXED_REPORT_PATH;
  }
}
