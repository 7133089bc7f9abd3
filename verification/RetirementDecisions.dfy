/** When a retirement goes ahead, in the fields of the checkpoint, the spec and the report, and what it
    then leaves on disk. */
module RetirementDecisions {
  import opened Options
  import opened Strings
  import opened IdLists
  import opened Canary
  import opened Cohorts
  import opened Generations
  import opened DurableWrites
  import opened CanaryPlans
  import R = Retirement

  const REPORT_PATH := ".plan-logs/koryph/canary/autonomous-loop-reliability.json"

  // ---- what the spec may change ----------------------------------------------------------------

  ghost predicate CohortDrift(c: CanaryState, s: Spec) {
    Elements(c.cohort) != Elements(s.cohort) || c.cohortDigest != CohortDigest(c.cohort)
  }

  ghost predicate PolicyDrift(c: CanaryState, s: Spec) {
    || c.contract != s.contract || c.autonomyPolicy != s.autonomyPolicy || c.executionPolicy != s.executionPolicy
    || StopsOf(c.hardStops) != StopsOf(s.hardStops)
  }

  predicate SameBuild(c: CanaryState, s: Spec) { c.commit == s.commit && c.version == s.version && c.build == s.build }

  /** Another build, from a clean checkout of a commit that descends from the canary's. */
  ghost predicate DescendantBuild(c: CanaryState, s: Spec, m: Machine) {
    && c.commit != s.commit && c.build != s.build
    && CommitId(c.commit) && CommitId(s.commit)
    && m.clean == Some(s.commit) && (c.commit, s.commit) in m.descends
  }

  lemma CleanIsDistinct(ids: seq<string>)
    requires Clean(ids)
    ensures Distinct(ids)
  {
    hide TrimSpace;
    forall i, j | 0 <= i < j < |ids| ensures ids[i] != ids[j] { assert TrimSpace(ids[i]) != TrimSpace(ids[j]); }
  }

  lemma SameCohortIff(c: CanaryState, s: Spec)
    requires Clean(c.cohort) && Clean(s.cohort)
    ensures SameCohort(c, s) <==> !CohortDrift(c, s)
  {
    hide Clean;
    hide SortStrings;
    hide CohortDigest;
    CleanIsDistinct(c.cohort);
    CleanIsDistinct(s.cohort);
    SortStringsPermutes(c.cohort);
    SortStringsPermutes(s.cohort);
    SortStringsSorts(c.cohort);
    SortStringsSorts(s.cohort);
    if Elements(c.cohort) == Elements(s.cohort) { SortedListingUnique(SortStrings(c.cohort), SortStrings(s.cohort)); }
    SortedDigest(c.cohort);
    hide *;
  }

  /** Sorting does not change a digest. */
  lemma SortedDigest(ids: seq<string>)
    requires Clean(ids)
    ensures CohortDigest(SortStrings(ids)) == CohortDigest(ids)
  {
    SortStringsPermutes(ids);
    CohortDigestIs(ids);
    DigestDecidesIds(ids, SortStrings(ids));
    SameMembers(ids, SortStrings(ids));
    CleanIsDistinct(ids);
    SortStringsSorts(ids);
    SortedIsDistinct(ids);
    PermutedClean(ids, SortStrings(ids));
    hide *;
  }

  lemma SortedIsDistinct(ids: seq<string>)
    requires StrictlySorted(SortStrings(ids)) && ids != []
    ensures Distinct(SortStrings(ids)) && SortStrings(ids) != []
  {
    var b := SortStrings(ids);
    SortStringsPermutes(ids);
    assert ids[0] in Elements(b);
    hide SortStrings;
    forall i, j | 0 <= i < j < |b| ensures b[i] != b[j] { StrictlySortedDistinct(b, i, j); }
  }

  lemma SameMembers(a: seq<string>, b: seq<string>)
    requires Elements(a) == Elements(b)
    ensures Members(a) == Members(b)
  {
    hide TrimSpace;
    hide Blank;
    assert forall id :: id in a <==> id in Elements(a);
    assert forall id :: id in b <==> id in Elements(b);
  }

  lemma PermutedClean(a: seq<string>, b: seq<string>)
    requires Clean(a) && b != [] && Distinct(b) && Elements(a) == Elements(b)
    ensures Clean(b)
  {
    hide TrimSpace;
    hide Blank;
    forall i | 0 <= i < |b| ensures b[i] in a { assert b[i] in Elements(b); }
    forall i, j | 0 <= i < j < |b| ensures TrimSpace(b[i]) != TrimSpace(b[j]) {
      var k :| 0 <= k < |a| && a[k] == b[i];
      var l :| 0 <= l < |a| && a[l] == b[j];
      assert k < l || l < k;
    }
  }

  lemma SamePolicyIff(c: CanaryState, s: Spec)
    ensures SamePolicy(c, s) <==> !PolicyDrift(c, s)
  {
    HardStopsIff(c.hardStops, s.hardStops);
    hide HardStops;
    hide StopsOf;
  }

  lemma BinaryIff(c: CanaryState, s: Spec, m: Machine)
    ensures BinaryUnchanged(c, s) <==> SameBuild(c, s)
    ensures BinaryAdvanced(c, s, m) <==> DescendantBuild(c, s, m)
  {
    CommitIdIff(c.commit);
    CommitIdIff(s.commit);
    hide ValidCommit;
    hide CommitId;
  }

  // ---- retirement ------------------------------------------------------------------------------

  /** The canary with the digests it lacks taken from the spec, under its generation. */
  function FilledFrom(project: string, c: CanaryState, s: Spec): CanaryState {
    var f := c.(autonomyPolicy := if c.autonomyPolicy == Absent then s.autonomyPolicy else c.autonomyPolicy,
                executionPolicy := if c.executionPolicy == Absent then s.executionPolicy else c.executionPolicy);
    var g := StateGeneration(project, f);
    f.(generation := if g.Some? then g.value else Absent)
  }

  /** A terminal failure of this project, at the fixed path, with its generation and the spec's valid. */
  predicate StaleFailure(d: Disk, project: string, s: Spec, m: Machine) {
    && d.marker == None && d.supervisor.canary.Some? && (d.supervisor.project == "" || d.supervisor.project == project)
    && (d.supervisor.mode == CircuitOpen || d.supervisor.mode == Stopped) && d.supervisor.pid !in m.alive
    && var c := d.supervisor.canary.value;
    && c.decision == Failed && c.endedAt != Unset && c.reportDigest != Absent
    && c.reportGeneratedAt != Unset && c.publishedAt != Unset
    && c.reportPath == REPORT_PATH && s.reportPath == REPORT_PATH
    && StateGeneration(project, FilledFrom(project, c, s)).Some?
    && (c.generation == Absent || c.generation == FilledFrom(project, c, s).generation)
    && SpecGeneration(project, s) == Some(s.generation)
  }

  /** What the new spec may change, under which flags. */
  ghost predicate MaySupersede(c: CanaryState, s: Spec, opt: RetireOptions, m: Machine) {
    && c.targetWidth == s.targetWidth && c.inactivityMs == s.inactivityMs
    && (CohortDrift(c, s) ==> opt.supersedeCohort)
    && (PolicyDrift(c, s) ==> opt.supersedePolicy)
    && (|| (SameBuild(c, s) && c.registryIdentity != s.registryIdentity && !CohortDrift(c, s) && !PolicyDrift(c, s))
        || DescendantBuild(c, s, m))
  }

  /** The report of the failed canary, field by field; the last two may predate their fields. */
  predicate Reports(project: string, c: CanaryState, r: Report) {
    && r.consistent && !r.passed && r.project == project
    && r.commit == c.commit && r.version == c.version && r.build == c.build && r.contract == c.contract
    && r.registryIdentity == c.registryIdentity && r.cohortDigest == c.cohortDigest
    && r.startedAt == c.startedAt && r.evidenceDigest == c.reportDigest
    && r.generation in {Absent, c.generation} && r.executionPolicy in {Absent, c.executionPolicy}
  }

  function KeyOf(project: string, c: CanaryState): Key { Key(project, c.generation, c.startedAt, c.reportDigest, c.reportPath) }

  /** The report at the fixed path, else the one archived for this canary. */
  function ReportFor(d: Disk, k: Key): Option<Report> {
    if d.report.Some? then d.report else if k in d.archivedReports then Some(d.archivedReports[k]) else None
  }

  /** A retirement under `s` goes ahead. */
  ghost predicate Retires(d: Disk, project: string, s: Spec, opt: RetireOptions, m: Machine) {
    && StaleFailure(d, project, s, m)
    && var c := FilledFrom(project, d.supervisor.canary.value, s);
    && MaySupersede(c, s, opt, m)
    && ReportFor(d, KeyOf(project, c)).Some? && Reports(project, c, ReportFor(d, KeyOf(project, c)).value)
  }

  /** A generation names the cohort, the policy, the build and the registry. */
  lemma SupersedingIsNew(project: string, c: CanaryState, s: Spec, opt: RetireOptions, m: Machine)
    requires StateGeneration(project, c) == Some(c.generation) && SpecGeneration(project, s) == Some(s.generation)
    requires SameBuild(c, s) ==> c.registryIdentity != s.registryIdentity
    requires !SameBuild(c, s) ==> DescendantBuild(c, s, m)
    ensures c.generation != s.generation
  {
    hide SameBuild;
    StateGenerationOf(project, c);
    GenerationIff(project, SpecOf(c), Envelope(project, SpecOf(c)));
    GenerationIff(project, s, Envelope(project, s));
    hide SpecGeneration;
    hide StateGeneration;
    hide Complete;
    hide Identifies;
    if SameBuild(c, s) {
      EnvelopeFields(project, SpecOf(c), s);
    } else {
      CommitsTrimmed(c, s, m);
      EnvelopeFields(project, SpecOf(c), s);
    }
  }

  lemma EnvelopeFields(project: string, s: Spec, t: Spec)
    ensures Envelope(project, s) == Envelope(project, t) ==>
      s.registryIdentity == t.registryIdentity && TrimSpace(s.commit) == TrimSpace(t.commit)
  {
    hide TrimSpace;
    hide Normalize;
    hide HardStops;
  }

  lemma CommitsTrimmed(c: CanaryState, s: Spec, m: Machine)
    requires DescendantBuild(c, s, m)
    ensures TrimSpace(c.commit) == c.commit != s.commit == TrimSpace(s.commit)
  {
    CommitIdIff(c.commit);
    CommitIdIff(s.commit);
    ValidCommitTrimmed(c.commit);
    ValidCommitTrimmed(s.commit);
    hide CommitId;
    hide ValidCommit;
    hide TrimSpace;
  }

  /** With nothing changed the generation is the same, so the source's last test, for no change at all,
      never decides. */
  lemma UnchangedIsSame(project: string, c: CanaryState, s: Spec)
    requires StateGeneration(project, c) == Some(c.generation) && SpecGeneration(project, s) == Some(s.generation)
    requires c.targetWidth == s.targetWidth && c.inactivityMs == s.inactivityMs && c.reportPath == s.reportPath
    requires SameBuild(c, s) && c.registryIdentity == s.registryIdentity && !PolicyDrift(c, s)
    requires Elements(c.cohort) == Elements(s.cohort)
    ensures c.generation == s.generation
  {
    StateGenerationOf(project, c);
    GenerationIff(project, SpecOf(c), Envelope(project, SpecOf(c)));
    GenerationIff(project, s, Envelope(project, s));
    HardStopsIff(c.hardStops, s.hardStops);
    SameMembers(c.cohort, s.cohort);
    NormalizeDecidesMembers(c.cohort, s.cohort);
    hide SpecGeneration;
    hide StateGeneration;
    hide Complete;
    hide Identifies;
    hide TrimSpace;
    hide Normalize;
    hide HardStops;
    hide StopsOf;
  }

  lemma CleanCohorts(project: string, c: CanaryState, s: Spec)
    requires StateGeneration(project, c).Some? && SpecGeneration(project, s).Some?
    ensures Clean(c.cohort) && Clean(s.cohort)
  {
    StateGenerationOf(project, c);
    GenerationIff(project, SpecOf(c), Envelope(project, SpecOf(c)));
    GenerationIff(project, s, Envelope(project, s));
    hide SpecGeneration;
    hide StateGeneration;
    hide Clean;
    hide TrimSpace;
    hide CommitId;
  }

  lemma SupersedeIff(project: string, c: CanaryState, s: Spec, opt: RetireOptions, m: Machine)
    requires StateGeneration(project, c) == Some(c.generation) && SpecGeneration(project, s) == Some(s.generation)
    requires c.reportPath == s.reportPath
    ensures Supersede(c, s, opt, m) == Allowed <==> MaySupersede(c, s, opt, m)
    ensures Supersede(c, s, opt, m) == Unneeded ==> c.generation == s.generation
    ensures MaySupersede(c, s, opt, m) ==> c.generation != s.generation
  {
    hide *;
    CleanCohorts(project, c, s);
    SameCohortIff(c, s);
    SamePolicyIff(c, s);
    BinaryIff(c, s, m);
    SupersedeCases(c, s, opt, m);
    MaySupersedeIs(c, s, opt, m);
    NotBoth(c, s, m);
    NoDrift(c, s);
    if MaySupersede(c, s, opt, m) { SupersedingIsNew(project, c, s, opt, m); }
    if Supersede(c, s, opt, m) == Unneeded { UnchangedIsSame(project, c, s); }
  }

  lemma SupersedeCases(c: CanaryState, s: Spec, opt: RetireOptions, m: Machine)
    requires c.reportPath == s.reportPath
    ensures Supersede(c, s, opt, m) == Allowed <==>
      (&& c.targetWidth == s.targetWidth && c.inactivityMs == s.inactivityMs
       && (!SameCohort(c, s) ==> opt.supersedeCohort) && (!SamePolicy(c, s) ==> opt.supersedePolicy)
       && (if BinaryUnchanged(c, s) then SameCohort(c, s) && SamePolicy(c, s) && c.registryIdentity != s.registryIdentity
           else BinaryAdvanced(c, s, m)))
    ensures Supersede(c, s, opt, m) == Unneeded ==>
      (&& c.targetWidth == s.targetWidth && c.inactivityMs == s.inactivityMs
       && BinaryUnchanged(c, s) && SameCohort(c, s) && SamePolicy(c, s) && c.registryIdentity == s.registryIdentity)
  {
    hide SameCohort;
    hide SamePolicy;
    hide BinaryUnchanged;
    hide BinaryAdvanced;
  }

  lemma MaySupersedeIs(c: CanaryState, s: Spec, opt: RetireOptions, m: Machine)
    ensures MaySupersede(c, s, opt, m) <==>
      (&& c.targetWidth == s.targetWidth && c.inactivityMs == s.inactivityMs
       && (CohortDrift(c, s) ==> opt.supersedeCohort) && (PolicyDrift(c, s) ==> opt.supersedePolicy)
       && (|| (SameBuild(c, s) && c.registryIdentity != s.registryIdentity && !CohortDrift(c, s) && !PolicyDrift(c, s))
           || DescendantBuild(c, s, m)))
  {
    hide CohortDrift;
    hide PolicyDrift;
    hide SameBuild;
    hide DescendantBuild;
  }

  lemma NotBoth(c: CanaryState, s: Spec, m: Machine)
    ensures SameBuild(c, s) ==> !DescendantBuild(c, s, m)
  {
    hide CommitId;
  }

  lemma NoDrift(c: CanaryState, s: Spec)
    ensures !CohortDrift(c, s) ==> Elements(c.cohort) == Elements(s.cohort)
  {
  }

  /** The subject of a retirement, for a terminal failure: forbidden, not due, or this canary. */
  lemma SubjectIff(d: Disk, project: string, s: Spec, opt: RetireOptions, m: Machine)
    requires d.marker == None && d.supervisor.canary.Some?
    ensures var subject := RetireSubject(d.supervisor, project, s, opt, m);
      var c := FilledFrom(project, d.supervisor.canary.value, s);
      && (subject.Stale? <==> StaleFailure(d, project, s, m) && MaySupersede(c, s, opt, m))
      && (subject.Stale? ==> subject.canary == c)
      && (subject == NotDue <==> StaleFailure(d, project, s, m) && c.generation == s.generation)
  {
    var c0 := d.supervisor.canary.value;
    var c := FilledFrom(project, c0, s);
    if StaleFailure(d, project, s, m) {
      FilledGeneration(project, c0, s);
      SupersedeIff(project, c, s, opt, m);
    }
    SubjectCases(d, project, s, opt, m);
    hide *;
  }

  lemma FilledGeneration(project: string, c: CanaryState, s: Spec)
    ensures var f := FilledFrom(project, c, s);
      && f == Upgraded(c, s).(generation := f.generation)
      && f.reportPath == c.reportPath
      && StateGeneration(project, f) == StateGeneration(project, Upgraded(c, s))
      && (StateGeneration(project, f).Some? ==> StateGeneration(project, f) == Some(f.generation))
  {
    R.StateGenerationSkips(project, Upgraded(c, s), FilledFrom(project, c, s).generation);
    hide StateGeneration;
  }

  lemma SubjectCases(d: Disk, project: string, s: Spec, opt: RetireOptions, m: Machine)
    requires d.marker == None && d.supervisor.canary.Some?
    ensures var subject := RetireSubject(d.supervisor, project, s, opt, m);
      var c := FilledFrom(project, d.supervisor.canary.value, s);
      && (StaleFailure(d, project, s, m) ==>
            && StateGeneration(project, c) == Some(c.generation) && c.reportPath == s.reportPath
            && SpecGeneration(project, s) == Some(s.generation)
            && subject == (if c.generation == s.generation || Supersede(c, s, opt, m) == Unneeded then NotDue
                           else if Supersede(c, s, opt, m) == Allowed then Stale(c) else Unfit))
      && (!StaleFailure(d, project, s, m) ==> subject == Unfit)
  {
    FilledGeneration(project, d.supervisor.canary.value, s);
    FitCases(d, project, s, opt, m);
    hide RetireSubject;
    hide StateGeneration;
    hide SpecGeneration;
    hide Supersede;
    hide FilledFrom;
  }

  lemma FitCases(d: Disk, project: string, s: Spec, opt: RetireOptions, m: Machine)
    requires d.supervisor.canary.Some?
    ensures var subject := RetireSubject(d.supervisor, project, s, opt, m);
      var c0 := d.supervisor.canary.value;
      var g := StateGeneration(project, Upgraded(c0, s));
      var fit := (d.supervisor.project == "" || d.supervisor.project == project)
        && TerminalFailure(d.supervisor, c0, m) && c0.reportPath == FIXED_REPORT_PATH && s.reportPath == FIXED_REPORT_PATH
        && g.Some? && (c0.generation == Absent || c0.generation == g.value) && SpecGeneration(project, s) == Some(s.generation);
      && (!fit ==> subject == Unfit)
      && (fit ==>
            var c := Upgraded(c0, s).(generation := g.value);
            subject == (if c.generation == s.generation || Supersede(c, s, opt, m) == Unneeded then NotDue
                        else if Supersede(c, s, opt, m) == Allowed then Stale(c) else Unfit))
  {
    hide StateGeneration;
    hide SpecGeneration;
    hide Supersede;
    hide FIXED_REPORT_PATH;
  }

  /** No canary, or a failed one of the spec's own generation. */
  predicate NothingToRetire(d: Disk, project: string, s: Spec, m: Machine) {
    d.marker == None && (d.supervisor.canary == None
      || (StaleFailure(d, project, s, m) && FilledFrom(project, d.supervisor.canary.value, s).generation == s.generation))
  }

  /** What a retirement decides: it goes ahead, it has nothing to do, or it is an error. */
  lemma RetirementPlanned(d: Disk, project: string, s: Spec, opt: RetireOptions, m: Machine)
    ensures var p := RetirePlan(d, project, s, opt, m);
      && (p.Do? <==> Retires(d, project, s, opt, m))
      && (p == Nothing <==> NothingToRetire(d, project, s, m))
  {
    hide *;
    NotStale(d, project, s, m);
    PlanCases(d, project, s, opt, m);
    NoSubject(d, project, s, opt, m);
    if d.marker == None && d.supervisor.canary.Some? {
      SubjectIff(d, project, s, opt, m);
      ReportFits(d, project, FilledFrom(project, d.supervisor.canary.value, s));
    }
    RetiresIs(d, project, s, opt, m);
    NothingIs(d, project, s, m);
  }

  lemma NothingIs(d: Disk, project: string, s: Spec, m: Machine)
    requires StaleFailure(d, project, s, m) ==> d.supervisor.canary.Some?
    ensures NothingToRetire(d, project, s, m) <==>
      (d.marker == None && (d.supervisor.canary == None
        || (StaleFailure(d, project, s, m) && FilledFrom(project, d.supervisor.canary.value, s).generation == s.generation)))
  {
    hide StaleFailure;
    hide FilledFrom;
  }

  lemma RetiresIs(d: Disk, project: string, s: Spec, opt: RetireOptions, m: Machine)
    requires StaleFailure(d, project, s, m) ==> d.supervisor.canary.Some?
    ensures Retires(d, project, s, opt, m) <==>
      (StaleFailure(d, project, s, m)
       && (var c := FilledFrom(project, d.supervisor.canary.value, s);
           MaySupersede(c, s, opt, m)
           && ReportFor(d, KeyOf(project, c)).Some? && Reports(project, c, ReportFor(d, KeyOf(project, c)).value)))
  {
    hide StaleFailure;
    hide FilledFrom;
    hide MaySupersede;
    hide Reports;
    hide ReportFor;
  }

  lemma PlanCases(d: Disk, project: string, s: Spec, opt: RetireOptions, m: Machine)
    ensures var subject := RetireSubject(d.supervisor, project, s, opt, m);
      var p := RetirePlan(d, project, s, opt, m);
      && (p == Nothing <==> d.marker == None && subject == NotDue)
      && (p.Do? <==>
          (d.marker == None && subject.Stale?
           && (var r := RetiredReport(d, HistoryKey(project, subject.canary));
               r.Some? && r.value.consistent && Retirable(project, subject.canary, subject.canary.generation, r.value))))
  {
    hide RetireSubject;
    hide Retirable;
    hide RetireWrites;
  }

  lemma NoSubject(d: Disk, project: string, s: Spec, opt: RetireOptions, m: Machine)
    ensures d.supervisor.canary == None ==> RetireSubject(d.supervisor, project, s, opt, m) == NotDue
  {
  }

  lemma NotStale(d: Disk, project: string, s: Spec, m: Machine)
    ensures StaleFailure(d, project, s, m) ==> d.marker == None && d.supervisor.canary.Some?
  {
  }

  lemma ReportFits(d: Disk, project: string, c: CanaryState)
    ensures KeyOf(project, c) == HistoryKey(project, c)
    ensures ReportFor(d, KeyOf(project, c)) == RetiredReport(d, HistoryKey(project, c))
    ensures forall r :: Reports(project, c, r) <==> r.consistent && Retirable(project, c, c.generation, r)
  {
  }

  // ---- what a retirement leaves ------------------------------------------------------------------

  /** The archives and the record under `k` are free, or already hold this retirement. */
  predicate PlacesFree(d: Disk, k: Key, r: Report, h: History) {
    && (k in d.archivedReports ==> d.archivedReports[k] == r)
    && (k in d.archivedStates ==> d.archivedStates[k] == d.supervisor)
    && (k in d.history ==> d.history[k].(retiredAt := Unset) == h.(retiredAt := Unset))
  }

  /** The history record, field by field. */
  ghost predicate Tells(h: History, project: string, c: CanaryState, s: Spec, state: Supervisor, r: Report) {
    && h.project == project && h.canary == c && h.key == KeyOf(project, c)
    && h.previousGeneration == c.generation && h.currentGeneration == s.generation
    && h.previousRegistry == c.registryIdentity && h.currentRegistry == s.registryIdentity
    && h.archivedState == OfSupervisor(state) && h.archivedReport == OfReport(r)
    && (h.policy.Some? <==> PolicyDrift(c, s)) && (h.cohort.Some? <==> CohortDrift(c, s))
    && (h.policy.Some? ==>
          var p := h.policy.value;
          && p.operatorRequested
          && p.previousContract == c.contract && p.currentContract == s.contract
          && p.previousAutonomy == c.autonomyPolicy && p.currentAutonomy == s.autonomyPolicy
          && p.previousExecution == c.executionPolicy && p.currentExecution == s.executionPolicy
          && StrictlySorted(p.previousHardStops) && Elements(p.previousHardStops) == StopsOf(c.hardStops)
          && StrictlySorted(p.currentHardStops) && Elements(p.currentHardStops) == StopsOf(s.hardStops))
    && (h.cohort.Some? ==>
          var p := h.cohort.value;
          && p.operatorRequested
          && StrictlySorted(p.previous) && Elements(p.previous) == Elements(c.cohort)
          && StrictlySorted(p.current) && Elements(p.current) == Elements(s.cohort)
          && p.previousDigest == c.cohortDigest && p.currentDigest == CohortDigest(s.cohort))
  }

  lemma RecordTells(project: string, c: CanaryState, s: Spec, now: Stamp, state: Supervisor, r: Report)
    requires Clean(c.cohort) && Clean(s.cohort)
    ensures Tells(HistoryRecord(project, c, s, now, state, r), project, c, s, state, r)
    ensures HistoryRecord(project, c, s, now, state, r).retiredAt == now
  {
    hide HistoryRecord;
    hide PolicyRecord;
    hide CohortRecord;
    hide KeyOf;
    hide StrictlySorted;
    hide Elements;
    hide StopsOf;
    hide CohortDigest;
    hide SamePolicy;
    hide SameCohort;
    hide PolicyDrift;
    hide CohortDrift;
    hide Clean;
    SamePolicyIff(c, s);
    SameCohortIff(c, s);
    PolicyTold(c, s);
    CohortTold(c, s);
    RecordFields(project, c, s, now, state, r);
  }

  lemma PolicyTold(c: CanaryState, s: Spec)
    ensures PolicyRecord(c, s).Some? <==> !SamePolicy(c, s)
    ensures PolicyRecord(c, s).Some? ==>
      var p := PolicyRecord(c, s).value;
      && p.operatorRequested
      && p.previousContract == c.contract && p.currentContract == s.contract
      && p.previousAutonomy == c.autonomyPolicy && p.currentAutonomy == s.autonomyPolicy
      && p.previousExecution == c.executionPolicy && p.currentExecution == s.executionPolicy
      && StrictlySorted(p.previousHardStops) && Elements(p.previousHardStops) == StopsOf(c.hardStops)
      && StrictlySorted(p.currentHardStops) && Elements(p.currentHardStops) == StopsOf(s.hardStops)
  {
    HardStopsList(c.hardStops);
    HardStopsList(s.hardStops);
    hide HardStops;
    hide StopsOf;
    hide StrictlySorted;
    hide Elements;
    hide SamePolicy;
  }

  lemma CohortTold(c: CanaryState, s: Spec)
    requires Clean(c.cohort) && Clean(s.cohort)
    ensures CohortRecord(c, s).Some? <==> !SameCohort(c, s)
    ensures CohortRecord(c, s).Some? ==>
      var p := CohortRecord(c, s).value;
      && p.operatorRequested
      && StrictlySorted(p.previous) && Elements(p.previous) == Elements(c.cohort)
      && StrictlySorted(p.current) && Elements(p.current) == Elements(s.cohort)
      && p.previousDigest == c.cohortDigest && p.currentDigest == CohortDigest(s.cohort)
  {
    SortedCohort(c.cohort);
    SortedCohort(s.cohort);
    hide Clean;
    hide SortStrings;
    hide CohortDigest;
    hide StrictlySorted;
    hide Elements;
    hide SameCohort;
  }

  lemma RecordFields(project: string, c: CanaryState, s: Spec, now: Stamp, state: Supervisor, r: Report)
    ensures var h := HistoryRecord(project, c, s, now, state, r);
      && h.project == project && h.canary == c && h.key == KeyOf(project, c) && h.retiredAt == now
      && h.previousGeneration == c.generation && h.currentGeneration == s.generation
      && h.previousRegistry == c.registryIdentity && h.currentRegistry == s.registryIdentity
      && h.archivedState == OfSupervisor(state) && h.archivedReport == OfReport(r)
      && h.policy == PolicyRecord(c, s) && h.cohort == CohortRecord(c, s)
  {
    hide PolicyRecord;
    hide CohortRecord;
    hide RolloverReason;
    hide SamePolicy;
    hide SameCohort;
  }

  lemma SortedCohort(ids: seq<string>)
    requires Clean(ids)
    ensures StrictlySorted(SortStrings(ids)) && Elements(SortStrings(ids)) == Elements(ids)
    ensures CohortDigest(SortStrings(ids)) == CohortDigest(ids)
  {
    hide *;
    CleanIsDistinct(ids);
    SortStringsSorts(ids);
    SortStringsPermutes(ids);
    SortedDigest(ids);
  }

  /** A checkpoint with nothing in it. */
  function Cleared(project: string): Supervisor {
    Supervisor(project, Stopped, 0, Progress(Unset, Unset, "", "", 0, "", 0, "", 0, 0), "", None)
  }

  /** A retirement that does not go ahead writes nothing, and is an error unless there is nothing to
      retire. */
  lemma RetirementOtherwise(d: Disk, project: string, s: Spec, opt: RetireOptions, m: Machine, fates: seq<Fate>)
    requires !Retires(d, project, s, opt, m)
    ensures RunPlan(d, RetirePlan(d, project, s, opt, m), fates) == Ran(d,
      if NothingToRetire(d, project, s, m) then Skipped else Failure)
  {
    RetirementPlanned(d, project, s, opt, m);
    hide Retires;
    hide RetirePlan;
    hide NothingToRetire;
  }

  /** A retirement that goes ahead succeeds, if its writes do, exactly when nothing else stands in its
      places; then the evidence is archived and recorded, the report path, both sentinels and the
      checkpoint are released, and everything else is as it was. */
  lemma RetirementDecided(d: Disk, project: string, s: Spec, opt: RetireOptions, m: Machine) returns (h: History)
    requires Retires(d, project, s, opt, m)
    ensures var c := FilledFrom(project, d.supervisor.canary.value, s);
      Tells(h, project, c, s, d.supervisor, ReportFor(d, KeyOf(project, c)).value) && h.retiredAt == m.now
    ensures var ran := RunPlan(d, RetirePlan(d, project, s, opt, m), []);
      var k := KeyOf(project, FilledFrom(project, d.supervisor.canary.value, s));
      ran.ending == Success <==> PlacesFree(d, k, ReportFor(d, k).value, h)
    ensures var ran := RunPlan(d, RetirePlan(d, project, s, opt, m), []);
      var k := KeyOf(project, FilledFrom(project, d.supervisor.canary.value, s));
      ran.ending == Success ==> Released(d, ran.disk, k, h)
  {
    hide *;
    RetirementPlanned(d, project, s, opt, m);
    CanaryThere(d, project, s, opt, m);
    var c := FilledFrom(project, d.supervisor.canary.value, s);
    var j := R.PlannedIsJob(d, project, s, opt, m);
    JobIsThis(d, project, s, opt, m, j);
    R.CanaryOf(j, m);
    CleanCohorts(project, c, s);
    h := HistoryRecord(project, c, s, m.now, d.supervisor, j.report);
    RecordTells(project, c, s, m.now, d.supervisor, j.report);
    R.UninterruptedIff(j, m);
    PlansAlike(j, m);
    PlacesIff(j, m.now);
    if R.NoConflict(j) {
      R.RetirementEnds(j, m);
      EndIs(j, m, h);
    }
  }

  lemma CanaryThere(d: Disk, project: string, s: Spec, opt: RetireOptions, m: Machine)
    requires Retires(d, project, s, opt, m)
    ensures d.supervisor.canary.Some?
    ensures ReportFor(d, KeyOf(project, FilledFrom(project, d.supervisor.canary.value, s))).Some?
  {
    hide FilledFrom;
    hide MaySupersede;
    hide Reports;
    hide ReportFor;
  }

  /** What a successful retirement leaves behind on `d`. */
  predicate Released(d: Disk, e: Disk, k: Key, h: History) {
    && k in e.archivedReports && Some(e.archivedReports[k]) == ReportFor(d, k)
    && k in e.archivedStates && e.archivedStates[k] == d.supervisor
    && k in e.history && e.history[k].(retiredAt := Unset) == h.(retiredAt := Unset)
    && e.archivedReports - {k} == d.archivedReports - {k} && e.archivedStates - {k} == d.archivedStates - {k}
    && e.history - {k} == d.history - {k}
    && e == d.(archivedReports := e.archivedReports, archivedStates := e.archivedStates, history := e.history,
         report := None, drain := false, control := Control(false, false), supervisor := Cleared(d.supervisor.project))
  }

  lemma JobIsThis(d: Disk, project: string, s: Spec, opt: RetireOptions, m: Machine, j: R.Job)
    requires Retires(d, project, s, opt, m)
    requires j.start == d && j.project == project && j.spec == s && j.opt == opt && R.Due(j, m)
    ensures d.supervisor.canary.Some?
    ensures var c := FilledFrom(project, d.supervisor.canary.value, s);
      && j.canary == c && Some(j.report) == ReportFor(d, KeyOf(project, c)) && R.JobKey(j) == KeyOf(project, c)
      && StateGeneration(project, c).Some?
    ensures SpecGeneration(project, s).Some?
  {
    SubjectIff(d, project, s, opt, m);
    var c := FilledFrom(project, d.supervisor.canary.value, s);
    ReportFits(d, project, c);
    hide RetireSubject;
    hide FilledFrom;
    hide MaySupersede;
    hide Retirable;
    hide Reports;
    hide StateGeneration;
    hide SpecGeneration;
  }

  lemma PlansAlike(j: R.Job, m: Machine)
    ensures R.PlanFor(j, j.start, m) == RetirePlan(j.start, j.project, j.spec, j.opt, m)
  {
    hide RetirePlan;
  }

  lemma PlacesIff(j: R.Job, now: Stamp)
    requires RetiredReport(j.start, R.JobKey(j)) == Some(j.report)
    ensures R.NoConflict(j) <==> PlacesFree(j.start, R.JobKey(j), j.report,
      HistoryRecord(j.project, j.canary, j.spec, now, j.start.supervisor, j.report))
  {
    R.RecordAt(j, now);
    RecordIs(j, now);
    hide R.Record;
    hide R.JobKey;
    hide HistoryRecord;
  }

  lemma RecordIs(j: R.Job, now: Stamp)
    ensures R.Record(j, now) == HistoryRecord(j.project, j.canary, j.spec, now, j.start.supervisor, j.report)
  {
    hide HistoryRecord;
  }

  lemma EndIs(j: R.Job, m: Machine, h: History)
    requires h == HistoryRecord(j.project, j.canary, j.spec, m.now, j.start.supervisor, j.report)
    requires var key := R.JobKey(j);
      var e := RunPlan(j.start, R.PlanFor(j, j.start, m), []).disk;
      && key in e.archivedReports && e.archivedReports[key] == j.report
      && key in e.archivedStates && e.archivedStates[key] == j.start.supervisor
      && key in e.history && SameHistory(e.history[key], R.Record(j, m.now))
      && e == j.start.(archivedReports := e.archivedReports, archivedStates := e.archivedStates, history := e.history,
           report := None, drain := false, control := NO_CONTROL, supervisor := Reset(j.start.supervisor))
      && e.archivedReports - {key} == j.start.archivedReports - {key}
      && e.archivedStates - {key} == j.start.archivedStates - {key} && e.history - {key} == j.start.history - {key}
    requires Some(j.report) == ReportFor(j.start, R.JobKey(j))
    ensures Released(j.start, RunPlan(j.start, R.PlanFor(j, j.start, m), []).disk, R.JobKey(j), h)
  {
    RecordIs(j, m.now);
    hide R.Record;
    hide HistoryRecord;
    hide RunPlan;
    hide R.PlanFor;
    hide R.JobKey;
    hide ReportFor;
  }

  /** The reason tells what changed, whatever combination a retirement can go ahead under. */
  lemma ReasonTells(registry: bool, binary: bool, policy: bool, cohort: bool,
      registry': bool, binary': bool, policy': bool, cohort': bool)
    requires (registry || binary) && (policy || cohort ==> binary)
    requires (registry' || binary') && (policy' || cohort' ==> binary')
    ensures RolloverReason(registry, binary, policy, cohort) == RolloverReason(registry', binary', policy', cohort')
      <==> (registry, binary, policy, cohort) == (registry', binary', policy', cohort')
  {
    hide RolloverReason;
    ReasonShape(registry, binary, policy, cohort);
    ReasonShape(registry', binary', policy', cohort');
  }

  lemma LongReasons()
    ensures |RolloverReason(true, true, true, true)| == 110
  {
  }

  lemma BothReasons()
    ensures |RolloverReason(false, true, true, true)| == 78
  {
  }

  lemma CohortReasons()
    ensures var r := RolloverReason(true, true, false, true); |r| == 99 && r[98] == 't'
    ensures var r := RolloverReason(false, true, false, true); |r| == 67 && r[66] == 't'
  {
  }

  lemma PolicyReasons()
    ensures var r := RolloverReason(true, true, true, false); |r| == 99 && r[98] == 'y'
    ensures var r := RolloverReason(false, true, true, false); |r| == 67 && r[66] == 'y'
  {
  }

  lemma ShortReasons()
    ensures |RolloverReason(true, true, false, false)| == 57 && |RolloverReason(false, true, false, false)| == 25
    ensures |RolloverReason(true, false, false, false)| == 36
  {
  }

  /** The length and last letter of a reason tell it apart from the others. */
  lemma ReasonShape(registry: bool, binary: bool, policy: bool, cohort: bool)
    requires (registry || binary) && (policy || cohort ==> binary)
    ensures var r := RolloverReason(registry, binary, policy, cohort);
      && |r| == (if !binary then 36 else
           (if registry then 57 else 25) + (if policy && cohort then 53 else if policy || cohort then 42 else 0))
      && (policy != cohort ==> r[|r| - 1] == (if cohort then 't' else 'y'))
  {
    hide RolloverReason;
    LongReasons();
    BothReasons();
    CohortReasons();
    PolicyReasons();
    ShortReasons();
  }
}
