/** When an unfinished canary is rolled over or finalized, in the fields of the checkpoint and the spec,
    and what is then left on disk. */
module StoppedDecisions {
  import opened Options
  import opened Strings
  import opened IdLists
  import opened Canary
  import opened Cohorts
  import opened Generations
  import opened DurableWrites
  import opened CanaryPlans
  import opened RetirementDecisions

  /** An undecided canary of this project whose generation and the spec's are valid. */
  predicate Unfinished(d: Disk, project: string, s: Spec) {
    && d.supervisor.canary.Some? && d.supervisor.canary.value.decision == Undecided
    && (d.supervisor.project == "" || d.supervisor.project == project)
    && StateGeneration(project, d.supervisor.canary.value) == Some(d.supervisor.canary.value.generation)
    && SpecGeneration(project, s) == Some(s.generation)
  }

  /** Its supervisor is stopped, and the spec is that of a descendant build and otherwise the same. */
  ghost predicate Superseded(d: Disk, c: CanaryState, s: Spec, m: Machine) {
    && d.supervisor.mode == Stopped && d.supervisor.pid !in m.alive
    && c.targetWidth == s.targetWidth && c.inactivityMs == s.inactivityMs && c.reportPath == s.reportPath
    && !CohortDrift(c, s) && !PolicyDrift(c, s) && c.registryIdentity == s.registryIdentity
    && DescendantBuild(c, s, m)
  }

  /** Nothing to show for. */
  predicate Empty(c: CanaryState) {
    && c.runIDs == [] && |c.terminal| == 0 && c.pressure == [] && c.hardStop == ""
    && c.endedAt == Unset && c.reportDigest == Absent && c.reportGeneratedAt == Unset && c.publishedAt == Unset
  }

  lemma SupersededIff(d: Disk, project: string, s: Spec, m: Machine)
    requires Unfinished(d, project, s)
    ensures var c := d.supervisor.canary.value;
      && (Superseded(d, c, s, m) <==>
            d.supervisor.mode == Stopped && d.supervisor.pid !in m.alive && SupersededBinary(project, c, s, m))
      && (Superseded(d, c, s, m) ==> c.generation != s.generation)
  {
    var c := d.supervisor.canary.value;
    CleanCohorts(project, c, s);
    SameCohortIff(c, s);
    SamePolicyIff(c, s);
    BinaryIff(c, s, m);
    if DescendantBuild(c, s, m) { AnotherGeneration(project, c, s, m); }
    hide StateGeneration;
    hide SpecGeneration;
    hide SameCohort;
    hide SamePolicy;
    hide CohortDrift;
    hide PolicyDrift;
    hide BinaryAdvanced;
    hide DescendantBuild;
    hide Clean;
  }

  lemma AnotherGeneration(project: string, c: CanaryState, s: Spec, m: Machine)
    requires StateGeneration(project, c) == Some(c.generation) && SpecGeneration(project, s) == Some(s.generation)
    requires DescendantBuild(c, s, m)
    ensures c.generation != s.generation
  {
    NotBoth(c, s, m);
    SupersedingIsNew(project, c, s, RetireOptions(false, false), m);
    hide *;
  }

  // ---- rollover --------------------------------------------------------------------------------

  ghost predicate RollsOver(d: Disk, project: string, s: Spec, m: Machine) {
    && Unfinished(d, project, s) && Empty(d.supervisor.canary.value)
    && Superseded(d, d.supervisor.canary.value, s, m)
    && (d.supervisor.canary.value.reportPath == REPORT_PATH ==> d.report == None)
  }

  lemma RolloverPlanned(d: Disk, project: string, s: Spec, m: Machine)
    ensures RolloverPlan(d, project, s, m) ==
      if RollsOver(d, project, s, m) then Do([ConsumeDrain, PutSupervisor(Cleared(d.supervisor.project))], true)
      else if d.supervisor.canary.None? || d.supervisor.canary.value.decision != Undecided
        || (Unfinished(d, project, s) && d.supervisor.canary.value.generation == s.generation) then Nothing
      else Refuse
  {
    hide StateGeneration;
    hide SpecGeneration;
    hide SupersededBinary;
    hide Superseded;
    hide EvidenceEmpty;
    hide Empty;
    hide Reset;
    hide Cleared;
    hide FIXED_REPORT_PATH;
    hide REPORT_PATH;
    if Unfinished(d, project, s) { SupersededIff(d, project, s, m); }
    if d.supervisor.canary.Some? { EmptyIff(d.supervisor.canary.value); }
    SameWords(d.supervisor);
  }

  lemma EmptyIff(c: CanaryState)
    ensures EvidenceEmpty(c) <==> Empty(c)
  {
  }

  lemma SameWords(s: Supervisor)
    ensures FIXED_REPORT_PATH == REPORT_PATH && Reset(s) == Cleared(s.project)
  {
  }

  /** A rollover under any fates: it happens for a stopped, empty, superseded canary only, and then clears
      the checkpoint if that write persists; the drain sentinel goes with it unless its removal failed. */
  lemma RolloverDecided(d: Disk, project: string, s: Spec, m: Machine, fates: seq<Fate>)
    ensures RunPlan(d, RolloverPlan(d, project, s, m), fates) ==
      if RollsOver(d, project, s, m) then
        Ran(d.(drain := d.drain && Head(fates) == Fails,
               supervisor := if Head(Tail(fates)) == Fails then d.supervisor else Cleared(d.supervisor.project)),
            if Head(Tail(fates)) == Persists then Success else Failure)
      else Ran(d, if d.supervisor.canary.None? || d.supervisor.canary.value.decision != Undecided
          || (Unfinished(d, project, s) && d.supervisor.canary.value.generation == s.generation)
        then Skipped else Failure)
  {
    RolloverPlanned(d, project, s, m);
    hide RollsOver;
    hide RolloverPlan;
    hide Unfinished;
    RolloverRun(d, Cleared(d.supervisor.project), fates);
    hide Exec;
  }

  lemma RolloverRun(d: Disk, s: Supervisor, fates: seq<Fate>)
    ensures Exec(d, [ConsumeDrain, PutSupervisor(s)], fates) ==
      Outcome(d.(drain := d.drain && Head(fates) == Fails,
                 supervisor := if Head(Tail(fates)) == Fails then d.supervisor else s),
              Head(Tail(fates)) == Persists)
  {
    var e := d.(drain := d.drain && Head(fates) == Fails);
    assert [ConsumeDrain] + [PutSupervisor(s)] == [ConsumeDrain, PutSupervisor(s)];
    ExecStep(d, ConsumeDrain, [PutSupervisor(s)], fates);
    assert [PutSupervisor(s)] + [] == [PutSupervisor(s)];
    ExecStep(e, PutSupervisor(s), [], Tail(fates));
  }

  // ---- finalization ----------------------------------------------------------------------------

  ghost predicate Finalizes(d: Disk, project: string, s: Spec, m: Machine, k: Containment) {
    && Unfinished(d, project, s) && d.supervisor.canary.value.runIDs != []
    && Superseded(d, d.supervisor.canary.value, s, m)
    && (d.control.stop || d.control.drain)
    && k.allTerminal && k.aborted
    && d.supervisor.canary.value.hardStop in {"", "operator-intervention"}
  }

  /** The canary ended by its operator, now unless it had ended before. */
  function EndedBy(c: CanaryState, now: Stamp): CanaryState {
    c.(hardStop := "operator-intervention", endedAt := if c.endedAt == Unset then now else c.endedAt)
  }

  /** The checkpoint with the circuit open on `c`. */
  function OpenOn(s: Supervisor, c: CanaryState): Supervisor {
    Supervisor(s.project, CircuitOpen, s.pid, s.progress, "canary hard stop: operator-intervention", Some(c))
  }

  /** The ended canary with the failed report that was published for it. */
  function FailedBy(c: CanaryState, r: Report, now: Stamp): CanaryState {
    c.(decision := Failed, reportDigest := r.evidenceDigest, reportGeneratedAt := r.generatedAt,
       reportPath := REPORT_PATH, publishedAt := now)
  }

  lemma FinalizePlanned(d: Disk, project: string, s: Spec, m: Machine, k: Containment)
    ensures var p := FinalizePlan(d, project, s, m, k);
      if Finalizes(d, project, s, m, k) then
        p == FinalizeWrites(d.supervisor, Ended(d.supervisor, d.supervisor.canary.value, m.now), m, k)
      else if d.supervisor.canary.None? || d.supervisor.canary.value.decision != Undecided
        || d.supervisor.canary.value.runIDs == [] then p == Nothing
      else p == (if StateGeneration(project, d.supervisor.canary.value) == Some(d.supervisor.canary.value.generation)
                    && SpecGeneration(project, s) == Some(s.generation)
                    && d.supervisor.canary.value.generation == s.generation then Nothing else Refuse)
  {
    hide StateGeneration;
    hide SpecGeneration;
    hide SupersededBinary;
    hide Superseded;
    hide FinalizeWrites;
    hide Ended;
    hide OPERATOR_INTERVENTION;
    if Unfinished(d, project, s) { SupersededIff(d, project, s, m); }
    SameStop();
  }

  lemma SameStop()
    ensures OPERATOR_INTERVENTION == "operator-intervention"
  {
  }

  /** A finalization succeeds exactly when it goes ahead, a failed report is published where none or the
      same stands, and its three writes persist; then that report stands at the fixed path, and the
      checkpoint holds the canary ended by its operator, failed by exactly that report, under an open
      circuit. Nothing else has changed. */
  lemma FinalizationDecided(d: Disk, project: string, s: Spec, m: Machine, k: Containment, fates: seq<Fate>)
    ensures RunPlan(d, FinalizePlan(d, project, s, m, k), fates).ending == Success <==>
      (&& Finalizes(d, project, s, m, k)
       && k.published.Some? && !k.published.value.passed && d.report in {None, k.published}
       && Head(fates) == Persists && Head(Tail(fates)) == Persists && Head(Tail(Tail(fates))) == Persists)
    ensures RunPlan(d, FinalizePlan(d, project, s, m, k), fates).ending == Success ==>
      var c := FailedBy(EndedBy(d.supervisor.canary.value, m.now), k.published.value, m.now);
      RunPlan(d, FinalizePlan(d, project, s, m, k), fates).disk
        == d.(report := k.published, supervisor := OpenOn(d.supervisor, c))
  {
    FinalizePlanned(d, project, s, m, k);
    hide *;
    IdleKeeps(d, FinalizePlan(d, project, s, m, k), fates);
    CanaryOf(d, project, s, m, k);
    if Finalizes(d, project, s, m, k) { WritesRun(d, m, k, fates); }
  }

  /** What any other finalization comes to, if its writes persist: nothing is written unless it goes
      ahead, and if no failed report gets published the circuit stays open on an undecided canary. */
  lemma FinalizationFails(d: Disk, project: string, s: Spec, m: Machine, k: Containment)
    ensures !Finalizes(d, project, s, m, k) ==> RunPlan(d, FinalizePlan(d, project, s, m, k), []).disk == d
    ensures Finalizes(d, project, s, m, k) ==>
      var open := OpenOn(d.supervisor, EndedBy(d.supervisor.canary.value, m.now));
      var ran := RunPlan(d, FinalizePlan(d, project, s, m, k), []);
      && (k.published == None || d.report !in {None, k.published} ==> ran == Ran(d.(supervisor := open), Failure))
      && (k.published.Some? && k.published.value.passed && d.report in {None, k.published} ==>
            ran == Ran(d.(supervisor := open, report := k.published), Failure))
  {
    FinalizePlanned(d, project, s, m, k);
    hide *;
    CanaryOf(d, project, s, m, k);
    IdleKeeps(d, FinalizePlan(d, project, s, m, k), []);
    if Finalizes(d, project, s, m, k) { UnpublishedRun(d, m, k); }
  }

  lemma IdleKeeps(d: Disk, p: Plan, fates: seq<Fate>)
    ensures !p.Do? ==> RunPlan(d, p, fates).disk == d && RunPlan(d, p, fates).ending != Success
  {
  }

  lemma UnpublishedRun(d: Disk, m: Machine, k: Containment)
    requires d.supervisor.canary.Some?
    ensures var c := d.supervisor.canary.value;
      var open := OpenOn(d.supervisor, EndedBy(c, m.now));
      var ran := RunPlan(d, FinalizeWrites(d.supervisor, Ended(d.supervisor, c, m.now), m, k), []);
      && (k.published == None || d.report !in {None, k.published} ==> ran == Ran(d.(supervisor := open), Failure))
      && (k.published.Some? && k.published.value.passed && d.report in {None, k.published} ==>
            ran == Ran(d.(supervisor := open, report := k.published), Failure))
  {
    var c := d.supervisor.canary.value;
    var first := PutSupervisor(Tripped(d.supervisor, Ended(d.supervisor, c, m.now)));
    var d1 := d.(supervisor := first.state);
    HeadOfNone();
    assert [first] + [] == [first];
    ExecStep(d, first, [], []);
    if k.published.Some? {
      var r := k.published.value;
      var last := PutSupervisor(Tripped(d.supervisor, Decided(Ended(d.supervisor, c, m.now), r, m.now)));
      var later := if r.passed then [] else [last];
      assert [first] + ([PublishReport(r)] + later) == if r.passed then [first, PublishReport(r)] else [first, PublishReport(r), last];
      ExecStep(d, first, [PublishReport(r)] + later, []);
      ExecStep(d1, PublishReport(r), later, []);
    }
  }

  lemma CanaryOf(d: Disk, project: string, s: Spec, m: Machine, k: Containment)
    ensures Finalizes(d, project, s, m, k) ==> d.supervisor.canary.Some?
  {
    hide Superseded;
  }

  /** The two checkpoints with the publication between them. */
  lemma WritesRun(d: Disk, m: Machine, k: Containment, fates: seq<Fate>)
    requires d.supervisor.canary.Some?
    ensures var c := d.supervisor.canary.value;
      var ran := RunPlan(d, FinalizeWrites(d.supervisor, Ended(d.supervisor, c, m.now), m, k), fates);
      && (ran.ending == Success <==>
            k.published.Some? && !k.published.value.passed && d.report in {None, k.published}
            && Head(fates) == Persists && Head(Tail(fates)) == Persists && Head(Tail(Tail(fates))) == Persists)
      && (ran.ending == Success ==>
            ran.disk == d.(report := k.published,
              supervisor := OpenOn(d.supervisor, FailedBy(EndedBy(c, m.now), k.published.value, m.now))))
  {
    var c := d.supervisor.canary.value;
    var ended := Ended(d.supervisor, c, m.now);
    var first := PutSupervisor(Tripped(d.supervisor, ended));
    var d1 := d.(supervisor := first.state);
    if k.published.Some? && !k.published.value.passed {
      var r := k.published.value;
      var last := PutSupervisor(Tripped(d.supervisor, Decided(ended, r, m.now)));
      var d2 := d1.(report := Some(r));
      ExecStep(d, first, [PublishReport(r), last], fates);
      ExecStep(d1, PublishReport(r), [last], Tail(fates));
      ExecStep(d2, last, [], Tail(Tail(fates)));
      assert [first] + [PublishReport(r), last] == [first, PublishReport(r), last];
      assert [PublishReport(r)] + [last] == [PublishReport(r), last] && [last] + [] == [last];
    }
  }

  // ---- from finalization to retirement ---------------------------------------------------------

  /** The report published for the finalized canary carries its identities. */
  predicate PublishedFor(project: string, c: CanaryState, r: Report) {
    && r.consistent && !r.passed && r.project == project
    && r.commit == c.commit && r.version == c.version && r.build == c.build && r.contract == c.contract
    && r.registryIdentity == c.registryIdentity && r.cohortDigest == c.cohortDigest && r.startedAt == c.startedAt
    && r.generation in {Absent, c.generation} && r.executionPolicy in {Absent, c.executionPolicy}
    && r.evidenceDigest != Absent && r.generatedAt != Unset
  }

  /** The checkpoint and the report path after a successful finalization. */
  function Finalized(d: Disk, c: CanaryState, r: Report, now: Stamp): Disk {
    d.(report := Some(r), supervisor := OpenOn(d.supervisor, FailedBy(EndedBy(c, now), r, now)))
  }

  /** A finalized canary can be retired: the same invocation, under the same spec and without any flag,
      finds the failed generation due. */
  lemma FinalizedRetires(d: Disk, project: string, s: Spec, m: Machine, k: Containment, opt: RetireOptions, r: Report)
    requires Finalizes(d, project, s, m, k) && d.marker == None && s.reportPath == REPORT_PATH && m.now != Unset
    requires d.supervisor.canary.Some? && PublishedFor(project, d.supervisor.canary.value, r)
    ensures var c := FailedBy(EndedBy(d.supervisor.canary.value, m.now), r, m.now);
      Retires(Finalized(d, d.supervisor.canary.value, r, m.now), project, s, opt, m) && FilledFrom(project, c, s) == c
  {
    hide *;
    var was := d.supervisor.canary.value;
    var c := FailedBy(EndedBy(was, m.now), r, m.now);
    var e := Finalized(d, was, r, m.now);
    FinalizesMeans(d, project, s, m, k);
    AfterFailure(project, was, c, s, r, m.now);
    SupersedesAfter(d, was, c, s, m, opt, r);
    FinalizedIs(d, was, r, m.now);
    StaleAfter(d, e, project, was, c, s, m);
    FixedReport(e, KeyOf(project, c));
    RetiresIs(e, project, s, opt, m);
  }

  lemma FinalizesMeans(d: Disk, project: string, s: Spec, m: Machine, k: Containment)
    requires Finalizes(d, project, s, m, k)
    ensures Unfinished(d, project, s) && Superseded(d, d.supervisor.canary.value, s, m)
    ensures var c := d.supervisor.canary.value;
      StateGeneration(project, c) == Some(c.generation) && SpecGeneration(project, s) == Some(s.generation)
      && c.reportPath == s.reportPath && d.supervisor.pid !in m.alive
      && (d.supervisor.project == "" || d.supervisor.project == project)
  {
    hide StateGeneration;
    hide SpecGeneration;
    hide CohortDrift;
    hide PolicyDrift;
    hide DescendantBuild;
  }

  lemma FinalizedIs(d: Disk, was: CanaryState, r: Report, now: Stamp)
    ensures var e := Finalized(d, was, r, now);
      && e.marker == d.marker && e.report == Some(r) && e.supervisor.mode == CircuitOpen
      && e.supervisor.project == d.supervisor.project && e.supervisor.pid == d.supervisor.pid
      && e.supervisor.canary == Some(FailedBy(EndedBy(was, now), r, now))
  {
    hide FailedBy;
    hide EndedBy;
  }

  /** What failing changes of a canary, and what it does not. */
  lemma AfterFailure(project: string, was: CanaryState, c: CanaryState, s: Spec, r: Report, now: Stamp)
    requires c == FailedBy(EndedBy(was, now), r, now) && now != Unset && PublishedFor(project, was, r)
    requires StateGeneration(project, was) == Some(was.generation) && SpecGeneration(project, s) == Some(s.generation)
    requires was.reportPath == s.reportPath == REPORT_PATH
    ensures StateGeneration(project, c) == Some(c.generation) && FilledFrom(project, c, s) == c
    ensures c.decision == Failed && c.endedAt != Unset && c.reportDigest != Absent && c.reportGeneratedAt != Unset
      && c.publishedAt != Unset && c.reportPath == REPORT_PATH
    ensures Reports(project, c, r)
    ensures c == was.(hardStop := c.hardStop, endedAt := c.endedAt, decision := Failed, reportDigest := c.reportDigest,
      reportGeneratedAt := c.reportGeneratedAt, publishedAt := c.publishedAt)
  {
    hide REPORT_PATH;
    SameState(project, was, c);
    PoliciesPresent(project, was);
    assert Upgraded(c, s) == c;
    FilledGeneration(project, c, s);
    hide StateGeneration;
    hide SpecGeneration;
    hide FilledFrom;
  }

  lemma SameState(project: string, a: CanaryState, b: CanaryState)
    requires SpecOf(a) == SpecOf(b)
    ensures StateGeneration(project, a) == StateGeneration(project, b)
  {
    StateGenerationOf(project, a);
    StateGenerationOf(project, b);
    hide StateGeneration;
  }

  lemma PoliciesPresent(project: string, c: CanaryState)
    requires StateGeneration(project, c).Some?
    ensures c.autonomyPolicy != Absent && c.executionPolicy != Absent
  {
    StateGenerationOf(project, c);
    GenerationIff(project, SpecOf(c), Envelope(project, SpecOf(c)));
    hide StateGeneration;
    hide SpecGeneration;
    hide Identifies;
    hide Clean;
    hide CommitId;
    hide TrimSpace;
  }

  lemma SupersedesAfter(d: Disk, was: CanaryState, c: CanaryState, s: Spec, m: Machine, opt: RetireOptions, r: Report)
    requires Superseded(d, was, s, m)
    requires c == was.(hardStop := c.hardStop, endedAt := c.endedAt, decision := Failed, reportDigest := c.reportDigest,
      reportGeneratedAt := c.reportGeneratedAt, publishedAt := c.publishedAt)
    ensures MaySupersede(c, s, opt, m)
  {
    hide CommitId;
    hide StopsOf;
    hide CohortDigest;
    hide Elements;
  }

  lemma StaleAfter(d: Disk, e: Disk, project: string, was: CanaryState, c: CanaryState, s: Spec, m: Machine)
    requires e.marker == None && e.supervisor.canary == Some(c) && e.supervisor.mode == CircuitOpen
    requires e.supervisor.project == "" || e.supervisor.project == project
    requires e.supervisor.pid !in m.alive && s.reportPath == REPORT_PATH
    requires c.decision == Failed && c.endedAt != Unset && c.reportDigest != Absent && c.reportGeneratedAt != Unset
      && c.publishedAt != Unset && c.reportPath == REPORT_PATH
    requires StateGeneration(project, c) == Some(c.generation) && FilledFrom(project, c, s) == c
    requires SpecGeneration(project, s) == Some(s.generation)
    ensures StaleFailure(e, project, s, m)
  {
    hide StateGeneration;
    hide SpecGeneration;
    hide FilledFrom;
    hide REPORT_PATH;
  }

  lemma FixedReport(d: Disk, k: Key)
    requires d.report.Some?
    ensures ReportFor(d, k) == d.report
  {
  }
}
