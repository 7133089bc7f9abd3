/** What the history records of a project say about the generations they retired. */
module CanaryHistory {
  import opened Options
  import opened Strings
  import opened IdLists
  import opened Canary
  import opened DurableWrites
  import opened CanaryPlans
  import opened CanaryProtocol
  import opened CanarySafety
  import opened Cohorts
  import opened Generations

  // ---- one record ----------------------------------------------------------------------------

  predicate SameFixedEnvelope(p: Generation, g: Generation) {
    p.project == g.project && p.targetWidth == g.targetWidth && p.inactivityMs == g.inactivityMs && p.reportPath == g.reportPath
  }

  predicate SamePolicyInputs(p: Generation, g: Generation) {
    p.contract == g.contract && p.autonomyPolicy == g.autonomyPolicy && p.executionPolicy == g.executionPolicy
    && p.hardStops == g.hardStops
  }

  /** A record that retires generation `p` in favour of `g`, as the operator's flags and the commit
      ancestry `git` allow it. */
  predicate Allows(h: History, p: Generation, g: Generation, opt: RetireOptions, git: set<(string, string)>) {
    && h.previousGeneration == OfGeneration(p) && h.currentGeneration == OfGeneration(g)
    && StateGeneration(h.project, h.canary) == Some(OfGeneration(p))
    && h.previousRegistry == p.registryIdentity && h.currentRegistry == g.registryIdentity
    && SameFixedEnvelope(p, g)
    && (p.commit == g.commit ==>
          && p.version == g.version && p.build == g.build && p.cohort == g.cohort && SamePolicyInputs(p, g)
          && h.policy.None? && h.cohort.None? && p.registryIdentity != g.registryIdentity)
    && (p.commit != g.commit ==> ValidCommit(p.commit) && ValidCommit(g.commit) && (p.commit, g.commit) in git)
    && (h.policy.None? <==> SamePolicyInputs(p, g))
    && (h.cohort.None? ==> p.cohort == g.cohort)
    && (h.policy.Some? ==> h.policy.value.operatorRequested && opt.supersedePolicy)
    && (h.cohort.Some? ==> h.cohort.value.operatorRequested && opt.supersedeCohort)
  }

  ghost predicate Allowable(h: History, opt: RetireOptions, git: set<(string, string)>) {
    exists p, g :: Allows(h, p, g, opt, git)
  }

  lemma StaleFacts(state: Supervisor, project: string, s: Spec, opt: RetireOptions, m: Machine)
    requires RetireSubject(state, project, s, opt, m).Stale?
    ensures var c := RetireSubject(state, project, s, opt, m).canary;
      && StateGeneration(project, c) == Some(c.generation)
      && SpecGeneration(project, s) == Some(s.generation)
      && Supersede(c, s, opt, m) == Allowed
  {
    hide Supersede;
    hide SpecGeneration;
    hide TerminalFailure;
  }

  lemma EnvelopesCompare(project: string, c: CanaryState, s: Spec)
    ensures var p, g := Envelope(project, SpecOf(c)), Envelope(project, s);
      && (SameEnvelope(c, s) ==> SameFixedEnvelope(p, g))
      && (SamePolicy(c, s) <==> SamePolicyInputs(p, g))
      && (BinaryUnchanged(c, s) ==> p.commit == g.commit && p.version == g.version && p.build == g.build)
      && (Normalize(c.cohort) == Normalize(s.cohort) ==> p.cohort == g.cohort)
      && p.registryIdentity == c.registryIdentity && g.registryIdentity == s.registryIdentity
      && p.commit == TrimSpace(c.commit) && g.commit == TrimSpace(s.commit)
  {
    hide Normalize;
    hide TrimSpace;
    hide HardStops;
  }

  lemma AdvancedCommits(c: CanaryState, s: Spec, m: Machine)
    requires BinaryAdvanced(c, s, m)
    ensures TrimSpace(c.commit) == c.commit != s.commit == TrimSpace(s.commit)
    ensures ValidCommit(c.commit) && ValidCommit(s.commit) && (c.commit, s.commit) in m.descends
  {
    ValidCommitTrimmed(c.commit);
    ValidCommitTrimmed(s.commit);
    hide TrimSpace;
  }

  lemma AllowedMeans(c: CanaryState, s: Spec, opt: RetireOptions, m: Machine)
    requires Supersede(c, s, opt, m) == Allowed
    ensures SameEnvelope(c, s)
    ensures BinaryUnchanged(c, s) ==> SameCohort(c, s) && SamePolicy(c, s) && c.registryIdentity != s.registryIdentity
    ensures !BinaryUnchanged(c, s) ==> BinaryAdvanced(c, s, m)
    ensures SameCohort(c, s) || opt.supersedeCohort
    ensures SamePolicy(c, s) || opt.supersedePolicy
  {
    hide SameEnvelope;
    hide SameCohort;
    hide SamePolicy;
    hide BinaryUnchanged;
    hide BinaryAdvanced;
  }

  lemma RecordMeans(project: string, c: CanaryState, s: Spec, now: Stamp, state: Supervisor, r: Report)
    ensures var h := HistoryRecord(project, c, s, now, state, r);
      && h.project == project && h.canary == c
      && h.previousGeneration == c.generation && h.currentGeneration == s.generation
      && h.previousRegistry == c.registryIdentity && h.currentRegistry == s.registryIdentity
      && (h.policy.None? <==> SamePolicy(c, s)) && (h.policy.Some? ==> h.policy.value.operatorRequested)
      && (h.cohort.None? <==> SameCohort(c, s)) && (h.cohort.Some? ==> h.cohort.value.operatorRequested)
  {
    hide SameCohort;
    hide SamePolicy;
    hide RolloverReason;
  }

  /** A retirement that goes ahead relates the two generations. */
  lemma AllowedRelates(project: string, c: CanaryState, s: Spec, opt: RetireOptions, m: Machine,
      now: Stamp, state: Supervisor, r: Report)
    requires StateGeneration(project, c) == Some(c.generation) && SpecGeneration(project, s) == Some(s.generation)
    requires Supersede(c, s, opt, m) == Allowed
    ensures c.generation.OfGeneration? && s.generation.OfGeneration?
    ensures Allows(HistoryRecord(project, c, s, now, state, r), c.generation.generation, s.generation.generation, opt, m.descends)
  {
    StateGenerationOf(project, c);
    GenerationOf(project, SpecOf(c));
    GenerationOf(project, s);
    EnvelopesCompare(project, c, s);
    AllowedMeans(c, s, opt, m);
    if !BinaryUnchanged(c, s) { AdvancedCommits(c, s, m); }
    if SameCohort(c, s) { SortedAlikeMembers(c.cohort, s.cohort); }
    RecordMeans(project, c, s, now, state, r);
    hide *;
  }

  // ---- all records ---------------------------------------------------------------------------

  /** `h` is the record of a retirement that `step`, taken in `s`, planned. */
  predicate Planned(s: System, step: Step, h: History) {
    step.StartRetire? && StartPlan(s, step).Retiring? && StartPlan(s, step).record == h
  }

  lemma PlannedAllows(s: System, step: Step, h: History)
    requires Planned(s, step, h)
    ensures Allowable(h, step.opt, step.m.descends)
  {
    hide RetireSubject;
    hide RetirePlan;
    hide Supersede;
    hide HistoryRecord;
    hide RetiredReport;
    hide Allows;
    var c := RetireSubject(s.disk.supervisor, step.project, step.spec, step.opt, step.m).canary;
    var r := RetiredReport(s.disk, HistoryKey(step.project, c)).value;
    StaleFacts(s.disk.supervisor, step.project, step.spec, step.opt, step.m);
    AllowedRelates(step.project, c, step.spec, step.opt, step.m, step.m.now, s.disk.supervisor, r);
  }

  /** Some step of the run planned `h`. */
  ghost predicate Explained(s0: System, steps: seq<Step>, h: History) {
    exists i :: 0 <= i < |steps| && Planned(Run(s0, steps[..i]), steps[i], h)
  }

  ghost predicate AllExplained(s0: System, steps: seq<Step>) {
    var s := Run(s0, steps);
    && (forall k | k in s.disk.history :: Explained(s0, steps, s.disk.history[k]))
    && (s.work.Retiring? ==> Explained(s0, steps, s.work.record))
  }

  lemma ExplainedLater(s0: System, steps: seq<Step>, n: nat, h: History)
    requires n <= |steps| && Explained(s0, steps[..n], h)
    ensures Explained(s0, steps, h)
  {
    hide Run;
    hide Planned;
    var i :| 0 <= i < n && Planned(Run(s0, steps[..n][..i]), steps[..n][i], h);
    assert steps[..n][..i] == steps[..i];
  }

  /** A new record is the one the retirement under way set out to write. */
  lemma NewRecord(s: System, step: Step, k: Key)
    requires Invariant(s) && k in Next(s, step).disk.history && k !in s.disk.history
    ensures s.work.Retiring? && Next(s, step).disk.history[k] == s.work.record
  {
    OnlyWritesRecord(s, step, k);
    hide Next;
    hide EvidenceKept;
    RecordWritten(s.disk, s.work, step.fate, k);
    hide Effect;
  }

  lemma OnlyWritesRecord(s: System, step: Step, k: Key)
    requires k in Next(s, step).disk.history && k !in s.disk.history
    ensures step.Perform? && Left(s.work) != []
    ensures Next(s, step).disk.history == Effect(s.disk, s.work.writes[0], step.fate).history
  {
    hide StartPlan;
    hide Effect;
    hide Continues;
  }

  lemma RecordWritten(d: Disk, w: Work, f: Fate, k: Key)
    requires WorkOk(d, w) && Left(w) != [] && k !in d.history
    requires k in Effect(d, w.writes[0], f).history
    ensures w.Retiring? && Effect(d, w.writes[0], f).history[k] == w.record
  {
    NewRecordPut(d, w.writes[0], f, k);
    hide Effect;
    hide FillsIn;
    hide SameHistory;
    hide Authentic;
    hide RetireList;
    hide Finish;
    if w.Retiring? { HeadRecord(w.writes, d.supervisor, w.record, w.report); }
    if w.Promoting? { NoRecordInPromotion(d, w.owner, w.canary, w.writes); }
    hide PromotingOk;
  }

  lemma NewRecordPut(d: Disk, w: Write, f: Fate, k: Key)
    requires k !in d.history && k in Effect(d, w, f).history
    ensures w.PutHistory? && Effect(d, w, f).history[k] == w.record
  {
  }

  lemma NoRecordInPromotion(d: Disk, owner: Supervisor, c: CanaryState, ws: seq<Write>)
    requires PromotingOk(d, owner, c, ws) && ws != []
    ensures !ws[0].PutHistory?
  {
    hide Authentic;
  }

  lemma HeadRecord(ws: seq<Write>, s: Supervisor, h: History, r: Report)
    requires RetireList(ws, s, h, r) && ws != []
    ensures ws[0].PutHistory? ==> ws[0].record == h
  {
    assert RetireWrite(ws[0], s, h, r);
  }

  lemma NewRetirement(s: System, step: Step)
    requires Next(s, step).work.Retiring?
    ensures (s.work.Retiring? && Next(s, step).work.record == s.work.record) || Planned(s, step, Next(s, step).work.record)
  {
    if Starts(step) && s.work.Free? {
      assert Next(s, step).work == StartPlan(s, step);
      OnlyRetireRetires(s, step);
    }
    hide StartPlan;
    hide Effect;
    hide Continues;
  }

  lemma OnlyRetireRetires(s: System, step: Step)
    ensures StartPlan(s, step).Retiring? ==> step.StartRetire?
  {
    hide RetirePlan;
    hide RetireSubject;
    hide ReconcilePlan;
    hide RolloverPlan;
    hide FinalizePlan;
    hide HistoryRecord;
  }

  lemma {:induction false} RecordsExplained(s0: System, steps: seq<Step>)
    requires Initial(s0)
    ensures AllExplained(s0, steps)
  {
    if steps != [] {
      var n := |steps| - 1;
      var s, step := Run(s0, steps[..n]), steps[n];
      RecordsExplained(s0, steps[..n]);
      Reachable(s0, steps[..n]);
      RunStep(s0, steps);
      NextExtends(s, step);
      var e := Next(s, step);
      hide Run;
      hide Next;
      hide Planned;
      hide Invariant;
      forall k | k in e.disk.history ensures Explained(s0, steps, e.disk.history[k]) {
        if k !in s.disk.history { NewRecord(s, step, k); }
        ExplainedLater(s0, steps, n, e.disk.history[k]);
      }
      if e.work.Retiring? {
        NewRetirement(s, step);
        if Planned(s, step, e.work.record) {
          assert Planned(Run(s0, steps[..n]), steps[n], e.work.record);
        } else {
          ExplainedLater(s0, steps, n, e.work.record);
        }
      }
    }
  }

  /** Every history record ever written, in any run, relates its canary's generation to the new one:
      same width, inactivity limit and report path; an unchanged commit means an unchanged binary,
      cohort and policy and a changed registry identity; a changed one descends from the old; and a
      policy or cohort change was asked for by its flag, in a step of that very run. */
  lemma EveryRecordAllowed(s0: System, steps: seq<Step>, k: Key, git: set<(string, string)>)
    requires Initial(s0) && k in Run(s0, steps).disk.history
    requires forall i | 0 <= i < |steps| :: SameAncestry(steps[i], git)
    ensures exists i :: 0 <= i < |steps| && steps[i].StartRetire? && Allowable(Run(s0, steps).disk.history[k], steps[i].opt, git)
  {
    RecordsExplained(s0, steps);
    hide Run;
    hide Planned;
    hide Allowable;
    var h := Run(s0, steps).disk.history[k];
    var i :| 0 <= i < |steps| && Planned(Run(s0, steps[..i]), steps[i], h);
    assert SameAncestry(steps[i], git);
    assert steps[i].StartRetire? by { PlannedStarts(Run(s0, steps[..i]), steps[i], h); }
    PlannedAllows(Run(s0, steps[..i]), steps[i], h);
  }

  lemma PlannedStarts(s: System, step: Step, h: History)
    requires Planned(s, step, h)
    ensures step.StartRetire?
  {
    hide StartPlan;
  }
}
