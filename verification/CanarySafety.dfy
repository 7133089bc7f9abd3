/** What holds in every reachable state of the canary protocol. */
module CanarySafety {
  import opened Options
  import opened Canary
  import opened DurableWrites
  import opened CanaryPlans
  import opened CanaryProtocol

  // ---- starting a transaction ----------------------------------------------------------------

  lemma ReconcileStarts(s: System, req: Request)
    requires Invariant(s) && s.work.Free?
    ensures WorkOk(s.disk, StartPlan(s, StartReconcile(req)))
  {
    hide ReconcilePlan;
    hide Reconciled;
    hide PromotingOk;
    hide EvidenceKept;
    var p := ReconcilePlan(s.disk, req);
    if p.Do? && p.writes != [] { PromotionPlanned(s.disk, req); }
  }

  lemma PromotionPlanned(d: Disk, req: Request)
    requires MarkerOk(d) && ReconcilePlan(d, req).Do? && ReconcilePlan(d, req).writes != []
    ensures Reconciled(d).canary.Some?
    ensures PromotingOk(d, Reconciled(d), Reconciled(d).canary.value, ReconcilePlan(d, req).writes)
  {
    hide RequestMatches;
    hide Authentic;
    hide ReconcilePlan;
    hide PromotionWrites;
    hide MarkerOk;
    hide MarkerLoads;
    ReconcileShape(d, req);
    var owner := Reconciled(d);
    PromotionShape(d, owner, owner.canary.value);
    PendingIfPlanned(d, req);
    hide Reconciled;
    hide Completed;
    AuthenticIfMatched(d, owner.project, owner.canary.value, req);
  }

  lemma PendingIfPlanned(d: Disk, req: Request)
    requires ReconcilePlan(d, req).Do? && ReconcilePlan(d, req).writes != [] && MarkerOk(d)
    ensures d.marker.Some? ==> d.marker.value.status == Pending && Reconciled(d).canary == Some(d.marker.value.canary)
    ensures d.supervisor.canary == Reconciled(d).canary || (d.supervisor.canary.None? && d.marker.Some?)
  {
    hide RequestMatches;
    hide PromotionWrites;
  }

  lemma AuthenticIfMatched(d: Disk, project: string, c: CanaryState, req: Request)
    requires RequestMatches(d, project, c, req)
    ensures d.report.Some? && Authentic(project, c, d.report.value) && d.registry.identity == c.registryIdentity
  {
  }

  lemma RetireStarts(s: System, project: string, spec: Spec, opt: RetireOptions, m: Machine)
    requires Invariant(s) && s.work.Free?
    ensures WorkOk(s.disk, StartPlan(s, StartRetire(project, spec, opt, m)))
  {
    hide RetirePlan;
    hide RetireSubject;
    hide RetiredReport;
    hide HistoryKey;
    hide HistoryRecord;
    hide RetiringOk;
    hide EvidenceKept;
    if RetirePlan(s.disk, project, spec, opt, m).Do? { RetirementPlanned(s.disk, project, spec, opt, m); }
  }

  lemma RetirementPlanned(d: Disk, project: string, spec: Spec, opt: RetireOptions, m: Machine)
    requires RetirePlan(d, project, spec, opt, m).Do?
    ensures RetireSubject(d.supervisor, project, spec, opt, m).Stale? && d.supervisor.canary.Some?
    ensures var c := RetireSubject(d.supervisor, project, spec, opt, m).canary;
      var r := RetiredReport(d, HistoryKey(project, c));
      r.Some? && RetiringOk(d, d.supervisor.canary.value,
        HistoryRecord(project, c, spec, m.now, d.supervisor, r.value), r.value, RetirePlan(d, project, spec, opt, m).writes)
  {
    hide RetireSubject;
    hide RetiredReport;
    hide HistoryKey;
    hide HistoryRecord;
    hide RetireWrites;
    hide Retirable;
    hide FillsIn;
    hide RetireList;
    var c := RetireSubject(d.supervisor, project, spec, opt, m).canary;
    var r := RetiredReport(d, HistoryKey(project, c)).value;
    SubjectIsCanary(d.supervisor, project, spec, opt, m);
    RetireWritesFit(d, project, c, spec, m, r);
    RetirableDigest(project, c, r);
    RecordIs(project, c, spec, m.now, d.supervisor, r);
  }

  lemma RetirableDigest(project: string, c: CanaryState, r: Report)
    ensures Retirable(project, c, c.generation, r) ==> r.evidenceDigest == c.reportDigest
  {
  }

  lemma RecordIs(project: string, c: CanaryState, spec: Spec, now: Stamp, state: Supervisor, r: Report)
    ensures var h := HistoryRecord(project, c, spec, now, state, r);
      h.canary == c && h.archivedReport == OfReport(r) && h.archivedState == OfSupervisor(state) && h.key == HistoryKey(project, c)
  {
  }

  lemma SubjectIsCanary(state: Supervisor, project: string, spec: Spec, opt: RetireOptions, m: Machine)
    requires RetireSubject(state, project, spec, opt, m).Stale?
    ensures var c := RetireSubject(state, project, spec, opt, m).canary;
      state.canary.Some? && FillsIn(c, state.canary.value) && c.reportDigest == state.canary.value.reportDigest
  {
    hide StateGeneration;
    hide SpecGeneration;
    hide Supersede;
    hide TerminalFailure;
  }

  lemma RetireWritesFit(d: Disk, project: string, c: CanaryState, spec: Spec, m: Machine, r: Report)
    ensures var ws := RetireWrites(d, project, c, spec, m, r);
      var h := HistoryRecord(project, c, spec, m.now, d.supervisor, r);
      && ws != [] && ArchiveReport(h.key, r) in ws && ArchiveState(h.key, d.supervisor) in ws && PutHistory(h.key, h) in ws
      && RetireList(ws, d.supervisor, h, r)
  {
    var h := HistoryRecord(project, c, spec, m.now, d.supervisor, r);
    RecordIs(project, c, spec, m.now, d.supervisor, r);
    hide HistoryRecord;
    hide HistoryKey;
    var tail := ReleaseWrites(d, r);
    var s := d.supervisor;
    assert RetireList(tail, s, h, r);
    hide ReleaseWrites;
    hide RetireList;
    Prepend(PutHistory(h.key, h), tail, s, h, r);
    Prepend(ArchiveState(h.key, s), [PutHistory(h.key, h)] + tail, s, h, r);
    Prepend(ArchiveReport(h.key, r), [ArchiveState(h.key, s)] + ([PutHistory(h.key, h)] + tail), s, h, r);
  }

  lemma Prepend(w: Write, ws: seq<Write>, s: Supervisor, h: History, r: Report)
    requires RetireWrite(w, s, h, r) && !w.PutSupervisor? && RetireList(ws, s, h, r)
    ensures RetireList([w] + ws, s, h, r)
  {
    hide RetireWrite;
  }

  lemma RolloverStarts(s: System, project: string, spec: Spec, m: Machine)
    requires Invariant(s) && s.work.Free?
    ensures WorkOk(s.disk, StartPlan(s, StartRollover(project, spec, m)))
  {
    hide StateGeneration;
    hide SpecGeneration;
    hide SupersededBinary;
    hide EvidenceKept;
  }

  lemma FinalizeStarts(s: System, project: string, spec: Spec, m: Machine, k: Containment)
    requires Invariant(s) && s.work.Free?
    ensures WorkOk(s.disk, StartPlan(s, StartFinalize(project, spec, m, k)))
  {
    hide StateGeneration;
    hide SpecGeneration;
    hide SupersededBinary;
    hide EvidenceKept;
  }

  // ---- performing a write --------------------------------------------------------------------

  lemma WriteExtends(d: Disk, w: Write, f: Fate)
    ensures Extends(d, Effect(d, w, f))
  {
    EffectKeeps(d, w, f);
  }

  /** The canary a write clears from the checkpoint, if any. */
  predicate Clears(d: Disk, e: Disk) { d.supervisor.canary.Some? && e.supervisor.canary.None? }

  /** The whole invariant after a write, from its parts. */
  lemma Assemble(s: System, f: Fate)
    requires Invariant(s) && Left(s.work) != []
    requires var e := PerformWrite(s, f);
      && MarkerOk(e.disk) && WorkOk(e.disk, e.work)
      && (s.disk.marker.Some? ==> e.disk.marker.Some? && e.disk.marker.value.canary == s.disk.marker.value.canary)
      && (Clears(s.disk, e.disk) && HasEvidence(s.disk.supervisor.canary.value) ==> Durable(e.disk, s.disk.supervisor.canary.value))
    ensures Invariant(PerformWrite(s, f))
  {
    WriteExtends(s.disk, s.work.writes[0], f);
    KeptStays(s, PerformWrite(s, f).disk);
    hide Durable;
    hide WorkOk;
    hide MarkerOk;
    hide Effect;
    hide Continues;
    hide HasEvidence;
  }

  lemma PromotionPerforms(s: System, f: Fate)
    requires Invariant(s) && s.work.Promoting? && s.work.writes != []
    ensures Invariant(PerformWrite(s, f))
  {
    var e := PerformWrite(s, f);
    var c := s.work.canary;
    PromotionWrite(s.disk, s.work, f);
    assert Clears(s.disk, e.disk) ==> s.disk.supervisor.canary == Some(c);
    hide WorkOk;
    hide Effect;
    hide Continues;
    hide Rest;
    hide Archived;
    hide MarkerOk;
    Assemble(s, f);
  }

  lemma PromotionWrite(d: Disk, w: Work, f: Fate)
    requires MarkerOk(d) && w.Promoting? && w.writes != [] && WorkOk(d, w)
    ensures var e := Effect(d, w.writes[0], f);
      && MarkerOk(e)
      && WorkOk(e, if Continues(d, w.writes[0], f) then Rest(w) else Free)
      && (d.marker.Some? ==> e.marker.Some? && e.marker.value.canary == d.marker.value.canary)
      && (Clears(d, e) ==> d.supervisor.canary == Some(w.canary) && e.marker.Some? && e.marker.value.canary == w.canary)
  {
    PromotionStep(d, w.owner, w.canary, w.writes, f);
    hide PromotingOk;
    hide Effect;
    hide Continues;
    hide MarkerOk;
  }

  lemma PromotionStep(d: Disk, owner: Supervisor, c: CanaryState, ws: seq<Write>, f: Fate)
    requires MarkerOk(d) && ws != [] && PromotingOk(d, owner, c, ws)
    ensures var e := Effect(d, ws[0], f);
      && MarkerOk(e)
      && (Continues(d, ws[0], f) && ws[1..] != [] ==> PromotingOk(e, owner, c, ws[1..]))
      && (d.marker.Some? ==> e.marker.Some? && e.marker.value.canary == d.marker.value.canary)
      && (Clears(d, e) ==> d.supervisor.canary == Some(c) && e.marker.Some? && e.marker.value.canary == c)
  {
    hide Authentic;
    WriteLands(d, ws[0], f);
    hide Effect;
    hide Continues;
  }

  /** A write of a promotion changes one thing, if anything. */
  lemma WriteLands(d: Disk, w: Write, f: Fate)
    ensures var e := Effect(d, w, f);
      && (w.PutMarker? ==> e == d || e == d.(marker := Some(w.marker)))
      && (w.PutMarker? && Continues(d, w, f) ==> e == d.(marker := Some(w.marker)))
      && (w.PutSupervisor? ==> e == d || e == d.(supervisor := w.state))
      && (w.PutSupervisor? && Continues(d, w, f) ==> e == d.(supervisor := w.state))
      && (w.CasRegistry? ==> e == d.(registry := e.registry))
  {
  }

  lemma RetirementPerforms(s: System, f: Fate)
    requires Invariant(s) && s.work.Retiring? && s.work.writes != []
    ensures Invariant(PerformWrite(s, f))
  {
    var w := s.work;
    var e := PerformWrite(s, f);
    RetirementWrite(s.disk, w.canary, w.record, w.report, w.writes, f);
    if Clears(s.disk, e.disk) {
      assert ArchivedAt(e.disk, w.record.key, w.canary);
    }
    hide RetiringOk;
    hide Effect;
    hide Continues;
    Assemble(s, f);
  }

  lemma RetirementWrite(d: Disk, c: CanaryState, h: History, r: Report, ws: seq<Write>, f: Fate)
    requires RetiringOk(d, c, h, r, ws) && ws != []
    ensures var e := Effect(d, ws[0], f);
      && e.marker == None && d.supervisor.canary == Some(c)
      && (Continues(d, ws[0], f) && ws[1..] != [] ==> RetiringOk(e, c, h, r, ws[1..]))
      && (Clears(d, e) ==> ArchivedAt(e, h.key, c))
  {
    hide FillsIn;
    assert RetireWrite(ws[0], d.supervisor, h, r);
    if ws[0].PutSupervisor? {
      assert ws == [ws[0]];
    } else {
      RestOfList(ws, d.supervisor, h, r);
      hide RetireList;
      hide ArchivedAt;
      NoClear(d, ws[0], f, h, r);
      if Continues(d, ws[0], f) { StillRetiring(d, c, h, r, ws, f); }
    }
  }

  lemma RestOfList(ws: seq<Write>, s: Supervisor, h: History, r: Report)
    requires RetireList(ws, s, h, r) && ws != []
    ensures RetireList(ws[1..], s, h, r)
  {
    hide RetireWrite;
  }

  lemma NoClear(d: Disk, w: Write, f: Fate, h: History, r: Report)
    requires RetireWrite(w, d.supervisor, h, r) && !w.PutSupervisor?
    ensures var e := Effect(d, w, f); e.supervisor == d.supervisor && e.marker == d.marker
  {
  }

  lemma StillRetiring(d: Disk, c: CanaryState, h: History, r: Report, ws: seq<Write>, f: Fate)
    requires RetiringOk(d, c, h, r, ws) && ws != [] && Continues(d, ws[0], f)
    requires RetireWrite(ws[0], d.supervisor, h, r) && !ws[0].PutSupervisor?
    requires RetireList(ws[1..], d.supervisor, h, r)
    ensures RetiringOk(Effect(d, ws[0], f), c, h, r, ws[1..])
  {
    hide FillsIn;
    hide RetireList;
    hide SameHistory;
    hide RetireWrite;
    WriteExtends(d, ws[0], f);
    NoClear(d, ws[0], f, h, r);
    ArchivePast(d, ws[0], f, h, r);
    hide Effect;
    hide Continues;
    forall w | w in ws ensures w == ws[0] || w in ws[1..] { }
  }

  /** What a write that went through leaves in place. */
  lemma ArchivePast(d: Disk, w: Write, f: Fate, h: History, r: Report)
    requires Continues(d, w, f)
    ensures var e := Effect(d, w, f);
      && (w == ArchiveReport(h.key, r) ==> h.key in e.archivedReports && e.archivedReports[h.key] == r)
      && (w == ArchiveState(h.key, d.supervisor) ==> h.key in e.archivedStates && e.archivedStates[h.key] == d.supervisor)
      && (w == PutHistory(h.key, h) ==> h.key in e.history && SameHistory(e.history[h.key], h))
  {
    hide SameHistory;
    SameHistorySelf(h);
  }

  lemma SameHistorySelf(h: History)
    ensures SameHistory(h, h)
  {
  }

  lemma RolloverPerforms(s: System, f: Fate)
    requires Invariant(s) && s.work.Rolling? && s.work.writes != []
    ensures Invariant(PerformWrite(s, f))
  {
    hide EvidenceKept;
    hide Durable;
    Assemble(s, f);
  }

  lemma FinalizationPerforms(s: System, f: Fate)
    requires Invariant(s) && s.work.Finalizing? && s.work.writes != []
    ensures Invariant(PerformWrite(s, f))
  {
    hide EvidenceKept;
    hide Durable;
    Assemble(s, f);
  }

  // ---- every run -----------------------------------------------------------------------------

  lemma StartKeeps(s: System, step: Step)
    requires Invariant(s) && Starts(step) && s.work.Free?
    ensures Invariant(Next(s, step))
  {
    match step
    case StartReconcile(req) => ReconcileStarts(s, req);
    case StartRetire(project, spec, opt, m) => RetireStarts(s, project, spec, opt, m);
    case StartRollover(project, spec, m) => RolloverStarts(s, project, spec, m);
    case StartFinalize(project, spec, m, k) => FinalizeStarts(s, project, spec, m, k);
    hide StartPlan;
    hide WorkOk;
    hide MarkerOk;
    hide Durable;
  }

  lemma PerformKeeps(s: System, f: Fate)
    requires Invariant(s) && Left(s.work) != []
    ensures Invariant(PerformWrite(s, f))
  {
    match s.work
    case Promoting(_, _, _) => PromotionPerforms(s, f);
    case Retiring(_, _, _, _) => RetirementPerforms(s, f);
    case Rolling(_) => RolloverPerforms(s, f);
    case Finalizing(_) => FinalizationPerforms(s, f);
    hide *;
  }

  /** Every step of every actor keeps the invariant. */
  lemma NextKeeps(s: System, step: Step)
    requires Invariant(s)
    ensures Invariant(Next(s, step))
  {
    if Starts(step) {
      if s.work.Free? { StartKeeps(s, step); }
    } else if step.Perform? {
      if Left(s.work) != [] { PerformKeeps(s, step.fate); }
    } else if !step.Crash? {
      if s.work.Free? {
        CommandOrSupervisor(s.disk, step);
        CommandKeeps(s, step);
        SupervisorKeeps(s.(disk := CommandStep(s.disk, step)), step);
      } else {
        CommandKeeps(s, step);
      }
    } else {
      assert WorkOk(s.disk, Free);
    }
    hide StartPlan;
    hide PerformWrite;
    hide CommandStep;
    hide SupervisorStep;
    hide WorkOk;
    hide MarkerOk;
    hide Durable;
  }

  lemma CommandOrSupervisor(d: Disk, step: Step)
    ensures CommandStep(d, step) == d || SupervisorStep(CommandStep(d, step), step) == CommandStep(d, step)
  {
  }

  lemma {:induction false} Reachable(s0: System, steps: seq<Step>)
    requires Initial(s0)
    ensures Invariant(Run(s0, steps))
  {
    hide Next;
    if steps == [] {
      hide Durable;
    } else {
      Reachable(s0, steps[..|steps| - 1]);
      NextKeeps(Run(s0, steps[..|steps| - 1]), steps[|steps| - 1]);
      hide *;
      RunStep(s0, steps);
    }
  }

  lemma RunStep(s: System, steps: seq<Step>)
    requires steps != []
    ensures Run(s, steps) == Next(Run(s, steps[..|steps| - 1]), steps[|steps| - 1])
  {
  }

  /** Evidence is never lost: whatever crashes, failed writes and interleavings a run contains, a
      canary with run ids, outcomes or a report has left the checkpoint only if the marker holds the
      same canary, or a history record with the archived report and checkpoint it names does. */
  lemma EvidenceNeverLost(s0: System, steps: seq<Step>, c: CanaryState)
    requires Initial(s0) && c in Run(s0, steps).cleared && HasEvidence(c)
    ensures Durable(Run(s0, steps).disk, c)
  {
    Reachable(s0, steps);
    hide Run;
    hide Durable;
    hide WorkOk;
  }

  /** Promotion safety: whoever else resets accounts or validates in between, the registry becomes
      validated only in the registry write of a promotion, while the pending marker of that very
      canary is on disk, the report on disk authenticates it, and the registry identity is the one
      the canary ran under. */
  lemma PromotionSafety(s0: System, steps: seq<Step>, step: Step)
    requires Initial(s0)
    requires var s := Run(s0, steps);
      s.disk.registry.posture != ValidatedPosture && Next(s, step).disk.registry.posture == ValidatedPosture
    ensures var s := Run(s0, steps);
      && step.Perform? && s.work.Promoting?
      && s.disk.marker == Some(Marker(s.work.owner.project, Pending, s.work.canary))
      && s.work.canary.decision == Passed
      && s.disk.report.Some? && Authentic(s.work.owner.project, s.work.canary, s.disk.report.value)
      && s.disk.registry.identity == s.work.canary.registryIdentity
  {
    Reachable(s0, steps);
    var s := Run(s0, steps);
    hide Run;
    hide StartPlan;
    hide Durable;
    OnlyPromotionValidates(s, step);
    hide *;
  }

  lemma OnlyPromotionValidates(s: System, step: Step)
    requires Invariant(s)
    requires s.disk.registry.posture != ValidatedPosture && Next(s, step).disk.registry.posture == ValidatedPosture
    ensures step.Perform? && s.work.Promoting?
    ensures s.disk.marker == Some(Marker(s.work.owner.project, Pending, s.work.canary))
    ensures s.work.canary.decision == Passed
    ensures s.disk.report.Some? && Authentic(s.work.owner.project, s.work.canary, s.disk.report.value)
    ensures s.disk.registry.identity == s.work.canary.registryIdentity
  {
    OnlyWritesValidate(s, step);
    var w := s.work.writes[0];
    OnlyCasValidates(s.disk, w, step.fate);
    OnlyPromotionHasCas(s.disk, s.work);
    CasOfPromotion(s.disk, s.work.owner, s.work.canary, s.work.writes);
    hide *;
  }

  lemma OnlyWritesValidate(s: System, step: Step)
    requires s.disk.registry.posture != ValidatedPosture && Next(s, step).disk.registry.posture == ValidatedPosture
    ensures step.Perform? && Left(s.work) != []
    ensures Effect(s.disk, s.work.writes[0], step.fate).registry.posture == ValidatedPosture
  {
    hide StartPlan;
    hide Effect;
    hide Continues;
  }

  lemma OnlyCasValidates(d: Disk, w: Write, f: Fate)
    requires d.registry.posture != ValidatedPosture && Effect(d, w, f).registry.posture == ValidatedPosture
    ensures w.CasRegistry? && d.registry.identity == w.identity
  {
  }

  lemma OnlyPromotionHasCas(d: Disk, w: Work)
    requires WorkOk(d, w) && Left(w) != [] && w.writes[0].CasRegistry?
    ensures w.Promoting? && PromotingOk(d, w.owner, w.canary, w.writes)
  {
    hide FillsIn;
    hide SameHistory;
    hide PromotingOk;
    hide RetireList;
    if w.Retiring? { NoCasToRetire(w.writes, d.supervisor, w.record, w.report); }
  }

  lemma NoCasToRetire(ws: seq<Write>, s: Supervisor, h: History, r: Report)
    requires RetireList(ws, s, h, r) && ws != []
    ensures !ws[0].CasRegistry?
  {
    assert RetireWrite(ws[0], s, h, r);
  }

  lemma CasOfPromotion(d: Disk, owner: Supervisor, c: CanaryState, ws: seq<Write>)
    requires PromotingOk(d, owner, c, ws) && ws != [] && ws[0].CasRegistry?
    ensures ws[0].identity == c.registryIdentity && d.marker == Some(Marker(owner.project, Pending, c))
    ensures c.decision == Passed && d.report.Some? && Authentic(owner.project, c, d.report.value)
  {
    hide Authentic;
  }

  /** The marker from one state to the next: never removed, its canary and so its report digest never
      changed, never back from validated to pending. */
  predicate MarkerGrows(d: Disk, e: Disk) {
    d.marker.Some? ==>
      && e.marker.Some? && e.marker.value.canary == d.marker.value.canary
      && (d.marker.value.status == Validated ==> e.marker.value.status == Validated)
  }

  lemma MarkerStep(s: System, step: Step)
    requires Invariant(s)
    ensures MarkerGrows(s.disk, Next(s, step).disk)
  {
    hide StartPlan;
    hide Durable;
    hide FillsIn;
    hide SameHistory;
    hide Authentic;
    if step.Perform? && Left(s.work) != [] && s.work.Retiring? {
      assert RetireWrite(s.work.writes[0], s.disk.supervisor, s.work.record, s.work.report);
    }
  }

  /** Marker life cycle, between any two moments of any run. */
  lemma {:induction false} MarkerLifeCycle(s0: System, steps: seq<Step>, i: nat)
    requires Initial(s0) && i <= |steps|
    ensures MarkerGrows(Run(s0, steps[..i]).disk, Run(s0, steps).disk)
    ensures var d := Run(s0, steps).disk;
      d.marker.Some? && d.marker.value.status == Validated ==> d.supervisor.canary == None
    decreases |steps|
  {
    Reachable(s0, steps);
    ValidatedMeansCleared(Run(s0, steps));
    if i < |steps| {
      var n := |steps| - 1;
      MarkerLifeCycle(s0, steps[..n], i);
      assert steps[..n][..i] == steps[..i];
      Reachable(s0, steps[..n]);
      MarkerStep(Run(s0, steps[..n]), steps[n]);
      RunStep(s0, steps);
      hide Run;
      hide Next;
      hide Invariant;
    } else {
      assert steps[..i] == steps;
      hide Run;
      hide Invariant;
    }
  }

  lemma ValidatedMeansCleared(s: System)
    requires Invariant(s)
    ensures s.disk.marker.Some? && s.disk.marker.value.status == Validated ==> s.disk.supervisor.canary == None
  {
    hide WorkOk;
    hide Durable;
  }

  lemma NextExtends(s: System, step: Step)
    ensures Extends(s.disk, Next(s, step).disk)
  {
    NextDisk(s, step);
    hide *;
    if Next(s, step).disk == s.disk {
      ExtendsOn(s.disk, s.disk, s.disk);
    } else if step.Perform? {
      WriteExtends(s.disk, s.work.writes[0], step.fate);
    } else {
      OthersExtend(s.disk, step);
    }
  }

  lemma NextDisk(s: System, step: Step)
    ensures var e := Next(s, step).disk;
      e == s.disk || (if step.Perform? then !s.work.Free? && s.work.writes != [] && e == Effect(s.disk, s.work.writes[0], step.fate)
        else e == CommandStep(s.disk, step) || e == SupervisorStep(CommandStep(s.disk, step), step))
  {
    hide StartPlan;
    hide Effect;
    hide Continues;
    hide CommandStep;
    hide SupervisorStep;
  }

  lemma OthersExtend(d: Disk, step: Step)
    ensures Extends(d, CommandStep(d, step)) && Extends(d, SupervisorStep(CommandStep(d, step), step))
  {
    CommandTouches(d, step);
    hide CommandStep;
  }

  /** Archives and history records are write-once over every run. */
  lemma {:induction false} ArchivesWriteOnce(s: System, steps: seq<Step>, i: nat)
    requires i <= |steps|
    ensures Extends(Run(s, steps[..i]).disk, Run(s, steps).disk)
    decreases |steps|
  {
    hide *;
    if i < |steps| {
      var n := |steps| - 1;
      ArchivesWriteOnce(s, steps[..n], i);
      assert steps[..n][..i] == steps[..i];
      NextExtends(Run(s, steps[..n]), steps[n]);
      RunStep(s, steps);
      ExtendsOn(Run(s, steps[..i]).disk, Run(s, steps[..n]).disk, Run(s, steps).disk);
    } else {
      assert steps[..i] == steps;
      ExtendsOn(Run(s, steps).disk, Run(s, steps).disk, Run(s, steps).disk);
    }
  }

  lemma ExtendsOn(a: Disk, b: Disk, c: Disk)
    ensures Extends(a, a)
    ensures Extends(a, b) && Extends(b, c) ==> Extends(a, c)
  {
  }
}
