/** All interleavings: the canary transactions one write at a time, crashes, the supervisor's own
    writes, and the operator and registry commands that take no supervisor lease. */
module CanaryProtocol {
  import opened Options
  import opened Canary
  import opened DurableWrites
  import opened CanaryPlans

  /** What holds the supervisor lease. A crash drops it; the disk stays. */
  datatype Work =
    | Free
    | Promoting(owner: Supervisor, canary: CanaryState, writes: seq<Write>)
    | Retiring(canary: CanaryState, record: History, report: Report, writes: seq<Write>)
    | Rolling(writes: seq<Write>)
    | Finalizing(writes: seq<Write>)

  /** `cleared` records every canary that was ever removed from the checkpoint. */
  datatype System = System(disk: Disk, work: Work, cleared: set<CanaryState>)

  datatype Step =
    | StartReconcile(req: Request)
    | StartRetire(project: string, spec: Spec, opt: RetireOptions, m: Machine)
    | StartRollover(project: string, spec: Spec, m: Machine)
    | StartFinalize(project: string, spec: Spec, m: Machine, k: Containment)
    | Perform(fate: Fate)
    | Crash
    // the supervisor, between the transactions
    | Admit(state: Supervisor)
    | Progress(state: Supervisor)
    | Publish(report: Report)
    | Decide(state: Supervisor)
    | OrdinaryRun(state: Supervisor)
    // commands that take no lease
    | AccountReset(identity: Digest, committed: bool)
    | GreenValidation(identity: Digest, committed: bool)
    | RecordSave(identity: Digest, committed: bool)
    | OperatorDrain
    | OperatorControl(control: Control)

  predicate UndecidedIn(s: Supervisor) { s.canary.Some? && s.canary.value.decision == Undecided }

  function Left(w: Work): seq<Write> { if w.Free? then [] else w.writes }

  /** The work after its next write, while writes remain. */
  function Rest(w: Work): Work
    requires Left(w) != []
  {
    var rest := w.writes[1..];
    if rest == [] then Free else w.(writes := rest)
  }

  function PerformWrite(s: System, f: Fate): System
    requires Left(s.work) != []
  {
    var w := s.work.writes[0];
    var e := Effect(s.disk, w, f);
    System(e, if Continues(s.disk, w, f) then Rest(s.work) else Free,
      if s.disk.supervisor.canary.Some? && e.supervisor.canary.None?
      then s.cleared + {s.disk.supervisor.canary.value} else s.cleared)
  }

  function Busy(w: Work): Work { if Left(w) == [] then Free else w }

  /** The work a plan leads to. */
  function StartPlan(s: System, step: Step): Work {
    match step
    case StartReconcile(req) =>
      var p := ReconcilePlan(s.disk, req);
      if p.Do? && Reconciled(s.disk).canary.Some?
      then Busy(Promoting(Reconciled(s.disk), Reconciled(s.disk).canary.value, p.writes)) else Free
    case StartRetire(project, spec, opt, m) =>
      var p := RetirePlan(s.disk, project, spec, opt, m);
      var c := RetireSubject(s.disk.supervisor, project, spec, opt, m);
      if p.Do? && c.Stale? then
        var r := RetiredReport(s.disk, HistoryKey(project, c.canary));
        if r.Some? then
          Busy(Retiring(s.disk.supervisor.canary.value,
            HistoryRecord(project, c.canary, spec, m.now, s.disk.supervisor, r.value), r.value, p.writes))
        else Free
      else Free
    case StartRollover(project, spec, m) =>
      var p := RolloverPlan(s.disk, project, spec, m);
      if p.Do? then Busy(Rolling(p.writes)) else Free
    case StartFinalize(project, spec, m, k) =>
      var p := FinalizePlan(s.disk, project, spec, m, k);
      if p.Do? then Busy(Finalizing(p.writes)) else Free
    case _ => Free
  }

  predicate Starts(step: Step) {
    step.StartReconcile? || step.StartRetire? || step.StartRollover? || step.StartFinalize?
  }

  /** What the supervisor itself may write, when it holds the lease. */
  function SupervisorStep(d: Disk, step: Step): Disk {
    match step
    case Admit(state) =>
      if d.supervisor.canary.None? && d.report.None? && UndecidedIn(state)
      then d.(supervisor := state) else d
    case Progress(state) => if UndecidedIn(d.supervisor) && UndecidedIn(state) then d.(supervisor := state) else d
    case Publish(r) => if UndecidedIn(d.supervisor) && d.report.None? then d.(report := Some(r)) else d
    case Decide(state) =>
      if UndecidedIn(d.supervisor) && state.canary.Some? && state.canary.value.decision != Undecided
      then d.(supervisor := state) else d
    case OrdinaryRun(state) =>
      if d.supervisor.canary.None? && state.canary.None? then d.(supervisor := state) else d
    case _ => d
  }

  /** Registry commands and operator sentinels, at any time. */
  function CommandStep(d: Disk, step: Step): Disk {
    match step
    case AccountReset(identity, committed) =>
      d.(registry := Registry(d.registry.project, Registered, identity, committed))
    case GreenValidation(identity, committed) =>
      // the command saves the record it read a while before
      d.(registry := Registry(d.registry.project, Migrated, identity, committed))
    case RecordSave(identity, committed) =>
      // so does the registration that renames the record it just added
      d.(registry := Registry(d.registry.project, Registered, identity, committed))
    case OperatorDrain => d.(drain := true)
    case OperatorControl(control) => d.(control := control)
    case _ => d
  }

  function Next(s: System, step: Step): System {
    if Starts(step) then if s.work.Free? then s.(work := StartPlan(s, step)) else s
    else if step.Perform? then if Left(s.work) != [] then PerformWrite(s, step.fate) else s
    else if step.Crash? then s.(work := Free)
    else
      var d := CommandStep(s.disk, step);
      s.(disk := if s.work.Free? then SupervisorStep(d, step) else d)
  }

  /** The state after all of `steps`. */
  function Run(s: System, steps: seq<Step>): System {
    if steps == [] then s else Next(Run(s, steps[..|steps| - 1]), steps[|steps| - 1])
  }

  /** A project before its first canary. */
  predicate Initial(s: System) {
    && s.work == Free && s.cleared == {} && s.disk.supervisor.canary == None && s.disk.marker == None
    && s.disk.history == map[] && s.disk.archivedReports == map[] && s.disk.archivedStates == map[]
  }

  /** Every retirement reads the same ancestry of commits. */
  predicate SameAncestry(step: Step, git: set<(string, string)>) { step.StartRetire? ==> step.m.descends == git }

  // ---- what is durable -----------------------------------------------------------------------

  /** A canary with anything to show for it. */
  predicate HasEvidence(c: CanaryState) { c.runIDs != [] || c.terminal != map[] || c.reportDigest != Absent }

  /** `full` is `c` with the digests a schema-3 checkpoint lacked filled in. */
  predicate FillsIn(full: CanaryState, c: CanaryState) {
    && full == c.(autonomyPolicy := full.autonomyPolicy, executionPolicy := full.executionPolicy, generation := full.generation)
    && (c.autonomyPolicy != Absent ==> full.autonomyPolicy == c.autonomyPolicy)
    && (c.executionPolicy != Absent ==> full.executionPolicy == c.executionPolicy)
    && (c.generation != Absent ==> full.generation == c.generation)
  }

  /** The manifest under `k`, with the archived report and checkpoint it names, all of them `c`'s. */
  predicate ArchivedAt(d: Disk, k: Key, c: CanaryState) {
    && k in d.history && k in d.archivedReports && k in d.archivedStates
    && d.history[k].archivedReport == OfReport(d.archivedReports[k])
    && d.history[k].archivedState == OfSupervisor(d.archivedStates[k])
    && d.archivedReports[k].evidenceDigest == c.reportDigest
    && d.archivedStates[k].canary == Some(c)
    && FillsIn(d.history[k].canary, c)
  }

  ghost predicate Archived(d: Disk, c: CanaryState) { exists k :: ArchivedAt(d, k, c) }

  ghost predicate Durable(d: Disk, c: CanaryState) {
    (d.marker.Some? && d.marker.value.canary == c) || Archived(d, c)
  }

  // ---- the invariant -------------------------------------------------------------------------

  /** The marker holds a passed canary, whose report stays at the fixed path and so keeps the supervisor
      from admitting another; a checkpoint canary beside it is the same one, and gone once the marker is
      validated. */
  predicate MarkerOk(d: Disk) {
    d.marker.Some? ==>
      && d.marker.value.canary.decision == Passed && d.report.Some?
      && (d.supervisor.canary.Some? ==> d.marker.value.status == Pending && d.supervisor.canary == Some(d.marker.value.canary))
  }

  ghost predicate EvidenceKept(s: System) { forall c <- s.cleared :: HasEvidence(c) ==> Durable(s.disk, c) }

  /** A promotion under way: what is left of its writes, and what is on disk by then. */
  predicate PromotingOk(d: Disk, owner: Supervisor, c: CanaryState, ws: seq<Write>) {
    var pend, done := PutMarker(Marker(owner.project, Pending, c)), PutMarker(Marker(owner.project, Validated, c));
    && c.decision == Passed && d.report.Some? && Authentic(owner.project, c, d.report.value)
    && ((&& ws != [] && ws[0] == pend
         && (ws[1..] == [] || Finish(owner, c, ws[1..]))
         && (d.marker.Some? ==> d.marker.value.status == Pending && d.marker.value.canary == c)
         && (d.supervisor.canary == Some(c) || (d.supervisor.canary.None? && d.marker.Some?)))
        || (&& Finish(owner, c, ws) && d.marker == Some(pend.marker)
            && (d.supervisor.canary == Some(c) || d.supervisor.canary.None?))
        || (ws == [done] && d.marker == Some(pend.marker) && d.supervisor.canary.None?))
  }

  /** The writes of a promotion after its pending marker. */
  predicate Finish(owner: Supervisor, c: CanaryState, ws: seq<Write>) {
    var clear := [PutSupervisor(Completed(owner)), PutMarker(Marker(owner.project, Validated, c))];
    ws == clear || (|ws| == 3 && ws[0].CasRegistry? && ws[0].to == ValidatedPosture
      && ws[0].identity == c.registryIdentity && ws[1..] == clear)
  }

  /** A retirement under way: the checkpoint still holds the canary, and every archive whose write is
      past is in place. */
  predicate RetiringOk(d: Disk, c: CanaryState, h: History, r: Report, ws: seq<Write>) {
    && d.marker == None && d.supervisor.canary == Some(c)
    && r.evidenceDigest == c.reportDigest && FillsIn(h.canary, c)
    && h.archivedReport == OfReport(r) && h.archivedState == OfSupervisor(d.supervisor)
    && (ArchiveReport(h.key, r) in ws || (h.key in d.archivedReports && d.archivedReports[h.key] == r))
    && (ArchiveState(h.key, d.supervisor) in ws || (h.key in d.archivedStates && d.archivedStates[h.key] == d.supervisor))
    && (PutHistory(h.key, h) in ws || (h.key in d.history && SameHistory(d.history[h.key], h)))
    && RetireList(ws, d.supervisor, h, r)
  }

  /** Writes of a retirement, with the reset of the checkpoint last. */
  predicate RetireList(ws: seq<Write>, s: Supervisor, h: History, r: Report) {
    && (forall i | 0 <= i < |ws| :: RetireWrite(ws[i], s, h, r))
    && (forall i | 0 <= i < |ws| :: ws[i].PutSupervisor? ==> i == |ws| - 1)
  }

  predicate RetireWrite(w: Write, s: Supervisor, h: History, r: Report) {
    w == ArchiveReport(h.key, r) || w == ArchiveState(h.key, s) || w == PutHistory(h.key, h)
    || w == RemoveReport(r) || w == ConsumeDrain || w == ClearControl || w == PutSupervisor(Reset(s))
  }

  predicate RollingOk(d: Disk, ws: seq<Write>) {
    && d.marker == None && d.supervisor.canary.Some? && !HasEvidence(d.supervisor.canary.value)
    && (forall i | 0 <= i < |ws| :: ws[i] == ConsumeDrain || ws[i] == PutSupervisor(Reset(d.supervisor)))
    && (forall i | 0 <= i < |ws| :: ws[i].PutSupervisor? ==> i == |ws| - 1)
  }

  predicate FinalizingOk(d: Disk, ws: seq<Write>) {
    && d.marker == None && d.supervisor.canary.Some?
    && (forall i | 0 <= i < |ws| :: ws[i].PublishReport? || (ws[i].PutSupervisor? && ws[i].state.canary.Some?))
  }

  predicate WorkOk(d: Disk, w: Work) {
    match w
    case Free => true
    case Promoting(owner, c, ws) => PromotingOk(d, owner, c, ws)
    case Retiring(c, h, r, ws) => RetiringOk(d, c, h, r, ws)
    case Rolling(ws) => RollingOk(d, ws)
    case Finalizing(ws) => FinalizingOk(d, ws)
  }

  ghost predicate Invariant(s: System) { MarkerOk(s.disk) && EvidenceKept(s) && WorkOk(s.disk, s.work) }

  // ---- every step keeps it -------------------------------------------------------------------

  /** What the invariant looks at besides the work: any two disks that agree on the marker, the
      checkpoint, the report and keep the archives agree on it. */
  predicate Extends(d: Disk, e: Disk) {
    && (forall k | k in d.archivedReports :: k in e.archivedReports && e.archivedReports[k] == d.archivedReports[k])
    && (forall k | k in d.archivedStates :: k in e.archivedStates && e.archivedStates[k] == d.archivedStates[k])
    && (forall k | k in d.history :: k in e.history && e.history[k] == d.history[k])
  }

  lemma ArchivedStays(d: Disk, e: Disk, c: CanaryState)
    requires Extends(d, e) && Archived(d, c)
    ensures Archived(e, c)
  {
    var k :| ArchivedAt(d, k, c);
    assert ArchivedAt(e, k, c);
  }

  lemma KeptStays(s: System, e: Disk)
    requires EvidenceKept(s) && Extends(s.disk, e)
    requires s.disk.marker.Some? ==> e.marker.Some? && e.marker.value.canary == s.disk.marker.value.canary
    ensures forall c <- s.cleared :: HasEvidence(c) ==> Durable(e, c)
  {
    forall c <- s.cleared | HasEvidence(c) ensures Durable(e, c) {
      if Archived(s.disk, c) { ArchivedStays(s.disk, e, c); }
    }
    hide Archived;
  }

  lemma CommandKeeps(s: System, step: Step)
    requires Invariant(s)
    ensures Invariant(s.(disk := CommandStep(s.disk, step)))
  {
    var e := CommandStep(s.disk, step);
    CommandTouches(s.disk, step);
    hide CommandStep;
    KeptStays(s, e);
    hide Authentic;
    hide FillsIn;
    hide Durable;
    hide Finish;
    hide RetireList;
  }

  lemma CommandTouches(d: Disk, step: Step)
    ensures var e := CommandStep(d, step); e == d.(registry := e.registry, drain := e.drain, control := e.control)
  {
  }

  lemma SupervisorKeeps(s: System, step: Step)
    requires Invariant(s) && s.work.Free?
    ensures Invariant(s.(disk := SupervisorStep(s.disk, step)))
  {
    KeptStays(s, SupervisorStep(s.disk, step));
    hide Durable;
  }
}
