/** The canary transactions as the loop performs them: write by write on durable state. Each method
    does to the disk exactly what its plan, met by the same fates, does. */
module CanaryHost {
  import opened Options
  import opened Canary
  import opened DurableWrites
  import opened CanaryPlans
  import opened IdLists

  class Host {
    var supervisor: Supervisor
    var marker: Option<Marker>
    var registry: Registry
    var report: Option<Report>
    var archivedReports: map<Key, Report>
    var archivedStates: map<Key, Supervisor>
    var history: map<Key, History>
    var drain: bool
    var control: Control

    constructor (d: Disk)
      ensures Contents() == d
    {
      supervisor, marker, registry, report := d.supervisor, d.marker, d.registry, d.report;
      archivedReports, archivedStates, history := d.archivedReports, d.archivedStates, d.history;
      drain, control := d.drain, d.control;
    }

    /** The durable state as a value. */
    ghost function Contents(): Disk
      reads this
    {
      Disk(supervisor, marker, registry, report, archivedReports, archivedStates, history, drain, control)
    }

    // ---- single durable writes ---------------------------------------------------------------

    method SaveMarker(m: Marker, fate: Fate) returns (ok: bool)
      modifies this`marker
      ensures Contents() == Effect(old(Contents()), PutMarker(m), fate)
      ensures ok == Continues(old(Contents()), PutMarker(m), fate)
    {
      if fate != Fails { marker := Some(m); }
      ok := fate == Persists;
    }

    /** The registry re-reads the record under its own lock; it may store the new posture and still
        report an error. */
    method CompareAndSet(from: Posture, to: Posture, identity: Digest, fate: Fate) returns (ok: bool)
      modifies this`registry
      ensures Contents() == Effect(old(Contents()), CasRegistry(from, to, identity), fate)
      ensures ok == Continues(old(Contents()), CasRegistry(from, to, identity), fate)
    {
      if registry.posture != from || registry.identity != identity || fate == Fails {
        return false;
      }
      registry := registry.(posture := to, committed := fate == Persists);
      ok := fate == Persists;
    }

    method SaveState(s: Supervisor, fate: Fate) returns (ok: bool)
      modifies this`supervisor
      ensures Contents() == Effect(old(Contents()), PutSupervisor(s), fate)
      ensures ok == Continues(old(Contents()), PutSupervisor(s), fate)
    {
      if fate != Fails { supervisor := s; }
      ok := fate == Persists;
    }

    /** archiveNativeCanaryFile for the report: an existing archive must be the same file. */
    method ArchiveReportFile(key: Key, r: Report, fate: Fate) returns (ok: bool)
      modifies this`archivedReports
      ensures Contents() == Effect(old(Contents()), ArchiveReport(key, r), fate)
      ensures ok == Continues(old(Contents()), ArchiveReport(key, r), fate)
    {
      if key in archivedReports {
        return archivedReports[key] == r && fate == Persists;
      }
      if fate != Fails { archivedReports := archivedReports[key := r]; }
      ok := fate == Persists;
    }

    method ArchiveStateFile(key: Key, s: Supervisor, fate: Fate) returns (ok: bool)
      modifies this`archivedStates
      ensures Contents() == Effect(old(Contents()), ArchiveState(key, s), fate)
      ensures ok == Continues(old(Contents()), ArchiveState(key, s), fate)
    {
      if key in archivedStates {
        return archivedStates[key] == s && fate == Persists;
      }
      if fate != Fails { archivedStates := archivedStates[key := s]; }
      ok := fate == Persists;
    }

    method WriteHistory(key: Key, h: History, fate: Fate) returns (ok: bool)
      modifies this`history
      ensures Contents() == Effect(old(Contents()), PutHistory(key, h), fate)
      ensures ok == Continues(old(Contents()), PutHistory(key, h), fate)
    {
      if key in history {
        return SameHistory(history[key], h) && fate == Persists;
      }
      if fate != Fails { history := history[key := h]; }
      ok := fate == Persists;
    }

    method RemoveReportFile(r: Report, fate: Fate) returns (ok: bool)
      modifies this`report
      ensures Contents() == Effect(old(Contents()), RemoveReport(r), fate)
      ensures ok == Continues(old(Contents()), RemoveReport(r), fate)
    {
      if report != Some(r) {
        return false;
      }
      if fate != Fails { report := None; }
      ok := fate == Persists;
    }

    method PublishReportFile(r: Report, fate: Fate) returns (ok: bool)
      modifies this`report
      ensures Contents() == Effect(old(Contents()), PublishReport(r), fate)
      ensures ok == Continues(old(Contents()), PublishReport(r), fate)
    {
      if report.Some? && report != Some(r) {
        return false;
      }
      if fate != Fails { report := Some(r); }
      ok := fate == Persists;
    }

    /** ledger.ConsumeDrain ignores the error of removing the sentinel. */
    method ConsumeDrainSentinel(fate: Fate)
      modifies this`drain
      ensures Contents() == Effect(old(Contents()), ConsumeDrain, fate)
    {
      if fate != Fails { drain := false; }
    }

    method ClearControlFile(fate: Fate) returns (ok: bool)
      modifies this`control
      ensures Contents() == Effect(old(Contents()), ClearControl, fate)
      ensures ok == Continues(old(Contents()), ClearControl, fate)
    {
      if fate != Fails { control := NO_CONTROL; }
      ok := fate == Persists;
    }

    // ---- promotion ---------------------------------------------------------------------------

    /** validatePassedNativeCanaryRequest. */
    method ValidatePassedRequest(project: string, c: CanaryState, req: Request) returns (ok: bool)
      ensures ok <==> RequestMatches(Contents(), project, c, req)
    {
      if CohortDigest(req.cohort) == Absent || CohortDigest(req.cohort) != c.cohortDigest || req.target != c.targetWidth {
        return false;
      }
      if registry.identity != c.registryIdentity {
        return false;
      }
      return project == registry.project && c.hardStop == [] && c.reportPath == FIXED_REPORT_PATH
        && report.Some? && Authentic(project, c, report.value);
    }

    /** completePassedNativeCanary for the canary `c` of the reconciled state `s`. */
    method CompletePassed(s: Supervisor, c: CanaryState, req: Request, fates: seq<Fate>)
      returns (ending: Ending, promoted: bool)
      modifies this
      ensures Ran(Contents(), ending) == RunPlan(old(Contents()), CompletionPlan(old(Contents()), s, c, req), fates)
      ensures promoted <==> ending == Success && old(registry.posture) == Migrated
    {
      hide RequestMatches;
      hide PromotionWrites;
      hide Exec;
      var valid := ValidatePassedRequest(s.project, c, req);
      if !valid {
        return Failure, false;
      }
      if marker.Some? && (marker.value.project != s.project
          || marker.value.canary.cohortDigest != c.cohortDigest
          || marker.value.canary.reportDigest != c.reportDigest) {
        return Failure, false;
      }
      var posture := registry.posture;
      PromotionShape(Contents(), s, c);
      var ok := WritePromotion(s, c, fates);
      ending := if ok then Success else Failure;
      promoted := ok && posture == Migrated;
    }

    /** The writes of completePassedNativeCanary. */
    method WritePromotion(s: Supervisor, c: CanaryState, fates: seq<Fate>) returns (ok: bool)
      modifies this
      ensures var (ws, completes) := PromotionWrites(old(Contents()), s, c);
        var o := Exec(old(Contents()), ws, fates);
        Contents() == o.disk && (ok <==> o.finished && completes)
    {
      var recoveringPending := marker.Some? && marker.value.status == Pending;
      var posture := registry.posture;
      var left := fates;
      ghost var rest := PromotionWrites(Contents(), s, c).0;
      PromotionShape(Contents(), s, c);
      hide *;
      NextWrite(Contents(), rest, left);
      ok := SaveMarker(Marker(s.project, Pending, c), Head(left));
      if !ok {
        return false;
      }
      left, rest := Tail(left), rest[1..];
      match posture {
        case Migrated =>
          NextWrite(Contents(), rest, left);
          ok := CompareAndSet(Migrated, ValidatedPosture, c.registryIdentity, Head(left));
          if !ok {
            return false;
          }
          left, rest := Tail(left), rest[1..];
        case ValidatedPosture =>
          if recoveringPending {
            NextWrite(Contents(), rest, left);
            ok := CompareAndSet(ValidatedPosture, ValidatedPosture, c.registryIdentity, Head(left));
            if !ok {
              return false;
            }
            left, rest := Tail(left), rest[1..];
          }
        case _ =>
          LastWrite(Contents(), left);
          return false;
      }
      NextWrite(Contents(), rest, left);
      ok := SaveState(Completed(s), Head(left));
      if !ok {
        return false;
      }
      left, rest := Tail(left), rest[1..];
      NextWrite(Contents(), rest, left);
      ok := SaveMarker(Marker(s.project, Validated, c), Head(left));
      LastWrite(Contents(), Tail(left));
    }

    /** reconcilePassedNativeCanary. */
    method ReconcilePassed(req: Request, fates: seq<Fate>) returns (ending: Ending, promoted: bool)
      modifies this
      ensures Ran(Contents(), ending) == RunPlan(old(Contents()), ReconcilePlan(old(Contents()), req), fates)
      ensures promoted <==> ending == Success && old(registry.posture) == Migrated
    {
      hide RequestMatches;
      hide CompletionPlan;
      hide Exec;
      if marker.Some? && !MarkerLoads(marker.value) {
        return Failure, false;
      }
      var archivedOnly := supervisor.canary.None?;
      var s := supervisor;
      if archivedOnly {
        if marker.None? {
          return Skipped, false;
        }
        s := s.(project := marker.value.project, canary := Some(marker.value.canary));
      }
      var c := s.canary.value;
      if c.decision != Passed {
        return Skipped, false;
      }
      if archivedOnly && marker.value.status == Validated {
        var valid := ValidatePassedRequest(s.project, c, req);
        LastWrite(Contents(), fates);
        if !valid || registry.posture != ValidatedPosture {
          return Failure, false;
        }
        return Success, false;
      }
      ending, promoted := CompletePassed(s, c, req, fates);
    }

    // ---- retirement --------------------------------------------------------------------------

    /** retireStaleNativeCanaryEvidence. */
    method RetireStale(project: string, s: Spec, opt: RetireOptions, m: Machine, fates: seq<Fate>) returns (ending: Ending)
      modifies this
      ensures Ran(Contents(), ending) == RunPlan(old(Contents()), RetirePlan(old(Contents()), project, s, opt, m), fates)
    {
      hide StateGeneration;
      hide SpecGeneration;
      hide Supersede;
      hide Retirable;
      hide Exec;
      hide RetireWrites;
      hide SameIdentity;
      var canary := supervisor.canary;
      var owner := supervisor.project;
      if marker.Some? {
        if !MarkerLoads(marker.value) {
          return Failure;
        }
        if canary.Some? && !SameIdentity(canary.value, marker.value.canary) {
          return Failure;
        }
        if owner != [] && marker.value.project != owner {
          return Failure;
        }
        if canary.None? {
          canary := Some(marker.value.canary);
        }
        owner := marker.value.project;
      }
      if canary.None? {
        return Skipped;
      }
      if owner != [] && owner != project {
        return Failure;
      }
      if canary.value.decision == Passed || marker.Some? {
        return Failure;
      }
      if !TerminalFailure(supervisor, canary.value, m) {
        return Failure;
      }
      if canary.value.reportPath != FIXED_REPORT_PATH || s.reportPath != FIXED_REPORT_PATH {
        return Failure;
      }
      var c := Upgraded(canary.value, s);
      var previous := StateGeneration(project, c);
      if previous.None? || (c.generation != Absent && c.generation != previous.value) {
        return Failure;
      }
      c := c.(generation := previous.value);
      if SpecGeneration(project, s) != Some(s.generation) {
        return Failure;
      }
      if c.generation == s.generation {
        return Skipped;
      }
      match Supersede(c, s, opt, m) {
        case Forbidden => return Failure;
        case Unneeded => return Skipped;
        case Allowed =>
      }
      var key := HistoryKey(project, c);
      var r := report;
      if r.None? {
        if key !in archivedReports {
          return Failure;
        }
        r := Some(archivedReports[key]);
      }
      if !r.value.consistent || !Retirable(project, c, c.generation, r.value) {
        return Failure;
      }
      var ok := WriteRetirement(project, c, s, m, r.value, fates);
      ending := if ok then Success else Failure;
    }

    /** The writes of retireStaleNativeCanaryEvidence. */
    method WriteRetirement(project: string, c: CanaryState, s: Spec, m: Machine, r: Report, fates: seq<Fate>)
      returns (ok: bool)
      requires report.Some? ==> report.value == r
      modifies this
      ensures var o := Exec(old(Contents()), RetireWrites(old(Contents()), project, c, s, m, r), fates);
        Contents() == o.disk && ok == o.finished
    {
      var key := HistoryKey(project, c);
      var record := HistoryRecord(project, c, s, m.now, supervisor, r);
      var left := fates;
      var state := supervisor;
      ghost var tail := ReleaseWrites(Contents(), r);
      ghost var d := Contents();
      var sourcePresent := report.Some?;
      assert d.supervisor == state && d.report.Some? == sourcePresent;
      hide *;
      RetirementShape(d, project, c, s, m, r);
      ExecStep(d, ArchiveReport(key, r), [ArchiveState(key, state)] + ([PutHistory(key, record)] + tail), left);
      ok := ArchiveReportFile(key, r, Head(left));
      if !ok {
        return;
      }
      left := Tail(left);
      ExecStep(Contents(), ArchiveState(key, state), [PutHistory(key, record)] + tail, left);
      ok := ArchiveStateFile(key, state, Head(left));
      if !ok {
        return;
      }
      left := Tail(left);
      ExecStep(Contents(), PutHistory(key, record), tail, left);
      ok := WriteHistory(key, record, Head(left));
      if !ok {
        return;
      }
      left := Tail(left);
      ReleaseShape(d, r);
      if sourcePresent {
        ExecStep(Contents(), RemoveReport(r), [ConsumeDrain, ClearControl, PutSupervisor(Reset(state))], left);
        ok := RemoveReportFile(r, Head(left));
        if !ok {
          return;
        }
        left := Tail(left);
      }
      ok := WriteReset(Reset(state), left);
    }

    /** The last writes of a retirement: sentinels first, the checkpoint last. */
    method WriteReset(s: Supervisor, fates: seq<Fate>) returns (ok: bool)
      modifies this
      ensures var o := Exec(old(Contents()), [ConsumeDrain, ClearControl, PutSupervisor(s)], fates);
        Contents() == o.disk && ok == o.finished
    {
      var left := fates;
      ghost var rest := [ConsumeDrain, ClearControl, PutSupervisor(s)];
      NextWrite(Contents(), rest, left);
      DrainGoesOn(Contents(), Head(left));
      hide *;
      ConsumeDrainSentinel(Head(left));
      left, rest := Tail(left), rest[1..];
      NextWrite(Contents(), rest, left);
      ok := ClearControlFile(Head(left));
      if !ok {
        return;
      }
      left, rest := Tail(left), rest[1..];
      NextWrite(Contents(), rest, left);
      ok := SaveState(s, Head(left));
      LastWrite(Contents(), Tail(left));
    }

    // ---- rollover of an empty canary -----------------------------------------------------------

    /** rolloverStoppedEmptyNativeCanary. */
    method RolloverEmpty(project: string, s: Spec, m: Machine, fates: seq<Fate>) returns (ending: Ending)
      modifies this
      ensures Ran(Contents(), ending) == RunPlan(old(Contents()), RolloverPlan(old(Contents()), project, s, m), fates)
    {
      hide StateGeneration;
      hide SpecGeneration;
      hide SupersededBinary;
      if supervisor.canary.None? || supervisor.canary.value.decision != Undecided {
        return Skipped;
      }
      var c := supervisor.canary.value;
      if supervisor.project != [] && supervisor.project != project {
        return Failure;
      }
      if StateGeneration(project, c) != Some(c.generation) || SpecGeneration(project, s) != Some(s.generation) {
        return Failure;
      }
      if c.generation == s.generation {
        return Skipped;
      }
      if supervisor.mode != Stopped || supervisor.pid in m.alive || !EvidenceEmpty(c) {
        return Failure;
      }
      if c.reportPath == FIXED_REPORT_PATH && report.Some? {
        return Failure;
      }
      if !SupersededBinary(project, c, s, m) {
        return Failure;
      }
      var reset := Reset(supervisor);
      ghost var ws := [ConsumeDrain, PutSupervisor(reset)];
      NextWrite(Contents(), ws, fates);
      DrainGoesOn(Contents(), Head(fates));
      ConsumeDrainSentinel(Head(fates));
      NextWrite(Contents(), ws[1..], Tail(fates));
      var ok := SaveState(reset, Head(Tail(fates)));
      LastWrite(Contents(), Tail(Tail(fates)));
      ending := if ok then Success else Failure;
    }

    // ---- finalizing an interrupted canary ------------------------------------------------------

    /** finalizeStoppedNativeCanaryIntervention, with the ledger's and the publisher's answers in `k`. */
    method FinalizeInterrupted(project: string, s: Spec, m: Machine, k: Containment, fates: seq<Fate>) returns (ending: Ending)
      modifies this
      ensures Ran(Contents(), ending) == RunPlan(old(Contents()), FinalizePlan(old(Contents()), project, s, m, k), fates)
    {
      hide StateGeneration;
      hide SpecGeneration;
      hide SupersededBinary;
      if supervisor.canary.None? || supervisor.canary.value.decision != Undecided || supervisor.canary.value.runIDs == [] {
        return Skipped;
      }
      var c := supervisor.canary.value;
      if StateGeneration(project, c) != Some(c.generation) || SpecGeneration(project, s) != Some(s.generation) {
        return Failure;
      }
      if c.generation == s.generation {
        return Skipped;
      }
      if supervisor.project != [] && supervisor.project != project {
        return Failure;
      }
      if supervisor.mode != Stopped || supervisor.pid in m.alive || (!control.stop && !control.drain) {
        return Failure;
      }
      if !SupersededBinary(project, c, s, m) || !k.allTerminal || !k.aborted {
        return Failure;
      }
      if c.hardStop != [] && c.hardStop != OPERATOR_INTERVENTION {
        return Failure;
      }
      ending := WriteFinalization(supervisor, Ended(supervisor, c, m.now), m, k, fates);
    }

    method WriteFinalization(state: Supervisor, ended: CanaryState, m: Machine, k: Containment, fates: seq<Fate>)
      returns (ending: Ending)
      modifies this
      ensures Ran(Contents(), ending) == RunPlan(old(Contents()), FinalizeWrites(state, ended, m, k), fates)
    {
      ghost var ws := FinalizeWrites(state, ended, m, k).writes;
      NextWrite(Contents(), ws, fates);
      var ok := SaveState(Tripped(state, ended), Head(fates));
      if !ok {
        return Failure;
      }
      if k.published.None? {
        LastWrite(Contents(), Tail(fates));
        return Failure;
      }
      var r := k.published.value;
      NextWrite(Contents(), ws[1..], Tail(fates));
      ok := PublishReportFile(r, Head(Tail(fates)));
      if !ok {
        return Failure;
      }
      if r.passed {
        LastWrite(Contents(), Tail(Tail(fates)));
        return Failure;
      }
      NextWrite(Contents(), ws[2..], Tail(Tail(fates)));
      ok := SaveState(Tripped(state, Decided(ended, r, m.now)), Head(Tail(Tail(fates))));
      LastWrite(Contents(), Tail(Tail(Tail(fates))));
      ending := if ok then Success else Failure;
    }
  }

  lemma RetirementShape(d: Disk, project: string, c: CanaryState, s: Spec, m: Machine, r: Report)
    ensures RetireWrites(d, project, c, s, m, r) ==
      var key := HistoryKey(project, c);
      [ArchiveReport(key, r)] + ([ArchiveState(key, d.supervisor)]
        + ([PutHistory(key, HistoryRecord(project, c, s, m.now, d.supervisor, r))] + ReleaseWrites(d, r)))
  {
  }

  lemma ReleaseShape(d: Disk, r: Report)
    ensures ReleaseWrites(d, r) ==
      var reset := [ConsumeDrain, ClearControl, PutSupervisor(Reset(d.supervisor))];
      if d.report.Some? then [RemoveReport(r)] + reset else reset
  {
  }

  lemma DrainGoesOn(d: Disk, f: Fate)
    ensures Continues(d, ConsumeDrain, f)
  {
  }

  lemma NextWrite(d: Disk, ws: seq<Write>, fates: seq<Fate>)
    requires ws != []
    ensures Exec(d, ws, fates) ==
      if Continues(d, ws[0], Head(fates)) then Exec(Effect(d, ws[0], Head(fates)), ws[1..], Tail(fates))
      else Outcome(Effect(d, ws[0], Head(fates)), false)
  {
  }

  lemma LastWrite(d: Disk, fates: seq<Fate>)
    ensures Exec(d, [], fates) == Outcome(d, true)
  {
  }
}
