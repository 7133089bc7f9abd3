/** Retirement of a failed canary can be replayed after any crash, under the same spec. */
module Retirement {
  import opened Options
  import opened Strings
  import opened IdLists
  import opened Canary
  import opened DurableWrites
  import opened CanaryPlans

  /** One retirement: the disk it starts from, what it is asked to do, and the canary and report it
      retires. */
  datatype Job = Job(start: Disk, project: string, spec: Spec, opt: RetireOptions, canary: CanaryState, report: Report)

  function JobKey(j: Job): Key { HistoryKey(j.project, j.canary) }

  function Record(j: Job, now: Stamp): History {
    HistoryRecord(j.project, j.canary, j.spec, now, j.start.supervisor, j.report)
  }

  function PlanFor(j: Job, d: Disk, m: Machine): Plan { RetirePlan(d, j.project, j.spec, j.opt, m) }

  /** The retirement goes ahead on its start. */
  ghost predicate Due(j: Job, m: Machine) {
    && j.start.marker == None
    && RetireSubject(j.start.supervisor, j.project, j.spec, j.opt, m) == Stale(j.canary)
    && RetiredReport(j.start, JobKey(j)) == Some(j.report)
    && j.report.consistent && Retirable(j.project, j.canary, j.canary.generation, j.report)
  }

  /** No archive or record of something else stands where this retirement writes. */
  predicate NoConflict(j: Job) {
    && Enabled(j.start, ArchiveReport(JobKey(j), j.report))
    && Enabled(j.start, ArchiveState(JobKey(j), j.start.supervisor))
    && Enabled(j.start, PutHistory(JobKey(j), Record(j, Unset)))
  }

  function Keep<K, V>(m: map<K, V>, k: K, v: V): map<K, V> { if k in m then m else m[k := v] }

  /** The disk once the retirement got as far as step `n`: report archived, state archived, history
      written at `now`, report path released, control cleared, checkpoint reset. The drain sentinel
      goes its own way, since its removal may fail silently. */
  function Stage(j: Job, n: nat, now: Stamp, drain: bool): Disk {
    var key := JobKey(j);
    j.start.(
      archivedReports := if n >= 1 then Keep(j.start.archivedReports, key, j.report) else j.start.archivedReports,
      archivedStates := if n >= 2 then Keep(j.start.archivedStates, key, j.start.supervisor) else j.start.archivedStates,
      history := if n >= 3 then Keep(j.start.history, key, Record(j, now)) else j.start.history,
      report := if n >= 4 then None else j.start.report,
      control := if n >= 5 then NO_CONTROL else j.start.control,
      supervisor := if n >= 6 then Reset(j.start.supervisor) else j.start.supervisor,
      drain := drain)
  }

  // ---- one run of the writes -----------------------------------------------------------------

  /** The writes of a retirement run at `now`, numbered by the step they complete. */
  function Step(j: Job, n: nat, now: Stamp): Write
    requires 1 <= n <= 6
  {
    if n == 1 then ArchiveReport(JobKey(j), j.report)
    else if n == 2 then ArchiveState(JobKey(j), j.start.supervisor)
    else if n == 3 then PutHistory(JobKey(j), Record(j, now))
    else if n == 4 then RemoveReport(j.report)
    else if n == 5 then ClearControl
    else PutSupervisor(Reset(j.start.supervisor))
  }

  /** Step `i` on a disk that is at step `n`, `i - 1` or further: it is enabled, a no-op if already
      done, and brings the disk to step `i` if it persists. */
  lemma StepEffect(j: Job, n: nat, now: Stamp, drain: bool, i: nat, later: Stamp)
    requires NoConflict(j) && 1 <= i <= 6 && i != 4 && i - 1 <= n <= 5
    ensures var d := Stage(j, n, now, drain);
      var m := if n >= i then n else i;
      var stamp := if n >= 3 then now else later;
      && Enabled(d, Step(j, i, later))
      && (forall committed :: Apply(d, Step(j, i, later), committed) == Stage(j, m, stamp, drain))
  {
    RecordsAlike(j, later);
    StampsApart(j, now, later);
    hide Record;
    hide SameHistory;
    hide Reset;
    hide JobKey;
  }

  lemma StampsApart(j: Job, a: Stamp, b: Stamp)
    ensures SameHistory(Record(j, a), Record(j, b))
  {
    RecordAt(j, a);
    RecordAt(j, b);
    hide Record;
  }

  lemma RemoveEffect(j: Job, now: Stamp, drain: bool, later: Stamp)
    requires j.start.report == Some(j.report)
    ensures var d := Stage(j, 3, now, drain);
      Enabled(d, RemoveReport(j.report)) && forall committed :: Apply(d, RemoveReport(j.report), committed) == Stage(j, 4, now, drain)
  {
  }

  /** Without a live report, releasing the report path is no step at all. */
  lemma NothingToRelease(j: Job, now: Stamp, drain: bool)
    requires j.start.report == None
    ensures Stage(j, 3, now, drain) == Stage(j, 4, now, drain)
  {
  }

  lemma DrainEffect(j: Job, n: nat, now: Stamp, drain: bool, f: Fate)
    ensures var d := Stage(j, n, now, drain);
      Effect(d, ConsumeDrain, f) == Stage(j, n, now, drain && f == Fails) && Continues(d, ConsumeDrain, f)
  {
  }

  /** A disk the retirement can be at, with a drain sentinel only if there was one. */
  ghost predicate Underway(j: Job, d: Disk) {
    exists n: nat, now, drain :: IsAt(j, d, n, now, drain)
  }

  /** The drain sentinel is touched only after the report path is released, and never set. */
  predicate DrainOk(j: Job, n: nat, drain: bool) {
    drain == j.start.drain || (n >= 4 && !drain)
  }

  ghost predicate IsAt(j: Job, d: Disk, n: nat, now: Stamp, drain: bool) {
    n <= 6 && d == Stage(j, n, now, drain) && DrainOk(j, n, drain)
  }

  lemma ApplyFate(d: Disk, w: Write, f: Fate, e: Disk)
    requires Enabled(d, w) && !w.ConsumeDrain? && forall committed :: Apply(d, w, committed) == e
    ensures Effect(d, w, f) == if f == Fails then d else e
    ensures Continues(d, w, f) <==> f == Persists
  {
  }

  /** Clearing the control sidecar and resetting the checkpoint, after the drain was dealt with. */
  lemma ResetRun(j: Job, n: nat, now: Stamp, drain: bool, fates: seq<Fate>)
    requires NoConflict(j) && 4 <= n <= 5 && DrainOk(j, n, drain)
    ensures var o := Exec(Stage(j, n, now, drain), [ClearControl, PutSupervisor(Reset(j.start.supervisor))], fates);
      && Underway(j, o.disk)
      && (o.finished ==> o.disk == Stage(j, 6, now, drain))
      && (fates == [] ==> o.finished)
  {
    hide *;
    var d, e := Stage(j, n, now, drain), Stage(j, 5, now, drain);
    var put := PutSupervisor(Reset(j.start.supervisor));
    LateSteps(j, now);
    StepEffect(j, n, now, drain, 5, now);
    ApplyFate(d, ClearControl, Head(fates), e);
    StepEffect(j, 5, now, drain, 6, now);
    ApplyFate(e, put, Head(Tail(fates)), Stage(j, 6, now, drain));
    AtStage(j, n, now, drain);
    DrainLater(j, n, 5, drain, Persists);
    DrainLater(j, n, 6, drain, Persists);
    AtStage(j, 5, now, drain);
    AtStage(j, 6, now, drain);
    HeadOfNone();
    ExecStep(d, ClearControl, [put], fates);
    ExecStep(e, put, [], Tail(fates));
    ExecNone(Stage(j, 6, now, drain), Tail(Tail(fates)));
    assert [ClearControl] + [put] == [ClearControl, put] && [put] + [] == [put];
  }

  lemma LateSteps(j: Job, now: Stamp)
    ensures Step(j, 5, now) == ClearControl && Step(j, 6, now) == PutSupervisor(Reset(j.start.supervisor))
  {
  }

  lemma AtStage(j: Job, n: nat, now: Stamp, drain: bool)
    requires n <= 6 && DrainOk(j, n, drain)
    ensures IsAt(j, Stage(j, n, now, drain), n, now, drain) && Underway(j, Stage(j, n, now, drain))
  {
    hide Stage;
  }

  lemma DrainLater(j: Job, n: nat, m: nat, drain: bool, f: Fate)
    requires 4 <= n <= m && DrainOk(j, n, drain)
    ensures DrainOk(j, m, drain) && DrainOk(j, m, drain && f == Fails)
  {
  }

  lemma ExecNone(d: Disk, fates: seq<Fate>)
    ensures Exec(d, [], fates) == Outcome(d, true)
  {
  }

  lemma SentinelRun(j: Job, n: nat, now: Stamp, drain: bool, fates: seq<Fate>)
    requires NoConflict(j) && 4 <= n <= 5 && DrainOk(j, n, drain)
    ensures var o := Exec(Stage(j, n, now, drain), [ConsumeDrain, ClearControl, PutSupervisor(Reset(j.start.supervisor))], fates);
      && Underway(j, o.disk)
      && (o.finished ==> o.disk == Stage(j, 6, now, drain && Head(fates) == Fails))
      && (Tail(fates) == [] ==> o.finished)
  {
    hide *;
    var rest := [ClearControl, PutSupervisor(Reset(j.start.supervisor))];
    DrainEffect(j, n, now, drain, Head(fates));
    DrainLater(j, n, n, drain, Head(fates));
    ResetRun(j, n, now, drain && Head(fates) == Fails, Tail(fates));
    assert [ConsumeDrain] + rest == [ConsumeDrain, ClearControl, PutSupervisor(Reset(j.start.supervisor))];
    ExecStep(Stage(j, n, now, drain), ConsumeDrain, rest, fates);
  }

  /** The writes after the archives, planned on a disk that was at step `p`. */
  lemma ReleaseRun(j: Job, p: nat, n: nat, now: Stamp, drain: bool, fates: seq<Fate>)
    requires NoConflict(j) && p <= n <= 5 && 3 <= n && (n > 3 ==> p == n) && DrainOk(j, n, drain)
    requires j.start.report.Some? ==> j.start.report.value == j.report
    ensures var o := Exec(Stage(j, n, now, drain), ReleaseWrites(Stage(j, p, now, drain), j.report), fates);
      && Underway(j, o.disk)
      && (o.finished ==> exists left :: o.disk == Stage(j, 6, now, left) && DrainOk(j, 6, left))
      && (fates == [] ==> o == Outcome(Stage(j, 6, now, false), true))
  {
    var d := Stage(j, n, now, drain);
    var reset := [ConsumeDrain, ClearControl, PutSupervisor(Reset(j.start.supervisor))];
    HeadOfNone();
    if n == 3 && j.start.report.Some? {
      RemoveEffect(j, now, drain, now);
      ApplyFate(d, RemoveReport(j.report), Head(fates), Stage(j, 4, now, drain));
      SentinelRun(j, 4, now, drain, Tail(fates));
      assert IsAt(j, Stage(j, 3, now, drain), 3, now, drain);
      assert IsAt(j, Stage(j, 4, now, drain), 4, now, drain);
      assert ReleaseWrites(Stage(j, p, now, drain), j.report) == [RemoveReport(j.report)] + reset;
      hide *;
      ExecStep(d, RemoveReport(j.report), reset, fates);
    } else {
      if n == 3 { NothingToRelease(j, now, drain); }
      SentinelRun(j, if n == 3 then 4 else n, now, drain, fates);
      assert ReleaseWrites(Stage(j, p, now, drain), j.report) == reset;
      hide *;
    }
  }

  /** A whole run, planned and carried out on a disk that is at step `p`. */
  lemma WholeRun(j: Job, p: nat, now: Stamp, drain: bool, m: Machine, fates: seq<Fate>)
    requires NoConflict(j) && p <= 5 && DrainOk(j, p, drain)
    requires RetiredReport(j.start, JobKey(j)) == Some(j.report)
    ensures var d := Stage(j, p, now, drain);
      var o := Exec(d, RetireWrites(d, j.project, j.canary, j.spec, m, j.report), fates);
      var stamp := if p >= 3 then now else m.now;
      && Underway(j, o.disk)
      && (o.finished ==> exists left :: o.disk == Stage(j, 6, stamp, left) && DrainOk(j, 6, left))
      && (fates == [] ==> o == Outcome(Stage(j, 6, stamp, false), true))
  {
    var d := Stage(j, p, now, drain);
    var later := m.now;
    var stamp := if p >= 3 then now else later;
    var tail := ReleaseWrites(d, j.report);
    var n1, n2, n3 := if p >= 1 then p else 1, if p >= 2 then p else 2, if p >= 3 then p else 3;
    var f1, f2 := Tail(fates), Tail(Tail(fates));
    StepRun(j, p, now, drain, 1, later, [Step(j, 2, later)] + ([Step(j, 3, later)] + tail), fates);
    StepRun(j, n1, stamp, drain, 2, later, [Step(j, 3, later)] + tail, f1);
    StepRun(j, n2, stamp, drain, 3, later, tail, f2);
    EarlyStamp(j, p, now, stamp, drain);
    assert d == Stage(j, p, stamp, drain);
    ReleaseRun(j, p, n3, stamp, drain, Tail(f2));
    HeadOfNone();
    assert RetireWrites(d, j.project, j.canary, j.spec, m, j.report)
        == [Step(j, 1, later)] + ([Step(j, 2, later)] + ([Step(j, 3, later)] + tail));
    hide *;
  }

  /** One of the archiving steps and what follows it. */
  lemma StepRun(j: Job, n: nat, now: Stamp, drain: bool, i: nat, later: Stamp, rest: seq<Write>, fates: seq<Fate>)
    requires NoConflict(j) && 1 <= i <= 3 && i - 1 <= n <= 5 && DrainOk(j, n, drain)
    ensures var o := Exec(Stage(j, n, now, drain), [Step(j, i, later)] + rest, fates);
      && (Head(fates) == Persists ==>
            o == Exec(Stage(j, if n >= i then n else i, if n >= 3 then now else later, drain), rest, Tail(fates)))
      && (Head(fates) != Persists ==> !o.finished && Underway(j, o.disk))
  {
    hide *;
    var d := Stage(j, n, now, drain);
    var m, stamp := if n >= i then n else i, if n >= 3 then now else later;
    ArchivingStep(j, i, later);
    StepEffect(j, n, now, drain, i, later);
    ApplyFate(d, Step(j, i, later), Head(fates), Stage(j, m, stamp, drain));
    AtStage(j, n, now, drain);
    DrainStill(j, n, m, drain);
    AtStage(j, m, stamp, drain);
    ExecStep(d, Step(j, i, later), rest, fates);
  }

  lemma ArchivingStep(j: Job, i: nat, now: Stamp)
    requires 1 <= i <= 3
    ensures !Step(j, i, now).ConsumeDrain?
  {
  }

  lemma DrainStill(j: Job, n: nat, m: nat, drain: bool)
    requires n <= m && DrainOk(j, n, drain)
    ensures DrainOk(j, m, drain)
  {
  }

  /** Before the history is written the stamp does not show. */
  lemma EarlyStamp(j: Job, n: nat, now: Stamp, stamp: Stamp, drain: bool)
    requires n >= 3 ==> now == stamp
    ensures Stage(j, n, now, drain) == Stage(j, n, stamp, drain)
  {
  }

  // ---- replays -------------------------------------------------------------------------------

  /** The plan reads the marker, the checkpoint and the report to retire, and nothing else. */
  lemma PlanWhere(j: Job, d: Disk, m: Machine)
    requires Due(j, m) && d.marker == None && d.supervisor == j.start.supervisor
    requires RetiredReport(d, JobKey(j)) == Some(j.report)
    ensures PlanFor(j, d, m) == Do(RetireWrites(d, j.project, j.canary, j.spec, m, j.report), true)
  {
    hide RetireSubject;
    hide Retirable;
    hide RetireWrites;
  }

  /** At every step before the last the retirement is planned again, from the archived report if the
      live one is gone. */
  lemma PlanUnderway(j: Job, p: nat, now: Stamp, drain: bool, m: Machine)
    requires Due(j, m) && NoConflict(j) && p <= 5
    ensures var d := Stage(j, p, now, drain);
      PlanFor(j, d, m) == Do(RetireWrites(d, j.project, j.canary, j.spec, m, j.report), true)
  {
    hide RetireSubject;
    hide Retirable;
    hide Record;
    PlanWhere(j, Stage(j, p, now, drain), m);
    hide RetireWrites;
  }

  lemma PlanAtEnd(j: Job, now: Stamp, drain: bool, m: Machine)
    requires Due(j, m)
    ensures PlanFor(j, Stage(j, 6, now, drain), m) == Nothing
  {
    hide Record;
  }

  /** The clock plays no part in what is due. */
  lemma DueAnyTime(j: Job, m: Machine, now: Stamp)
    requires Due(j, m)
    ensures Due(j, m.(now := now))
  {
    hide StateGeneration;
    hide SpecGeneration;
    hide SameCohort;
    hide SamePolicy;
    hide SameEnvelope;
    hide Retirable;
  }

  /** Any number of attempts, each at its own time and under its own faults. */
  function Attempts(j: Job, m: Machine, runs: seq<(Stamp, seq<Fate>)>): Disk {
    if runs == [] then j.start
    else
      var before := Attempts(j, m, runs[..|runs| - 1]);
      var (now, fates) := runs[|runs| - 1];
      RunPlan(before, PlanFor(j, before, m.(now := now)), fates).disk
  }

  /** One attempt from any disk under way. */
  lemma OneAttempt(j: Job, d: Disk, n: nat, now: Stamp, drain: bool, m: Machine, fates: seq<Fate>)
    requires Due(j, m) && NoConflict(j) && IsAt(j, d, n, now, drain)
    ensures Underway(j, RunPlan(d, PlanFor(j, d, m), fates).disk)
    ensures fates == [] ==> (RunPlan(d, PlanFor(j, d, m), fates) ==
      if n == 6 then Ran(d, Skipped) else Ran(Stage(j, 6, if n >= 3 then now else m.now, false), Success))
  {
    hide *;
    DueReport(j, m);
    AtMeans(j, d, n, now, drain);
    if n == 6 {
      PlanAtEnd(j, now, drain, m);
      RunNothing(d, fates);
      AtStage(j, n, now, drain);
    } else {
      PlanUnderway(j, n, now, drain, m);
      WholeRun(j, n, now, drain, m, fates);
      RunWhole(d, RetireWrites(d, j.project, j.canary, j.spec, m, j.report), fates);
    }
  }

  lemma DueReport(j: Job, m: Machine)
    requires Due(j, m)
    ensures RetiredReport(j.start, JobKey(j)) == Some(j.report)
  {
    hide RetireSubject;
    hide Retirable;
  }

  lemma AtMeans(j: Job, d: Disk, n: nat, now: Stamp, drain: bool)
    requires IsAt(j, d, n, now, drain)
    ensures n <= 6 && d == Stage(j, n, now, drain) && DrainOk(j, n, drain)
  {
    hide Stage;
  }

  lemma RunNothing(d: Disk, fates: seq<Fate>)
    ensures RunPlan(d, Nothing, fates) == Ran(d, Skipped)
  {
  }

  lemma RunWhole(d: Disk, ws: seq<Write>, fates: seq<Fate>)
    ensures var o := Exec(d, ws, fates);
      RunPlan(d, Do(ws, true), fates) == Ran(o.disk, if o.finished then Success else Failure)
  {
  }

  lemma {:induction false} AttemptsUnderway(j: Job, m: Machine, runs: seq<(Stamp, seq<Fate>)>)
    requires Due(j, m) && NoConflict(j)
    ensures Underway(j, Attempts(j, m, runs))
  {
    hide Due;
    hide NoConflict;
    hide RunPlan;
    hide PlanFor;
    hide IsAt;
    StartsAt(j);
    if runs != [] {
      AttemptsUnderway(j, m, runs[..|runs| - 1]);
      var before := Attempts(j, m, runs[..|runs| - 1]);
      var n: nat, now, drain :| IsAt(j, before, n, now, drain);
      DueAnyTime(j, m, runs[|runs| - 1].0);
      OneAttempt(j, before, n, now, drain, m.(now := runs[|runs| - 1].0), runs[|runs| - 1].1);
      AttemptsStep(j, m, runs);
    }
  }

  lemma StartsAt(j: Job)
    ensures IsAt(j, j.start, 0, Unset, j.start.drain)
  {
  }

  lemma AttemptsStep(j: Job, m: Machine, runs: seq<(Stamp, seq<Fate>)>)
    requires runs != []
    ensures var before := Attempts(j, m, runs[..|runs| - 1]);
      Attempts(j, m, runs) ==
        RunPlan(before, PlanFor(j, before, m.(now := runs[|runs| - 1].0)), runs[|runs| - 1].1).disk
  {
  }

  /** Equal but for the times at which history records were first written. */
  ghost predicate SameUpToStamp(d: Disk, e: Disk) {
    && d == e.(history := d.history)
    && d.history.Keys == e.history.Keys
    && forall k | k in d.history :: SameHistory(d.history[k], e.history[k])
  }

  lemma StampsAlike(j: Job, a: Stamp, b: Stamp, drain: bool)
    ensures SameUpToStamp(Stage(j, 6, a, drain), Stage(j, 6, b, drain))
  {
  }

  /** Whether an uninterrupted retirement succeeds is known beforehand. */
  lemma UninterruptedIff(j: Job, m: Machine)
    requires Due(j, m)
    ensures RunPlan(j.start, PlanFor(j, j.start, m), []).ending == Success <==> NoConflict(j)
  {
    if NoConflict(j) {
      StartsAt(j);
      OneAttempt(j, j.start, 0, Unset, j.start.drain, m, []);
    } else {
      Conflicting(j, m);
    }
  }

  lemma Conflicting(j: Job, m: Machine)
    requires Due(j, m) && !NoConflict(j)
    ensures RunPlan(j.start, PlanFor(j, j.start, m), []).ending == Failure
  {
    hide *;
    var w1, w2, w3 := Step(j, 1, m.now), Step(j, 2, m.now), Step(j, 3, m.now);
    var tail := ReleaseWrites(j.start, j.report);
    var d1 := Effect(j.start, w1, Persists);
    var d2 := Effect(d1, w2, Persists);
    DueWrites(j, m);
    ConflictSeen(j, m.now);
    HeadOfNone();
    ExecStep(j.start, w1, [w2] + ([w3] + tail), []);
    ExecStep(d1, w2, [w3] + tail, []);
    ExecStep(d2, w3, tail, []);
    RunUnfinished(j.start, PlanFor(j, j.start, m));
  }

  lemma RunUnfinished(d: Disk, p: Plan)
    requires p.Do? && !Exec(d, p.writes, []).finished
    ensures RunPlan(d, p, []).ending == Failure
  {
  }

  lemma ConflictSeen(j: Job, now: Stamp)
    requires !NoConflict(j)
    ensures var d1 := Effect(j.start, Step(j, 1, now), Persists);
      var d2 := Effect(d1, Step(j, 2, now), Persists);
      !Continues(j.start, Step(j, 1, now), Persists) || !Continues(d1, Step(j, 2, now), Persists)
      || !Continues(d2, Step(j, 3, now), Persists)
  {
    RecordsAlike(j, now);
    hide SameHistory;
    hide Record;
    hide JobKey;
  }

  lemma RecordsAlike(j: Job, now: Stamp)
    ensures forall h :: SameHistory(h, Record(j, now)) == SameHistory(h, Record(j, Unset))
  {
    assert Record(j, now).(retiredAt := Unset) == Record(j, Unset);
    hide Record;
  }

  /** Retirement is replayable: whatever crashes and failed writes the attempts met, one complete run
      afterwards leaves the disk an uninterrupted retirement would have left, up to the retirement
      stamp, with one exception. The drain sentinel outlives the retirement exactly when an attempt
      had cleared the checkpoint and failed, unnoticed, to remove the sentinel. */
  lemma RetirementReplays(j: Job, m: Machine, runs: seq<(Stamp, seq<Fate>)>)
    requires Due(j, m) && RunPlan(j.start, PlanFor(j, j.start, m), []).ending == Success
    ensures var single := RunPlan(j.start, PlanFor(j, j.start, m), []).disk;
      var d := Attempts(j, m, runs);
      var last := RunPlan(d, PlanFor(j, d, m), []);
      && last.ending == (if d.supervisor.canary.None? then Skipped else Success)
      && !single.drain
      && (last.disk.drain <==> d.supervisor.canary.None? && d.drain)
      && (last.disk.drain ==> j.start.drain)
      && SameUpToStamp(last.disk.(drain := false), single)
  {
    UninterruptedIff(j, m);
    AttemptsUnderway(j, m, runs);
    var d := Attempts(j, m, runs);
    var n: nat, now, drain :| IsAt(j, d, n, now, drain);
    hide Attempts;
    hide RunPlan;
    StartsAt(j);
    OneAttempt(j, j.start, 0, Unset, j.start.drain, m, []);
    OneAttempt(j, d, n, now, drain, m, []);
    StampsAlike(j, if n >= 3 then now else m.now, m.now, false);
    CheckpointOf(j, n, now, drain, m);
    hide *;
  }

  lemma CheckpointOf(j: Job, n: nat, now: Stamp, drain: bool, m: Machine)
    requires Due(j, m) && n <= 6
    ensures Stage(j, n, now, drain).supervisor.canary.None? <==> n == 6
    ensures Stage(j, n, now, drain).drain == drain
    ensures Stage(j, n, now, drain).(drain := false) == Stage(j, n, now, false)
  {
  }

  /** What a complete retirement leaves: the evidence archived and recorded, the report path, the
      sentinels and the checkpoint released, everything else as it was. */
  lemma RetirementEnds(j: Job, m: Machine)
    requires Due(j, m) && NoConflict(j)
    ensures var key := JobKey(j);
      var r := RunPlan(j.start, PlanFor(j, j.start, m), []);
      var e := r.disk;
      && r.ending == Success
      && key in e.archivedReports && e.archivedReports[key] == j.report
      && key in e.archivedStates && e.archivedStates[key] == j.start.supervisor
      && key in e.history && SameHistory(e.history[key], Record(j, m.now))
      && e == j.start.(archivedReports := e.archivedReports, archivedStates := e.archivedStates, history := e.history,
           report := None, drain := false, control := NO_CONTROL, supervisor := Reset(j.start.supervisor))
      && e.archivedReports - {key} == j.start.archivedReports - {key}
      && e.archivedStates - {key} == j.start.archivedStates - {key} && e.history - {key} == j.start.history - {key}
  {
    hide RunPlan;
    hide PlanFor;
    StartsAt(j);
    OneAttempt(j, j.start, 0, Unset, j.start.drain, m, []);
    LastStage(j, m.now);
    hide *;
  }

  lemma LastStage(j: Job, now: Stamp)
    requires NoConflict(j)
    ensures var key := JobKey(j); var e := Stage(j, 6, now, false);
      && key in e.archivedReports && e.archivedReports[key] == j.report
      && key in e.archivedStates && e.archivedStates[key] == j.start.supervisor
      && key in e.history && SameHistory(e.history[key], Record(j, now))
      && e == j.start.(archivedReports := e.archivedReports, archivedStates := e.archivedStates, history := e.history,
           report := None, drain := false, control := NO_CONTROL, supervisor := Reset(j.start.supervisor))
      && e.archivedReports - {key} == j.start.archivedReports - {key}
      && e.archivedStates - {key} == j.start.archivedStates - {key} && e.history - {key} == j.start.history - {key}
  {
    RecordsAlike(j, now);
    StampsApart(j, now, now);
    hide Record;
    hide SameHistory;
    hide Reset;
    hide JobKey;
  }

  // ---- the exception, and the spec ------------------------------------------------------------

  /** The exception happens: a retirement whose only failure is the removal of the drain sentinel
      completes, and leaves the sentinel behind for good. */
  lemma DrainCanSurvive(j: Job, m: Machine)
    requires Due(j, m) && NoConflict(j) && j.start.report == Some(j.report) && j.start.drain
    ensures var fates := [Persists, Persists, Persists, Persists, Fails];
      RunPlan(j.start, PlanFor(j, j.start, m), fates) == Ran(Stage(j, 6, m.now, true), Success)
    ensures RunPlan(Stage(j, 6, m.now, true), PlanFor(j, Stage(j, 6, m.now, true), m), []).disk.drain
  {
    hide *;
    var t3 := [Persists] + [Fails];
    var t2 := [Persists] + t3;
    var t1 := [Persists] + t2;
    var fates := [Persists] + t1;
    assert fates == [Persists, Persists, Persists, Persists, Fails];
    var now := m.now;
    var release := ReleaseWrites(j.start, j.report);
    DueWrites(j, m);
    FatesOneByOne(t1);
    FatesOneByOne(t2);
    FatesOneByOne(t3);
    StepRun(j, 0, now, true, 1, now, [Step(j, 2, now)] + ([Step(j, 3, now)] + release), fates);
    StepRun(j, 1, now, true, 2, now, [Step(j, 3, now)] + release, t1);
    StepRun(j, 2, now, true, 3, now, release, t2);
    ReleaseKeepingDrain(j, now);
    RunFinished(j.start, PlanFor(j, j.start, m), fates);
    PlanAtEnd(j, now, true, m);
    RunNothing(Stage(j, 6, now, true), []);
    CheckpointOf(j, 6, now, true, m);
  }

  lemma DueWrites(j: Job, m: Machine)
    requires Due(j, m)
    ensures PlanFor(j, j.start, m) ==
      Do([Step(j, 1, m.now)] + ([Step(j, 2, m.now)] + ([Step(j, 3, m.now)] + ReleaseWrites(j.start, j.report))), true)
    ensures j.start == Stage(j, 0, m.now, j.start.drain)
    ensures DrainOk(j, 0, j.start.drain) && DrainOk(j, 1, j.start.drain) && DrainOk(j, 2, j.start.drain)
  {
    DueReport(j, m);
    DueUnmarked(j, m);
    PlanWhere(j, j.start, m);
    hide Due;
    hide PlanFor;
    hide HistoryRecord;
    hide ReleaseWrites;
    StartStage(j, m.now);
    hide Stage;
  }

  lemma DueUnmarked(j: Job, m: Machine)
    requires Due(j, m)
    ensures j.start.marker == None
  {
    hide RetireSubject;
    hide Retirable;
  }

  lemma StartStage(j: Job, now: Stamp)
    ensures j.start == Stage(j, 0, now, j.start.drain)
  {
  }

  lemma RunFinished(d: Disk, p: Plan, fates: seq<Fate>)
    requires p.Do? && p.completes && Exec(d, p.writes, fates).finished
    ensures RunPlan(d, p, fates) == Ran(Exec(d, p.writes, fates).disk, Success)
  {
  }

  lemma ReleaseKeepingDrain(j: Job, now: Stamp)
    requires NoConflict(j) && j.start.report == Some(j.report) && j.start.drain
    ensures Exec(Stage(j, 3, now, true), ReleaseWrites(j.start, j.report), [Persists] + [Fails])
         == Outcome(Stage(j, 6, now, true), true)
  {
    var reset := [ConsumeDrain, ClearControl, PutSupervisor(Reset(j.start.supervisor))];
    assert ReleaseWrites(j.start, j.report) == [RemoveReport(j.report)] + reset;
    RemoveEffect(j, now, true, now);
    ApplyFate(Stage(j, 3, now, true), RemoveReport(j.report), Persists, Stage(j, 4, now, true));
    SentinelRun(j, 4, now, true, [Fails]);
    assert Tail([Fails]) == [] && Head([Fails]) == Fails;
    hide *;
    FatesOneByOne([Fails]);
    ExecStep(Stage(j, 3, now, true), RemoveReport(j.report), reset, [Persists] + [Fails]);
  }

  lemma FatesOneByOne(t: seq<Fate>)
    ensures Head([Persists] + t) == Persists && Tail([Persists] + t) == t
  {
    assert ([Persists] + t)[1..] == t;
  }

  /** Two retirements of the same checkpoint, asked for under two specs. */
  ghost predicate SameCheckpoint(a: Job, b: Job) { a.start == b.start && a.project == b.project }

  /** The digests the checkpoint lacks, if any, are the same in both specs. */
  predicate AlikeDigests(a: Job, b: Job)
    requires a.start.supervisor.canary.Some?
  {
    var c := a.start.supervisor.canary.value;
    && (c.autonomyPolicy != Absent || a.spec.autonomyPolicy == b.spec.autonomyPolicy)
    && (c.executionPolicy != Absent || a.spec.executionPolicy == b.spec.executionPolicy)
  }

  /** Two retirements of one checkpoint that fill it in alike. */
  ghost predicate SameCase(a: Job, b: Job) {
    SameCheckpoint(a, b) && a.canary == b.canary && a.report == b.report
  }

  /** What a due job retires is the checkpoint's canary, filled in from its spec. */
  lemma CanaryOf(j: Job, m: Machine)
    requires Due(j, m)
    ensures j.start.supervisor.canary.Some?
    ensures j.canary == Upgraded(j.start.supervisor.canary.value, j.spec).(generation := j.canary.generation)
    ensures StateGeneration(j.project, j.canary) == Some(j.canary.generation)
    ensures SpecGeneration(j.project, j.spec) == Some(j.spec.generation)
    ensures RetiredReport(j.start, JobKey(j)) == Some(j.report)
  {
    hide SpecGeneration;
    hide Supersede;
    hide Retirable;
    hide TerminalFailure;
  }

  lemma SpecDigestsPresent(project: string, s: Spec)
    requires SpecGeneration(project, s).Some?
    ensures s.autonomyPolicy != Absent && s.executionPolicy != Absent
  {
    hide Normalize;
    hide TrimSpace;
    hide ValidCommit;
    hide Blank;
    hide HardStops;
  }

  lemma GenerationNamesPolicies(project: string, c: CanaryState, d: CanaryState)
    requires StateGeneration(project, c).Some? && StateGeneration(project, c) == StateGeneration(project, d)
    ensures c.autonomyPolicy == d.autonomyPolicy && c.executionPolicy == d.executionPolicy
  {
    hide Normalize;
    hide TrimSpace;
    hide ValidCommit;
    hide Blank;
    hide HardStops;
  }

  /** Whether two specs retire the same canary can be told from the checkpoint and the specs; if they
      do not, they archive under different keys. */
  lemma SameCaseIff(a: Job, b: Job, m1: Machine, m2: Machine)
    requires SameCheckpoint(a, b) && Due(a, m1) && Due(b, m2)
    ensures a.start.supervisor.canary.Some?
    ensures AlikeDigests(a, b) <==> SameCase(a, b)
    ensures !AlikeDigests(a, b) ==> JobKey(a) != JobKey(b) && a.spec.generation != b.spec.generation
  {
    CanaryOf(a, m1);
    CanaryOf(b, m2);
    SpecDigestsPresent(a.project, a.spec);
    SpecDigestsPresent(b.project, b.spec);
    hide Due;
    hide SpecGeneration;
    hide StateGeneration;
    if AlikeDigests(a, b) {
      SameUpgrade(a, b);
    } else {
      if a.canary.generation == b.canary.generation { GenerationNamesPolicies(a.project, a.canary, b.canary); }
      if a.spec.generation == b.spec.generation { SameGenerationFields(a.project, a.spec, b.spec); }
    }
  }

  lemma SameUpgrade(a: Job, b: Job)
    requires a.start == b.start && a.project == b.project && a.start.supervisor.canary.Some? && AlikeDigests(a, b)
    requires a.canary == Upgraded(a.start.supervisor.canary.value, a.spec).(generation := a.canary.generation)
    requires b.canary == Upgraded(b.start.supervisor.canary.value, b.spec).(generation := b.canary.generation)
    requires StateGeneration(a.project, a.canary) == Some(a.canary.generation)
    requires StateGeneration(b.project, b.canary) == Some(b.canary.generation)
    ensures a.canary == b.canary
  {
    StateGenerationSkips(a.project, a.canary, b.canary.generation);
    hide StateGeneration;
  }

  /** The generation digest does not cover itself. */
  lemma StateGenerationSkips(project: string, c: CanaryState, generation: Digest)
    ensures StateGeneration(project, c) == StateGeneration(project, c.(generation := generation))
  {
    hide SpecGeneration;
  }

  /** A retirement interrupted after its history record was written goes on under another spec only
      if that spec gives the same record; otherwise it ends in an error and changes nothing. */
  lemma RetirementPinned(a: Job, b: Job, m: Machine, n: nat, now: Stamp, drain: bool)
    requires SameCase(a, b) && Due(b, m) && NoConflict(a) && 3 <= n <= 5 && DrainOk(a, n, drain)
    ensures var d := Stage(a, n, now, drain);
      var r := RunPlan(d, PlanFor(b, d, m), []);
      && (r.ending == Success <==> SameHistory(Record(a, Unset), Record(b, Unset)))
      && (r.ending != Success ==> r == Ran(d, Failure))
  {
    if SameHistory(Record(a, Unset), Record(b, Unset)) {
      SameRecordSameStages(a, b, n, now, drain);
      assert IsAt(b, Stage(a, n, now, drain), n, now, drain);
      OneAttempt(b, Stage(b, n, now, drain), n, now, drain, m, []);
    } else {
      PinnedElsewhere(a, b, m, n, now, drain);
    }
  }

  lemma SameRecordSameStages(a: Job, b: Job, n: nat, now: Stamp, drain: bool)
    requires SameCase(a, b) && SameHistory(Record(a, Unset), Record(b, Unset))
    ensures Stage(a, n, now, drain) == Stage(b, n, now, drain)
    ensures NoConflict(a) <==> NoConflict(b)
    ensures DrainOk(a, n, drain) <==> DrainOk(b, n, drain)
  {
    SameRecordAt(a, b, now);
    hide Record;
    hide SameHistory;
    hide NoConflict;
    hide Reset;
  }

  lemma SameRecordAt(a: Job, b: Job, now: Stamp)
    requires SameCase(a, b) && SameHistory(Record(a, Unset), Record(b, Unset))
    ensures JobKey(a) == JobKey(b) && Record(a, now) == Record(b, now)
    ensures NoConflict(a) <==> NoConflict(b)
  {
    RecordAt(a, now);
    RecordAt(b, now);
    hide Record;
    hide HistoryKey;
    hide SameHistory;
    JobKeyIs(a);
    JobKeyIs(b);
    AlikeMeans(Record(a, Unset), Record(b, Unset));
  }

  lemma JobKeyIs(j: Job)
    ensures JobKey(j) == HistoryKey(j.project, j.canary)
  {
  }

  lemma AlikeMeans(g: History, h: History)
    requires SameHistory(g, h)
    ensures g.(retiredAt := Unset) == h.(retiredAt := Unset)
  {
  }

  lemma RecordAt(j: Job, now: Stamp)
    ensures Record(j, now) == Record(j, Unset).(retiredAt := now)
    ensures Record(j, Unset).retiredAt == Unset
  {
    hide RolloverReason;
    hide PolicyRecord;
    hide CohortRecord;
  }

  lemma PinnedElsewhere(a: Job, b: Job, m: Machine, n: nat, now: Stamp, drain: bool)
    requires SameCase(a, b) && Due(b, m) && NoConflict(a) && 3 <= n <= 5 && DrainOk(a, n, drain)
    requires !SameHistory(Record(a, Unset), Record(b, Unset))
    ensures var d := Stage(a, n, now, drain); RunPlan(d, PlanFor(b, d, m), []) == Ran(d, Failure)
  {
    var d := Stage(a, n, now, drain);
    var w1, w2, w3 := Step(b, 1, m.now), Step(b, 2, m.now), Step(b, 3, m.now);
    var tail := ReleaseWrites(d, b.report);
    ArchivesInPlace(a, b, n, now, drain, m.now);
    PlanWhere(b, d, m);
    assert PlanFor(b, d, m) == Do([w1] + ([w2] + ([w3] + tail)), true);
    HeadOfNone();
    ExecStep(d, w1, [w2] + ([w3] + tail), []);
    ExecStep(d, w2, [w3] + tail, []);
    ExecStep(d, w3, tail, []);
    RunStopped(d, PlanFor(b, d, m), d);
    hide *;
  }

  lemma RunStopped(d: Disk, p: Plan, e: Disk)
    requires p.Do? && Exec(d, p.writes, []) == Outcome(e, false)
    ensures RunPlan(d, p, []) == Ran(e, Failure)
  {
  }

  lemma ArchivesInPlace(a: Job, b: Job, n: nat, now: Stamp, drain: bool, later: Stamp)
    requires SameCase(a, b) && NoConflict(a) && 3 <= n <= 5
    requires RetiredReport(b.start, JobKey(b)) == Some(b.report)
    requires !SameHistory(Record(a, Unset), Record(b, Unset))
    ensures var d := Stage(a, n, now, drain);
      && Effect(d, Step(b, 1, later), Persists) == d && Continues(d, Step(b, 1, later), Persists)
      && Effect(d, Step(b, 2, later), Persists) == d && Continues(d, Step(b, 2, later), Persists)
      && Effect(d, Step(b, 3, later), Persists) == d && !Continues(d, Step(b, 3, later), Persists)
      && RetiredReport(d, JobKey(b)) == Some(b.report) && d.marker == b.start.marker && d.supervisor == b.start.supervisor
  {
    hide Record;
    hide SameHistory;
    OtherRecordThere(a, b, n, now, drain, later);
  }

  lemma OtherRecordThere(a: Job, b: Job, n: nat, now: Stamp, drain: bool, later: Stamp)
    requires SameCase(a, b) && NoConflict(a) && 3 <= n <= 5
    requires !SameHistory(Record(a, Unset), Record(b, Unset))
    ensures var d := Stage(a, n, now, drain);
      JobKey(b) in d.history && !SameHistory(d.history[JobKey(b)], Record(b, later))
  {
    hide Record;
    RecordsAlike(a, now);
    RecordsAlike(b, later);
    assert SameHistory(Record(a, Unset), Record(a, now));
    var h := Stage(a, n, now, drain).history[JobKey(a)];
    assert SameHistory(h, Record(a, now));
  }

  /** A cohort as splitIDs delivers it. */
  ghost predicate NormalCohort(s: Spec) { Normalize(s.cohort) == s.cohort }

  /** The records agree exactly when the two specs name the same generation. */
  lemma SameRecordIff(a: Job, b: Job, m1: Machine, m2: Machine)
    requires SameCase(a, b) && Due(a, m1) && Due(b, m2) && NormalCohort(a.spec) && NormalCohort(b.spec)
    ensures SameHistory(Record(a, Unset), Record(b, Unset)) <==> a.spec.generation == b.spec.generation
  {
    hide Due;
    hide Record;
    hide SameHistory;
    hide NormalCohort;
    hide SameCohort;
    hide SamePolicy;
    hide BinaryUnchanged;
    hide BinaryAdvanced;
    hide PolicyRecord;
    hide CohortRecord;
    hide SpecGeneration;
    hide HardStops;
    hide Normalize;
    hide TrimSpace;
    SubjectFacts(a, m1);
    SubjectFacts(b, m2);
    RecordNames(a);
    RecordNames(b);
    if a.spec.generation == b.spec.generation {
      SameGenerationFields(a.project, a.spec, b.spec);
      NormalCohorts(a.spec, b.spec);
      SameBinary(a.canary, a.spec, b.spec, m1, m2);
      SameComparisons(a.canary, a.spec, b.spec);
      RecordDepends(a, b);
    }
  }

  lemma NormalCohorts(s: Spec, t: Spec)
    requires NormalCohort(s) && NormalCohort(t) && Normalize(s.cohort) == Normalize(t.cohort)
    ensures s.cohort == t.cohort
  {
  }

  lemma RecordNames(j: Job)
    ensures forall h :: SameHistory(h, Record(j, Unset)) ==> h.currentGeneration == j.spec.generation
    ensures Record(j, Unset).currentGeneration == j.spec.generation
  {
    hide RolloverReason;
    hide PolicyRecord;
    hide CohortRecord;
  }

  lemma RecordDepends(a: Job, b: Job)
    requires SameCase(a, b) && a.spec.generation == b.spec.generation
    requires a.spec.registryIdentity == b.spec.registryIdentity
    requires BinaryUnchanged(a.canary, a.spec) <==> BinaryUnchanged(b.canary, b.spec)
    requires SamePolicy(a.canary, a.spec) == SamePolicy(b.canary, b.spec)
    requires SameCohort(a.canary, a.spec) == SameCohort(b.canary, b.spec)
    requires PolicyRecord(a.canary, a.spec) == PolicyRecord(b.canary, b.spec)
    requires CohortRecord(a.canary, a.spec) == CohortRecord(b.canary, b.spec)
    ensures SameHistory(Record(a, Unset), Record(b, Unset))
  {
    hide SameCohort;
    hide SamePolicy;
    hide BinaryUnchanged;
    hide RolloverReason;
    hide PolicyRecord;
    hide CohortRecord;
  }

  lemma SameComparisons(c: CanaryState, s: Spec, t: Spec)
    requires s.contract == t.contract && s.autonomyPolicy == t.autonomyPolicy && s.executionPolicy == t.executionPolicy
    requires HardStops(s.hardStops) == HardStops(t.hardStops) && s.cohort == t.cohort
    ensures SamePolicy(c, s) == SamePolicy(c, t) && SameCohort(c, s) == SameCohort(c, t)
    ensures PolicyRecord(c, s) == PolicyRecord(c, t) && CohortRecord(c, s) == CohortRecord(c, t)
  {
    hide HardStops;
    hide SortStrings;
    hide CohortDigest;
  }

  lemma SubjectFacts(j: Job, m: Machine)
    requires Due(j, m)
    ensures SpecGeneration(j.project, j.spec) == Some(j.spec.generation)
    ensures BinaryUnchanged(j.canary, j.spec) || BinaryAdvanced(j.canary, j.spec, m)
  {
    hide StateGeneration;
    hide SpecGeneration;
    hide SameCohort;
    hide SamePolicy;
    hide SameEnvelope;
    hide Retirable;
    hide BinaryUnchanged;
    hide BinaryAdvanced;
  }

  lemma SameGenerationFields(project: string, s: Spec, t: Spec)
    requires SpecGeneration(project, s).Some? && SpecGeneration(project, s) == SpecGeneration(project, t)
    ensures s.contract == t.contract && s.registryIdentity == t.registryIdentity
    ensures s.autonomyPolicy == t.autonomyPolicy && s.executionPolicy == t.executionPolicy
    ensures HardStops(s.hardStops) == HardStops(t.hardStops) && Normalize(s.cohort) == Normalize(t.cohort)
    ensures TrimSpace(s.commit) == TrimSpace(t.commit)
  {
    hide Normalize;
    hide HardStops;
    hide TrimSpace;
    hide ValidCommit;
    hide Blank;
  }

  lemma SameBinary(c: CanaryState, s: Spec, t: Spec, m1: Machine, m2: Machine)
    requires BinaryUnchanged(c, s) || BinaryAdvanced(c, s, m1)
    requires BinaryUnchanged(c, t) || BinaryAdvanced(c, t, m2)
    requires TrimSpace(s.commit) == TrimSpace(t.commit)
    ensures BinaryUnchanged(c, s) <==> BinaryUnchanged(c, t)
  {
    if BinaryUnchanged(c, s) != BinaryUnchanged(c, t) {
      ValidCommitTrimmed(s.commit);
      ValidCommitTrimmed(t.commit);
    }
  }

  /** Where the specs agree on every digest the checkpoint lacks, an interrupted retirement can only be
      completed by the generation that began it; any other ends in an error and changes nothing. */
  lemma OnlySameGenerationResumes(a: Job, b: Job, m1: Machine, m2: Machine, n: nat, now: Stamp, drain: bool)
    requires SameCheckpoint(a, b) && Due(a, m1) && Due(b, m2) && NormalCohort(a.spec) && NormalCohort(b.spec)
    requires a.start.supervisor.canary.Some? && AlikeDigests(a, b)
    requires NoConflict(a) && 3 <= n <= 5 && DrainOk(a, n, drain)
    ensures var d := Stage(a, n, now, drain);
      var r := RunPlan(d, PlanFor(b, d, m2), []);
      && (r.ending == Success <==> a.spec.generation == b.spec.generation)
      && (r.ending != Success ==> r == Ran(d, Failure))
  {
    hide *;
    SameCaseIff(a, b, m1, m2);
    SameRecordIff(a, b, m1, m2);
    RetirementPinned(a, b, m2, n, now, drain);
  }

  /** The retirement `b` finds its own report on the disk another one left at step `n`, and nothing
      stands where it writes. */
  predicate OpenFor(b: Job, n: nat) {
    var r := RetiredReport(if n == 3 then b.start else b.start.(report := None), JobKey(b));
    r.Some? && r.value.consistent && Retirable(b.project, b.canary, b.canary.generation, r.value)
    && NoConflict(b.(report := r.value))
  }

  /** Where the specs differ in a digest the checkpoint lacks, they name the same checkpoint by two keys,
      and the second retirement goes ahead beside the first whenever its own report and archive places
      are there. */
  lemma OtherKeyResumesIff(a: Job, b: Job, m: Machine, n: nat, now: Stamp, drain: bool)
    requires SameCheckpoint(a, b) && Due(b, m) && JobKey(a) != JobKey(b) && b.start.marker == None
    requires 3 <= n <= 5
    ensures var d := Stage(a, n, now, drain);
      RunPlan(d, PlanFor(b, d, m), []).ending == Success <==> OpenFor(b, n)
  {
    hide *;
    var d := Stage(a, n, now, drain);
    BesideStage(a, b, n, now, drain);
    var r := RetiredReport(d, JobKey(b));
    DueBeside(b, d, m);
    OpenForMeans(b, n);
    if r.Some? && r.value.consistent && Retirable(b.project, b.canary, b.canary.generation, r.value) {
      var own := b.(start := d, report := r.value);
      PlanForOwn(b, own, d, m);
      UninterruptedIff(own, m);
      NoConflictBeside(b, own);
    }
  }

  lemma OpenForMeans(b: Job, n: nat)
    ensures var r := RetiredReport(if n == 3 then b.start else b.start.(report := None), JobKey(b));
      OpenFor(b, n) <==>
        (r.Some? && r.value.consistent && Retirable(b.project, b.canary, b.canary.generation, r.value)
         && NoConflict(b.(report := r.value)))
  {
  }

  lemma PlanForOwn(b: Job, own: Job, d: Disk, m: Machine)
    requires own == b.(start := own.start, report := own.report)
    ensures PlanFor(b, d, m) == PlanFor(own, d, m)
  {
    hide RetirePlan;
  }

  /** Two disks with the same archives and record under `k`. */
  predicate SamePlaces(d: Disk, e: Disk, k: Key) {
    && (k in d.archivedReports <==> k in e.archivedReports)
    && (k in d.archivedReports ==> d.archivedReports[k] == e.archivedReports[k])
    && (k in d.archivedStates <==> k in e.archivedStates)
    && (k in d.archivedStates ==> d.archivedStates[k] == e.archivedStates[k])
    && (k in d.history <==> k in e.history) && (k in d.history ==> d.history[k] == e.history[k])
  }

  /** What the first retirement leaves of the places the second one uses. */
  lemma BesideStage(a: Job, b: Job, n: nat, now: Stamp, drain: bool)
    requires SameCheckpoint(a, b) && JobKey(a) != JobKey(b) && 3 <= n <= 5
    ensures var d, k := Stage(a, n, now, drain), JobKey(b);
      && d.marker == b.start.marker && d.supervisor == b.start.supervisor
      && SamePlaces(d, b.start, k)
      && RetiredReport(d, k) == RetiredReport(if n == 3 then b.start else b.start.(report := None), k)
  {
    hide Record;
    hide JobKey;
  }

  /** The retirement `b` on another disk with the same checkpoint. */
  lemma DueBeside(b: Job, d: Disk, m: Machine)
    requires Due(b, m) && d.marker == None && d.supervisor == b.start.supervisor
    ensures var r := RetiredReport(d, JobKey(b));
      if r.Some? && r.value.consistent && Retirable(b.project, b.canary, b.canary.generation, r.value)
      then Due(b.(start := d, report := r.value), m)
      else RunPlan(d, PlanFor(b, d, m), []).ending == Failure
  {
    hide RetireSubject;
    hide Retirable;
    hide RetireWrites;
  }

  lemma NoConflictBeside(b: Job, own: Job)
    requires own == b.(start := own.start, report := own.report) && own.start.supervisor == b.start.supervisor
    requires SamePlaces(own.start, b.start, JobKey(b))
    ensures NoConflict(own) <==> NoConflict(b.(report := own.report))
  {
    var other := b.(report := own.report);
    JobKeyIs(own);
    JobKeyIs(other);
    JobKeyIs(b);
    RecordOf(own);
    RecordOf(other);
    SamePlacesEnable(own.start, b.start, ArchiveReport(JobKey(b), own.report), JobKey(b));
    SamePlacesEnable(own.start, b.start, ArchiveState(JobKey(b), b.start.supervisor), JobKey(b));
    SamePlacesEnable(own.start, b.start, PutHistory(JobKey(b), Record(own, Unset)), JobKey(b));
    hide Record;
    hide Enabled;
    hide SamePlaces;
    hide JobKey;
  }

  lemma RecordOf(j: Job)
    ensures Record(j, Unset) == HistoryRecord(j.project, j.canary, j.spec, Unset, j.start.supervisor, j.report)
  {
    hide HistoryRecord;
  }

  lemma SamePlacesEnable(d: Disk, e: Disk, w: Write, k: Key)
    requires SamePlaces(d, e, k)
    requires (w.ArchiveReport? || w.ArchiveState? || w.PutHistory?) && w.key == k
    ensures Enabled(d, w) <==> Enabled(e, w)
  {
    hide SameHistory;
  }

  /** Exactly when a retirement interrupted after its history record is completed under another spec,
      for every checkpoint: under the same generation, or beside the first one, when the specs differ in
      a digest that the checkpoint lacks. */
  lemma ResumesIff(a: Job, b: Job, m1: Machine, m2: Machine, n: nat, now: Stamp, drain: bool)
    requires SameCheckpoint(a, b) && Due(a, m1) && Due(b, m2) && NormalCohort(a.spec) && NormalCohort(b.spec)
    requires NoConflict(a) && 3 <= n <= 5 && DrainOk(a, n, drain)
    ensures a.start.supervisor.canary.Some?
    ensures var d := Stage(a, n, now, drain);
      RunPlan(d, PlanFor(b, d, m2), []).ending == Success <==>
        a.spec.generation == b.spec.generation || (!AlikeDigests(a, b) && OpenFor(b, n))
  {
    SameCaseIff(a, b, m1, m2);
    assert b.start.marker == None;
    hide *;
    if AlikeDigests(a, b) {
      OnlySameGenerationResumes(a, b, m1, m2, n, now, drain);
    } else {
      OtherKeyResumesIff(a, b, m2, n, now, drain);
    }
  }

  /** Every retirement the loop plans is one of these jobs. */
  lemma PlannedIsJob(d: Disk, project: string, s: Spec, opt: RetireOptions, m: Machine) returns (j: Job)
    requires RetirePlan(d, project, s, opt, m).Do?
    ensures j.start == d && j.project == project && j.spec == s && j.opt == opt && Due(j, m)
  {
    hide RetireSubject;
    hide Retirable;
    hide RetireWrites;
    var c := RetireSubject(d.supervisor, project, s, opt, m).canary;
    j := Job(d, project, s, opt, c, RetiredReport(d, HistoryKey(project, c)).value);
  }
}
