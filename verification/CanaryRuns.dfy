/** A transaction carried out alone is a run of the protocol: its start followed by its writes. */
module CanaryRuns {
  import opened Options
  import opened Canary
  import opened DurableWrites
  import opened CanaryPlans
  import opened CanaryProtocol

  lemma {:induction false} RunCons(s: System, step: Step, steps: seq<Step>)
    ensures Run(s, [step] + steps) == Run(Next(s, step), steps)
    decreases |steps|
  {
    hide Next;
    if steps == [] {
      assert [step] + steps == [step] && [step][..0] == [];
      assert Run(s, [step]) == Next(Run(s, []), step);
    } else {
      var n := |steps| - 1;
      RunCons(s, step, steps[..n]);
      var all := [step] + steps;
      assert all[..|all| - 1] == [step] + steps[..n] && all[|all| - 1] == steps[n];
    }
  }

  lemma {:induction false} RunConcat(s: System, a: seq<Step>, b: seq<Step>)
    ensures Run(s, a + b) == Run(Run(s, a), b)
    decreases |b|
  {
    hide Next;
    if b == [] {
      assert a + b == a;
    } else {
      var n := |b| - 1;
      RunConcat(s, a, b[..n]);
      var all := a + b;
      assert all[..|all| - 1] == a + b[..n] && all[|all| - 1] == b[n];
    }
  }

  /** `n` writes meeting `fates`. */
  function Performs(fates: seq<Fate>, n: nat): seq<Step> {
    if n == 0 then [] else [Perform(Head(fates))] + Performs(Tail(fates), n - 1)
  }

  lemma {:induction false} IdlePerforms(s: System, fates: seq<Fate>, n: nat)
    requires s.work.Free?
    ensures Run(s, Performs(fates, n)) == s
    decreases n
  {
    hide *;
    if n == 0 {
      NoStep(s, fates);
    } else {
      NextPerform(s, fates, n);
      IdlePerforms(s, Tail(fates), n - 1);
    }
  }

  lemma NoStep(s: System, fates: seq<Fate>)
    ensures Run(s, Performs(fates, 0)) == s
  {
  }

  lemma NextPerform(s: System, fates: seq<Fate>, n: nat)
    requires s.work.Free? && n > 0
    ensures Run(s, Performs(fates, n)) == Run(s, Performs(Tail(fates), n - 1))
  {
    RunCons(s, Perform(Head(fates)), Performs(Tail(fates), n - 1));
    assert Next(s, Perform(Head(fates))) == s;
    hide Run;
  }

  /** Performing the writes of the work at hand one step at a time is executing them. */
  lemma {:induction false} PerformsExecute(s: System, fates: seq<Fate>, n: nat)
    requires |Left(s.work)| <= n && (s.work.Free? || Left(s.work) != [])
    ensures Run(s, Performs(fates, n)).disk == Exec(s.disk, Left(s.work), fates).disk
    ensures Run(s, Performs(fates, n)).work.Free?
    decreases n
  {
    hide *;
    if s.work.Free? {
      IdlePerforms(s, fates, n);
      NothingToDo(s, fates);
    } else {
      WritesLeft(s.work);
      var e := PerformWrite(s, Head(fates));
      PerformsStep(s, fates, n);
      OneWrite(s, fates);
      if Continues(s.disk, s.work.writes[0], Head(fates)) {
        PerformsExecute(e, Tail(fates), n - 1);
      } else {
        IdlePerforms(e, Tail(fates), n - 1);
      }
    }
  }

  lemma NothingToDo(s: System, fates: seq<Fate>)
    requires s.work.Free?
    ensures Exec(s.disk, Left(s.work), fates).disk == s.disk
  {
  }

  lemma WritesLeft(w: Work)
    ensures !w.Free? ==> Left(w) == w.writes
  {
  }

  lemma PerformsStep(s: System, fates: seq<Fate>, n: nat)
    requires n > 0 && Left(s.work) != []
    ensures Run(s, Performs(fates, n)) == Run(PerformWrite(s, Head(fates)), Performs(Tail(fates), n - 1))
  {
    RunCons(s, Perform(Head(fates)), Performs(Tail(fates), n - 1));
    hide Run;
    hide PerformWrite;
  }

  lemma OneWrite(s: System, fates: seq<Fate>)
    requires Left(s.work) != []
    ensures var w, e := s.work.writes[0], PerformWrite(s, Head(fates));
      && (Continues(s.disk, w, Head(fates)) ==>
            && Left(e.work) == Left(s.work)[1..] && (e.work.Free? || Left(e.work) != [])
            && Exec(s.disk, Left(s.work), fates) == Exec(e.disk, Left(e.work), Tail(fates)))
      && (!Continues(s.disk, w, Head(fates)) ==> e.work.Free? && Exec(s.disk, Left(s.work), fates).disk == e.disk)
  {
    hide Effect;
    hide Continues;
  }

  /** The plan of the transaction a step starts. */
  function PlanOf(d: Disk, step: Step): Plan {
    match step
    case StartReconcile(req) => ReconcilePlan(d, req)
    case StartRetire(project, spec, opt, m) => RetirePlan(d, project, spec, opt, m)
    case StartRollover(project, spec, m) => RolloverPlan(d, project, spec, m)
    case StartFinalize(project, spec, m, k) => FinalizePlan(d, project, spec, m, k)
    case _ => Nothing
  }

  function Writes(p: Plan): seq<Write> { if p.Do? then p.writes else [] }

  lemma StartTakesPlan(s: System, step: Step)
    requires Starts(step)
    ensures Left(StartPlan(s, step)) == Writes(PlanOf(s.disk, step))
    ensures StartPlan(s, step).Free? || Left(StartPlan(s, step)) != []
  {
    hide RetireSubject;
    hide ReconcilePlan;
    hide RetirePlan;
    hide RolloverPlan;
    hide FinalizePlan;
    hide HistoryRecord;
    hide RetiredReport;
    match step
    case StartReconcile(req) =>
      if ReconcilePlan(s.disk, req).Do? { ReconcileHasCanary(s.disk, req); }
    case StartRetire(project, spec, opt, m) =>
      if RetirePlan(s.disk, project, spec, opt, m).Do? { RetireHasSubject(s.disk, project, spec, opt, m); }
    case _ =>
  }

  lemma ReconcileHasCanary(d: Disk, req: Request)
    requires ReconcilePlan(d, req).Do?
    ensures Reconciled(d).canary.Some?
  {
    ReconcileShape(d, req);
    hide ReconcilePlan;
  }

  lemma RetireHasSubject(d: Disk, project: string, spec: Spec, opt: RetireOptions, m: Machine)
    requires RetirePlan(d, project, spec, opt, m).Do?
    ensures var c := RetireSubject(d.supervisor, project, spec, opt, m);
      c.Stale? && RetiredReport(d, HistoryKey(project, c.canary)).Some?
  {
    hide RetireSubject;
    hide Retirable;
  }

  /** The steps of one transaction that starts on `d` and meets `fates`. */
  function Transaction(d: Disk, step: Step, fates: seq<Fate>): seq<Step> {
    [step] + Performs(fates, |Writes(PlanOf(d, step))|)
  }

  /** A transaction run alone leaves the disk its plan leaves, and the lease free. */
  lemma TransactionIsRun(s: System, step: Step, fates: seq<Fate>)
    requires s.work.Free? && Starts(step)
    ensures var e := Run(s, Transaction(s.disk, step, fates));
      e.work.Free? && e.disk == RunPlan(s.disk, PlanOf(s.disk, step), fates).disk
  {
    StartTakesPlan(s, step);
    var n := |Writes(PlanOf(s.disk, step))|;
    RunCons(s, step, Performs(fates, n));
    PerformsExecute(Next(s, step), fates, n);
    PlanRun(s.disk, PlanOf(s.disk, step), fates);
    hide PlanOf;
    hide RunPlan;
    hide Exec;
    hide StartPlan;
    hide Performs;
    hide Run;
  }

  lemma PlanRun(d: Disk, p: Plan, fates: seq<Fate>)
    ensures RunPlan(d, p, fates).disk == Exec(d, Writes(p), fates).disk
  {
  }
}
