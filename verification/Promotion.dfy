/** Promotion of a passed canary survives any number of crashes and failed writes. */
module Promotion {
  import opened Options
  import opened Canary
  import opened DurableWrites
  import opened CanaryPlans

  /** A passed canary waits in the checkpoint: no marker yet, the registry migrated, the request and
      the immutable report matching. */
  ghost predicate Ready(d: Disk, c: CanaryState, req: Request) {
    && d.supervisor.canary == Some(c) && c.decision == Passed && d.marker == None
    && d.registry.posture == Migrated
    && RequestMatches(d, d.supervisor.project, c, req)
  }

  function PendingMarker(d: Disk, c: CanaryState): Marker { Marker(d.supervisor.project, Pending, c) }

  /** The disk after the first `n` durable steps of the promotion: marker pending, registry
      validated, checkpoint cleared, marker validated. */
  function Stage(d: Disk, c: CanaryState, n: nat, committed: bool): Disk {
    d.(marker := if n == 0 then d.marker
                 else if n < 4 then Some(PendingMarker(d, c))
                 else Some(Marker(d.supervisor.project, Validated, c)),
       registry := if n < 2 then d.registry
                   else d.registry.(posture := ValidatedPosture, committed := committed),
       supervisor := if n < 3 then d.supervisor else Completed(d.supervisor))
  }

  /** Where a promotion ends: registry validated and committed, checkpoint cleared, marker validated. */
  function Promoted(d: Disk, c: CanaryState): Disk { Stage(d, c, 4, true) }

  ghost predicate OnTheWay(d0: Disk, c: CanaryState, d: Disk) {
    exists n: nat, committed :: n <= 4 && (n == 4 ==> committed) && d == Stage(d0, c, n, committed)
  }

  /** Any number of reconciles in a row, each under its own faults. */
  function Attempts(d: Disk, req: Request, runs: seq<seq<Fate>>): Disk {
    if runs == [] then d
    else
      var before := Attempts(d, req, runs[..|runs| - 1]);
      RunPlan(before, ReconcilePlan(before, req), runs[|runs| - 1]).disk
  }

  // ---- one attempt ---------------------------------------------------------------------------

  /** The last two writes, from a disk whose registry is validated and committed. */
  lemma Finishing(d0: Disk, c: CanaryState, n: nat, fates: seq<Fate>)
    requires d0.supervisor.canary == Some(c) && 2 <= n <= 3
    ensures var o := Exec(Stage(d0, c, n, true),
        [PutSupervisor(Completed(d0.supervisor)), PutMarker(Marker(d0.supervisor.project, Validated, c))], fates);
      && (o.disk == Stage(d0, c, 2, true) || o.disk == Stage(d0, c, 3, true) || o.disk == Stage(d0, c, 4, true))
      && (o.finished ==> o.disk == Promoted(d0, c))
      && (fates == [] ==> o.finished)
  {
    var d := Stage(d0, c, n, true);
    var done := PutMarker(Marker(d0.supervisor.project, Validated, c));
    ExecStep(d, PutSupervisor(Completed(d0.supervisor)), [done], fates);
    var e := Stage(d0, c, 3, true);
    ExecStep(e, done, [], Tail(fates));
  }

  /** The registry write and what follows it. */
  lemma Committing(d0: Disk, c: CanaryState, n: nat, committed: bool, fates: seq<Fate>)
    requires d0.supervisor.canary == Some(c) && d0.registry.identity == c.registryIdentity
    requires 1 <= n <= 3 && d0.registry.posture == Migrated
    ensures var d := Stage(d0, c, n, committed);
      var o := Exec(d, [CasRegistry(d.registry.posture, ValidatedPosture, c.registryIdentity)]
        + [PutSupervisor(Completed(d0.supervisor)), PutMarker(Marker(d0.supervisor.project, Validated, c))], fates);
      && OnTheWay(d0, c, o.disk)
      && (o.finished ==> o.disk == Promoted(d0, c))
      && (fates == [] ==> o.finished)
  {
    var d := Stage(d0, c, n, committed);
    var finish := [PutSupervisor(Completed(d0.supervisor)), PutMarker(Marker(d0.supervisor.project, Validated, c))];
    var cas := CasRegistry(d.registry.posture, ValidatedPosture, c.registryIdentity);
    var m := if n == 1 then 2 else n;
    CasEffect(d0, c, n, committed);
    Finishing(d0, c, m, Tail(fates));
    Witness(d0, c, n, committed);
    Witness(d0, c, m, false);
    Witness(d0, c, 2, true);
    Witness(d0, c, 3, true);
    Witness(d0, c, 4, true);
    hide *;
    ExecStep(d, cas, finish, fates);
    HeadOfNone();
  }

  lemma CasEffect(d0: Disk, c: CanaryState, n: nat, committed: bool)
    requires d0.registry.identity == c.registryIdentity && 1 <= n <= 3 && d0.registry.posture == Migrated
    ensures var d := Stage(d0, c, n, committed);
      var cas := CasRegistry(d.registry.posture, ValidatedPosture, c.registryIdentity);
      var m := if n == 1 then 2 else n;
      && Effect(d, cas, Persists) == Stage(d0, c, m, true) && Continues(d, cas, Persists)
      && Effect(d, cas, PersistsThenFails) == Stage(d0, c, m, false) && !Continues(d, cas, PersistsThenFails)
      && Effect(d, cas, Fails) == d && !Continues(d, cas, Fails)
  {
  }

  lemma Witness(d0: Disk, c: CanaryState, n: nat, committed: bool)
    requires n <= 4 && (n == 4 ==> committed)
    ensures OnTheWay(d0, c, Stage(d0, c, n, committed))
  {
  }

  /** What the reconciler plans on each disk of the way. */
  lemma PlanOnTheWay(d0: Disk, c: CanaryState, req: Request, n: nat, committed: bool)
    requires Ready(d0, c, req) && n <= 4 && (n == 4 ==> committed)
    ensures var d := Stage(d0, c, n, committed);
      ReconcilePlan(d, req) ==
        if n == 4 then Do([], true)
        else Do([PutMarker(PendingMarker(d0, c))]
          + ([CasRegistry(d.registry.posture, ValidatedPosture, c.registryIdentity)]
             + [PutSupervisor(Completed(d0.supervisor)), PutMarker(Marker(d0.supervisor.project, Validated, c))]), true)
  {
    hide RequestMatches;
    hide MarkerLoads;
    var d := Stage(d0, c, n, committed);
    MatchesAlike(d0, d, d0.supervisor.project, c, req);
    AuthenticLoads(d0, c, req);
    assert Completed(Reconciled(d)) == Completed(d0.supervisor);
  }

  /** The request is matched against the report and the registry identity only. */
  lemma MatchesAlike(d: Disk, e: Disk, project: string, c: CanaryState, req: Request)
    requires d.report == e.report && d.registry.identity == e.registry.identity && d.registry.project == e.registry.project
    ensures RequestMatches(d, project, c, req) == RequestMatches(e, project, c, req)
  {
    hide Authentic;
  }

  /** A marker written for an authenticated canary is one that loads again. */
  lemma AuthenticLoads(d: Disk, c: CanaryState, req: Request)
    requires RequestMatches(d, d.supervisor.project, c, req)
    ensures forall status :: MarkerLoads(Marker(d.supervisor.project, status, c))
  {
    assert Blank([]);
  }

  lemma OneAttempt(d0: Disk, c: CanaryState, req: Request, n: nat, committed: bool, fates: seq<Fate>)
    requires Ready(d0, c, req) && n <= 4 && (n == 4 ==> committed)
    ensures var d := Stage(d0, c, n, committed);
      var r := RunPlan(d, ReconcilePlan(d, req), fates);
      && OnTheWay(d0, c, r.disk)
      && (r.ending == Success ==> r.disk == Promoted(d0, c))
      && (fates == [] ==> r.ending == Success)
      && (n == 4 ==> r == Ran(d, Success))
  {
    hide RequestMatches;
    PlanOnTheWay(d0, c, req, n, committed);
    assert d0.registry.identity == c.registryIdentity by { RegistryMatches(d0, c, req); }
    hide ReconcilePlan;
    var d := Stage(d0, c, n, committed);
    if n == 4 {
      Witness(d0, c, 4, true);
    } else {
      var rest := [CasRegistry(d.registry.posture, ValidatedPosture, c.registryIdentity)]
        + [PutSupervisor(Completed(d0.supervisor)), PutMarker(Marker(d0.supervisor.project, Validated, c))];
      ExecStep(d, PutMarker(PendingMarker(d0, c)), rest, fates);
      var m := if n == 0 then 1 else n;
      assert d.(marker := Some(PendingMarker(d0, c))) == Stage(d0, c, m, committed);
      Witness(d0, c, n, committed);
      Witness(d0, c, m, committed);
      hide Exec;
      Committing(d0, c, m, committed, Tail(fates));
    }
  }

  lemma RegistryMatches(d: Disk, c: CanaryState, req: Request)
    requires RequestMatches(d, d.supervisor.project, c, req)
    ensures d.registry.identity == c.registryIdentity
  {
  }

  // ---- all runs ------------------------------------------------------------------------------

  lemma {:induction false} AttemptsStayOnTheWay(d0: Disk, c: CanaryState, req: Request, runs: seq<seq<Fate>>)
    requires Ready(d0, c, req)
    ensures OnTheWay(d0, c, Attempts(d0, req, runs))
  {
    hide Ready;
    hide RunPlan;
    hide ReconcilePlan;
    if runs == [] {
      assert Stage(d0, c, 0, false) == d0;
      Witness(d0, c, 0, false);
    } else {
      AttemptsStayOnTheWay(d0, c, req, runs[..|runs| - 1]);
      var d := Attempts(d0, req, runs[..|runs| - 1]);
      var n: nat, committed :| n <= 4 && (n == 4 ==> committed) && d == Stage(d0, c, n, committed);
      OneAttempt(d0, c, req, n, committed, runs[|runs| - 1]);
    }
  }

  /** Promotion converges: after any number of crashes and failed writes, a registry write that was
      stored but reported an error among them, one undisturbed reconcile ends with the registry
      validated and committed, the checkpoint cleared and the marker validated. From there no
      reconcile changes anything, whatever its faults. */
  lemma PromotionConverges(d0: Disk, c: CanaryState, req: Request, runs: seq<seq<Fate>>, later: seq<Fate>)
    requires Ready(d0, c, req)
    ensures var d := Attempts(d0, req, runs);
      RunPlan(d, ReconcilePlan(d, req), []) == Ran(Promoted(d0, c), Success)
    ensures RunPlan(Promoted(d0, c), ReconcilePlan(Promoted(d0, c), req), later) == Ran(Promoted(d0, c), Success)
    ensures Promoted(d0, c).registry.posture == ValidatedPosture && Promoted(d0, c).registry.committed
    ensures Promoted(d0, c).supervisor.canary == None
    ensures Promoted(d0, c).marker == Some(Marker(d0.supervisor.project, Validated, c))
  {
    AttemptsStayOnTheWay(d0, c, req, runs);
    hide Ready;
    hide RunPlan;
    hide ReconcilePlan;
    var d := Attempts(d0, req, runs);
    var n: nat, committed :| n <= 4 && (n == 4 ==> committed) && d == Stage(d0, c, n, committed);
    OneAttempt(d0, c, req, n, committed, []);
    OneAttempt(d0, c, req, 4, true, later);
    PromotedIs(d0, c);
    hide *;
  }

  lemma PromotedIs(d0: Disk, c: CanaryState)
    ensures var d := Promoted(d0, c);
      && d.registry.posture == ValidatedPosture && d.registry.committed && d.supervisor.canary == None
      && d.marker == Some(Marker(d0.supervisor.project, Validated, c))
  {
  }

  /** How many of the runs report a promotion. */
  function Promotions(d: Disk, req: Request, runs: seq<seq<Fate>>): nat {
    if runs == [] then 0
    else
      var before := Attempts(d, req, runs[..|runs| - 1]);
      Promotions(d, req, runs[..|runs| - 1])
      + if RunPlan(before, ReconcilePlan(before, req), runs[|runs| - 1]).ending == Success
             && before.registry.posture == Migrated then 1 else 0
  }

  /** A reconcile never brings the posture back to migrated, and leaves it validated when it
      promotes. */
  lemma PostureOneWay(d: Disk, req: Request, fates: seq<Fate>)
    ensures var r := RunPlan(d, ReconcilePlan(d, req), fates);
      && (d.registry.posture != Migrated ==> r.disk.registry.posture != Migrated)
      && (r.ending == Success && d.registry.posture == Migrated ==> r.disk.registry.posture == ValidatedPosture)
  {
    hide RequestMatches;
    hide PromotionWrites;
    hide ReconcilePlan;
    hide RunPlan;
    hide Exec;
    var plan := ReconcilePlan(d, req);
    if plan.Do? && plan.writes != [] {
      ReconcileShape(d, req);
      PromotionShape(d, Reconciled(d), Reconciled(d).canary.value);
      OneWayPromotion(d, Reconciled(d), Reconciled(d).canary.value);
      ExecPosture(d, plan.writes, fates);
      RunDo(d, plan, fates);
      if d.registry.posture == Migrated && Exec(d, plan.writes, fates).finished {
        ExecCas(d, plan.writes, fates);
      }
    } else {
      RunIdle(d, plan, fates);
      if plan.Do? {
        ReconcileShape(d, req);
        PromotionShape(d, Reconciled(d), Reconciled(d).canary.value);
      }
    }
  }

  lemma RunIdle(d: Disk, plan: Plan, fates: seq<Fate>)
    requires plan.Do? ==> plan.writes == []
    ensures RunPlan(d, plan, fates).disk == d
    ensures !plan.Do? ==> RunPlan(d, plan, fates).ending != Success
  {
  }

  lemma RunDo(d: Disk, plan: Plan, fates: seq<Fate>)
    requires plan.Do?
    ensures var o := Exec(d, plan.writes, fates);
      RunPlan(d, plan, fates) == Ran(o.disk, if o.finished && plan.completes then Success else Failure)
  {
  }

  lemma OneWayPromotion(d: Disk, s: Supervisor, c: CanaryState)
    ensures var ws := PromotionWrites(d, s, c).0; forall i | 0 <= i < |ws| :: OneWayWrite(ws[i])
  {
  }

  predicate OneWayWrite(w: Write) { w.CasRegistry? ==> w.to == ValidatedPosture }

  lemma {:induction false} ExecPosture(d: Disk, ws: seq<Write>, fates: seq<Fate>)
    requires forall i | 0 <= i < |ws| :: OneWayWrite(ws[i])
    ensures var e := Exec(d, ws, fates).disk.registry.posture;
      e == d.registry.posture || e == ValidatedPosture
    decreases |ws|
  {
    if ws != [] {
      assert OneWayWrite(ws[0]);
      EffectPosture(d, ws[0], Head(fates));
      hide Effect;
      hide Continues;
      ExecPosture(Effect(d, ws[0], Head(fates)), ws[1..], Tail(fates));
    }
  }

  lemma EffectPosture(d: Disk, w: Write, f: Fate)
    requires OneWayWrite(w)
    ensures var e := Effect(d, w, f).registry.posture; e == d.registry.posture || e == ValidatedPosture
    ensures w.CasRegistry? && Continues(d, w, f) ==> Effect(d, w, f).registry.posture == ValidatedPosture
  {
  }

  lemma ExecCas(d: Disk, ws: seq<Write>, fates: seq<Fate>)
    requires |ws| >= 2 && ws[0].PutMarker? && ws[1].CasRegistry?
    requires forall i | 0 <= i < |ws| :: OneWayWrite(ws[i])
    requires Exec(d, ws, fates).finished
    ensures Exec(d, ws, fates).disk.registry.posture == ValidatedPosture
  {
    var d1 := Effect(d, ws[0], Head(fates));
    assert ws[1..][0] == ws[1] && OneWayWrite(ws[1]);
    var d2 := Effect(d1, ws[1..][0], Head(Tail(fates)));
    EffectPosture(d1, ws[1], Head(Tail(fates)));
    hide Effect;
    hide Continues;
    ExecPosture(d2, ws[1..][1..], Tail(Tail(fates)));
  }

  /** From any disk whatever, at most one of any number of reconciles reports a promotion. */
  lemma {:induction false} PromotedAtMostOnce(d: Disk, req: Request, runs: seq<seq<Fate>>)
    ensures Promotions(d, req, runs) <= 1
    ensures Promotions(d, req, runs) == 1 ==> Attempts(d, req, runs).registry.posture != Migrated
  {
    hide RunPlan;
    hide ReconcilePlan;
    if runs != [] {
      PromotedAtMostOnce(d, req, runs[..|runs| - 1]);
      PostureOneWay(Attempts(d, req, runs[..|runs| - 1]), req, runs[|runs| - 1]);
    }
  }
}
