/** Reconciling a dead run: park every slot whose agent is gone, then finalize. */
module RunReconcile {
  import opened Options
  import opened IdLists

  datatype Note = Text(text: string) | Preserved(commits: int, branch: string)

  datatype Slot = Slot(status: string, pid: int, branch: string, commits: int, note: Note)

  /** ledger.Run; an entry may be nil. */
  datatype Run = Run(status: string, slots: map<string, Option<Slot>>)

  const BLOCKED := "blocked"
  const DRAINED := "drained"
  const DONE := "done"

  predicate Terminal(status: string) {
    status in {"merged", "pr-opened", "done", "failed", "conflict", "blocked", "merge-pending"}
  }

  /** How saving the ledger ends; an error may come after the file was replaced. */
  datatype Saving = Saved | Lost | SavedWithError

  /** What the command meets: the live processes, the commit counts git can give, and how each of its
      writes fares. */
  datatype World = World(
    alive: set<int>, counts: map<string, int>, saving: map<string, Saving>, finalSaving: Saving,
    trackerDown: set<string>, releaseFails: set<string>)

  function SavingOf(w: World, id: string): Saving { if id in w.saving then w.saving[id] else Saved }

  predicate Live(s: Slot, w: World) { s.pid > 0 && s.pid in w.alive }

  /** An unfinished slot without a live agent. */
  predicate Zombie(o: Option<Slot>, w: World) { o.Some? && !Terminal(o.value.status) && !Live(o.value, w) }

  predicate LeftAlive(o: Option<Slot>, w: World) { o.Some? && !Terminal(o.value.status) && Live(o.value, w) }

  function BranchOf(id: string, s: Slot): string { if s.branch == [] then "agent/" + id else s.branch }

  function CommitsOf(id: string, s: Slot, w: World): int {
    var b := BranchOf(id, s);
    if s.commits == 0 && b in w.counts then w.counts[b] else s.commits
  }

  function Parked(id: string, s: Slot, w: World): Slot {
    s.(status := BLOCKED, pid := 0, note := Preserved(CommitsOf(id, s, w), BranchOf(id, s)))
  }

  // ---- the ledger and what hangs on it ----------------------------------------------------------

  /** Everything the command can change: the run in memory and on disk, the governor's leases, the
      tracker; and its report. */
  datatype State = State(
    run: Run, disk: Run, leases: set<string>, tracker: map<string, string>,
    left: seq<string>, blocked: seq<string>)

  function Save(s: State, saving: Saving): State { if saving == Lost then s else s.(disk := s.run) }

  /** One slot. */
  function Visit(s: State, id: string, w: World, dry: bool): State {
    if id !in s.run.slots || s.run.slots[id].None? || Terminal(s.run.slots[id].value.status) then s
    else if Live(s.run.slots[id].value, w) then s.(left := s.left + [id])
    else if dry then s.(blocked := s.blocked + [id])
    else
      var parked := s.(run := s.run.(slots := s.run.slots[id := Some(Parked(id, s.run.slots[id].value, w))]));
      var saved := Save(parked, SavingOf(w, id));
      if SavingOf(w, id) != Saved then saved.(left := saved.left + [id])
      else saved.(blocked := saved.blocked + [id],
                  tracker := if id in w.trackerDown then saved.tracker else saved.tracker[id := BLOCKED],
                  leases := if id in w.releaseFails then saved.leases else saved.leases - {id})
  }

  function VisitAll(s: State, ids: seq<string>, w: World, dry: bool): State {
    if ids == [] then s else Visit(VisitAll(s, ids[..|ids| - 1], w, dry), ids[|ids| - 1], w, dry)
  }

  predicate AllTerminal(slots: map<string, Option<Slot>>) {
    forall id | id in slots :: slots[id].Some? ==> Terminal(slots[id].value.status)
  }

  /** ledger.FinalizeRun. */
  function Finalize(s: State, saving: Saving): State {
    if !AllTerminal(s.run.slots) then s
    else Save(s.(run := s.run.(status := if s.run.status == DRAINED then DRAINED else DONE)), saving)
  }

  function Command(s: State, ids: seq<string>, w: World, dry: bool): State {
    var e := VisitAll(s, ids, w, dry);
    if dry || e.left != [] then e else Finalize(e, w.finalSaving)
  }

  // ---- the command -----------------------------------------------------------------------------

  class Ops {
    var run: Run
    var disk: Run
    var leases: set<string>
    var tracker: map<string, string>

    constructor (latest: Run, leases: set<string>, tracker: map<string, string>)
      ensures run == latest && disk == latest && this.leases == leases && this.tracker == tracker
    {
      run, disk := latest, latest;
      this.leases, this.tracker := leases, tracker;
    }

    ghost function Now(left: seq<string>, blocked: seq<string>): State
      reads this
    {
      State(run, disk, leases, tracker, left, blocked)
    }

    method SaveRun(saving: Saving) returns (ok: bool)
      modifies this`disk
      ensures disk == if saving == Lost then old(disk) else run
      ensures ok <==> saving == Saved
    {
      if saving != Lost { disk := run; }
      ok := saving == Saved;
    }

    /** ledger.UpdateSlot changes the run in memory first, and keeps that change when saving fails. */
    method UpdateSlot(id: string, slot: Slot, saving: Saving) returns (ok: bool)
      modifies this`run, this`disk
      ensures run == old(run).(slots := old(run).slots[id := Some(slot)])
      ensures disk == if saving == Lost then old(disk) else run
      ensures ok <==> saving == Saved
    {
      run := run.(slots := run.slots[id := Some(slot)]);
      ok := SaveRun(saving);
    }

    method FinalizeRun(saving: Saving) returns (ok: bool)
      modifies this`run, this`disk
      ensures forall left, blocked :: Now(left, blocked) == Finalize(old(Now(left, blocked)), saving)
    {
      var ids := run.slots.Keys;
      while ids != {}
        invariant ids <= run.slots.Keys
        invariant forall id | id in run.slots && id !in ids :: run.slots[id].Some? ==> Terminal(run.slots[id].value.status)
        decreases |ids|
      {
        var id :| id in ids;
        if run.slots[id].Some? && !Terminal(run.slots[id].value.status) {
          return true;
        }
        ids := ids - {id};
      }
      if run.status != DRAINED {
        run := run.(status := DONE);
      }
      ok := SaveRun(saving);
    }

    /** The slot loop and the finalize decision of cmdOpsReconcile. */
    method Reconcile(w: World, dry: bool) returns (left: seq<string>, blocked: seq<string>, ghost ids: seq<string>)
      modifies this
      ensures StrictlySorted(ids) && Elements(ids) == old(run.slots.Keys)
      ensures Now(left, blocked) == Command(old(Now([], [])), ids, w, dry)
    {
      var order := SortedIds();
      ids := order;
      left, blocked := [], [];
      ghost var start := Now([], []);
      for i := 0 to |order|
        invariant Now(left, blocked) == VisitAll(start, order[..i], w, dry)
      {
        assert order[..i + 1][..i] == order[..i];
        left, blocked := ReconcileSlot(order[i], w, dry, left, blocked);
      }
      assert order[..|order|] == order;
      if dry || left != [] {
        return;
      }
      var _ := FinalizeRun(w.finalSaving);
    }

    method SortedIds() returns (ids: seq<string>)
      ensures StrictlySorted(ids) && Elements(ids) == run.slots.Keys
    {
      ids := [];
      var rest := run.slots.Keys;
      while rest != {}
        invariant rest <= run.slots.Keys && Elements(ids) == run.slots.Keys - rest && Distinct(ids)
        decreases |rest|
      {
        var id :| id in rest;
        assert id !in Elements(ids);
        assert Elements(ids + [id]) == Elements(ids) + {id};
        ids := ids + [id];
        rest := rest - {id};
      }
      SortStringsPermutes(ids);
      SortStringsSorts(ids);
      ids := SortStrings(ids);
    }

    /** One turn of the loop. */
    method ReconcileSlot(id: string, w: World, dry: bool, left: seq<string>, blocked: seq<string>)
      returns (left': seq<string>, blocked': seq<string>)
      modifies this
      ensures Now(left', blocked') == Visit(old(Now(left, blocked)), id, w, dry)
    {
      left', blocked' := left, blocked;
      if id !in run.slots || run.slots[id].None? || Terminal(run.slots[id].value.status) {
        return;
      }
      var s := run.slots[id].value;
      if s.pid > 0 && s.pid in w.alive {
        left' := left + [id];
        return;
      }
      var branch := s.branch;
      if branch == [] {
        branch := "agent/" + id;
      }
      var commits := s.commits;
      if commits == 0 && branch in w.counts {
        commits := w.counts[branch];
      }
      if dry {
        blocked' := blocked + [id];
        return;
      }
      var ok := UpdateSlot(id, s.(status := BLOCKED, pid := 0, note := Preserved(commits, branch)), SavingOf(w, id));
      if !ok {
        left' := left + [id];
        return;
      }
      blocked' := blocked + [id];
      if id !in w.trackerDown {
        tracker := tracker[id := BLOCKED];
      }
      if id !in w.releaseFails {
        leases := leases - {id};
      }
    }
  }

  // ---- what the command does to each slot --------------------------------------------------------

  /** A freshly loaded run. */
  predicate Fresh(s: State) { s.disk == s.run && s.left == [] && s.blocked == [] }

  /** Where slot `id` ends up once the ids in `ids` have been visited. */
  ghost predicate Settled(s: State, e: State, ids: seq<string>, w: World, id: string)
    requires id in s.run.slots
  {
    var o := s.run.slots[id];
    && id in e.run.slots
    && (if id in ids && Zombie(o, w) then
          && e.run.slots[id] == Some(Parked(id, o.value, w))
          && (id in e.left <==> SavingOf(w, id) != Saved) && (id in e.blocked <==> SavingOf(w, id) == Saved)
        else
          && e.run.slots[id] == o
          && (id in e.left <==> id in ids && LeftAlive(o, w)) && id !in e.blocked)
  }

  lemma {:induction false} AllSettled(s: State, ids: seq<string>, w: World)
    requires Fresh(s) && Distinct(ids) && Elements(ids) <= s.run.slots.Keys
    ensures var e := VisitAll(s, ids, w, false);
      && e.run.slots.Keys == s.run.slots.Keys && e.run.status == s.run.status
      && forall id | id in s.run.slots :: Settled(s, e, ids, w, id)
    decreases |ids|
  {
    if ids != [] {
      var n := |ids| - 1;
      var d := VisitAll(s, ids[..n], w, false);
      assert forall id | id in Elements(ids[..n]) :: id in Elements(ids);
      AllSettled(s, ids[..n], w);
      assert ids[n] in Elements(ids);
      VisitKeys(d, ids[n], w);
      hide Visit;
      hide Settled;
      hide Parked;
      hide Zombie;
      forall id | id in s.run.slots ensures Settled(s, VisitAll(s, ids, w, false), ids, w, id) {
        assert Settled(s, d, ids[..n], w, id) && Settled(s, d, ids[..n], w, ids[n]);
        SettleOne(s, d, ids, w, id);
      }
    }
  }

  lemma VisitKeys(d: State, id: string, w: World)
    requires id in d.run.slots
    ensures var e := Visit(d, id, w, false); e.run.slots.Keys == d.run.slots.Keys && e.run.status == d.run.status
  {
    hide Parked;
  }

  lemma SettleOne(s: State, d: State, ids: seq<string>, w: World, id: string)
    requires ids != [] && Distinct(ids) && id in s.run.slots && ids[|ids| - 1] in s.run.slots
    requires Settled(s, d, ids[..|ids| - 1], w, id) && Settled(s, d, ids[..|ids| - 1], w, ids[|ids| - 1])
    ensures Settled(s, Visit(d, ids[|ids| - 1], w, false), ids, w, id)
  {
    var n := |ids| - 1;
    assert id in ids <==> id in ids[..n] || id == ids[n];
    assert ids[n] !in ids[..n];
    hide Parked;
  }

  /** The slots that were blocked and reported so. */
  function BlockedBy(s: State, ids: seq<string>, w: World): set<string> {
    set id | id in ids && id in s.run.slots && Zombie(s.run.slots[id], w) && SavingOf(w, id) == Saved
  }

  /** Leases go, and the tracker changes, for blocked slots only. */
  lemma {:induction false} LeasesAndTracker(s: State, ids: seq<string>, w: World)
    requires Fresh(s) && Distinct(ids) && Elements(ids) <= s.run.slots.Keys
    ensures var e := VisitAll(s, ids, w, false);
      && e.leases == s.leases - (BlockedBy(s, ids, w) - w.releaseFails)
      && (forall id :: if id in BlockedBy(s, ids, w) - w.trackerDown then id in e.tracker && e.tracker[id] == BLOCKED
                       else (id in e.tracker <==> id in s.tracker) && (id in s.tracker ==> e.tracker[id] == s.tracker[id]))
    decreases |ids|
  {
    if ids != [] {
      var n := |ids| - 1;
      BeforeLast(s, ids, w);
      LeasesAndTracker(s, ids[..n], w);
      assert BlockedBy(s, ids, w) == BlockedBy(s, ids[..n], w)
        + (if Zombie(s.run.slots[ids[n]], w) && SavingOf(w, ids[n]) == Saved then {ids[n]} else {}) by {
        assert forall id :: id in ids <==> id in ids[..n] || id == ids[n];
      }
      hide Parked;
      hide BlockedBy;
    }
  }

  /** When a slot's turn comes it is as it was. */
  lemma BeforeLast(s: State, ids: seq<string>, w: World)
    requires Fresh(s) && Distinct(ids) && Elements(ids) <= s.run.slots.Keys && ids != []
    ensures var n := |ids| - 1; var d := VisitAll(s, ids[..n], w, false);
      && ids[n] in s.run.slots && ids[n] in d.run.slots && d.run.slots[ids[n]] == s.run.slots[ids[n]]
      && Distinct(ids[..n]) && Elements(ids[..n]) <= s.run.slots.Keys
  {
    var n := |ids| - 1;
    assert forall id | id in Elements(ids[..n]) :: id in Elements(ids);
    assert ids[n] in Elements(ids) && ids[n] !in ids[..n];
    AllSettled(s, ids[..n], w);
    assert Settled(s, VisitAll(s, ids[..n], w, false), ids[..n], w, ids[n]);
    hide VisitAll;
  }

  /** Some save at or after the turn of `id` reached the disk. */
  ghost predicate Persisted(s: State, ids: seq<string>, w: World, id: string) {
    exists i, j :: PersistedAt(s, ids, w, id, i, j)
  }

  ghost predicate PersistedAt(s: State, ids: seq<string>, w: World, id: string, i: int, j: int) {
    0 <= i <= j < |ids| && ids[i] == id && ids[j] in s.run.slots
    && Zombie(s.run.slots[ids[j]], w) && SavingOf(w, ids[j]) != Lost
  }

  /** What the disk says of slot `id`. */
  ghost predicate OnDisk(s: State, e: State, ids: seq<string>, w: World, id: string)
    requires id in s.run.slots
  {
    && id in e.disk.slots
    && e.disk.slots[id] == if Zombie(s.run.slots[id], w) && Persisted(s, ids, w, id)
                           then Some(Parked(id, s.run.slots[id].value, w)) else s.run.slots[id]
  }

  lemma {:induction false} AllOnDisk(s: State, ids: seq<string>, w: World)
    requires Fresh(s) && Distinct(ids) && Elements(ids) <= s.run.slots.Keys
    ensures var e := VisitAll(s, ids, w, false);
      && e.disk.slots.Keys == s.run.slots.Keys && e.disk.status == s.run.status
      && forall id | id in s.run.slots :: OnDisk(s, e, ids, w, id)
    decreases |ids|
  {
    if ids != [] {
      var n := |ids| - 1;
      var d, e := VisitAll(s, ids[..n], w, false), VisitAll(s, ids, w, false);
      BeforeLast(s, ids, w);
      AllOnDisk(s, ids[..n], w);
      AllSettled(s, ids, w);
      DiskStep(d, ids[n], w);
      var saves := Zombie(s.run.slots[ids[n]], w) && SavingOf(w, ids[n]) != Lost;
      assert e.disk == if saves then e.run else d.disk;
      hide Parked;
      hide VisitAll;
      hide Persisted;
      forall id | id in s.run.slots ensures OnDisk(s, e, ids, w, id) {
        assert OnDisk(s, d, ids[..n], w, id) && Settled(s, e, ids, w, id);
        PersistedStep(s, ids, w, id);
      }
    } else {
      hide Parked;
    }
  }

  lemma DiskStep(d: State, id: string, w: World)
    requires id in d.run.slots
    ensures var e := Visit(d, id, w, false);
      e.disk == if Zombie(d.run.slots[id], w) && SavingOf(w, id) != Lost then e.run else d.disk
  {
    hide Parked;
  }

  lemma PersistedStep(s: State, ids: seq<string>, w: World, id: string)
    requires ids != [] && Elements(ids) <= s.run.slots.Keys
    ensures var n := |ids| - 1;
      Persisted(s, ids, w, id) <==>
        Persisted(s, ids[..n], w, id)
        || (id in ids && ids[n] in s.run.slots && Zombie(s.run.slots[ids[n]], w) && SavingOf(w, ids[n]) != Lost)
  {
    var n := |ids| - 1;
    if Persisted(s, ids[..n], w, id) {
      var i, j :| PersistedAt(s, ids[..n], w, id, i, j);
      assert PersistedAt(s, ids, w, id, i, j);
    }
    if Persisted(s, ids, w, id) {
      var i, j :| PersistedAt(s, ids, w, id, i, j);
      if j < n { assert PersistedAt(s, ids[..n], w, id, i, j); }
    }
    if id in ids && ids[n] in s.run.slots && Zombie(s.run.slots[ids[n]], w) && SavingOf(w, ids[n]) != Lost {
      var i :| 0 <= i < |ids| && ids[i] == id;
      assert PersistedAt(s, ids, w, id, i, n);
    }
  }

  // ---- the whole command -------------------------------------------------------------------------

  ghost predicate Order(s: State, ids: seq<string>) { StrictlySorted(ids) && Elements(ids) == s.run.slots.Keys }

  lemma OrderIsDistinct(s: State, ids: seq<string>)
    requires Order(s, ids)
    ensures Distinct(ids) && forall id :: id in ids <==> id in s.run.slots
  {
    forall i, j | 0 <= i < j < |ids| ensures ids[i] != ids[j] { StrictlySortedDistinct(ids, i, j); }
    forall id ensures id in ids <==> id in s.run.slots { assert id in ids <==> id in Elements(ids); }
  }

  lemma {:induction false} LeftAreSlots(s: State, ids: seq<string>, w: World)
    requires Fresh(s)
    ensures forall id | id in VisitAll(s, ids, w, false).left :: id in ids
    decreases |ids|
  {
    if ids != [] {
      LeftAreSlots(s, ids[..|ids| - 1], w);
    }
    hide Parked;
  }

  /** Nothing is left exactly when no unfinished slot has a live agent and every parked one was saved;
      then every slot is finished. */
  lemma NothingLeftIff(s: State, ids: seq<string>, w: World)
    requires Fresh(s) && Order(s, ids)
    ensures var e := VisitAll(s, ids, w, false);
      && (e.left == [] <==> forall id | id in s.run.slots ::
            !LeftAlive(s.run.slots[id], w) && (Zombie(s.run.slots[id], w) ==> SavingOf(w, id) == Saved))
      && (e.left == [] ==> AllTerminal(e.run.slots))
  {
    OrderIsDistinct(s, ids);
    AllSettled(s, ids, w);
    var e := VisitAll(s, ids, w, false);
    hide VisitAll;
    if e.left == [] {
      forall id | id in s.run.slots ensures !LeftAlive(s.run.slots[id], w) && (Zombie(s.run.slots[id], w) ==> SavingOf(w, id) == Saved)
      {
        assert Settled(s, e, ids, w, id);
      }
      forall id | id in e.run.slots && e.run.slots[id].Some? ensures Terminal(e.run.slots[id].value.status) {
        assert Settled(s, e, ids, w, id);
      }
    } else {
      LeftAreSlots(s, ids, w);
      var id := e.left[0];
      assert id in s.run.slots && Settled(s, e, ids, w, id);
    }
  }

  /** What the note of a parked slot says is preserved: the commits it counted itself, or else git's count
      if there is one, on its branch, or else on the one its id stands for. */
  function PreservedNote(id: string, s: Slot, w: World): Note {
    var branch := if s.branch == "" then "agent/" + id else s.branch;
    Preserved(if s.commits != 0 || branch !in w.counts then s.commits else w.counts[branch], branch)
  }

  /** The statuses a slot can be left in unfinished, and those that end it. */
  lemma UnfinishedStatuses(status: string)
    requires status in {"queued", "dispatching", "running", "stuck", "finalizing", "review", "merging",
      "merge-pending", "merged", "pr-opened", "done", "failed", "conflict", "blocked"}
    ensures Terminal(status) <==>
      status !in {"queued", "dispatching", "running", "stuck", "finalizing", "review", "merging"}
  {
  }

  /** The command as a whole, under any pattern of failed writes: finished slots and slots with a live
      agent stay as they are; every other slot is parked with pid 0, its branch and commits kept, and is
      reported blocked or, if the save reported an error, left; only a blocked slot loses its lease. */
  lemma SlotsReconciled(s: State, ids: seq<string>, w: World, id: string)
    requires Fresh(s) && Order(s, ids) && id in s.run.slots
    ensures var e, o := Command(s, ids, w, false), s.run.slots[id];
      && id in e.run.slots
      && (!Zombie(o, w) ==> e.run.slots[id] == o && id !in e.blocked && (id in e.left <==> LeftAlive(o, w)))
      && (Zombie(o, w) ==>
            && e.run.slots[id] == Some(Slot("blocked", 0, o.value.branch, o.value.commits, PreservedNote(id, o.value, w)))
            && (id in e.blocked <==> id !in e.left) && (id in e.blocked <==> SavingOf(w, id) == Saved))
      && (id in e.leases <==> id in s.leases && !(id in e.blocked && id !in w.releaseFails))
  {
    OrderIsDistinct(s, ids);
    AllSettled(s, ids, w);
    LeasesAndTracker(s, ids, w);
    var e := VisitAll(s, ids, w, false);
    hide VisitAll;
    assert Settled(s, e, ids, w, id);
  }

  /** The run is finalized exactly when nothing is left, and then every slot is finished, on disk as
      in memory, if the last save succeeds. */
  lemma FinalizedIffNothingLeft(s: State, ids: seq<string>, w: World)
    requires Fresh(s) && Order(s, ids)
    ensures var e := Command(s, ids, w, false);
      && (e.left != [] ==> e.run.status == s.run.status && e.disk.status == s.run.status)
      && (e.left == [] ==>
            && AllTerminal(e.run.slots)
            && e.run.status == (if s.run.status == DRAINED then DRAINED else DONE)
            && (w.finalSaving != Lost ==> e.disk == e.run)
            && (w.finalSaving == Lost ==> e.disk.status == s.run.status && e.disk.slots == e.run.slots))
  {
    OrderIsDistinct(s, ids);
    AllSettled(s, ids, w);
    AllOnDisk(s, ids, w);
    NothingLeftIff(s, ids, w);
    var e := VisitAll(s, ids, w, false);
    hide VisitAll;
    if e.left == [] {
      forall id | id in s.run.slots ensures e.disk.slots[id] == e.run.slots[id] {
        assert Settled(s, e, ids, w, id) && OnDisk(s, e, ids, w, id);
        if Zombie(s.run.slots[id], w) { OwnSave(s, ids, w, id); }
      }
      assert e.disk.slots == e.run.slots;
    }
  }

  lemma OwnSave(s: State, ids: seq<string>, w: World, id: string)
    requires id in ids && id in s.run.slots && Zombie(s.run.slots[id], w) && SavingOf(w, id) != Lost
    ensures Persisted(s, ids, w, id)
  {
    var i :| 0 <= i < |ids| && ids[i] == id;
    assert PersistedAt(s, ids, w, id, i, i);
  }

  /** A dry run reports the slots a real run would try to park, and changes nothing. */
  lemma {:induction false} DryRunChangesNothing(s: State, ids: seq<string>, w: World)
    requires Fresh(s)
    ensures var e := Command(s, ids, w, true);
      && e == s.(left := e.left, blocked := e.blocked)
      && (forall id :: id in e.blocked <==> id in ids && id in s.run.slots && Zombie(s.run.slots[id], w))
      && (forall id :: id in e.left <==> id in ids && id in s.run.slots && LeftAlive(s.run.slots[id], w))
    decreases |ids|
  {
    if ids != [] {
      DryRunChangesNothing(s, ids[..|ids| - 1], w);
      assert forall id :: id in ids <==> id in ids[..|ids| - 1] || id == ids[|ids| - 1];
    }
  }

  // ---- later commands ----------------------------------------------------------------------------

  /** The state a later command loads. */
  function Reload(s: State): State { State(s.disk, s.disk, s.leases, s.tracker, [], []) }

  /** Any number of later commands, each on what the one before left, dry or not. */
  function Later(s: State, ids: seq<string>, worlds: seq<(World, bool)>): State {
    if worlds == [] then s
    else
      var n := |worlds| - 1;
      Command(Reload(Later(s, ids, worlds[..n])), ids, worlds[n].0, worlds[n].1)
  }

  /** Slot `id` is finished on disk as `slot`, and still has its lease. */
  ghost predicate Stranded(s: State, ids: seq<string>, id: string, slot: Slot) {
    && StrictlySorted(ids) && Elements(ids) == s.disk.slots.Keys
    && id in s.leases && id in s.disk.slots && s.disk.slots[id] == Some(slot) && Terminal(slot.status)
  }

  lemma StrandedStays(s: State, ids: seq<string>, w: World, dry: bool, id: string, slot: Slot)
    requires Stranded(s, ids, id, slot)
    ensures Stranded(Command(Reload(s), ids, w, dry), ids, id, slot)
    ensures id !in Command(Reload(s), ids, w, dry).left
  {
    var n := Reload(s);
    if dry {
      DryRunChangesNothing(n, ids, w);
    } else {
      StrandedVisited(s, ids, w, id, slot);
    }
    hide VisitAll;
    hide AllTerminal;
  }

  lemma StrandedVisited(s: State, ids: seq<string>, w: World, id: string, slot: Slot)
    requires Stranded(s, ids, id, slot)
    ensures var e := VisitAll(Reload(s), ids, w, false);
      && Stranded(e, ids, id, slot) && id !in e.left
      && id in e.run.slots && e.run.slots[id] == Some(slot) && e.run.slots.Keys == e.disk.slots.Keys
  {
    var n := Reload(s);
    OrderIsDistinct(n, ids);
    AllSettled(n, ids, w);
    AllOnDisk(n, ids, w);
    LeasesAndTracker(n, ids, w);
    var e := VisitAll(n, ids, w, false);
    hide VisitAll;
    hide Parked;
    hide Persisted;
    assert Settled(n, e, ids, w, id) && OnDisk(n, e, ids, w, id);
  }

  lemma {:induction false} StrandedForGood(s: State, ids: seq<string>, worlds: seq<(World, bool)>, id: string, slot: Slot)
    requires Stranded(s, ids, id, slot)
    ensures Stranded(Later(s, ids, worlds), ids, id, slot)
    ensures worlds != [] ==> id !in Later(s, ids, worlds).left
    decreases |worlds|
  {
    hide Stranded;
    hide Command;
    if worlds != [] {
      var n := |worlds| - 1;
      StrandedForGood(s, ids, worlds[..n], id, slot);
      StrandedStays(Later(s, ids, worlds[..n]), ids, worlds[n].0, worlds[n].1, id, slot);
    }
  }

  /** A slot reported as left although its parking reached the disk with a later slot's save: it stays
      parked there, and no number of later runs of the command, whatever they meet, names it again or
      releases its lease. */
  lemma LeftButParked(s: State, ids: seq<string>, w: World, id: string, worlds: seq<(World, bool)>)
    requires Fresh(s) && Order(s, ids) && id in s.run.slots && Zombie(s.run.slots[id], w)
    requires SavingOf(w, id) != Saved && Persisted(s, ids, w, id) && id in s.leases
    ensures var e := Command(s, ids, w, false);
      var f := Later(e, ids, worlds);
      && id in e.left
      && id in f.disk.slots && f.disk.slots[id] == Some(Parked(id, s.run.slots[id].value, w)) && id in f.leases
      && (worlds != [] ==> id !in f.left)
  {
    var e := Command(s, ids, w, false);
    SlotsReconciled(s, ids, w, id);
    OrderIsDistinct(s, ids);
    AllOnDisk(s, ids, w);
    assert OnDisk(s, VisitAll(s, ids, w, false), ids, w, id);
    hide VisitAll;
    hide Persisted;
    assert Stranded(e, ids, id, Parked(id, s.run.slots[id].value, w));
    StrandedForGood(e, ids, worlds, id, Parked(id, s.run.slots[id].value, w));
    hide Later;
  }

  const ZOMBIE := Slot("running", 0, [], 0, Text([]))

  const TWO_ZOMBIES := Run("running", map["a" := Some(ZOMBIE), "b" := Some(ZOMBIE)])

  /** It happens: the save of "a" is lost, and the save of "b" brings both to the disk. */
  lemma LeftButParkedExample(worlds: seq<(World, bool)>)
    ensures var s := State(TWO_ZOMBIES, TWO_ZOMBIES, {"a", "b"}, map[], [], []);
      var w := World({}, map[], map["a" := Lost], Saved, {}, {});
      var e := Command(s, ["a", "b"], w, false);
      && "a" in e.left && "b" in e.blocked
      && "a" in e.disk.slots && e.disk.slots["a"].Some? && e.disk.slots["a"].value.status == BLOCKED
      && "a" in Later(e, ["a", "b"], worlds).leases
  {
    var s := State(TWO_ZOMBIES, TWO_ZOMBIES, {"a", "b"}, map[], [], []);
    var w := World({}, map[], map["a" := Lost], Saved, {}, {});
    var ids := ["a", "b"];
    assert Less("a", "b");
    assert Elements(ids) == s.run.slots.Keys;
    assert PersistedAt(s, ids, w, "a", 0, 1);
    hide VisitAll;
    LeftButParked(s, ids, w, "a", []);
    LeftButParked(s, ids, w, "a", worlds);
    SlotsReconciled(s, ids, w, "b");
    hide Command;
  }
}
