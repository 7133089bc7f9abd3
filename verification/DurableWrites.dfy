/** Durable writes, how each can end, and what a run of them leaves behind. */
module DurableWrites {
  import opened Options
  import opened Canary

  datatype Write =
    | PutMarker(marker: Marker)
    | CasRegistry(from: Posture, to: Posture, identity: Digest)
    | PutSupervisor(state: Supervisor)
    | ArchiveReport(key: Key, report: Report)
    | ArchiveState(key: Key, state: Supervisor)
    | PutHistory(key: Key, record: History)
    | RemoveReport(report: Report)
    | PublishReport(report: Report)
    | ConsumeDrain
    | ClearControl

  /** How one write ends. A crash before the write is `Fails`; a crash after it, or an error raised
      after the data was stored, is `PersistsThenFails`. */
  datatype Fate = Persists | Fails | PersistsThenFails

  /** Two manifests that differ at most in when they were first written. */
  predicate SameHistory(a: History, b: History) { a.(retiredAt := Unset) == b.(retiredAt := Unset) }

  /** What the source checks right before the write. */
  predicate Enabled(d: Disk, w: Write) {
    match w
    case CasRegistry(from, to, identity) => d.registry.posture == from && d.registry.identity == identity
    case ArchiveReport(key, r) => key in d.archivedReports ==> d.archivedReports[key] == r
    case ArchiveState(key, s) => key in d.archivedStates ==> d.archivedStates[key] == s
    case PutHistory(key, h) => key in d.history ==> SameHistory(d.history[key], h)
    case RemoveReport(r) => d.report == Some(r)
    case PublishReport(r) => d.report == None || d.report == Some(r)
    case _ => true
  }

  /** The disk after the write. Archives and history records are written once; a registry write that
      reports an error may have stored the record without committing it. */
  function Apply(d: Disk, w: Write, committed: bool): Disk {
    match w
    case PutMarker(m) => d.(marker := Some(m))
    case CasRegistry(from, to, identity) => d.(registry := d.registry.(posture := to, committed := committed))
    case PutSupervisor(s) => d.(supervisor := s)
    case ArchiveReport(key, r) =>
      if key in d.archivedReports then d else d.(archivedReports := d.archivedReports[key := r])
    case ArchiveState(key, s) =>
      if key in d.archivedStates then d else d.(archivedStates := d.archivedStates[key := s])
    case PutHistory(key, h) => if key in d.history then d else d.(history := d.history[key := h])
    case RemoveReport(_) => d.(report := None)
    case PublishReport(r) => d.(report := Some(r))
    case ConsumeDrain => d.(drain := false)
    case ClearControl => d.(control := NO_CONTROL)
  }

  function Effect(d: Disk, w: Write, f: Fate): Disk {
    if !Enabled(d, w) || f == Fails then d else Apply(d, w, f == Persists)
  }

  /** Whether the run goes on. Removing the drain sentinel is best effort: its errors are ignored. */
  predicate Continues(d: Disk, w: Write, f: Fate) { Enabled(d, w) && (f == Persists || w.ConsumeDrain?) }

  function Head(fates: seq<Fate>): Fate { if fates == [] then Persists else fates[0] }

  function Tail(fates: seq<Fate>): seq<Fate> { if fates == [] then [] else fates[1..] }

  datatype Outcome = Outcome(disk: Disk, finished: bool)

  /** A run of `ws` whose writes meet `fates` in turn (and persist once these are used up). */
  function Exec(d: Disk, ws: seq<Write>, fates: seq<Fate>): Outcome
    decreases |ws|
  {
    if ws == [] then Outcome(d, true)
    else
      var next := Effect(d, ws[0], Head(fates));
      if Continues(d, ws[0], Head(fates)) then Exec(next, ws[1..], Tail(fates)) else Outcome(next, false)
  }

  lemma HeadOfNone()
    ensures Head([]) == Persists && Tail([]) == []
  {
  }

  lemma ExecStep(d: Disk, w: Write, rest: seq<Write>, fates: seq<Fate>)
    ensures Exec(d, [w] + rest, fates) ==
      var next := Effect(d, w, Head(fates));
      if Continues(d, w, Head(fates)) then Exec(next, rest, Tail(fates)) else Outcome(next, false)
  {
    assert ([w] + rest)[1..] == rest;
  }

  lemma {:induction false} ExecConcat(d: Disk, a: seq<Write>, b: seq<Write>, fates: seq<Fate>)
    ensures Exec(d, a + b, fates) ==
      var first := Exec(d, a, fates);
      if first.finished then Exec(first.disk, b, Drop(fates, |a|)) else first
    decreases |a|
  {
    if a == [] {
      assert a + b == b;
    } else {
      assert (a + b)[0] == a[0] && (a + b)[1..] == a[1..] + b;
      ExecConcat(Effect(d, a[0], Head(fates)), a[1..], b, Tail(fates));
    }
  }

  function Drop(fates: seq<Fate>, n: nat): seq<Fate> { if n == 0 then fates else Drop(Tail(fates), n - 1) }

  /** What one write leaves alone, whatever its fate: history records and archives are write-once,
      and no write removes the marker. */
  lemma EffectKeeps(d: Disk, w: Write, f: Fate)
    ensures var e := Effect(d, w, f);
      && (forall k | k in d.archivedReports :: k in e.archivedReports && e.archivedReports[k] == d.archivedReports[k])
      && (forall k | k in d.archivedStates :: k in e.archivedStates && e.archivedStates[k] == d.archivedStates[k])
      && (forall k | k in d.history :: k in e.history && e.history[k] == d.history[k])
      && (d.marker.Some? ==> e.marker.Some?)
  {
  }
}
