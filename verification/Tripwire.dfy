/** Fan-out of safety tripwires: the engine's subscriptions and their one-slot channels. */
module Tripwire {
  import opened Options

  datatype Wire = Wire(kind: string, runID: string, beadID: string, detail: string)

  const CAPACITY := 1
  const IDS: nat := 0x1_0000_0000_0000_0000

  /** A send that never blocks: it is dropped when the buffer is full. */
  function Offer(buf: seq<Wire>, w: Wire): seq<Wire> { if |buf| < CAPACITY then buf + [w] else buf }

  class Channel {
    var buf: seq<Wire>
    var closed: bool

    constructor ()
      ensures buf == [] && !closed
    {
      buf, closed := [], false;
    }

    /** Sending on a closed channel would panic. */
    method TrySend(w: Wire)
      requires !closed
      modifies this`buf
      ensures buf == Offer(old(buf), w)
    {
      if |buf| < CAPACITY { buf := buf + [w]; }
    }

    /** So would closing it again. */
    method Close()
      requires !closed
      modifies this`closed
      ensures closed
    {
      closed := true;
    }

    method Receive() returns (w: Option<Wire>)
      modifies this`buf
      ensures w == if old(buf) == [] then None else Some(old(buf)[0])
      ensures buf == if old(buf) == [] then [] else old(buf)[1..]
    {
      if buf == [] {
        return None;
      }
      w := Some(buf[0]);
      buf := buf[1..];
    }
  }

  class LoopEngine {
    var tripwireNext: nat
    var tripwireSubs: map<nat, Channel>

    /** Every registered channel is open, and registered once. */
    ghost predicate Valid()
      reads this, tripwireSubs.Values
    {
      && tripwireNext < IDS
      && (forall id | id in tripwireSubs :: !tripwireSubs[id].closed)
      && (forall i, j | i in tripwireSubs && j in tripwireSubs && i != j :: tripwireSubs[i] != tripwireSubs[j])
    }

    constructor ()
      ensures Valid() && tripwireSubs == map[] && tripwireNext == 0
    {
      tripwireNext, tripwireSubs := 0, map[];
    }

    /** Registers a subscription. Its channel is closed by the matching Cancel. */
    method Events() returns (ch: Channel, id: nat)
      requires Valid()
      modifies this
      ensures Valid() && fresh(ch) && ch.buf == [] && !ch.closed
      ensures id == (old(tripwireNext) + 1) % IDS && tripwireNext == id
      ensures tripwireSubs == old(tripwireSubs)[id := ch]
    {
      ch := new Channel();
      tripwireNext := (tripwireNext + 1) % IDS;
      id := tripwireNext;
      tripwireSubs := tripwireSubs[id := ch];
    }

    /** What a subscription does once its context ends. */
    method Cancel(id: nat)
      requires Valid()
      modifies this`tripwireSubs
      modifies if id in tripwireSubs then {tripwireSubs[id]} else {}
      ensures Valid() && tripwireSubs == old(tripwireSubs) - {id}
      ensures id in old(tripwireSubs) ==> old(tripwireSubs)[id].closed && old(tripwireSubs)[id].buf == old(tripwireSubs[id].buf)
    {
      if id in tripwireSubs {
        var registered := tripwireSubs[id];
        tripwireSubs := tripwireSubs - {id};
        registered.Close();
      }
    }

    /** Offers `w` to every subscriber, in any order; no subscriber can hold it up. */
    method Publish(w: Wire)
      requires Valid()
      modifies tripwireSubs.Values
      ensures Valid()
      ensures forall id | id in tripwireSubs :: tripwireSubs[id].buf == Offer(old(tripwireSubs[id].buf), w)
    {
      var todo := tripwireSubs.Keys;
      while todo != {}
        invariant Valid() && todo <= tripwireSubs.Keys
        invariant forall id | id in tripwireSubs ::
          tripwireSubs[id].buf == if id in todo then old(tripwireSubs[id].buf) else Offer(old(tripwireSubs[id].buf), w)
        decreases |todo|
      {
        var id :| id in todo;
        tripwireSubs[id].TrySend(w);
        todo := todo - {id};
      }
    }
  }

  // ---- all interleavings -----------------------------------------------------------------------

  /** A channel, what came out of it, and whether its subscription's goroutine has finished. */
  datatype Chan = Chan(id: nat, buf: seq<Wire>, received: seq<Wire>, closed: bool, done: bool)

  /** An event, and the channels registered when it was published. */
  datatype Publication = Publication(wire: Wire, to: set<nat>)

  /** A publisher in its loop, holding the mutex. */
  datatype Sending = Sending(wire: Wire, todo: set<nat>)

  /** Channels are numbered in the order of their subscription; `subs` maps ids to these numbers.
      `panicked` says that some step sent on, or closed, a closed channel. */
  datatype System = System(
    next: nat, subs: map<nat, nat>, chans: seq<Chan>, sending: Option<Sending>,
    published: seq<Publication>, panicked: bool)

  /** One step of some goroutine. Subscribers, cancellers and publishers wait for the mutex; a send
      inside a publisher's loop and a receive do not. */
  datatype Step = Subscribe | Cancel(c: nat) | Publish(wire: Wire) | Send(id: nat) | Unlock | Receive(c: nat)

  function Next(s: System, step: Step): System {
    match step
    case Subscribe =>
      if s.sending.Some? then s
      else
        var id := (s.next + 1) % IDS;
        s.(next := id, subs := s.subs[id := |s.chans|], chans := s.chans + [Chan(id, [], [], false, false)])
    case Cancel(c) =>
      if s.sending.Some? || c >= |s.chans| || s.chans[c].done then s
      else Unregister(s.(chans := s.chans[c := s.chans[c].(done := true)]), s.chans[c].id)
    case Publish(w) =>
      if s.sending.Some? then s
      else s.(sending := Some(Sending(w, s.subs.Keys)), published := s.published + [Publication(w, s.subs.Values)])
    case Send(id) =>
      if s.sending.None? || id !in s.sending.value.todo || id !in s.subs || s.subs[id] >= |s.chans| then s
      else
        var k, w := s.subs[id], s.sending.value.wire;
        s.(panicked := s.panicked || s.chans[k].closed,
           chans := s.chans[k := s.chans[k].(buf := Offer(s.chans[k].buf, w))],
           sending := Some(Sending(w, s.sending.value.todo - {id})))
    case Unlock => if s.sending.Some? && s.sending.value.todo == {} then s.(sending := None) else s
    case Receive(c) =>
      if c >= |s.chans| || s.chans[c].buf == [] then s
      else
        var ch := s.chans[c];
        s.(chans := s.chans[c := ch.(buf := ch.buf[1..], received := ch.received + [ch.buf[0]])])
  }

  /** The body of the cancelling goroutine. */
  function Unregister(s: System, id: nat): System {
    if id !in s.subs || s.subs[id] >= |s.chans| then s
    else
      var k := s.subs[id];
      s.(panicked := s.panicked || s.chans[k].closed, subs := s.subs - {id},
         chans := s.chans[k := s.chans[k].(closed := true)])
  }

  const INITIAL := System(0, map[], [], None, [], false)

  function Run(steps: seq<Step>): System {
    if steps == [] then INITIAL else Next(Run(steps[..|steps| - 1]), steps[|steps| - 1])
  }

  // ---- what a subscriber hears -----------------------------------------------------------------

  /** The events published while channel `c` was registered. */
  function Heard(published: seq<Publication>, c: nat): seq<Wire> {
    if published == [] then []
    else
      var n := |published| - 1;
      if c in published[n].to then Heard(published[..n], c) + [published[n].wire] else Heard(published[..n], c)
  }

  /** The publications that have been offered to channel `c` so far. */
  function Offered(s: System, c: nat): seq<Publication>
    requires c < |s.chans|
  {
    if s.sending.Some? && s.chans[c].id in s.sending.value.todo && s.published != []
    then s.published[..|s.published| - 1] else s.published
  }

  function Delivered(ch: Chan): seq<Wire> { ch.received + ch.buf }

  predicate Subsequence(a: seq<Wire>, b: seq<Wire>) {
    a == [] || (b != [] && ((a[|a| - 1] == b[|b| - 1] && Subsequence(a[..|a| - 1], b[..|b| - 1])) || Subsequence(a, b[..|b| - 1])))
  }

  /** `a` is a subsequence of `b` and begins with `b`'s first element. */
  predicate Follows(a: seq<Wire>, b: seq<Wire>) {
    Subsequence(a, b) && (b != [] ==> a != [] && a[0] == b[0])
  }

  lemma FollowsMore(a: seq<Wire>, b: seq<Wire>, w: Wire)
    requires Follows(a, b)
    ensures Follows(a + [w], b + [w])
    ensures b != [] ==> Follows(a, b + [w])
  {
    assert (a + [w])[..|a|] == a && (b + [w])[..|b|] == b;
  }

  // ---- the invariant ---------------------------------------------------------------------------

  /** Channel `c` is open exactly while it is registered, under its own id, and its subscription has
      not been cancelled; what it delivered follows what it heard. */
  predicate ChanOk(s: System, c: nat)
    requires c < |s.chans|
  {
    var ch := s.chans[c];
    && ch.id == (c + 1) % IDS
    && (!ch.closed <==> ch.id in s.subs && s.subs[ch.id] == c)
    && (ch.closed <==> ch.done)
    && |ch.buf| <= CAPACITY
    && Follows(Delivered(ch), Heard(Offered(s, c), c))
  }

  predicate SubsOk(s: System) {
    forall id | id in s.subs :: s.subs[id] < |s.chans| && s.chans[s.subs[id]].id == id
  }

  predicate SendingOk(s: System) {
    s.sending.Some? ==>
      && s.sending.value.todo <= s.subs.Keys && s.published != []
      && s.published[|s.published| - 1] == Publication(s.sending.value.wire, s.subs.Values)
  }

  ghost predicate PublishedOk(s: System) {
    forall i, c | 0 <= i < |s.published| && c in s.published[i].to :: c < |s.chans|
  }

  ghost predicate Invariant(s: System) {
    && !s.panicked && s.next == |s.chans| % IDS && SubsOk(s) && SendingOk(s) && PublishedOk(s)
    && forall c | 0 <= c < |s.chans| :: ChanOk(s, c)
  }

  /** Ids are fresh as long as they last: a new subscription collides with channel `c` exactly when the
      counter has come round. */
  lemma FreshIff(s: System, c: nat)
    requires Invariant(s) && c < |s.chans|
    ensures (s.next + 1) % IDS == s.chans[c].id <==> (|s.chans| - c) % IDS == 0
    ensures |s.chans| < IDS ==> (s.next + 1) % IDS != s.chans[c].id
  {
    hide Follows;
    hide Heard;
    assert ChanOk(s, c);
    ComesRound(|s.chans|, c, s.next, s.chans[c].id);
  }

  lemma ComesRound(n: nat, c: nat, next: nat, id: nat)
    requires c < n && next == n % IDS && id == (c + 1) % IDS
    ensures (next + 1) % IDS == id <==> (n - c) % IDS == 0
    ensures n < IDS ==> (next + 1) % IDS != id
  {
    SameResidue(n, c);
    NextResidue(n);
    NextResidue(c);
    if n < IDS {
      SmallResidue(n);
      SmallResidue(c);
    }
    hide *;
  }

  /** One more, modulo the number of ids. */
  lemma NextResidue(n: nat)
    ensures (n + 1) % IDS == if n % IDS == IDS - 1 then 0 else n % IDS + 1
  {
    var q, x := n / IDS, n % IDS;
    assert n == IDS * q + x;
    if x == IDS - 1 { assert n + 1 == IDS * (q + 1); }
  }

  lemma SmallResidue(n: nat)
    requires n < IDS
    ensures n % IDS == n
  {
  }

  lemma SameResidue(n: nat, c: nat)
    ensures (n - c) % IDS == 0 <==> n % IDS == c % IDS
  {
    var k := n / IDS - c / IDS;
    assert n - c == IDS * k + (n % IDS - c % IDS);
    if (n - c) % IDS == 0 {
      assert (n % IDS - c % IDS) == IDS * ((n - c) / IDS - k);
    }
  }

  lemma {:induction false} NotYetHeard(published: seq<Publication>, c: nat)
    requires forall i, k | 0 <= i < |published| && k in published[i].to :: k < c
    ensures Heard(published, c) == []
  {
    if published != [] { NotYetHeard(published[..|published| - 1], c); }
  }

  lemma SubscribeKeeps(s: System)
    requires Invariant(s) && |s.chans| < IDS && s.sending.None?
    ensures Invariant(Next(s, Subscribe))
  {
    hide ChanOk;
    var e := Next(s, Subscribe);
    if e.next in s.subs { FreshIff(s, s.subs[e.next]); }
    forall c | 0 <= c < |e.chans| ensures ChanOk(e, c) {
      if c < |s.chans| { OldChannelStays(s, c); } else { NewChannelOk(s); }
    }
  }

  lemma OldChannelStays(s: System, c: nat)
    requires Invariant(s) && |s.chans| < IDS && s.sending.None? && c < |s.chans|
    ensures ChanOk(Next(s, Subscribe), c)
  {
    hide Follows;
    hide Heard;
    assert ChanOk(s, c);
    FreshIff(s, c);
  }

  lemma NewChannelOk(s: System)
    requires Invariant(s) && s.sending.None?
    ensures ChanOk(Next(s, Subscribe), |s.chans|)
  {
    NotYetHeard(s.published, |s.chans|);
    FollowsNothing();
    hide Follows;
    hide Heard;
  }

  lemma FollowsNothing()
    ensures Follows([], [])
  {
  }

  lemma CancelKeeps(s: System, c: nat)
    requires Invariant(s) && s.sending.None? && c < |s.chans| && !s.chans[c].done
    ensures Invariant(Next(s, Cancel(c)))
  {
    hide Follows;
    hide Heard;
    var e := Next(s, Cancel(c));
    assert ChanOk(s, c);
    forall k | 0 <= k < |e.chans| ensures ChanOk(e, k) { assert ChanOk(s, k); }
  }

  lemma PublishKeeps(s: System, w: Wire)
    requires Invariant(s) && |s.chans| <= IDS && s.sending.None?
    ensures Invariant(Next(s, Publish(w)))
  {
    hide Follows;
    var e := Next(s, Publish(w));
    assert e.published[..|s.published|] == s.published;
    forall c | 0 <= c < |e.chans| ensures ChanOk(e, c) {
      assert ChanOk(s, c);
      if c in s.subs.Values {
        var id :| id in s.subs && s.subs[id] == c;
        assert Offered(e, c) == s.published;
      } else {
        assert e.chans[c].id !in s.subs || s.subs[e.chans[c].id] != c;
        SubscribedElsewhere(s, c);
        assert Offered(e, c) == e.published;
      }
    }
  }

  /** An id in the map leads to the channel that carries it. */
  lemma SubscribedElsewhere(s: System, c: nat)
    requires Invariant(s) && |s.chans| <= IDS && c < |s.chans| && c !in s.subs.Values
    ensures s.chans[c].id !in s.subs
  {
    if s.chans[c].id in s.subs { IdsDistinct(s, c, s.subs[s.chans[c].id]); }
    hide ChanOk;
  }

  lemma IdsDistinct(s: System, c: nat, k: nat)
    requires Invariant(s) && |s.chans| <= IDS && c < |s.chans| && k < |s.chans|
    ensures s.chans[c].id == s.chans[k].id <==> c == k
  {
    hide Follows;
    hide Heard;
    assert ChanOk(s, c) && ChanOk(s, k);
  }

  lemma SendKeeps(s: System, id: nat)
    requires Invariant(s) && |s.chans| <= IDS && s.sending.Some? && id in s.sending.value.todo
    ensures Invariant(Next(s, Send(id)))
  {
    hide Follows;
    hide Heard;
    var e := Next(s, Send(id));
    var k, w := s.subs[id], s.sending.value.wire;
    assert ChanOk(s, k);
    forall c | 0 <= c < |e.chans| ensures ChanOk(e, c) {
      assert ChanOk(s, c);
      if c == k {
        OfferFollows(s, k);
      } else {
        assert e.chans[c] == s.chans[c];
        IdsDistinct(s, c, k);
      }
    }
  }

  /** The event at hand, offered to a channel it is meant for. */
  lemma OfferFollows(s: System, k: nat)
    requires SendingOk(s) && s.sending.Some? && k < |s.chans| && k in s.subs.Values
    requires s.chans[k].id in s.sending.value.todo && |s.chans[k].buf| <= CAPACITY
    requires Follows(Delivered(s.chans[k]), Heard(Offered(s, k), k))
    ensures var ch := s.chans[k];
      Follows(ch.received + Offer(ch.buf, s.sending.value.wire), Heard(s.published, k))
  {
    var ch, w, n := s.chans[k], s.sending.value.wire, |s.published| - 1;
    var a, b := Delivered(ch), Heard(s.published[..n], k);
    assert Offered(s, k) == s.published[..n];
    HeardStep(s.published, k);
    hide Heard;
    FollowsMore(a, b, w);
    if ch.buf == [] {
      assert ch.received + Offer(ch.buf, w) == a + [w];
    } else {
      assert ch.received + Offer(ch.buf, w) == a && a != [];
      HeardSomething(a, b);
    }
    hide Follows;
  }

  lemma HeardStep(published: seq<Publication>, c: nat)
    requires published != []
    ensures var n := |published| - 1;
      Heard(published, c) == if c in published[n].to then Heard(published[..n], c) + [published[n].wire] else Heard(published[..n], c)
  {
  }

  lemma HeardSomething(a: seq<Wire>, b: seq<Wire>)
    requires Follows(a, b) && a != []
    ensures b != []
  {
  }

  lemma UnlockKeeps(s: System)
    requires Invariant(s) && s.sending.Some? && s.sending.value.todo == {}
    ensures Invariant(Next(s, Unlock))
  {
    hide Follows;
    hide Heard;
    var e := Next(s, Unlock);
    forall c | 0 <= c < |e.chans| ensures ChanOk(e, c) { assert ChanOk(s, c); }
  }

  lemma ReceiveKeeps(s: System, c: nat)
    requires Invariant(s) && c < |s.chans| && s.chans[c].buf != []
    ensures Invariant(Next(s, Receive(c)))
  {
    hide Follows;
    hide Heard;
    var e := Next(s, Receive(c));
    assert Delivered(e.chans[c]) == Delivered(s.chans[c]);
    forall k | 0 <= k < |e.chans| ensures ChanOk(e, k) { assert ChanOk(s, k); }
  }

  lemma NextKeeps(s: System, step: Step)
    requires Invariant(s) && |Next(s, step).chans| <= IDS
    ensures Invariant(Next(s, step))
  {
    match step
    case Subscribe => if s.sending.None? { SubscribeKeeps(s); }
    case Cancel(c) => if s.sending.None? && c < |s.chans| && !s.chans[c].done { CancelKeeps(s, c); }
    case Publish(w) => if s.sending.None? { PublishKeeps(s, w); }
    case Send(id) => if s.sending.Some? && id in s.sending.value.todo { SendKeeps(s, id); }
    case Unlock => if s.sending.Some? && s.sending.value.todo == {} { UnlockKeeps(s); }
    case Receive(c) => if c < |s.chans| && s.chans[c].buf != [] { ReceiveKeeps(s, c); }
    hide Invariant;
  }

  lemma {:induction false} Reachable(steps: seq<Step>)
    requires |Run(steps).chans| <= IDS
    ensures Invariant(Run(steps))
  {
    hide ChanOk;
    hide Next;
    if steps != [] {
      var s := Run(steps[..|steps| - 1]);
      MoreChannels(s, steps[|steps| - 1]);
      Reachable(steps[..|steps| - 1]);
      NextKeeps(s, steps[|steps| - 1]);
    }
  }

  lemma MoreChannels(s: System, step: Step)
    ensures |s.chans| <= |Next(s, step).chans|
  {
  }

  /** Tripwire safety over every interleaving, as long as no more subscriptions were made than there are
      ids: nothing panics, so no event is sent on a closed channel and no channel is closed twice; a
      channel is registered exactly while it is open; no id is given out twice; and what a subscriber
      received, with what waits for it, is a subsequence of the events published while it was
      registered, beginning with the first. */
  lemma FanOutSafe(steps: seq<Step>, c: nat, k: nat)
    requires |Run(steps).chans| <= IDS && c < |Run(steps).chans| && k < |Run(steps).chans|
    ensures var s := Run(steps);
      && !s.panicked
      && (!s.chans[c].closed <==> c in s.subs.Values)
      && (c != k ==> s.chans[c].id != s.chans[k].id)
      && |s.chans[c].buf| <= 1
      && Follows(Delivered(s.chans[c]), Heard(Offered(s, c), c))
  {
    Reachable(steps);
    StateSafe(Run(steps), c, k);
    hide *;
  }

  lemma StateSafe(s: System, c: nat, k: nat)
    requires Invariant(s) && |s.chans| <= IDS && c < |s.chans| && k < |s.chans|
    ensures !s.panicked && (!s.chans[c].closed <==> c in s.subs.Values)
    ensures c != k ==> s.chans[c].id != s.chans[k].id
    ensures |s.chans[c].buf| <= 1
    ensures Follows(Delivered(s.chans[c]), Heard(Offered(s, c), c))
  {
    hide Follows;
    hide Heard;
    assert ChanOk(s, c);
    IdsDistinct(s, c, k);
    if c !in s.subs.Values { SubscribedElsewhere(s, c); }
  }

  /** The one place of a channel: an event that finds it free takes it; while an event waits there, no
      other gets in, and it is the next one received. */
  lemma OnePlace(s: System, step: Step, c: nat)
    requires Invariant(s) && |s.chans| <= IDS && c < |s.chans|
    ensures var before, after := s.chans[c], Next(s, step).chans[c];
      && (|before.buf| == 1 && step != Receive(c) ==> after.buf == before.buf && after.received == before.received)
      && (|before.buf| == 1 && step == Receive(c) ==> after.buf == [] && after.received == before.received + before.buf)
      && (before.buf == [] && step.Send? && s.sending.Some? && step.id in s.sending.value.todo && step.id == before.id ==>
            after.buf == [s.sending.value.wire])
  {
    hide Follows;
    hide Heard;
    assert ChanOk(s, c);
    if step.Send? && step.id in s.subs && step.id == s.chans[c].id { IdsDistinct(s, c, s.subs[step.id]); }
    hide Invariant;
    if s.sending.Some? && step.Send? && step.id in s.sending.value.todo { SendableIds(s, step.id); }
  }

  lemma SendableIds(s: System, id: nat)
    requires Invariant(s) && s.sending.Some? && id in s.sending.value.todo
    ensures id in s.subs && s.subs[id] < |s.chans| && s.chans[s.subs[id]].id == id
  {
    hide ChanOk;
  }

  /** Two events in a row to a subscriber who is not listening: it gets the first, and never the second. */
  lemma SecondEventDropped(first: Wire, second: Wire)
    ensures var s := Run([Subscribe, Publish(first), Send(1), Unlock, Publish(second), Send(1), Unlock, Receive(0), Receive(0)]);
      |s.chans| == 1 && s.chans[0].received == [first] && s.chans[0].buf == []
  {
    hide Run;
    var idle := System(1, map[1 := 0], [Chan(1, [], [], false, false)], None, [], false);
    RunMore([], Subscribe);
    assert [] + [Subscribe] == [Subscribe];
    FirstStep(idle);
    OneEvent([Subscribe], idle, first);
    var offered := idle.(chans := [Chan(1, [first], [], false, false)], published := [Publication(first, {0})]);
    assert [Subscribe] + [Publish(first), Send(1), Unlock] == [Subscribe, Publish(first), Send(1), Unlock];
    assert [] + [Publication(first, {0})] == [Publication(first, {0})];
    OneEvent([Subscribe, Publish(first), Send(1), Unlock], offered, second);
    var prefix := [Subscribe, Publish(first), Send(1), Unlock, Publish(second), Send(1), Unlock];
    assert [Subscribe] + [Publish(first), Send(1), Unlock] == prefix[..4];
    assert prefix[..4] == [Subscribe, Publish(first), Send(1), Unlock];
    assert prefix[..4] + [Publish(second), Send(1), Unlock] == prefix;
    RunMore(prefix, Receive(0));
    RunMore(prefix + [Receive(0)], Receive(0));
    assert prefix + [Receive(0)] + [Receive(0)]
      == [Subscribe, Publish(first), Send(1), Unlock, Publish(second), Send(1), Unlock, Receive(0), Receive(0)];
  }

  lemma RunMore(steps: seq<Step>, step: Step)
    ensures Run(steps + [step]) == Next(Run(steps), step)
  {
    assert (steps + [step])[..|steps|] == steps;
    hide Next;
  }

  lemma FirstStep(idle: System)
    requires idle == System(1, map[1 := 0], [Chan(1, [], [], false, false)], None, [], false)
    ensures Next(Run([]), Subscribe) == idle
  {
  }

  /** One event published to the one subscriber. */
  lemma OneEvent(steps: seq<Step>, s: System, w: Wire)
    requires Run(steps) == s && s.sending == None && s.subs == map[1 := 0] && |s.chans| == 1 && !s.chans[0].closed
    requires |s.chans[0].buf| <= 1
    ensures Run(steps + [Publish(w), Send(1), Unlock])
         == s.(chans := [s.chans[0].(buf := if s.chans[0].buf == [] then [w] else s.chans[0].buf)],
               published := s.published + [Publication(w, {0})])
  {
    hide Run;
    var c := s.chans[0];
    var kept := Offer(c.buf, w);
    var s1 := s.(sending := Some(Sending(w, {1})), published := s.published + [Publication(w, {0})]);
    var s2 := s1.(chans := [c.(buf := kept)], sending := Some(Sending(w, {})));
    RunMore(steps, Publish(w));
    assert s.subs.Keys == {1} && s.subs.Values == {0};
    assert Next(s, Publish(w)) == s1;
    RunMore(steps + [Publish(w)], Send(1));
    assert s.chans[0 := c.(buf := kept)] == [c.(buf := kept)] && {1} - {1} == {};
    assert Next(s1, Send(1)) == s2;
    RunMore(steps + [Publish(w)] + [Send(1)], Unlock);
    assert Next(s2, Unlock) == s2.(sending := None);
    assert steps + [Publish(w)] + [Send(1)] + [Unlock] == steps + [Publish(w), Send(1), Unlock];
    assert kept == if c.buf == [] then [w] else c.buf;
  }

  /** With one subscription more than there are ids the first id comes round again, and a channel that
      is still registered under it drops out of the map without being closed. */
  lemma IdsComeRound(s: System)
    requires Invariant(s) && |s.chans| == IDS && s.sending.None? && !s.chans[0].closed
    ensures var e := Next(s, Subscribe);
      e.chans[IDS].id == e.chans[0].id && !e.chans[0].closed && 0 !in e.subs.Values
  {
    hide Follows;
    hide Heard;
    assert ChanOk(s, 0);
    var e := Next(s, Subscribe);
    forall id | id in e.subs ensures e.subs[id] != 0 { }
  }

  function Subscriptions(n: nat): seq<Step> { if n == 0 then [] else Subscriptions(n - 1) + [Subscribe] }

  lemma {:induction false} OnlySubscribed(n: nat)
    ensures var s := Run(Subscriptions(n));
      |s.chans| == n && s.sending == None && forall c | 0 <= c < n :: !s.chans[c].closed
  {
    if n > 0 {
      OnlySubscribed(n - 1);
      assert Subscriptions(n)[..|Subscriptions(n)| - 1] == Subscriptions(n - 1);
    }
  }

  /** A run that gets there: `n` subscriptions and one more, for as many ids as there are. */
  lemma IdsDoComeRound(n: nat)
    requires n == IDS
    ensures var e := Run(Subscriptions(n + 1));
      |e.chans| == n + 1 && e.chans[n].id == e.chans[0].id && !e.chans[0].closed && 0 !in e.subs.Values
  {
    var s := Run(Subscriptions(n));
    OnlySubscribed(n);
    OnlySubscribed(n + 1);
    assert Run(Subscriptions(n + 1)) == Next(s, Subscribe) by { OneMoreSubscription(n); }
    Reachable(Subscriptions(n));
    IdsComeRound(s);
    hide *;
  }

  lemma OneMoreSubscription(n: nat)
    ensures Run(Subscriptions(n + 1)) == Next(Run(Subscriptions(n)), Subscribe)
  {
    assert Subscriptions(n + 1)[..|Subscriptions(n + 1)| - 1] == Subscriptions(n);
    hide Next;
  }

  // ---- publishing ends -------------------------------------------------------------------------

  /** At some point of `more`, taken after `pre`, no publisher holds the mutex. */
  ghost predicate Ends(pre: seq<Step>, more: seq<Step>) { exists j :: Idle(pre, more, j) }

  ghost predicate Idle(pre: seq<Step>, more: seq<Step>, j: int) {
    0 <= j <= |more| && Run(pre + more[..j]).sending == None
  }

  lemma EndsLater(pre: seq<Step>, more: seq<Step>, n: nat)
    requires n <= |more| && Ends(pre, more[..n])
    ensures Ends(pre, more)
  {
    hide Run;
    var j :| Idle(pre, more[..n], j);
    assert more[..n][..j] == more[..j];
    assert Idle(pre, more, j);
  }

  /** While a publication lasts, its sends are taken off one by one as they happen, and nothing else
      interferes with it. */
  lemma SendingStep(s: System, step: Step)
    requires Invariant(s) && s.sending.Some?
    ensures var e := Next(s, step);
      e.sending == (if step == Unlock && s.sending.value.todo == {} then None
        else Some(Sending(s.sending.value.wire, s.sending.value.todo - (if step.Send? then {step.id} else {}))))
  {
    hide ChanOk;
    if step.Send? && step.id !in s.sending.value.todo {
      assert s.sending.value.todo - {step.id} == s.sending.value.todo;
    }
    assert s.sending.value.todo - {} == s.sending.value.todo;
  }

  lemma {:induction false} SendsShrink(pre: seq<Step>, more: seq<Step>)
    requires |Run(pre + more).chans| <= IDS && Run(pre).sending.Some?
    ensures Ends(pre, more)
      || (var s, e := Run(pre), Run(pre + more);
          e.sending.Some? && forall id :: id in e.sending.value.todo ==> id in s.sending.value.todo && Send(id) !in more)
    decreases |more|
  {
    hide *;
    if more == [] {
      assert pre + more == pre;
    } else {
      var n := |more| - 1;
      var all := pre + more;
      assert all[..|all| - 1] == pre + more[..n] && all[|all| - 1] == more[n];
      var d := Run(pre + more[..n]);
      RunLast(all);
      MoreChannels(d, more[n]);
      SendsShrink(pre, more[..n]);
      if Ends(pre, more[..n]) {
        EndsLater(pre, more, n);
      } else {
        Reachable(pre + more[..n]);
        SendingStep(d, more[n]);
        if Run(all).sending == None { EndsHere(pre, more); }
        assert forall step :: step in more <==> step in more[..n] || step == more[n];
      }
    }
  }

  lemma RunLast(steps: seq<Step>)
    requires steps != []
    ensures Run(steps) == Next(Run(steps[..|steps| - 1]), steps[|steps| - 1])
  {
    hide Next;
  }

  lemma EndsHere(pre: seq<Step>, more: seq<Step>)
    requires Run(pre + more).sending == None
    ensures Ends(pre, more)
  {
    assert more[..|more|] == more;
    assert Idle(pre, more, |more|);
  }

  /** Publishing never blocks: from any reachable moment of a publication, any steps that contain its
      remaining sends, followed by its unlock, end it, whatever else the goroutines do in between and
      whether or not anyone receives. */
  lemma PublishNeverBlocks(pre: seq<Step>, more: seq<Step>)
    requires |Run(pre + more + [Unlock]).chans| <= IDS && Run(pre).sending.Some?
    requires forall id :: id in Run(pre).sending.value.todo ==> Send(id) in more
    ensures Ends(pre, more + [Unlock])
  {
    hide *;
    var all := more + [Unlock];
    assert pre + more + [Unlock] == pre + all && all[..|more|] == more;
    assert (pre + all)[..|pre + all| - 1] == pre + more;
    RunLast(pre + all);
    var d := Run(pre + more);
    MoreChannels(d, Unlock);
    SendsShrink(pre, more);
    if Ends(pre, more) {
      EndsLater(pre, all, |more|);
    } else {
      Reachable(pre + more);
      assert d.sending.value.todo == {};
      SendingStep(d, Unlock);
      EndsHere(pre, all);
    }
  }
}
