/** Bead-id lists: `splitIDs`, its normal form, and the fixed-canary admission test built on it. */
module IdLists {
  import opened Strings

  /** Go's string order: lexicographic on code units. */
  predicate Less(a: string, b: string) {
    b != [] && (a == [] || a[0] < b[0] || (a[0] == b[0] && Less(a[1..], b[1..])))
  }

  ghost predicate StrictlySorted(ids: seq<string>) {
    forall i, j | 0 <= i < j < |ids| :: Less(ids[i], ids[j])
  }

  lemma {:induction false} LessIrreflexive(a: string)
    ensures !Less(a, a)
  {
    if a != [] { LessIrreflexive(a[1..]); }
  }

  lemma {:induction false} LessTransitive(a: string, b: string, c: string)
    requires Less(a, b) && Less(b, c)
    ensures Less(a, c)
  {
    if a != [] && a[0] == b[0] == c[0] { LessTransitive(a[1..], b[1..], c[1..]); }
  }

  lemma {:induction false} LessTotal(a: string, b: string)
    ensures Less(a, b) || a == b || Less(b, a)
  {
    if a != [] && b != [] && a[0] == b[0] {
      LessTotal(a[1..], b[1..]);
      assert a == [a[0]] + a[1..] && b == [b[0]] + b[1..];
    }
  }

  function Elements(ids: seq<string>): set<string> {
    set id | id in ids
  }

  /** sort.Strings on a list without duplicates, as an insertion sort. */
  function Insert(id: string, sorted: seq<string>): seq<string> {
    if sorted == [] || Less(id, sorted[0]) then [id] + sorted
    else [sorted[0]] + Insert(id, sorted[1..])
  }

  function SortStrings(ids: seq<string>): seq<string> {
    if ids == [] then [] else Insert(ids[0], SortStrings(ids[1..]))
  }

  lemma {:induction false} InsertElements(id: string, sorted: seq<string>)
    ensures multiset(Insert(id, sorted)) == multiset(sorted) + multiset{id}
    ensures Elements(Insert(id, sorted)) == Elements(sorted) + {id}
  {
    if sorted == [] || Less(id, sorted[0]) {
    } else {
      InsertElements(id, sorted[1..]);
      assert sorted == [sorted[0]] + sorted[1..];
      assert Elements(Insert(id, sorted)) == {sorted[0]} + Elements(Insert(id, sorted[1..]));
    }
  }

  lemma {:induction false} InsertSorted(id: string, sorted: seq<string>)
    requires StrictlySorted(sorted) && id !in sorted
    ensures StrictlySorted(Insert(id, sorted))
  {
    if sorted == [] {
    } else if Less(id, sorted[0]) {
      forall j | 0 < j < |sorted| ensures Less(id, sorted[j]) { LessTransitive(id, sorted[0], sorted[j]); }
    } else {
      LessTotal(id, sorted[0]);
      InsertSorted(id, sorted[1..]);
      InsertElements(id, sorted[1..]);
      var tail := Insert(id, sorted[1..]);
      forall j | 0 <= j < |tail| ensures Less(sorted[0], tail[j]) {
        assert tail[j] in Elements(tail);
        if tail[j] != id {
          assert tail[j] in sorted[1..];
        }
      }
    }
  }

  ghost predicate Distinct(ids: seq<string>) {
    forall i, j | 0 <= i < j < |ids| :: ids[i] != ids[j]
  }

  lemma {:induction false} SortStringsPermutes(ids: seq<string>)
    ensures multiset(SortStrings(ids)) == multiset(ids)
    ensures Elements(SortStrings(ids)) == Elements(ids)
  {
    if ids != [] {
      SortStringsPermutes(ids[1..]);
      InsertElements(ids[0], SortStrings(ids[1..]));
      assert ids == [ids[0]] + ids[1..];
    }
  }

  lemma {:induction false} SortStringsSorts(ids: seq<string>)
    requires Distinct(ids)
    ensures StrictlySorted(SortStrings(ids))
  {
    if ids != [] {
      SortStringsSorts(ids[1..]);
      SortStringsPermutes(ids[1..]);
      assert ids[0] !in Elements(ids[1..]);
      assert ids[0] !in Elements(SortStrings(ids[1..]));
      InsertSorted(ids[0], SortStrings(ids[1..]));
    }
  }

  lemma StrictlySortedDistinct(ids: seq<string>, i: nat, j: nat)
    requires StrictlySorted(ids) && i < j < |ids|
    ensures ids[i] != ids[j]
  {
    LessIrreflexive(ids[i]);
  }

  lemma NoElements(ids: seq<string>)
    ensures Elements(ids) == {} <==> ids == []
  {
    if ids != [] { assert ids[0] in Elements(ids); }
  }

  /** A set of strings has only one strictly sorted listing. */
  lemma {:induction false} SortedListingUnique(a: seq<string>, b: seq<string>)
    requires StrictlySorted(a) && StrictlySorted(b) && Elements(a) == Elements(b)
    ensures a == b
  {
    if a == [] || b == [] {
      NoElements(a);
      NoElements(b);
    } else {
      SameHead(a, b);
      forall id ensures id in Elements(a[1..]) <==> id in Elements(b[1..]) {
        TailElements(a, id);
        TailElements(b, id);
      }
      SortedListingUnique(a[1..], b[1..]);
      assert a == [a[0]] + a[1..] && b == [b[0]] + b[1..];
    }
  }

  lemma SameHead(a: seq<string>, b: seq<string>)
    requires StrictlySorted(a) && StrictlySorted(b) && Elements(a) == Elements(b) && a != [] && b != []
    ensures a[0] == b[0]
  {
    assert a[0] in Elements(b) && b[0] in Elements(a);
    var i :| 0 <= i < |b| && b[i] == a[0];
    var j :| 0 <= j < |a| && a[j] == b[0];
    if i > 0 && j > 0 {
      LessTransitive(a[0], b[0], a[0]);
      LessIrreflexive(a[0]);
    }
  }

  lemma TailElements(a: seq<string>, id: string)
    requires StrictlySorted(a) && a != []
    ensures id in Elements(a[1..]) <==> id in Elements(a) && id != a[0]
  {
    if id in Elements(a[1..]) {
      var i :| 0 <= i < |a[1..]| && a[1..][i] == id;
      StrictlySortedDistinct(a, 0, i + 1);
    }
  }

  lemma {:induction false} SortedListingSize(a: seq<string>)
    requires StrictlySorted(a)
    ensures |Elements(a)| == |a|
  {
    if a == [] {
      assert Elements(a) == {};
    } else {
      SortedListingSize(a[1..]);
      forall id ensures id in Elements(a[1..]) <==> id in Elements(a) && id != a[0] { TailElements(a, id); }
      assert Elements(a) == Elements(a[1..]) + {a[0]};
    }
  }

  /** The ids a comma-separated list denotes: its trimmed, non-empty pieces. */
  function IdSet(value: string): set<string> {
    IdsOf(Split(value, ','))
  }

  function IdsOf(pieces: seq<string>): set<string> {
    set p | p in pieces && TrimSpace(p) != [] :: TrimSpace(p)
  }

  lemma OneMorePiece(pieces: seq<string>, i: nat, out: seq<string>)
    requires i < |pieces|
    ensures var id := TrimSpace(pieces[i]);
      && IdsOf(pieces[..i + 1]) == IdsOf(pieces[..i]) + (if id == [] then {} else {id})
      && Elements(out + [id]) == Elements(out) + {id}
  {
    hide TrimSpace;
    assert pieces[..i + 1] == pieces[..i] + [pieces[i]];
    assert forall p :: p in pieces[..i + 1] <==> p in pieces[..i] || p == pieces[i];
  }

  lemma BlankHasNoIds(value: string)
    requires TrimSpace(value) == []
    ensures IdSet(value) == {}
  {
    forall p | p in Split(value, ',') ensures TrimSpace(p) == [] {
      TrimSpaceCuts(value);
      assert !IsSpace(',') && ',' !in value;
      SplitOne(value, ',');
    }
  }

  lemma IdsOfPieces(value: string)
    ensures IdSet(value) == IdsOf(Split(value, ','))
  {
  }

  lemma NoIds()
    ensures IdsOf([]) == {} && Elements([]) == {} && Distinct([]) && StrictlySorted([])
  {
  }

  lemma StillDistinct(out: seq<string>, id: string)
    requires Distinct(out) && id !in Elements(out)
    ensures Distinct(out + [id])
  {
    assert forall i | 0 <= i < |out| :: out[i] in Elements(out);
  }

  /** splitIDs: the sorted, duplicate-free list of the ids that `value` denotes. */
  method SplitIDs(value: string) returns (out: seq<string>)
    ensures StrictlySorted(out)
    ensures Elements(out) == IdSet(value)
  {
    hide *;
    if TrimSpace(value) == [] {
      BlankHasNoIds(value);
      NoIds();
      return [];
    }
    var pieces := Split(value, ',');
    var seen: set<string> := {};
    out := [];
    NoIds();
    for i := 0 to |pieces|
      invariant seen == Elements(out)
      invariant Distinct(out)
      invariant seen == IdsOf(pieces[..i])
    {
      var id := TrimSpace(pieces[i]);
      OneMorePiece(pieces, i, out);
      if id != [] && id !in seen {
        StillDistinct(out, id);
        seen := seen + {id};
        out := out + [id];
      }
    }
    assert pieces[..|pieces|] == pieces;
    SortStringsPermutes(out);
    SortStringsSorts(out);
    IdsOfPieces(value);
    out := SortStrings(out);
  }

  /** The unique output of SplitIDs, as a function of the id set it must list. */
  ghost predicate Lists(out: seq<string>, value: string) {
    StrictlySorted(out) && Elements(out) == IdSet(value)
  }

  /** Two inputs give the same list exactly when they denote the same id set. */
  lemma SameListIffSameIds(a: string, b: string, outA: seq<string>, outB: seq<string>)
    requires Lists(outA, a) && Lists(outB, b)
    ensures outA == outB <==> IdSet(a) == IdSet(b)
  {
    if IdSet(a) == IdSet(b) { SortedListingUnique(outA, outB); }
  }

  /** Every listed id is trimmed, non-empty and comma-free. */
  lemma ListedIdsAreClean(value: string, out: seq<string>)
    requires Lists(out, value)
    ensures forall id <- out :: id != [] && Trimmed(id) && ',' !in id
  {
    forall id <- out ensures id != [] && Trimmed(id) && ',' !in id {
      assert id in IdSet(value);
      var p :| p in Split(value, ',') && TrimSpace(p) == id;
      TrimSpaceCuts(p);
    }
  }

  /** Joining clean ids and splitting them again denotes the same set: the list is a fixpoint. */
  lemma JoinedIds(ids: seq<string>)
    requires forall id <- ids :: ',' !in id
    ensures IdSet(Join(ids, ',')) == set id | id in ids && TrimSpace(id) != [] :: TrimSpace(id)
  {
    if ids != [] {
      SplitJoin(ids, ',');
    } else {
      assert Split([], ',') == [[]];
    }
  }

  /** `splitIDs(strings.Join(splitIDs(v), ","))` is `splitIDs(v)`. */
  lemma SplitIsNormalForm(value: string, out: seq<string>, again: seq<string>)
    requires Lists(out, value) && Lists(again, Join(out, ','))
    ensures again == out
  {
    ListedIdsAreClean(value, out);
    JoinedIds(out);
    forall id <- out ensures TrimSpace(id) == id { TrimmedIsFixed(id); }
    assert (set id | id in out && TrimSpace(id) != [] :: TrimSpace(id)) == Elements(out);
    SortedListingUnique(out, again);
  }

  /** The supervisor's admission request, as far as the canary test reads it. */
  datatype RunRequest = RunRequest(only: string, max: int, allowedIDs: seq<string>, authoritativeWidth: bool)

  /** What fixedCanaryRequestMatches must accept, over id sets. */
  ghost predicate FixedCanaryRequest(cohort: seq<string>, req: RunRequest) {
    var ids := IdSet(Join(cohort, ','));
    && |ids| >= 2
    && IdSet(Join(req.allowedIDs, ',')) == ids
    && req.authoritativeWidth
    && 2 <= req.max <= |ids|
    && (req.only == [] || req.only in ids)
  }

  /** The list comparisons of FixedCanaryRequestMatches decide the comparisons of id sets. */
  lemma RequestDecided(cohort: seq<string>, req: RunRequest, expected: seq<string>, actual: seq<string>)
    requires Lists(expected, Join(cohort, ',')) && Lists(actual, Join(req.allowedIDs, ','))
    ensures FixedCanaryRequest(cohort, req) <==>
      && |expected| >= 2 && actual == expected && req.authoritativeWidth
      && 2 <= req.max <= |expected| && (req.only == [] || req.only in expected)
  {
    SortedListingSize(expected);
    SameListIffSameIds(Join(cohort, ','), Join(req.allowedIDs, ','), expected, actual);
    assert req.only in Elements(expected) <==> req.only in expected;
  }

  method FixedCanaryRequestMatches(cohort: seq<string>, req: RunRequest) returns (ok: bool)
    ensures ok <==> FixedCanaryRequest(cohort, req)
  {
    var expected := SplitIDs(Join(cohort, ','));
    var actual := SplitIDs(Join(req.allowedIDs, ','));
    RequestDecided(cohort, req, expected, actual);
    if |expected| < 2 || |actual| != |expected| || !req.authoritativeWidth
       || req.max < 2 || req.max > |expected| {
      return false;
    }
    for i := 0 to |expected|
      invariant expected[..i] == actual[..i]
    {
      if expected[i] != actual[i] {
        return false;
      }
    }
    assert expected == expected[..|expected|] && actual == actual[..|expected|];
    if req.only == [] {
      return true;
    }
    for i := 0 to |expected|
      invariant req.only !in expected[..i]
    {
      if expected[i] == req.only {
        return true;
      }
    }
    assert expected == expected[..|expected|];
    return false;
  }
}
