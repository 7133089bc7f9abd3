/** What a cohort list denotes, and what its digest and a request for it depend on. */
module Cohorts {
  import opened Options
  import opened Strings
  import opened IdLists
  import opened Canary
  import opened CanaryPlans

  lemma {:induction false} DedupLists(ids: seq<string>)
    ensures Elements(Dedup(ids)) == Elements(ids) - {[]} && Distinct(Dedup(ids))
  {
    if ids != [] {
      var n := |ids| - 1;
      DedupLists(ids[..n]);
      assert ids == ids[..n] + [ids[n]];
      assert Elements(ids) == Elements(ids[..n]) + {ids[n]};
      var r := Dedup(ids[..n]);
      assert ids[n] in r <==> ids[n] in Elements(r);
      assert Elements(r + [ids[n]]) == Elements(r) + {ids[n]};
    }
  }

  /** The ids a cohort denotes. */
  function Members(ids: seq<string>): set<string> { set id | id in ids && !Blank(id) :: TrimSpace(id) }

  lemma NormalizeLists(ids: seq<string>)
    ensures StrictlySorted(Normalize(ids)) && Elements(Normalize(ids)) == Members(ids)
  {
    DedupLists(TrimAll(ids));
    SortStringsPermutes(Dedup(TrimAll(ids)));
    SortStringsSorts(Dedup(TrimAll(ids)));
    TrimmedMembers(ids);
    hide *;
    NormalizeIs(ids);
  }

  lemma NormalizeIs(ids: seq<string>)
    ensures Normalize(ids) == SortStrings(Dedup(TrimAll(ids)))
  {
  }

  lemma TrimmedMembers(ids: seq<string>)
    ensures Elements(TrimAll(ids)) - {[]} == Members(ids)
  {
    var t := TrimAll(ids);
    hide TrimSpace;
    forall id | id in Members(ids) ensures id in Elements(t) - {[]} {
      var raw :| raw in ids && !Blank(raw) && TrimSpace(raw) == id;
      var i :| 0 <= i < |ids| && ids[i] == raw;
      assert t[i] == id;
    }
  }

  /** Normalizing forgets order, repetition and surrounding space, and nothing else. */
  lemma NormalizeDecidesMembers(a: seq<string>, b: seq<string>)
    ensures Normalize(a) == Normalize(b) <==> Members(a) == Members(b)
  {
    NormalizeLists(a);
    NormalizeLists(b);
    if Members(a) == Members(b) { SortedListingUnique(Normalize(a), Normalize(b)); }
  }

  lemma SortedAlikeMembers(a: seq<string>, b: seq<string>)
    requires SortStrings(a) == SortStrings(b)
    ensures Normalize(a) == Normalize(b)
  {
    SortStringsPermutes(a);
    SortStringsPermutes(b);
    forall id ensures id in a <==> id in b {
      assert id in a <==> id in Elements(a);
      assert id in b <==> id in Elements(b);
    }
    assert Members(a) == Members(b);
    NormalizeDecidesMembers(a, b);
  }

  /** What splitIDs delivers is in normal form already. */
  lemma SplitListsAreNormal(value: string, ids: seq<string>)
    requires Lists(ids, value)
    ensures Normalize(ids) == ids
  {
    hide Normalize;
    ListedIdsAreClean(value, ids);
    NormalizeLists(ids);
    forall id ensures id in Members(ids) <==> id in Elements(ids) {
      if id in ids { TrimmedIsFixed(id); }
      if id in Members(ids) {
        var raw :| raw in ids && !Blank(raw) && TrimSpace(raw) == id;
        TrimmedIsFixed(raw);
      }
    }
    SortedListingUnique(Normalize(ids), ids);
  }

  // ---- digests ---------------------------------------------------------------------------------

  /** A list that has a digest: not empty, no blank id, no id twice. */
  ghost predicate Clean(ids: seq<string>) {
    ids != [] && (forall i | 0 <= i < |ids| :: !Blank(ids[i]))
    && forall i, j | 0 <= i < j < |ids| :: TrimSpace(ids[i]) != TrimSpace(ids[j])
  }

  lemma {:induction false} DedupKeepsIff(ids: seq<string>)
    ensures |Dedup(ids)| <= |ids|
    ensures |Dedup(ids)| == |ids| <==> [] !in ids && Distinct(ids)
    ensures |Dedup(ids)| == |ids| ==> Dedup(ids) == ids
  {
    if ids != [] {
      var n := |ids| - 1;
      DedupKeepsIff(ids[..n]);
      DedupLists(ids[..n]);
      assert ids == ids[..n] + [ids[n]];
      assert ids[n] in Dedup(ids[..n]) <==> ids[n] in Elements(Dedup(ids[..n]));
      if |Dedup(ids)| == |ids| { assert ids[n] !in ids[..n]; }
    }
  }

  lemma CleanIff(ids: seq<string>)
    ensures Clean(ids) <==> ids != [] && [] !in TrimAll(ids) && Distinct(TrimAll(ids))
  {
    hide TrimSpace;
    var t := TrimAll(ids);
    if [] in t {
      var i :| 0 <= i < |t| && t[i] == [];
      assert Blank(ids[i]);
    }
    if Clean(ids) {
      forall i, j | 0 <= i < j < |t| ensures t[i] != t[j] { assert TrimSpace(ids[i]) != TrimSpace(ids[j]); }
    }
    if Distinct(t) {
      forall i, j | 0 <= i < j < |ids| ensures TrimSpace(ids[i]) != TrimSpace(ids[j]) { assert t[i] != t[j]; }
    }
    if [] !in t {
      forall i | 0 <= i < |ids| ensures !Blank(ids[i]) { assert t[i] in t; }
    }
  }

  /** The digest exists for clean lists, and covers their normal form. */
  lemma CohortDigestIs(ids: seq<string>)
    ensures CohortDigest(ids) == if Clean(ids) then OfCohort(Normalize(ids)) else Absent
    ensures Clean(ids) ==> |Normalize(ids)| == |ids|
  {
    CleanIff(ids);
    DedupKeepsIff(TrimAll(ids));
    SortStringsPermutes(TrimAll(ids));
    assert multiset(SortStrings(TrimAll(ids))) == multiset(TrimAll(ids));
    SameSize(SortStrings(TrimAll(ids)), TrimAll(ids));
    hide Clean;
    hide Distinct;
    hide SortStrings;
    hide Dedup;
  }

  lemma SameSize(a: seq<string>, b: seq<string>)
    requires multiset(a) == multiset(b)
    ensures |a| == |b|
  {
    assert |multiset(a)| == |a| && |multiset(b)| == |b|;
  }

  /** Two lists that have digests have the same one exactly when they denote the same ids. */
  lemma DigestDecidesIds(a: seq<string>, b: seq<string>)
    requires CohortDigest(a) != Absent
    ensures CohortDigest(b) == CohortDigest(a) <==> Clean(b) && Members(b) == Members(a)
  {
    CohortDigestIs(a);
    CohortDigestIs(b);
    NormalizeDecidesMembers(a, b);
    hide *;
  }

  // ---- requests --------------------------------------------------------------------------------

  /** The request that validatePassedNativeCanaryRequest accepts names exactly the ids the passing
      report evaluated, and any other request is accepted exactly when it is a clean list of the same
      ids for the same width: order and surrounding space do not matter. */
  lemma AcceptedRequests(d: Disk, project: string, c: CanaryState, a: Request, b: Request)
    requires RequestMatches(d, project, c, a)
    ensures d.report.Some? && StrictlySorted(d.report.value.cohort) && Elements(d.report.value.cohort) == Members(a.cohort)
    ensures RequestMatches(d, project, c, b) <==>
      b.target == a.target && Clean(b.cohort) && Members(b.cohort) == Members(a.cohort)
  {
    DigestDecidesIds(a.cohort, b.cohort);
    CohortDigestIs(a.cohort);
    CohortDigestIs(b.cohort);
    NormalizeLists(a.cohort);
    ReportCohort(d, project, c, a);
    hide Clean;
    hide CohortDigest;
    hide Authentic;
    hide Normalize;
    hide Members;
  }

  lemma ReportCohort(d: Disk, project: string, c: CanaryState, a: Request)
    requires RequestMatches(d, project, c, a)
    ensures d.report.Some? && OfCohort(d.report.value.cohort) == CohortDigest(a.cohort)
  {
    hide CohortDigest;
  }
}
