/** What a canary generation is: when a spec has one, and when two specs have the same. */
module Generations {
  import opened Options
  import opened Strings
  import opened IdLists
  import opened Canary
  import opened Cohorts

  /** What the generation digest of a spec covers. */
  function Envelope(project: string, s: Spec): Generation {
    Generation(
      TrimSpace(project), TrimSpace(s.commit), TrimSpace(s.version), TrimSpace(s.build),
      s.contract, s.registryIdentity, s.autonomyPolicy, s.executionPolicy,
      Normalize(s.cohort), s.targetWidth, EffectiveInactivity(s.inactivityMs), HardStops(s.hardStops), s.reportPath)
  }

  lemma GenerationOf(project: string, s: Spec)
    requires SpecGeneration(project, s).Some?
    ensures SpecGeneration(project, s) == Some(OfGeneration(Envelope(project, s)))
  {
    hide Normalize;
    hide TrimSpace;
    hide HardStops;
    hide ValidCommit;
  }

  function SpecOf(c: CanaryState): Spec {
    Spec(c.cohort, c.targetWidth, c.inactivityMs, c.hardStops, c.commit, c.version, c.build,
      c.contract, c.registryIdentity, c.autonomyPolicy, c.executionPolicy, Absent, c.reportPath)
  }

  lemma StateGenerationOf(project: string, c: CanaryState)
    ensures StateGeneration(project, c) == SpecGeneration(project, SpecOf(c))
  {
    hide SpecGeneration;
  }

  // ---- in raw fields ---------------------------------------------------------------------------

  /** A full lower-case commit id. */
  predicate CommitId(c: string) { |c| in {40, 64} && forall i | 0 <= i < |c| :: c[i] in "0123456789abcdef" }

  lemma CommitIdIff(c: string)
    ensures ValidCommit(c) <==> CommitId(c)
  {
    forall x: char ensures HexLower(x) <==> x in "0123456789abcdef" { }
    if CommitId(c) {
      forall i | 0 <= i < |c| ensures HexLower(c[i]) { }
    }
    hide HexLower;
  }

  /** The hard stops a spec is under: the seven that every canary has, and its own. */
  function StopsOf(extra: seq<string>): set<string> {
    Members(["unjustified-frontier-implementation", "engine-invariant", "cohort-admission-violation",
             "host-memory-pressure", "token-semantics-inconsistent", "operator-intervention",
             "canary-inactivity-timeout"])
    + Members(extra)
  }

  lemma HardStopsList(extra: seq<string>)
    ensures StrictlySorted(HardStops(extra)) && Elements(HardStops(extra)) == StopsOf(extra)
  {
    hide TrimSpace;
    hide Blank;
    hide Normalize;
    NormalizeLists(REQUIRED_HARD_STOPS + extra);
    MembersConcat(REQUIRED_HARD_STOPS, extra);
  }

  lemma MembersConcat(a: seq<string>, b: seq<string>)
    ensures Members(a + b) == Members(a) + Members(b)
  {
    hide TrimSpace;
    hide Blank;
  }

  lemma HardStopsIff(a: seq<string>, b: seq<string>)
    ensures HardStops(a) == HardStops(b) <==> StopsOf(a) == StopsOf(b)
  {
    HardStopsList(a);
    HardStopsList(b);
    hide HardStops;
    hide StopsOf;
    if StopsOf(a) == StopsOf(b) { SortedListingUnique(HardStops(a), HardStops(b)); }
  }

  /** The inactivity limit a canary runs under: half an hour unless it sets one. */
  function InEffect(ms: int): int { if ms <= 0 then 1_800_000 else ms }

  /** A spec that says everything a generation must say. */
  ghost predicate Complete(project: string, s: Spec) {
    && TrimSpace(project) != [] && Clean(s.cohort) && 2 <= s.targetWidth <= |s.cohort|
    && CommitId(TrimSpace(s.commit)) && TrimSpace(s.version) != [] && TrimSpace(s.build) != []
    && s.contract != Absent && s.registryIdentity != Absent && s.autonomyPolicy != Absent && s.executionPolicy != Absent
    && TrimSpace(s.reportPath) != []
  }

  /** `g` is what the spec says, with its lists as sets and its inactivity limit in effect. */
  ghost predicate Identifies(g: Generation, project: string, s: Spec) {
    && g.project == TrimSpace(project) && g.commit == TrimSpace(s.commit)
    && g.version == TrimSpace(s.version) && g.build == TrimSpace(s.build)
    && g.contract == s.contract && g.registryIdentity == s.registryIdentity
    && g.autonomyPolicy == s.autonomyPolicy && g.executionPolicy == s.executionPolicy
    && StrictlySorted(g.cohort) && Elements(g.cohort) == Members(s.cohort)
    && g.targetWidth == s.targetWidth
    && g.inactivityMs == InEffect(s.inactivityMs)
    && StrictlySorted(g.hardStops) && Elements(g.hardStops) == StopsOf(s.hardStops)
    && g.reportPath == s.reportPath
  }

  lemma EnvelopeIdentifies(project: string, s: Spec, g: Generation)
    ensures Identifies(g, project, s) <==> g == Envelope(project, s)
  {
    hide TrimSpace;
    hide Normalize;
    hide HardStops;
    hide StopsOf;
    hide Members;
    NormalizeLists(s.cohort);
    HardStopsList(s.hardStops);
    if Identifies(g, project, s) {
      SortedListingUnique(g.cohort, Normalize(s.cohort));
      SortedListingUnique(g.hardStops, HardStops(s.hardStops));
    }
    hide StrictlySorted;
    hide Elements;
  }

  lemma CleanListSize(ids: seq<string>)
    ensures |ids| >= 1 ==> (Clean(ids) <==> |Normalize(ids)| == |ids|)
  {
    hide Clean;
    CleanIff(ids);
    DedupKeepsIff(TrimAll(ids));
    SortStringsPermutes(Dedup(TrimAll(ids)));
    SameSize(SortStrings(Dedup(TrimAll(ids))), Dedup(TrimAll(ids)));
    NormalizeIs(ids);
    hide *;
  }

  /** A spec has a generation exactly when it is complete, and the generation is what it says. */
  lemma GenerationIff(project: string, s: Spec, g: Generation)
    ensures SpecGeneration(project, s) == Some(OfGeneration(g)) <==> Complete(project, s) && Identifies(g, project, s)
    ensures SpecGeneration(project, s).Some? <==> Complete(project, s)
    ensures SpecGeneration(project, s).Some? ==> SpecGeneration(project, s) == Some(OfGeneration(Envelope(project, s)))
  {
    hide TrimSpace;
    hide Normalize;
    hide HardStops;
    hide Clean;
    hide CommitId;
    hide ValidCommit;
    CleanListSize(s.cohort);
    CommitIdIff(TrimSpace(s.commit));
    EnvelopeIdentifies(project, s, g);
    hide Identifies;
  }

  /** Two complete specs have the same generation exactly when they agree on everything but the order
      and spacing of their lists, and on an inactivity limit in effect. */
  lemma SameGenerationIff(project: string, s: Spec, t: Spec)
    requires Complete(project, s) && Complete(project, t)
    ensures SpecGeneration(project, s) == SpecGeneration(project, t) <==>
      (&& TrimSpace(s.commit) == TrimSpace(t.commit) && TrimSpace(s.version) == TrimSpace(t.version)
       && TrimSpace(s.build) == TrimSpace(t.build)
       && s.contract == t.contract && s.registryIdentity == t.registryIdentity
       && s.autonomyPolicy == t.autonomyPolicy && s.executionPolicy == t.executionPolicy
       && Members(s.cohort) == Members(t.cohort) && s.targetWidth == t.targetWidth
       && InEffect(s.inactivityMs) == InEffect(t.inactivityMs)
       && StopsOf(s.hardStops) == StopsOf(t.hardStops) && s.reportPath == t.reportPath)
  {
    hide TrimSpace;
    hide Normalize;
    hide HardStops;
    hide StopsOf;
    hide Members;
    GenerationIff(project, s, Envelope(project, s));
    GenerationIff(project, t, Envelope(project, t));
    NormalizeDecidesMembers(s.cohort, t.cohort);
    HardStopsIff(s.hardStops, t.hardStops);
    hide Complete;
    hide SpecGeneration;
    hide Identifies;
  }
}
