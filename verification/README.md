# Koryph: canary evidence, verdict extraction and three smaller protocols

This project models the parts of koryph whose correctness depends on more than one function, and proves
what they are for:

- **The native-canary evidence protocol** (`Canary`, `Cohorts`, `Generations`,
  `DurableWrites`, `CanaryPlans`, `CanaryHost`, `Promotion`, `Retirement`, `CanaryProtocol`, `CanarySafety`,
  `CanaryHistory`, `CanaryRuns`, `CanaryAdmission`, `AdmissionSafety`, `PromotionDecisions`,
  `RetirementDecisions`, `StoppedDecisions`, `AdmissionDecisions`, `CanaryExamples`, `DecisionExamples`). A canary's evidence is spread over the supervisor checkpoint, the
  promotion marker, the registry record, the report file, write-once archives and history records, and two
  operator sentinels. Each transaction is a list of checks followed by ordered durable writes. `CanaryHost`
  has the transactions as imperative methods on durable state; every method is proved to do exactly what its
  plan (`CanaryPlans`) does under the same faults (`Fate`: a write persists, fails, or persists and still
  reports an error; a crash is the failure of the next write). Whole histories of faults, crashes, replays
  and concurrent commands are then quantified over. The `...Decisions` modules say, for every disk and every
  invocation, exactly when each transaction goes ahead and what it leaves, in the fields of the checkpoint,
  the spec and the report, apart from the predicates the transactions themselves are written with.
- **The verdict extractor** (`BraceScanner`, `Fences`, `JsonText`, `JsonParser`, `JsonScan`, `Selection`,
  `Envelope`, `EnvelopeRoundTrip`, `EnvelopeOutcomes`): the string-aware brace scanner, the fence scanner, last-match selection
  and the envelope, against the grammar of RFC 8259 (sections 2 to 7) as derivation trees, with a reader
  proved sound and complete for it.
- **Tripwire fan-out** (`Tripwire`): the subscriptions as classes, and every interleaving of subscribing,
  cancelling, publishing and receiving as a step system.
- **Three loops**: the log follower (`LogTail`), the dead-run reconciler (`RunReconcile`) and the merge-slot
  backoff on wrapping int64 (`MergeSlot`). `IdLists` has the cohort lists the canary request test uses.

Digests are modelled by their preimages, so equal digests mean equal contents. Clocks, process liveness, git
answers, file contents seen by a poll and the outcome of every write are inputs. The supervisor's own writes
between transactions appear in `CanaryProtocol` as steps that may write any checkpoint its guards allow.

## Findings

Each has a lemma with the general statement and, where something goes wrong, one at a concrete input.

- *The drain sentinel can outlive a retirement.* `ledger.ConsumeDrain` drops the error of removing it, so a
  retirement can clear the checkpoint and report success with the sentinel still there, and no replay comes
  back for it (`DrainCanSurvive`, `DrainSurvives`). Apart from that one bit replays are exact, and
  `RetirementReplays` says when the bit is set.
- *Who can complete a retirement interrupted after its history record* (`ResumesIff`, exact for every
  checkpoint). If the checkpoint stores its autonomy and execution policy digests, or the specs agree on the
  missing ones, only the generation that began it: any other ends in an error and changes nothing
  (`OnlySameGenerationResumes`, `OtherBuildRefused`). If a checkpoint lacks one of them and the specs differ
  in it, the digest is filled in from the spec at hand, so that the same canary gets two generations and two
  history keys, and the second build goes through beside the first, leaving two records of one canary
  (`OtherKeyResumesIff`, `OtherBuildCompletes`).
- *With a promotion marker on disk retirement always ends in an error before its first write*, so the
  branches that archive and remove the marker (cmd/koryph/loop.go:684-703, 743-748) are never taken
  (`Host.RetireStale` against `RetirePlan`, `MarkerRefuses`).
- *The test for "neither registry nor binary changed" in a retirement never decides*
  (cmd/koryph/loop.go:574-576): by then the generations differ, and with nothing else changed they could not
  (`UnchangedIsSame`).
- *An interrupted finalization is not replayed*: its first checkpoint opens the circuit, and both
  transactions for unfinished canaries insist on a stopped supervisor (`FinalizationSticks`,
  `FinalizationStuck`).
- *The direct match can take the envelope for the verdict*: exactly when every required key is a member of
  the envelope (`DirectMatchIff`, `EnvelopeTaken`).
- *Blank lines in a followed log depend on the poll schedule*, although the comment on `tailFollow` promises
  every line exactly once (`EveryLineIff`, `BlankLinesDependOnSchedule`); non-empty lines do not.
- *A slot reported as left can be parked on disk all the same*, by the save of a later slot, because
  `UpdateSlot` changes the run in memory before it saves. No number of later reconciles then releases its
  lease (`LeftButParked`, `LeftButParkedExample`; `AllOnDisk` says exactly which slots).
- *Subscription ids are fresh for 2^64 subscriptions and not one more* (`FreshIff`, `IdsComeRound`,
  `IdsDoComeRound`).

## Model

| member | source | states |
|---|---|---|
| CanaryHost.Host.SaveMarker | cmd/koryph/loop.go:432-435 | the marker after one atomic write, under each fate |
| CanaryHost.Host.CompareAndSet | internal/registry/store.go:385-424 | only the expected posture and identity change; the record may be stored although an error is reported |
| CanaryHost.Host.ArchiveReportFile | cmd/koryph/loop.go:1089-1116 | write-once: an existing archive is kept, and accepted only if equal |
| CanaryHost.Host.ArchiveStateFile | cmd/koryph/loop.go:1089-1116 | the same for the archived checkpoint |
| CanaryHost.Host.WriteHistory | cmd/koryph/loop.go:704-717 | an existing record is kept, and accepted only if equal up to its stamp |
| CanaryHost.Host.ConsumeDrainSentinel | internal/ledger/operator.go:61-74 | the sentinel goes, or stays without an error |
| Cohorts.AcceptedRequests | cmd/koryph/loop.go:1355-1405 | an accepted request names exactly the ids the passing report evaluated; any other is accepted iff it is a clean list of the same ids for the same width |
| Cohorts.DigestDecidesIds | internal/metrics/autonomy.go:1458-1464 | two lists have the same cohort digest iff they are clean and denote the same ids |
| CanaryHost.Host.CompletePassed | cmd/koryph/loop.go:1269-1353 | does what its plan does under the same fates; reports a promotion iff it succeeds from the migrated posture |
| PromotionDecisions.AuthenticIff | internal/metrics/autonomy.go:1395-1424 | a report is authentic iff it passed under the default thresholds, agrees field by field, and was generated within five minutes of its publication |
| PromotionDecisions.PromotableIff | cmd/koryph/loop.go:1355-1405 | a request is accepted iff cohort, width, project, registry identity and such a report bear the canary out |
| CanaryHost.Host.ReconcilePassed | cmd/koryph/loop.go:1187-1243 | the same for the reconcile around it, with the marker standing in for a cleared checkpoint |
| PromotionDecisions.ReconcileDecided | cmd/koryph/loop.go:1187-1353 | on any disk: when a reconcile promotes, skips or is an error, and the whole disk it leaves |
| CanaryHost.Host.RetireStale | cmd/koryph/loop.go:437-750 | does what the retirement plan does; with a marker present that is to refuse before any write |
| RetirementDecisions.SupersedeIff | cmd/koryph/loop.go:540-576 | a spec may supersede iff the envelope is equal, each drift has its flag, and either only the registry changed or the build descends |
| RetirementDecisions.RetirementPlanned | cmd/koryph/loop.go:437-606 | a retirement goes ahead iff a terminal failure, such a spec and a matching report meet; it has nothing to do iff there is no canary or one of its own generation |
| RetirementDecisions.RetirementDecided | cmd/koryph/loop.go:607-749 | it then succeeds iff nothing else stands in its places; what the record tells and the whole disk it leaves |
| RetirementDecisions.RetirementOtherwise | cmd/koryph/loop.go:437-606 | in every other case nothing is written |
| RetirementDecisions.UnchangedIsSame | cmd/koryph/loop.go:574-576 | with nothing changed the generation is the same, so this test never decides |
| RetirementDecisions.ReasonTells | cmd/koryph/loop.go:1123-1147 | the reason tells which of registry, binary, policy and cohort changed |
| CanaryHost.Host.WriteRetirement | cmd/koryph/loop.go:607-742 | archive, record, release, sentinels, checkpoint, in this order, each only after the one before |
| CanaryHost.Host.RolloverEmpty | cmd/koryph/loop.go:886-963 | does what the rollover plan does |
| StoppedDecisions.RolloverDecided | cmd/koryph/loop.go:886-962 | under any fates: a rollover happens iff a stopped, empty canary is superseded by a descendant build, and what it leaves |
| CanaryHost.Host.FinalizeInterrupted | cmd/koryph/loop.go:752-878 | does what the finalization plan does |
| StoppedDecisions.FinalizationDecided | cmd/koryph/loop.go:752-878 | under any fates: a finalization succeeds iff a stopped, contained canary is superseded and a failed report published; it then holds exactly that report |
| StoppedDecisions.FinalizationFails | cmd/koryph/loop.go:752-878 | what it leaves when no failed report is published |
| StoppedDecisions.FinalizedRetires | cmd/koryph/loop.go:226-262 | the finalized canary is due for retirement under the same spec |
| DurableWrites.ExecConcat | cmd/koryph/loop.go:607-742 | running a list of writes is running its first part and, if that finished, the rest on the disk it left |
| Promotion.PromotionConverges | cmd/koryph/loop.go:1187-1353 | after any faults one undisturbed reconcile ends promoted, committed and cleared, and nothing moves afterwards |
| Promotion.AttemptsStayOnTheWay | cmd/koryph/loop.go:1278-1353 | every disk reachable by faulty reconciles is one of the promotion's own stages |
| Promotion.PromotedAtMostOnce | cmd/koryph/loop.go:1278-1353 | from any disk, at most one of any number of reconciles reports a promotion |
| Promotion.PostureOneWay | cmd/koryph/loop.go:1296-1333 | no reconcile brings the posture back to migrated; a promotion leaves it validated |
| Retirement.RetirementReplays | cmd/koryph/loop.go:587-749 | any faulty attempts and one complete run leave the disk of a single run, up to the stamp; exactly when the drain sentinel survives |
| Retirement.RetirementEnds | cmd/koryph/loop.go:607-749 | the whole disk after a complete retirement, and that everything else is as it was |
| Retirement.UninterruptedIff | cmd/koryph/loop.go:652-717 | an uninterrupted retirement succeeds iff no other archive or record stands where it writes |
| Retirement.DrainCanSurvive | internal/ledger/operator.go:61-74 | a completed retirement that left the drain sentinel behind for good |
| Retirement.SameCaseIff | cmd/koryph/loop.go:514-531 | two specs retire the same filled-in canary iff they agree on the digests the checkpoint lacks; otherwise under different keys |
| Retirement.RetirementPinned | cmd/koryph/loop.go:704-717 | for one filled-in canary, an interrupted retirement goes on under another spec iff that spec gives the same record; otherwise it changes nothing |
| Retirement.SameRecordIff | cmd/koryph/loop.go:654-717 | for one filled-in canary, the records agree iff the specs name the same generation |
| Retirement.ResumesIff | cmd/koryph/loop.go:514-749 | for every checkpoint: another spec completes an interrupted retirement iff it names the same generation, or differs in a digest the checkpoint lacks and finds its own report and free places |
| Retirement.OnlySameGenerationResumes | cmd/koryph/loop.go:982-989 | where the specs agree on the digests the checkpoint lacks: only the same generation, and any other changes nothing |
| Retirement.OtherKeyResumesIff | cmd/koryph/loop.go:514-522 | where they do not: the second goes ahead under its own key iff its report and places are there |
| Retirement.PlannedIsJob | cmd/koryph/loop.go:437-606 | every retirement the loop plans is covered by the replay results |
| CanaryExamples.ReadyExists | cmd/koryph/loop.go:1355-1405 | a concrete passed canary that is ready for promotion |
| CanaryExamples.JobIsDue | cmd/koryph/loop.go:437-606 | concrete failed canaries that are due for retirement, with a drain sentinel set and nothing in the way |
| CanaryExamples.DrainSurvives | internal/ledger/operator.go:61-74 | a concrete retirement that succeeds and leaves the sentinel |
| CanaryExamples.OtherBuildRefused | cmd/koryph/loop.go:982-989 | a concrete interrupted retirement that one build cannot complete and the other can |
| CanaryExamples.OtherBuildCompletes | cmd/koryph/loop.go:514-522 | a concrete checkpoint without its autonomy policy that two builds archive twice |
| CanaryExamples.MarkerRefuses | cmd/koryph/loop.go:494-496 | a concrete due retirement that any marker turns into an error without a write |
| CanaryExamples.FinalizationStuck | cmd/koryph/loop.go:785-878 | a concrete due finalization that, once interrupted, the same invocation is refused |
| CanaryExamples.ResumeHappens | cmd/koryph/loop.go:262-300 | a concrete invocation that resumes an unfinished canary |
| DecisionExamples.PromotionAge | cmd/koryph/doctor.go:20-23 | concrete passed canaries: promoted iff publication and generation are at most five minutes apart |
| DecisionExamples.DescendantRetires | cmd/koryph/loop.go:556-570 | a concrete failed canary archived by a descendant build without any flag |
| DecisionExamples.InterruptedHappens | cmd/koryph/loop.go:206-300 | a concrete interrupted canary that one invocation replaces |
| DecisionExamples.RolloverHappens | cmd/koryph/loop.go:886-962 | a concrete empty canary that one invocation rolls over |
| CanarySafety.EvidenceNeverLost | cmd/koryph/loop.go:704-742 | over all interleavings: a canary with evidence left the checkpoint only if marker or archives durably hold it |
| CanarySafety.PromotionSafety | cmd/koryph/loop.go:1278-1316 | the registry becomes validated only under the pending marker, authentic report and identity of that canary |
| CanarySafety.MarkerLifeCycle | cmd/koryph/loop.go:1287-1351 | between any two moments: marker never removed or rebound, never back to pending; validated means checkpoint cleared, since the report left in place bars a new admission |
| CanarySafety.ArchivesWriteOnce | cmd/koryph/loop.go:1089-1116 | archives and history records never change once written, in any run |
| CanarySafety.NextKeeps | cmd/koryph/loop.go:437-1353 | every step of every actor keeps the protocol invariant |
| CanaryProtocol.CommandKeeps | cmd/koryph/project.go:784-799 | registry and operator commands at any moment keep it |
| CanaryHistory.EveryRecordAllowed | cmd/koryph/loop.go:532-576 | every record ever written holds the canary of its old generation; same envelope; same commit means only the registry changed; else strict descendant; flags asked for in that run |
| CanaryHistory.AllowedRelates | cmd/koryph/loop.go:991-1063 | what a retirement that goes ahead says about the two generations |
| Cohorts.SplitListsAreNormal | cmd/koryph/loop.go:2396-2411 | what splitIDs delivers is its own normal form |
| Cohorts.NormalizeDecidesMembers | internal/loop/generation.go:159-200 | normalized cohorts are equal iff they denote the same ids |
| Generations.GenerationIff | internal/loop/generation.go:159-200 | a spec has a generation iff it says everything, and the generation is what it says, its lists as sets |
| Generations.SameGenerationIff | internal/loop/generation.go:159-200 | two specs have the same generation iff they agree on everything but order, spacing and an unset inactivity limit |
| Generations.HardStopsList | internal/loop/supervisor.go:1101-1103 | the canonical hard stops are the seven required ones and the spec's own, sorted |
| CanaryRuns.TransactionIsRun | cmd/koryph/loop.go:1244-1268 | a transaction alone under the lease is a run of the protocol and leaves its plan's disk |
| CanaryRuns.PerformsExecute | cmd/koryph/loop.go:607-742 | performing writes step by step is executing them |
| CanaryAdmission.AdmitCanary | cmd/koryph/loop.go:172-300 | admission as a sequence of transactions equals its function of the disk and the faults |
| AdmissionDecisions.FreshDecided | cmd/koryph/loop.go:284-300 | without canary and marker the new spec is admitted iff there is one and the project is ready |
| AdmissionDecisions.RolledOverAdmitted | cmd/koryph/loop.go:206-230 | a rolled-over canary gives way to the new spec, on the disk the rollover left |
| AdmissionDecisions.FailedDecided | cmd/koryph/loop.go:231-262 | a failed canary is retired and the new spec admitted, or the invocation is rejected |
| AdmissionDecisions.InterruptedReplaced | cmd/koryph/loop.go:206-300 | one undisturbed invocation finalizes, archives and replaces an interrupted canary |
| AdmissionDecisions.UnfinishedDecided | cmd/koryph/loop.go:206-300 | any other unfinished canary is resumed iff every identity and the generation are the invocation's; nothing is written |
| AdmissionDecisions.ResumesIff | cmd/koryph/loop.go:1991-2072 | what those identities are, down to the ids and the generation |
| AdmissionDecisions.SettledFirst | cmd/koryph/loop.go:181-205 | a passed canary or a marker is settled first: handled or rejected, on the disk the reconcile left |
| AdmissionSafety.ResumeAdmits | cmd/koryph/loop.go:1991-2072 | an invocation that matches every identity of the unfinished canary, and is of its generation, is admitted and writes nothing |
| AdmissionSafety.ResumedGeneration | cmd/koryph/loop.go:2040-2070 | the resumed spec has the checkpoint's generation and ids, in whatever order the cohort was given |
| AdmissionSafety.AdmittedStartable | cmd/koryph/loop.go:172-300 | the supervisor starts only with no marker and no canary or an undecided one of matching identity |
| AdmissionSafety.HandledIsPromoted | cmd/koryph/loop.go:189-205 | a canary reported as handled is promoted, cleared and marked validated |
| AdmissionSafety.AdmissionIsRun | cmd/koryph/loop.go:172-300 | admissions are runs of the protocol, so its safety holds across them |
| AdmissionSafety.FinalizationSticks | cmd/koryph/loop.go:785-878 | after an interrupted finalization both unfinished-canary transactions refuse all but the canary's own generation |
| IdLists.SplitIDs | cmd/koryph/loop.go:2396-2411 | the strictly sorted list of exactly the ids denoted |
| IdLists.SameListIffSameIds | cmd/koryph/loop.go:2396-2411 | equal lists iff equal id sets |
| IdLists.ListedIdsAreClean | cmd/koryph/loop.go:2396-2411 | every id listed is trimmed, non-empty and comma-free |
| IdLists.SplitIsNormalForm | cmd/koryph/loop.go:2396-2411 | joining and splitting again changes nothing |
| IdLists.FixedCanaryRequestMatches | cmd/koryph/loop.go:1820-1844 | accepts exactly the requests for the cohort's id set, authoritative, of fitting width |
| BraceScanner.JSONBlocks | internal/agentjson/agentjson.go:50-99 | the nested loops compute the automaton's blocks |
| BraceScanner.FindEnd | internal/agentjson/agentjson.go:62-90 | the end of a block is the least balanced one |
| BraceScanner.BlocksCharacterised | internal/agentjson/agentjson.go:50-99 | a list is the result iff it cuts the text into brace-free gaps, minimal blocks and a tail that never closes |
| BraceScanner.BlocksAreBlocks | internal/agentjson/agentjson.go:50-99 | each block found is minimally balanced and is its own only block |
| BraceScanner.BlocksAdditive | internal/agentjson/agentjson.go:50-99 | additive over concatenation after a part that leaves no block open |
| BraceScanner.RestIsSuffix | internal/agentjson/agentjson.go:71-92 | what follows the last block is a suffix of the text |
| JsonParser.ValidIffDerivable | internal/agentjson/agentjson.go:163-175 | the reader accepts exactly the texts the RFC 8259 grammar derives |
| JsonParser.DocumentComplete | internal/agentjson/agentjson.go:179-193 | reading a written value gives the value back |
| JsonScan.ScanValue | internal/agentjson/agentjson.go:50-99 | any JSON value leaves the automaton as it found it |
| JsonScan.ObjectIsBlock | internal/agentjson/agentjson.go:50-99 | the text of any JSON object is a minimally balanced block |
| JsonScan.ObjectFound | internal/agentjson/agentjson.go:50-99 | printed between brace-free texts, an object is the one block found |
| Fences.FencedJSONBlocks | internal/agentjson/agentjson.go:110-133 | the shared-index loops pair the fence lines off by parity |
| Fences.MarksExact | internal/agentjson/agentjson.go:110-133 | the fence lines counted are all of them, once, in order |
| Fences.OneFence | internal/agentjson/agentjson.go:110-133 | a closing fence line is never read again as an opener |
| Fences.SingleFence | internal/agentjson/agentjson.go:110-133 | one fence, closed or running to the end, gives its trimmed body iff it is a json fence |
| Fences.FenceLineIff | internal/agentjson/agentjson.go:113-117 | which lines are fences, and which of them json fences |
| Fences.NoFenceIsRun | internal/agentjson/agentjson.go:110-133 | fence-freeness of a text is a property of a character automaton |
| Selection.SelectJSON | internal/agentjson/agentjson.go:150-159 | fences first, then the whole text |
| Selection.PickBlock | internal/agentjson/agentjson.go:163-175 | the backward scan finds the picked block |
| Selection.PickIsLast | internal/agentjson/agentjson.go:163-175 | it is the last qualifying block, and empty iff none qualifies |
| Selection.SelectPrefersFences | internal/agentjson/agentjson.go:150-159 | last qualifying fenced block, else last qualifying prose block, else empty |
| Selection.SelectionImmune | internal/agentjson/agentjson.go:150-175 | inserting a balanced token without a qualifying block changes nothing |
| Selection.BraceTokenIgnored | internal/agentjson/agentjson.go:150-175 | in particular any one block that is not JSON or lacks a key |
| Envelope.UnwrapEnvelope | internal/agentjson/agentjson.go:207-223 | the result text, or the error of each branch |
| Envelope.ParseEnvelopeVerdict | internal/agentjson/agentjson.go:241-259 | direct match, else the match in the unwrapped result |
| EnvelopeOutcomes.EnvelopeAnswered | internal/agentjson/agentjson.go:207-259 | every envelope without all required keys is answered by its fields: its error, an empty result, no verdict, or the selected verdict |
| EnvelopeOutcomes.ErrorReported | internal/agentjson/agentjson.go:215-217 | no verdict is taken from the CLI's error envelope, whatever its text |
| EnvelopeOutcomes.WrongTypes | internal/agentjson/agentjson.go:209-214 | an object with a member of the wrong type is no envelope |
| EnvelopeOutcomes.NoiseIgnored | internal/agentjson/agentjson.go:209-214 | brace-free output around an envelope does not change what is read |
| EnvelopeOutcomes.BraceFreeOutput | internal/agentjson/agentjson.go:207-259 | the answer for output without any brace |
| EnvelopeOutcomes.EscapesDecoded | internal/agentjson/agentjson.go:197-200 | what the escapes of string literals stand for |
| EnvelopeOutcomes.SurrogatesDecoded | internal/agentjson/agentjson.go:197-200 | surrogate pairs and halves |
| EnvelopeOutcomes.NamesFold | internal/agentjson/agentjson.go:197-200 | member names are matched in any case |
| EnvelopeRoundTrip.SelectBare | internal/agentjson/agentjson.go:150-175 | a bare verdict in brace- and fence-free prose is selected |
| EnvelopeRoundTrip.SelectFenced | internal/agentjson/agentjson.go:110-159 | a fenced verdict is selected whatever braces surround the fence |
| EnvelopeRoundTrip.DirectMatchIff | internal/agentjson/agentjson.go:241-259 | the direct attempt takes the envelope iff it has every required key |
| EnvelopeRoundTrip.EnvelopeTaken | internal/agentjson/agentjson.go:241-259 | asked for `result` alone, the extractor returns the CLI's envelope itself |
| EnvelopeRoundTrip.EnvelopeRoundTripBare | internal/agentjson/agentjson.go:202-259 | a bare verdict wrapped in any spelling of the envelope comes back |
| EnvelopeRoundTrip.EnvelopeRoundTripFenced | internal/agentjson/agentjson.go:202-259 | so does a fenced one |
| EnvelopeRoundTrip.WrappedVerdictReturns | internal/agentjson/agentjson.go:202-259 | the same for the envelope as the CLI prints it |
| EnvelopeRoundTrip.DecodeEncode | internal/agentjson/agentjson.go:202-223 | string literals decode to what was encoded |
| Tripwire.LoopEngine.Events | cmd/koryph/loop.go:2323-2343 | registers a fresh open channel under the next id |
| Tripwire.LoopEngine.Cancel | cmd/koryph/loop.go:2333-2341 | unregisters and closes, keeping what is buffered |
| Tripwire.LoopEngine.Publish | cmd/koryph/loop.go:2345-2358 | offers the event to every subscriber, without waiting |
| Tripwire.FanOutSafe | cmd/koryph/loop.go:2323-2358 | over all interleavings: no panic, registered iff open, distinct ids, at most one event waiting, each delivery a subsequence of what was published meanwhile, from its first event on |
| Tripwire.FreshIff | cmd/koryph/loop.go:2325-2331 | a new id collides with an old one exactly when the counter has come round |
| Tripwire.IdsComeRound | cmd/koryph/loop.go:2325-2331 | the subscription after 2^64 displaces an open channel that nobody closes |
| Tripwire.IdsDoComeRound | cmd/koryph/loop.go:2325-2331 | the run of 2^64 + 1 subscriptions in which it does |
| Tripwire.PublishNeverBlocks | cmd/koryph/loop.go:2350-2357 | from any reachable moment of a publication its remaining sends and the unlock end it, whatever else happens in between and whether or not anyone receives |
| Tripwire.OnePlace | cmd/koryph/loop.go:2350-2357 | a free channel takes the event, a waiting event keeps every other out and is received next |
| Tripwire.SecondEventDropped | cmd/koryph/loop.go:2350-2357 | of two events in a row a subscriber who does not listen gets the first only |
| LogTail.PrintNewContent | cmd/koryph/ops.go:215-246 | prints the complete lines fetched and advances behind them |
| LogTail.PrintNewInbox | cmd/koryph/ops.go:251-284 | prints the trimmed new text between banners and advances to its end |
| LogTail.TailFollow | cmd/koryph/ops.go:173-199 | the three offsets and the screen after any number of ticks |
| LogTail.OffsetsAdvance | cmd/koryph/ops.go:236-246 | offsets never move back and, once moved, follow a newline |
| LogTail.NonEmptyLinesOnce | cmd/koryph/ops.go:215-246 | the non-empty lines printed are those of the file up to the offset: none split, repeated or lost |
| LogTail.FullPollReaches | cmd/koryph/ops.go:236-246 | a full poll brings the offset behind the last newline |
| LogTail.SchedulesAgree | cmd/koryph/ops.go:170-199 | schedules that end on the same contents print the same non-empty lines |
| LogTail.EveryLineIff | cmd/koryph/ops.go:241-245 | blank lines counted, everything is printed iff no poll ended on a blank line |
| LogTail.BlankLinesDependOnSchedule | cmd/koryph/ops.go:241-245 | one file, two schedules, two outputs |
| LogTail.NudgesKeepInk | cmd/koryph/ops.go:251-284 | nudges carry everything appended to the inbox, once and in order, but for white space |
| LogTail.NudgeShows | cmd/koryph/ops.go:274-283 | a nudge shows the new text from first to last non-space character between its banners |
| RunReconcile.Ops.Reconcile | cmd/koryph/ops_reconcile.go:108-213 | the slot loop and the finalize decision equal their function of run, world and order |
| RunReconcile.Ops.UpdateSlot | internal/ledger/store.go:449-469 | the slot changes in memory even when the save fails |
| RunReconcile.Ops.FinalizeRun | internal/ledger/store.go:475-488 | finishes the run iff every slot is finished; a drained run stays drained |
| RunReconcile.SlotsReconciled | cmd/koryph/ops_reconcile.go:128-190 | finished and live slots unchanged; others parked with their branch and commits and either blocked or left; leases released for blocked ones only |
| RunReconcile.NothingLeftIff | cmd/koryph/ops_reconcile.go:134-178 | nothing is left iff no agent lives and every save succeeded; then every slot is finished |
| RunReconcile.FinalizedIffNothingLeft | cmd/koryph/ops_reconcile.go:198-212 | the run is finalized iff nothing is left, on disk as in memory |
| RunReconcile.LeasesAndTracker | cmd/koryph/ops_reconcile.go:179-190 | which leases go and which tracker entries change, exactly |
| RunReconcile.AllOnDisk | internal/ledger/store.go:466-469 | a slot is parked on disk iff its own or a later save reached the disk |
| RunReconcile.LeftButParked | cmd/koryph/ops_reconcile.go:166-178 | a slot reported as left but parked on disk stays so and keeps its lease through any number of later reconciles |
| RunReconcile.LeftButParkedExample | cmd/koryph/ops_reconcile.go:166-178 | two slots and one lost save for which this happens |
| RunReconcile.DryRunChangesNothing | cmd/koryph/ops_reconcile.go:156-159 | a dry run changes nothing and lists exactly the slots a real run would try to park |
| RunReconcile.UnfinishedStatuses | internal/ledger/types.go:82-88 | which of the slot statuses end a slot |
| MergeSlot.BackoffDoubles | internal/beads/adapter.go:318-322 | the k-th wait is min(2^(k-1) s, 30 s) for every k, although the int64 shift wraps |
| MergeSlot.ShiftWraps | internal/beads/adapter.go:318-322 | the shift does go negative |
| MergeSlot.MergeSlotAcquire | internal/beads/adapter.go:307-335 | claims, waits and outcome for every pattern of claims and cancellations |
| MergeSlot.TotalWait | internal/beads/adapter.go:316-328 | what r retries wait altogether, for every r |
| MergeSlot.WaitsBounded | internal/beads/adapter.go:307-335 | so an acquire with r >= 5 retries waits at most 31 + 30 (r - 5) seconds |

## Left out

- Legacy promotion markers (schemas 1 and 2) and their `legacyUnbound` handling: only schema 3 is modelled.
- The `UpdatedAt` and counter fields of the checkpoint that none of the transactions reads; a retirement's
  own stamp is modelled.
- File permissions, path cleaning and confinement, and unreadable or oversized files: a file is absent or
  holds its value.
- Trimming of digests and identity strings that are stored trimmed, and inactivity limits below one
  millisecond.
- SHA-256 and JSON marshalling of durable state: a digest is its preimage, an atomic write is one step.
- The supervisor's run loop: its writes are over-approximated by steps guarded only by its own checks: it
  admits a canary when the checkpoint has none and no report exists (internal/loop/supervisor.go:396-440),
  and publishes and decides only for an undecided one.
- The ledger and publisher answers inside finalization are inputs (`Containment`).
- The race between the checks `cmdLoop` makes without the lease and another process that takes it:
  `AdmitCanary` is sequential, and interleavings are covered at the level of the transactions.
- Promotion.PromotionConverges: replays by the same request with no registry command in between; an account
  reset meanwhile is covered by the safety results only.
- Retirement.ResumesIff: for cohorts in normal form, as `splitIDs` delivers them (`Cohorts.SplitListsAreNormal`);
  so are its parts Retirement.SameRecordIff and Retirement.OnlySameGenerationResumes.
- Registry commands: every save outside the promotion stores a registered or migrated posture
  (internal/registry/store.go:315-383, 430-470, 500-537; cmd/koryph/project.go:202, 784-799;
  cmd/koryph/adopt.go:590-601), and is a step that may do so at any time, under any identity, committed or
  not; when such a save would be refused is not modelled.
- Error texts, log lines and the tail of the output quoted in errors; errors are told apart by branch only.
- Bytes against characters: texts are sequences of characters, which the scanners treat alike since every
  character they test for is ASCII. Go's limit of 10000 on JSON nesting depth and its replacement of invalid
  UTF-8 are not modelled.
- LogTail.NonEmptyLinesOnce: the file is only ever appended to; truncation and rotation are not modelled.
- Time itself: tickers, real waits and pid probes are inputs. The pid-reuse warning and the tracker comment
  of a reconcile are output only and not modelled.
- The early returns of a reconcile without a run or beside a live engine, which change nothing.
- What `bd update --claim` does: no claim about mutual exclusion of the merge slot.
- Scheduler, governor, CLI flags, posture commands, onboarding, accounts and user interfaces.
