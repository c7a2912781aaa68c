# Epoch: verified models of the trusted durable state

Epoch supervises agents and keeps the state they must not be able to forge: who may do what, which external effects
were sent, what an agent said and in which order, and the checkpoints that a run can be compared with or resumed from.
This project models those parts in Dafny and proves what they promise over every input, every run and every
interleaving. `dafny verify dfyconfig.toml` checks everything.

## How the model is built

Every database transaction is a function from tables to new tables or an error, and an error leaves the tables alone.
Where the source updates rows step by step there is also a class with those fields and methods (`CapabilityService`,
`EffectGateway`, `StreamValidator`, `EventJournal`, `EpochTable`), or a method with loops, proved equal to the
functions; rollback is written out. Racing parties (effect callers, blob writers) are state machines whose steps are
single transactions or single file operations, with a crash possible between any two of them.

For every operation there are two kinds of results. The ones about runs say what holds in every reachable state. The
others (`AuthorityCalls`, `EffectCalls`, `DiffPlaces`, `BlobLiveness`, `ProtocolMeaning`, and the lemmas named
`...ExactlyWhen`, `...Means` and `...TellWhy`) say, over the tables or fields alone, when one call succeeds, what it
then writes and what it leaves alone, and why it fails otherwise.

| files | part of the system |
|---|---|
| `Capabilities`, `Delegation`, `Authority`, `AuthorityRuns`, `AuthorityCalls`, `AuthorityWitnesses`, `CapabilityService` | capability authority: delegation trees, counters, expiry, policies, ancestry table |
| `Effects`, `EffectProtocol`, `EffectInvariant`, `EffectSteps`, `EffectTheorems`, `EffectGateway`, `EffectCalls`, `EffectWitnesses` | effect gateway composed with the capability authorizer |
| `CanonicalJson`, `CanonicalReplay` | canonical argument documents and replays of committed operations |
| `Protocol`, `Traces`, `ValidatorRefinement`, `ProtocolMeaning`, `StreamValidator`, `AgentTrace` | agent stream protocol and its online validator |
| `Ingestion`, `Replay` | the supervisor's ingestion loop and the replay reports of forked branches |
| `Contexts`, `JsonPointer`, `Ordering`, `SemanticDiff`, `DiffTheorems`, `DiffEngine`, `DiffPlaces`, `CheckpointDiff` | semantic diff of checkpoints; `Ordering` also holds the sort that the other parts share |
| `Checkpoints`, `CheckpointWitnesses` | capture and restore |
| `BlobProtocol`, `BlobTheorems`, `BlobLiveness` | content-addressed blob store under racing writers |
| `Journal`, `JournalTheorems`, `EventJournal` | event journal: sequences and paging |
| `Frontiers`, `Epochs`, `EpochTable`, `EpochWitnesses` | epoch chains and security frontiers, over the effect system and the authority |
| `Seeds` | per-iteration seeds of the benchmark harness |
| `Text`, `Wrappers` | bounds on texts, and the failure-carrying values that everything shares |

SHA-256, the JSON writer and reader, operation-identifier derivation, random identifiers, clock readings and the
dispatcher's answers are parameters. Where a law needs something of them it says so (`Checkpoints.Undoes`: the reader
undoes the writer); collision resistance is never assumed.

## What turned out false, and exactly when it holds

- A child's remaining budget can exceed its parent's once a sibling or the parent itself spends
  (`AuthorityWitnesses.SiblingSpends`); `AuthorityRuns.ChildWithinParentExactlyWhen` gives the condition. What is
  conserved is the sum over the subtree.
- An expired ancestor can be reported (`AuthorityWitnesses.ClockRegressionMeetsExpiredAncestor`). It is, exactly when
  the binding and policy of the used capability pass and the first lapsed capability on its parent chain is a proper
  ancestor that lapses as expired (`AuthorityRuns.AncestorExpiredExactlyWhen`); in a reachable state that takes a clock
  that read later before (`AuthorityRuns.AncestorExpiredNeedsClockRegression`).
- A denial through the gateway can leave no audit record (`EffectWitnesses.ForeignDenialIsUndone`), while
  docs/capability-service.md speaks of an authoritative record of decisions. It is recorded exactly when the handle
  names no stored capability or one of the intent's own branch; otherwise the foreign key of the denied intent undoes
  the transaction (`EffectTheorems.DenialRecordedExactlyWhen`).
- An unknown outcome can go unrecorded (`EffectWitnesses.UnknownGoesUnrecorded`). It is recorded, and its branch
  suspended, exactly when the branch is in one of four states (`EffectTheorems.UnknownRecordedExactlyWhen`).
  docs/effect-gateway.md line 79 says branch suspension is not implemented; the code suspends.
- docs/capability-service.md line 47 says that the adapter returns deny on a storage failure; the code reports the
  authorizer as unavailable, and that is what is modelled.
- Pages can repeat an event (`JournalTheorems.SessionPagesCanRepeat`, in a session that starts empty). Some run does so
  exactly when the query is readable, names no branch, and starts below the largest number an append can take
  (`JournalTheorems.PagesRepeatExactlyWhen`); a query without a sequence range, as the session pager makes it, is one
  of these whenever it names no branch.
- Two different contexts can have the same diff against a base (`CheckpointWitnesses.OrderOfNewMessagesIsLost`): the
  order of a list whose identifier set changed is not reported. `DiffTheorems.DocumentDetermines` says exactly what is.
- A restored context cannot always be captured again (`CheckpointWitnesses.RecaptureCanFail`), because restoring never
  reads the pinned media type; `Checkpoints.RecaptureExactlyWhen` gives the condition.
- Comparing epochs of two branches, `changed_between_epochs` compares counts of different scopes: it can be set with
  nothing recorded in between, and clear with something recorded (`EpochWitnesses.ChangedWithNothingRecorded`,
  `UnchangedWithRecords`). It says what was recorded exactly for rows of one branch
  (`EpochWitnesses.ChangeTellsExactlyWhenSameBranch`). The `advanced_since` flags are exact for any two rows.
- Revoking a capability moves no frontier (`Frontiers.RevocationIsNotSeen`), so a comparison of epochs does not show it.

## Model

| member | source | states |
|---|---|---|
| `AuthorityInvariant.LoadAncestorsIsChain` | crates/epoch-capabilities/src/lib.rs:1302-1343 | ordering the ancestry rows of a capability by depth yields the chain of its parent pointers |
| `AuthorityInvariant.ConsumeAllCharges` | crates/epoch-capabilities/src/lib.rs:592-594 | the loop over loaded ancestors succeeds exactly when no row was issued after the clock reading, and then charges each ancestor once and nothing else |
| `AuthorityRuns.AllowedUse` | crates/epoch-capabilities/src/lib.rs:554-620 | what one allowed use does to the whole chain, when it fails instead, and that the invariant survives |
| `AuthorityRuns.CommitKeepsValid` | crates/epoch-capabilities/src/lib.rs:367-620 | every service call keeps the authority invariant (rooted chains, agreeing ancestry, narrowing, conservation, matching logs) |
| `AuthorityRuns.GrantsAreConserved` | crates/epoch-capabilities/src/lib.rs:438-466 | in every reachable state each grant equals what remains plus everything authorized in its subtree, for budget and for uses; nothing goes negative or overspends any ancestor |
| `AuthorityRuns.AllowsAreAuthorizations` | crates/epoch-capabilities/src/lib.rs:592-619 | the allow decisions in the audit log are exactly the authorization rows, in order |
| `AuthorityRuns.ChildWithinParentExactlyWhen` | crates/epoch-capabilities/src/lib.rs:953-988 | a child's remaining budget is within its parent's if and only if the rest of the subtree spent no more than the slack left at delegation |
| `AuthorityWitnesses.SiblingSpends` | crates/epoch-capabilities/src/lib.rs:1125-1156 | a concrete run after which a child has more budget left than its parent |
| `AuthorityRuns.AncestryIsTheParentPath` | crates/epoch-capabilities/src/lib.rs:453-463 | after any run the ancestry query returns self, parent, and so on to the root, in order, without repeats |
| `AuthorityRuns.NoCorruptionReported` | crates/epoch-capabilities/src/lib.rs:1016-1022 | no reachable state makes any call answer corrupt record, corrupt authority or concurrent change |
| `AuthorityRuns.AllowedExactlyWhenEntitled` | crates/epoch-capabilities/src/lib.rs:990-1054 | a use is allowed if and only if an order-free condition holds: scope, unlapsed and affordable chain, current policy, fresh request |
| `AuthorityRuns.UseHasEffect` | crates/epoch-capabilities/src/lib.rs:554-620 | a use either marks at most one lapsed row or charges one chain |
| `AuthorityRuns.LossPersists` | crates/epoch-capabilities/src/lib.rs:367-407 | a capability that left active, or whose branch policy moved past it, stays lost through every run |
| `AuthorityRuns.LossIsPermanent` | crates/epoch-capabilities/src/lib.rs:473-517 | once lost, no later call under any clock uses it or any descendant, or delegates from them |
| `AuthorityRuns.AncestorExpiredExactlyWhen` | crates/epoch-capabilities/src/lib.rs:999-1025 | a use is answered with an expired ancestor if and only if it is well formed, its handle names a capability whose binding and policy pass, and the first lapsed capability on the parent chain is a proper ancestor that lapses as expired |
| `AuthorityRuns.AncestorExpiredNeedsClockRegression` | crates/epoch-capabilities/src/lib.rs:1098-1123 | consequently, in every reachable state it is reported only if some earlier use read a later clock |
| `AuthorityWitnesses.ClockRegressionMeetsExpiredAncestor` | crates/epoch-capabilities/src/lib.rs:1072-1123 | a concrete run with a regressing clock that reports it |
| `AuthorityCalls.PolicySetExactlyWhen` | crates/epoch-capabilities/src/lib.rs:367-407 | a policy revision is set if and only if it fits, the clock is not negative and the revision does not go back (or the branch exists); only that policy changes |
| `AuthorityCalls.IssuedExactlyWhen` | crates/epoch-capabilities/src/lib.rs:414-431 | a root is issued if and only if the request is within its literal bounds, the branch exists and runs under the requested policy, and identifier and handle are new; its row, handle and ancestry are what was asked for, and nothing else changes |
| `AuthorityCalls.DelegatedExactlyWhen` | crates/epoch-capabilities/src/lib.rs:438-466 | a capability is delegated if and only if, besides that, every capability on the chain of its parent is usable and the request stays within what is left of the parent; its ancestry is itself and that of the parent, one deeper |
| `AuthorityCalls.RevokedExactlyWhen` | crates/epoch-capabilities/src/lib.rs:473-517 | a revocation, by handle or identifier, succeeds if and only if the clock is not negative and an active capability was issued by then; an active one becomes revoked, any other keeps its status, and no other row or table changes |
| `AuthorityCalls.RevocationIsPermanent` | crates/epoch-capabilities/src/lib.rs:468-517 | after any run that holds a successful revocation of an active capability, no call under any clock uses it or a capability below it, or delegates from one of them |
| `AuthorityCalls.AnsweredExactlyWhen` | crates/epoch-capabilities/src/lib.rs:990-1123 | every answer to a use is given if and only if its own condition on the tables holds: binding, status and expiry, policy, the first ancestor that bars, replay, budget |
| `AuthorityCalls.RefusalMeets` | crates/epoch-capabilities/src/lib.rs:1072-1123 | a refusal finds an active row that lapsed only if it is the used capability itself, expired; a barred ancestor is always stored as such already |
| `AuthorityCalls.UseAnsweredExactlyWhen` | crates/epoch-capabilities/src/lib.rs:554-620 | a use is answered if and only if it is well formed and, if it is to be charged, nothing on its chain is of later date; it appends its decision, and then either charges the chain and logs the request, or records that the used capability expired, or changes no row |
| `AuthorityCalls.ErrorsTellWhy` | crates/epoch-capabilities/src/lib.rs:367-620 | every error of every call is returned if and only if its own condition on the request and the tables holds |
| `AuthorityCalls.ValidUseMeans` | crates/epoch-capabilities/src/lib.rs:154-200 | what a well-formed use is, in literal bounds |
| `Text.LengthIsEncoded` | crates/epoch-capabilities/src/lib.rs:1404-1415 | the length that is bounded is that of a UTF-8 encoding from which the characters can be read back |
| `Delegation.ChainIsParentPath` | crates/epoch-capabilities/src/lib.rs:453-463 | the chain of a capability is its parent path to the root without repeats |
| `Capabilities.FirstLapsed` | crates/epoch-capabilities/src/lib.rs:1098-1123 | finds a lapsed ancestor if and only if there is one |
| `CapabilityServices.OrderByDepth` | crates/epoch-capabilities/src/lib.rs:1302-1343 | sorting indexed ancestry rows by depth yields the indexed sequence |
| `CapabilityServices.CapabilityService.constructor` | crates/epoch-capabilities/src/lib.rs:343-365 | a new authority is empty and satisfies the invariant |
| `CapabilityServices.CapabilityService.SetPolicyRevision` | crates/epoch-capabilities/src/lib.rs:367-407 | in place, the policy transaction: revisions never decrease |
| `CapabilityServices.CapabilityService.Issue` | crates/epoch-capabilities/src/lib.rs:414-431 | in place, the issue transaction with its replies |
| `CapabilityServices.CapabilityService.Attenuate` | crates/epoch-capabilities/src/lib.rs:438-466 | in place, delegation: a refusal changes no row at all |
| `CapabilityServices.CapabilityService.ValidateAttenuation` | crates/epoch-capabilities/src/lib.rs:904-968 | the checks of a delegation in their order, ancestors loaded by a loop |
| `CapabilityServices.CapabilityService.Revoke` | crates/epoch-capabilities/src/lib.rs:473-491 | in place, revocation by handle; `RevokedExactlyWhen` says when it succeeds and what it writes |
| `CapabilityServices.CapabilityService.RevokeById` | crates/epoch-capabilities/src/lib.rs:497-517 | in place, revocation by identifier; likewise |
| `CapabilityServices.CapabilityService.LoadChain` | crates/epoch-capabilities/src/lib.rs:1302-1343 | loading the ancestors yields the parent chain |
| `CapabilityServices.CapabilityService.FindLapsed` | crates/epoch-capabilities/src/lib.rs:1098-1123 | the loop over ancestors stops at the first lapsed one |
| `CapabilityServices.CapabilityService.EvaluateAuthority` | crates/epoch-capabilities/src/lib.rs:990-1054 | the evaluation in the order of the source |
| `CapabilityServices.CapabilityService.ConsumeCounters` | crates/epoch-capabilities/src/lib.rs:1125-1156 | the charging loop, which restores every row when one update fails |
| `CapabilityServices.CapabilityService.AuthorizeAndConsume` | crates/epoch-capabilities/src/lib.rs:540-620 | in place, a use: charges and appends on allow, marks a lapsed row and appends on deny, nothing on error |
| `Effects.Find` | crates/epoch-effects/src/lib.rs:665-679 | finds the row of an operation if and only if there is one |
| `EffectSteps.StepKeepsInv` | crates/epoch-effects/src/lib.rs:442-630 | every step of every caller, every crash and every outside use of the authority keeps the gateway invariant |
| `EffectTheorems.AtMostOneInvocation` | crates/epoch-effects/src/lib.rs:583-630 | over every interleaving with crashes, the dispatcher is called at most once per operation |
| `EffectTheorems.DispatchFollowsDurableMark` | crates/epoch-effects/src/lib.rs:744-786 | before any dispatcher call the authorized intent, its three transitions, the started attempt and its payment are durable |
| `EffectTheorems.PaidExactlyOnce` | crates/epoch-effects/src/lib.rs:681-742 | every intent not denied has exactly one authorization row, with its capability, operation and input hash |
| `EffectTheorems.DenialRecordedExactlyWhen` | crates/epoch-effects/src/lib.rs:681-742 | a denial is recorded if and only if, in the tables before the call, the handle names no stored capability or one of the intent's branch; otherwise the transaction fails in the database |
| `EffectWitnesses.ForeignDenialIsUndone` | crates/epoch-effects/src/lib.rs:681-742 | a run: a capability issued in one branch, an intent of another; the authorizer denies, the call fails, and no table changed |
| `EffectTheorems.UnknownRecordedExactlyWhen` | crates/epoch-effects/src/lib.rs:788-840 | in a reachable system marking unknown succeeds if and only if the branch can be suspended |
| `EffectWitnesses.UnknownGoesUnrecorded` | crates/epoch-effects/src/lib.rs:788-840 | a run in an abandoned branch that ends with the effect still dispatched and the unknown mark refused |
| `EffectTheorems.RunEvolves` | crates/epoch-effects/src/lib.rs:1171-1230 | requests and capabilities of intents never change, final outcomes never change, blobs are kept |
| `EffectTheorems.SucceededOperationReplays` | crates/epoch-effects/src/lib.rs:632-663 | after any interleaving a committed operation replays its recorded bytes without authorization, charge or dispatch; another input is refused |
| `EffectTheorems.OutcomesWereDispatched` | crates/epoch-effects/src/lib.rs:842-940 | succeeded and failed effects were dispatched, prepared and denied ones were not, and the histories read accordingly |
| `EffectCalls.RegisteredExactlyWhen` | crates/epoch-effects/src/lib.rs:1046-1082 | a blob row is registered if and only if its hash is new or stored with the same length and media type |
| `EffectCalls.DispatchMarkedExactlyWhen` | crates/epoch-effects/src/lib.rs:744-786 | an intent is marked dispatched if and only if it is prepared and has no attempt or history yet; what is then written, and both errors |
| `EffectCalls.UnknownMarkedExactlyWhen` | crates/epoch-effects/src/lib.rs:788-840 | an unknown outcome is recorded if and only if the attempt is open and the branch of the intent is created, running, suspended or completed; the effect is then unknown without a result, that branch is suspended, and every other branch is as it was |
| `EffectCalls.FailureMarkedExactlyWhen` | crates/epoch-effects/src/lib.rs:842-883 | a failure is recorded if and only if the attempt is open; the effect is then failed without a result |
| `EffectCalls.ResultCommittedExactlyWhen` | crates/epoch-effects/src/lib.rs:885-940 | a result is committed if and only if the attempt is open and its blob can be registered; its hash is then on the row |
| `EffectCalls.PersistedExactlyWhen` | crates/epoch-effects/src/lib.rs:681-742 | an intent is persisted if and only if its use can be answered, its blob registered and its row recorded; what is written is what the use leaves under the authorizer's own subject and budget units, and the rows of the intent; each error has its condition |
| `EffectCalls.RepliesTell` | crates/epoch-effects/src/lib.rs:442-630 | whatever stage a call stops at, its reply says what it did to the ledger |
| `EffectCalls.RecordedOperationAnswers` | crates/epoch-effects/src/lib.rs:442-463 | a call that finds its operation recorded, at once or when it persists, answers from that row (conflict, unresolved, or the recorded bytes) and touches nothing |
| `EffectCalls.InjectedFaultSuspends` | crates/epoch-effects/src/lib.rs:583-630 | in every run, a call whose fault strikes after dispatch and that returns it as injected leaves its effect unknown, without a result, and the branch of its intent suspended |
| `EffectCalls.RecordedInputsAreStored` | crates/epoch-effects/src/lib.rs:442-463 | in every run the input of every recorded intent is in the blob store |
| `EffectCalls.UndisturbedCallSucceeds` | crates/epoch-effects/src/lib.rs:442-630 | a new operation whose use is allowed and whose rows can be recorded, run alone with an accepting dispatcher, returns the dispatcher's bytes after one dispatch and leaves the effect succeeded |
| `EffectGateways.EffectGateway.FindOperation` | crates/epoch-effects/src/lib.rs:665-679 | the lookup by operation, as a loop over rows |
| `EffectGateways.EffectGateway.Persist` | crates/epoch-effects/src/lib.rs:681-742 | authorization, blob row, intent and history in one transaction; any failure restores the authority's and the gateway's tables |
| `EffectGateways.EffectGateway.Dispatching` | crates/epoch-effects/src/lib.rs:744-786 | in place, the dispatched mark |
| `EffectGateways.EffectGateway.LosingTrack` | crates/epoch-effects/src/lib.rs:788-840 | in place, the unknown mark, undone when the branch cannot be suspended; `UnknownMarkedExactlyWhen` says what it writes |
| `EffectGateways.EffectGateway.Failing` | crates/epoch-effects/src/lib.rs:842-883 | in place, the failed mark |
| `EffectGateways.EffectGateway.Committing` | crates/epoch-effects/src/lib.rs:885-940 | in place, the commit of a result, undone with its blob row on conflict |
| `EffectGateways.EffectGateway.Dispatch` | crates/epoch-effects/src/lib.rs:583-630 | the imperative dispatch takes exactly the stages of the protocol from ready to returned |
| `EffectGateways.EffectGateway.Execute` | crates/epoch-effects/src/lib.rs:442-463 | the imperative call is a run of the interleaved system, keeps its invariant, and adds at most one dispatcher call; so every theorem about runs holds of any series of calls |
| `CanonicalJson.CanonicalExactlyWhenSame` | crates/epoch-effects/src/lib.rs:1029-1044 | two documents canonicalize equally if and only if they differ at most in object-key order at any depth |
| `CanonicalJson.CanonicalIsIdempotent` | crates/epoch-effects/src/lib.rs:1029-1044 | canonicalizing twice changes nothing |
| `CanonicalJson.CanonicalIsDocument` | crates/epoch-effects/src/lib.rs:1029-1044 | the canonical form has unique keys and differs only in key order |
| `CanonicalJson.CanonicalIsInOrder` | crates/epoch-effects/src/lib.rs:1029-1044 | at every depth the keys of a canonical document strictly increase |
| `CanonicalJson.SortByKey` | crates/epoch-effects/src/lib.rs:1032-1033 | sorting entries keeps exactly the entries |
| `CanonicalReplay.ReorderedArgumentsReplay` | crates/epoch-effects/src/lib.rs:119-128 | a committed operation resubmitted with reordered argument keys returns the recorded bytes and touches nothing |
| `CanonicalReplay.SameInputExactlyWhen` | crates/epoch-effects/src/lib.rs:119-128 | two requests have the same canonical input if and only if they agree on action and resource, and on arguments up to key order |
| `CanonicalReplay.IntentCarriesRequest` | crates/epoch-effects/src/lib.rs:101-143 | the other fields of an intent are the request's own, and its operation depends on branch and replay key alone |
| `Protocol.FirstUnverified` | crates/epoch-protocol/src/lib.rs:91-110 | reports a reference that is not verified if and only if there is one |
| `ValidatorRefinement.ValidatorDecidesValidTraces` | crates/epoch-protocol/src/lib.rs:235-413 | a fresh validator accepts a whole stream if and only if the declarative trace predicate holds, and its fields then mirror the trace |
| `ValidatorRefinement.AcceptedExactlyWhenExtends` | crates/epoch-protocol/src/lib.rs:271-314 | a record is accepted if and only if it extends the valid trace |
| `ProtocolMeaning.WellFormedMeans` | crates/epoch-protocol/src/lib.rs:755-890 | a record is well formed if and only if version, sequence, fields and extension names are within the literal bounds |
| `ProtocolMeaning.FieldsMean` | crates/epoch-protocol/src/lib.rs:755-880 | which texts and integers of which message are bounded, and by what |
| `ProtocolMeaning.ReservedMeans` | crates/epoch-protocol/src/lib.rs:755-853 | which extension names each payload may not use |
| `ProtocolMeaning.RejectionsAreTrue` | crates/epoch-protocol/src/lib.rs:271-413 | each of the fifteen stream errors is true of the trace accepted so far, and a record is called malformed if and only if it is |
| `ProtocolMeaning.ReferencedMeans` | crates/epoch-protocol/src/lib.rs:42-60 | a record refers to the one hash it carries, by the fields of the message |
| `ProtocolMeaning.AcceptedWithReferences` | crates/epoch-protocol/src/lib.rs:235-256 | with blobs checked, a record is accepted if and only if its claims are and all it refers to is verified; otherwise the error names an unverified reference and its status |
| `StreamValidators.StreamValidator.AcceptClaims` | crates/epoch-protocol/src/lib.rs:258-264 | in place, one record; a rejected record leaves every field unchanged |
| `StreamValidators.StreamValidator.Accept` | crates/epoch-protocol/src/lib.rs:235-256 | the same with blob references, checked on a candidate before it replaces the state |
| `StreamValidators.StreamValidator.Monitor` | crates/epoch-protocol/src/lib.rs:235-413 | fed a stream, the validator stops after its longest valid prefix |
| `AgentTrace.WorkloadIsAccepted` | crates/epoch-test-agent/src/lib.rs:229-330 | for every scenario, seed and list of distinct tool calls the reference workload's stream is accepted to completion |
| `AgentTrace.WorkloadReplays` | crates/epoch-test-agent/src/lib.rs:311-322 | its replay report at the final safe point is complete |
| `AgentTrace.WorkloadSays` | crates/epoch-test-agent/src/lib.rs:229-330 | every record of the workload by its number, with its message |
| `Replay.ReplayReport` | crates/epoch-supervisor/src/fork.rs:312-375 | the report loop fails if and only if some examined event is no record or no result, and otherwise sorts what it collected; `ReportMeans` says what that is |
| `Replay.ReportMeans` | crates/epoch-supervisor/src/fork.rs:312-366 | for any journal, an entry with its sequence, identifier, outcome and hash is in the tool list if and only if an examined event up to the boundary is a tool result with exactly those; likewise for the model list |
| `Replay.ReportIsSorted` | crates/epoch-supervisor/src/fork.rs:361-363 | for any journal the lists are in order of sequence, and sorting lost and repeated nothing |
| `Replay.KindsTell` | crates/epoch-protocol/src/lib.rs:428-443 | each message is journalled under the kind of its own constructor |
| `Replay.ReplayIsComplete` | crates/epoch-supervisor/src/fork.rs:312-366 | for a valid trace journalled in order under its own kinds, at a safe point: exactly one result for every request and call before it, strictly increasing, all and only those before it; an entry has the sequence, identifier, outcome and hash of its record |
| `Replay.AcceptedStreamReplays` | crates/epoch-protocol/src/lib.rs:385-402 | the same for every stream the running validator accepts |
| `Ingestion.IngestionJournals` | crates/epoch-supervisor/src/supervisor.rs:473-500 | whatever arrives, whichever append fails, the loop journals exactly the records it accepted, in order, each under its own kind |
| `Ingestion.IngestedStreamReplays` | crates/epoch-supervisor/src/supervisor.rs:473-500 | so the replay report at any safe point of any ingested stream is complete, without further hypotheses |
| `Ingestion.ValidStreamsAreKept` | crates/epoch-supervisor/src/supervisor.rs:473-500 | a valid stream whose appends all succeed is journalled to its last record |
| `Ingestion.MonitorMessages` | crates/epoch-supervisor/src/supervisor.rs:462-500 | in place, the loop over the arrivals with the validator object |
| `JsonPointer.TokenEscapes` | crates/epoch-diff/src/lib.rs:575-577 | the two replacements in a row equal one-pass escaping |
| `JsonPointer.EscapeRoundTrip` | crates/epoch-diff/src/lib.rs:575-577 | escaped tokens read back and contain no slash |
| `JsonPointer.ParseRenders` | crates/epoch-diff/src/lib.rs:571-577 | paths parse back to their reference tokens, so distinct tokens have distinct paths |
| `DiffTheorems.PathsAreDistinct` | crates/epoch-diff/src/lib.rs:571-577 | no two reported changes share a path, even with an entity named order |
| `DiffTheorems.DiffIsUnique` | crates/epoch-diff/src/lib.rs:163-169 | the sorted document is determined by the two contexts |
| `DiffTheorems.MirrorTheorem` | crates/epoch-diff/src/lib.rs:546-569 | swapping the inputs gives the same paths in the same order, with added and removed, before and after swapped |
| `DiffTheorems.FindReadsBack` | crates/epoch-diff/src/lib.rs:571-577 | looking a slot up by path recovers exactly what was reported there |
| `DiffTheorems.PatchRestoresValues` | crates/epoch-diff/src/lib.rs:225-320 | applying the changes to fields, tools, pending identifiers and compared orders yields the values after; `DiffPlaces` says which field stands at which path |
| `DiffTheorems.PatchRestoresEntities` | crates/epoch-diff/src/lib.rs:370-486 | applying the changes to the messages and tasks before yields those after |
| `DiffTheorems.EmptyExactlyWhenSame` | crates/epoch-diff/src/lib.rs:225-320 | for validated contexts the document is empty if and only if they are equal up to the order of the two pending lists |
| `DiffTheorems.DocumentDetermines` | crates/epoch-diff/src/lib.rs:541-543 | two contexts have the same document against a base if and only if they agree on the keyed view and on orders whose identifier sets match the base |
| `CheckpointWitnesses.OrderOfNewMessagesIsLost` | crates/epoch-diff/src/lib.rs:521-544 | two new messages in either order: different contexts, the same document |
| `DiffEngine.CompareFields` | crates/epoch-diff/src/lib.rs:231-318 | the field comparisons push exactly what is reported at field slots, which `ApplicationReported` and `CursorsReported` spell out |
| `DiffEngine.CompareStringMap` | crates/epoch-diff/src/lib.rs:342-368 | the two loops push exactly what is reported for the tool registry, in any iteration order |
| `DiffEngine.CompareOrder` | crates/epoch-diff/src/lib.rs:521-544 | an order is reported only between equal identifier sets |
| `DiffEngine.CompareEntities` | crates/epoch-diff/src/lib.rs:392-486 | the loops over messages or tasks push exactly what is reported for them |
| `DiffEngine.CompareIdCollection` | crates/epoch-diff/src/lib.rs:488-519 | the loops over pending identifiers push exactly the set differences |
| `DiffEngine.CompareContexts` | crates/epoch-diff/src/lib.rs:225-320 | together they push every reported change once |
| `Ordering.SortPermutes` | crates/epoch-diff/src/lib.rs:163-169 | sorting loses and repeats nothing |
| `Ordering.BeforeMeans` | crates/epoch-diff/src/lib.rs:163-169 | one text comes before another as a proper prefix or by the first character in which they differ |
| `DiffEngine.SortedByPath` | crates/epoch-diff/src/lib.rs:163-169 | changes with distinct paths come out strictly increasing by path, all of them and no others |
| `DiffEngine.DiffContexts` | crates/epoch-diff/src/lib.rs:156-179 | compare and sort yields the document |
| `DiffPlaces.ApplicationReported` | crates/epoch-diff/src/lib.rs:231-318 | safe point, seed, revision, model and summary: the document has a change at the literal path if and only if the two values differ, in its section, classified changed, with the values before and after |
| `DiffPlaces.CursorsReported` | crates/epoch-diff/src/lib.rs:259-286 | the same for the four cursors, each at its own path in the cursor section |
| `DiffPlaces.ToolReported` | crates/epoch-diff/src/lib.rs:342-368 | a tool is reported under its escaped name with its versions, as added, removed or changed |
| `DiffPlaces.PendingReported` | crates/epoch-diff/src/lib.rs:488-519 | a pending request or call is reported in its own list as added or removed |
| `DiffPlaces.MessageReported` | crates/epoch-diff/src/lib.rs:370-429 | a message on both sides is reported by role and content at their own paths, one on one side as a whole |
| `DiffPlaces.TaskReported` | crates/epoch-diff/src/lib.rs:431-486 | the same for tasks, by type and payload |
| `DiffPlaces.OrdersReported` | crates/epoch-diff/src/lib.rs:521-544 | an order is reported at its path if and only if the identifiers are the same in another order; otherwise that path belongs to an entity of this name |
| `CheckpointDiff.DiffCheckpoints` | crates/epoch-diff/src/lib.rs:156-211 | refused if and only if a side cannot be restored, naming the first such side and its failure; otherwise the diff document, which says identical if and only if the contexts are equal up to pending order |
| `Contexts.UniqueIds` | crates/epoch-checkpoint/src/application.rs:411-425 | one pass over a set decides whether identifiers are unique |
| `Contexts.ReferencesMeans` | crates/epoch-checkpoint/src/application.rs:360-371 | a context refers to the contents of its messages, the payloads of its tasks and its summary, and to nothing else |
| `Contexts.BoundsMean` | crates/epoch-checkpoint/src/application.rs:278-333 | the texts, integers and collections that are bounded, in literal bounds |
| `Contexts.EntryBoundsMean` | crates/epoch-checkpoint/src/application.rs:278-333 | the bounds of each tool, message, task and pending identifier |
| `Checkpoints.CheckReferences` | crates/epoch-checkpoint/src/application.rs:335-358 | no failure if and only if every reference can be read |
| `Checkpoints.ValidateReferences` | crates/epoch-checkpoint/src/application.rs:335-371 | the loop over the references of a context |
| `Checkpoints.CapturedIsRestored` | crates/epoch-checkpoint/src/application.rs:118-159 | a captured context is restored later if and only if the store still holds its encoding and its references |
| `Checkpoints.CaptureThenRestore` | crates/epoch-checkpoint/src/application.rs:118-253 | right after capture it is restored if and only if the address did not hold other bytes before |
| `Checkpoints.RestoredIsCaptured` | crates/epoch-checkpoint/src/application.rs:161-253 | whatever restores to a context equals what any successful capture of it yields |
| `Checkpoints.RecaptureExactlyWhen` | crates/epoch-checkpoint/src/application.rs:139-148 | a restored context can be captured again if and only if its address is not pinned to another media type |
| `Checkpoints.CapturedExactlyWhen` | crates/epoch-checkpoint/src/application.rs:118-159 | a context is captured if and only if schema, shape and references hold and its encoding can be stored; the record and the store afterwards, field by field |
| `Checkpoints.RestoredExactlyWhen` | crates/epoch-checkpoint/src/application.rs:161-253 | a record restores to a context if and only if its blob is intact, has the recorded length, is the canonical encoding of that context, and shape, references and metadata agree |
| `Checkpoints.CaptureTellsWhy` | crates/epoch-checkpoint/src/application.rs:118-159 | each failure code of a capture is returned if and only if its own condition holds; the first unreadable reference decides its own code |
| `Checkpoints.RestoreTellsWhy` | crates/epoch-checkpoint/src/application.rs:161-253 | the same for each failure code of a restore |
| `Checkpoints.RestoreRefusesVersion` | crates/epoch-checkpoint/src/application.rs:161-206 | the version a restore refuses is that of the record or that of the document |
| `CheckpointWitnesses.RecaptureCanFail` | crates/epoch-checkpoint/src/application.rs:139-148 | a store in which the bytes were first put under another media type: the record restores, and capturing the context again fails |
| `BlobTheorems.StepKeepsInv` | crates/epoch-blob/src/lib.rs:215-267 | every file operation, crash and cleanup keeps the store invariant and every published file; `UndisturbedPutEnds` and `RepliesAreWarranted` say when a put succeeds |
| `BlobTheorems.PublishedBlobsAreIntact` | crates/epoch-blob/src/lib.rs:411-432 | over every interleaving each published blob digests to its address, although hard links share the temporary file's contents |
| `BlobTheorems.PublishedFilesNeverChange` | crates/epoch-blob/src/lib.rs:173-207 | published bytes and pinned media types never change afterwards |
| `BlobTheorems.SuccessfulPutsAgree` | crates/epoch-blob/src/lib.rs:320-345 | all successful puts of one hash agree on the media type, which is the pinned one |
| `BlobLiveness.RefusedExactlyWhen` | crates/epoch-blob/src/lib.rs:215-231 | a call enters refused as too large if and only if it exceeds the limit, and for its media type if and only if the size passes and the type is not 1 to 255 printable bytes |
| `BlobLiveness.CheckedExactlyWhen` | crates/epoch-blob/src/lib.rs:275-409 | whatever bytes lie at a final path, reading them back passes if and only if they have the digest, or are the same well-formed media type; each error has its condition |
| `BlobLiveness.PublishedWithinLimit` | crates/epoch-blob/src/lib.rs:223-228 | in every reachable store no published blob exceeds the limit |
| `BlobLiveness.UndisturbedPutEnds` | crates/epoch-blob/src/lib.rs:215-267 | from every reachable store a valid put that runs undisturbed comes to an end, and only well if its media address is free or holds the same type, and only in a conflict otherwise; its blob is then published with its digest |
| `BlobLiveness.RepliesAreWarranted` | crates/epoch-blob/src/lib.rs:215-345 | over every interleaving every reply is warranted: refusals for size and type exactly when due, success only with its type pinned, conflict only with another type pinned, and nothing is ever found missing or corrupt |
| `Journal.FirstFree` | crates/epoch-events/src/lib.rs:346-354 | one past the largest sequence of the branch, or zero |
| `JournalTheorems.AppendIsAbove` | crates/epoch-events/src/lib.rs:97-129 | from any counter, an appended event is numbered above its branch and after its causal parent, and nothing recorded changes |
| `JournalTheorems.AppendKeepsSchema` | crates/epoch-events/src/lib.rs:369-411 | identifiers and branch sequences stay unique, and every event stays in a branch of its session |
| `JournalTheorems.AppendIsDense` | crates/epoch-events/src/lib.rs:339-367 | from an exact counter there are no gaps |
| `JournalTheorems.AppendedExactlyWhen` | crates/epoch-events/src/lib.rs:97-129 | an event is appended if and only if times and references hold, its branch is of its session, its parent in scope, its identifier new, a number left and no fault injected |
| `JournalTheorems.AppendErrorsTellWhy` | crates/epoch-events/src/lib.rs:97-129 | each error of an append is returned if and only if its own condition holds |
| `JournalTheorems.SelectHolds` | crates/epoch-events/src/lib.rs:136-177 | a query returns exactly the matching rows |
| `JournalTheorems.SelectIsSorted` | crates/epoch-events/src/lib.rs:136-177 | within a branch it is strictly increasing |
| `JournalTheorems.SelectIsInOrder` | crates/epoch-events/src/lib.rs:136-177 | any query, over one branch or a session, is ordered by branch, then sequence, then identifier |
| `JournalTheorems.SelectMeans` | crates/epoch-events/src/lib.rs:136-177 | a row is in a query if and only if session, branch, kind and sequence range match, by its fields |
| `JournalTheorems.PageTells` | crates/epoch-events/src/lib.rs:186-249 | when a page is given, which rows it holds, that it says more if and only if more than offset plus limit rows match, and each error's condition |
| `JournalTheorems.PagesAddUp` | crates/epoch-events/src/lib.rs:186-249 | pages of one branch read among arbitrary appends concatenate to a prefix of the final query; likewise for every query but those over a session that appends can match |
| `JournalTheorems.PagesRepeatNothing` | crates/epoch-events/src/lib.rs:186-249 | of such queries no event is delivered twice |
| `JournalTheorems.SessionPagesCanRepeat` | crates/epoch-events/src/lib.rs:211-226 | for every readable query over a session that appends can match, in a session that starts without events, an append to an earlier branch makes the reader see an event again |
| `JournalTheorems.PagesRepeatExactlyWhen` | crates/epoch-events/src/lib.rs:186-249 | some run over tables that satisfy the schema delivers an event twice if and only if the query is readable, names no branch, and appends can match it |
| `EventJournals.EventJournal.AllocateSequence` | crates/epoch-events/src/lib.rs:339-367 | in place, repair then bump of the counter |
| `EventJournals.EventJournal.Append` | crates/epoch-events/src/lib.rs:97-129 | in place, the append; an error or fault restores the counter |
| `EventJournals.EventJournal.QueryPage` | crates/epoch-events/src/lib.rs:186-249 | the page of the query, its limits and its scope errors |
| `Frontiers.FrontierIsExact` | crates/epoch-supervisor/src/recovery.rs:1224-1243 | between two states of a run a frontier moves if and only if something was recorded in its scope |
| `Frontiers.StepGrows` | crates/epoch-supervisor/src/recovery.rs:1224-1243 | no step of the gateway or the authority removes what a frontier counts |
| `Frontiers.RevocationIsNotSeen` | crates/epoch-supervisor/src/recovery.rs:1231-1235 | revoking leaves both frontiers as they are |
| `Epochs.StepKeepsSound` | crates/epoch-supervisor/src/recovery.rs:989-1099 | every checkpoint and every other step keeps the chains and the order of frontiers |
| `Epochs.EpochsFormChains` | crates/epoch-supervisor/src/recovery.rs:1540-1565 | in every reachable state the epochs of a branch are committed, numbered 0 to n-1, linked, with frontiers nondecreasing and at most the current counts |
| `Epochs.AdvancedExactlyWhenRecorded` | crates/epoch-supervisor/src/recovery.rs:1296-1311 | one checkpoint, after any later run: advanced_since is true if and only if an issue or decision, or an effect transition, was recorded in its scope since |
| `Epochs.EveryRowWasTaken` | crates/epoch-supervisor/src/recovery.rs:989-1099 | every row of the table was appended by a checkpoint of the run |
| `Epochs.TakenExactlyWhen` | crates/epoch-supervisor/src/recovery.rs:989-1099 | a checkpoint is taken if and only if branch and session are completed, the blob rows agree, a number is left and the identifier is new; the row it adds, and each error's condition |
| `Epochs.FlagsAreExact` | crates/epoch-supervisor/src/recovery.rs:465-517 | comparing any two rows of a reachable table, in either order, of one branch or two: both advanced_since flags are exact in their own scope, and for one branch changed_between_epochs is too |
| `EpochWitnesses.ChangedWithNothingRecorded` | crates/epoch-supervisor/src/recovery.rs:1296-1311 | checkpoints of any two branches back to back whose comparison says changed |
| `EpochWitnesses.UnchangedWithRecords` | crates/epoch-supervisor/src/recovery.rs:1296-1311 | checkpoints of any two branches with an issue in between whose comparison says unchanged |
| `EpochWitnesses.ChangeTellsExactlyWhenSameBranch` | crates/epoch-supervisor/src/recovery.rs:1296-1311 | changed_between_epochs says in every run whether something was recorded in between if and only if the rows are of one branch |
| `EpochTables.EpochTable.NextSequence` | crates/epoch-supervisor/src/recovery.rs:1540-1565 | the query for the latest committed epoch, as a loop |
| `EpochTables.EpochTable.CommitEpoch` | crates/epoch-supervisor/src/recovery.rs:1436-1456 | on any table the creating rows with the identifier become committed, with success if and only if there was exactly one |
| `EpochTables.EpochTable.Persist` | crates/epoch-supervisor/src/recovery.rs:989-1099 | in place, insert as creating and commit; any error leaves the table alone |
| `Seeds.DeriveSeed` | crates/epoch-bench/src/lib.rs:439-444 | the 64-bit index can be read back from the seed, for every root |
| `Seeds.SeedsAreInjective` | crates/epoch-bench/src/lib.rs:439-444 | equal seeds come from equal indices |
| `Seeds.Run` | crates/epoch-bench/src/lib.rs:364-394 | iteration k gets the seed from which the root yields k back, so all warmup and retained iterations have pairwise distinct seeds |

## Left out

- Command line, demo, dashboard, benchmark artifacts and percentiles: user interface and reporting.
- Sandbox launch, CRIU, copy-on-write probes, isolation sampling and `/proc` parsing: host facilities.
- SHA-256, JSON text, UUIDs, SQLite internals, fsync and file permissions: parameters or assumptions.
- Credential and marker filters, error wording, and the line framing of `decode_line` and `encode_line`: one branch each.
- Branch creation by `persist_fork` and `inspect_fork_branch`, and the workspace part of a checkpoint: row copies and file trees.
- `unix_ms` timestamps of effects and their CHECK constraints: an effect call may be abandoned with any error at any step instead.
- Reconciliation of unknown outcomes: not implemented by the source.
- `BlobStore::put` is modelled on values, as interleaved file operations, not as a class; `EffectProtocol.Put` and `Checkpoints.PutBlob` see it as one step, so a media-type conflict between effect results is covered only by abandoning the call.
- `validate_media_type` on a dispatcher's result: a call may be abandoned there with any error.
- Process supervision around the ingestion loop (pipes, exit status, timeouts): an arrival sequence says which records come and which appends fail; that a stored payload decodes to the record it was written from is taken from the JSON codec.
- Epochs.EpochsFormChains: assumes that only checkpoints write the epochs table, and identifies a branch with its session.
- Seeds.Run: records what the scenario is given, not what it measures.
- DiffEngine.CompareEntities: covers messages and tasks by one method over entities with two fields, where the source has two functions of the same shape.
