# NexusMCP, verified

NexusMCP is a gateway that governs tool calls. This project models its five
decision-making cores in Dafny and proves what they promise over whole runs:

* **The governed call** (`ExecutionDomain`, `ApprovalDomain`, `GatewayStore`,
  `GatewayInvariant`, `GatewayTheorems`, `CallSession`, `CallSessionInvariant`,
  `CallSessionTheorems`, `CallLeaks`, `UnitOfWork`, `Lifecycle`, `CallTool`). Four stores
  (executions, attempts, approvals, audits) and the short transactions on them.
  Every transaction is a function from the store, the readings of clock and id
  generator, and what a lookup saw, to the new store and the outcome; the classes
  in `Lifecycle.dfy` are the code of the same transactions on a unit of work
  (working copy, commit or nothing) and are proved to compute those functions.
  `CallSession` cuts a tool call into its atomic steps, so that any number of
  calls and approval transactions interleave; `CallTool.dfy` is the sequential
  code (the gates, the retry loop, the closing transaction) and is proved to be a
  run of those steps.
* **The OpenAPI importer** (`Json`, `JsonPointer`, `RefResolver`,
  `RefTermination`, `OperationParser`). Unfolding of local references under a
  cycle stack and a depth guard, JSON Pointer decoding (sections 3 and 4 of
  RFC 6901), merging of parameters, the input schema with the binding that
  review derives from it, the responses, and the conflict all of these may leave.
* **Publication** (`CatalogStore`, `CatalogInvariant`, `CatalogSteps`,
  `CatalogPublication`, `CatalogTheorems`, `CatalogHistory`, `CatalogTimes`,
  `CatalogUseCases`, `ImportedContent`).
  Review, submission, publication and direct publication of tool, version and
  binding; and that stored schemas and bindings agree, from the import on.
* **Toolsets** (`Ordering`, `ToolsetDomain`, `ToolsetStore`, `ToolsetTheorems`,
  `SystemToolset`, `ToolsetAccess`, `ToolsetUseCases`). The aggregate with optimistic revisions,
  the administrative commands, and the tools an endpoint lists.
* **Tool search** (`RankFusion`, `Ndcg`, `Evaluation`, `Reindex`). Reciprocal
  rank fusion with its diagnostics, the retrieval metrics, and the batched
  reindex of the embedding projection.

How the source is represented:

* Times are integers, floats are reals. An id or clock reading is an input of
  the step that uses it; nothing is assumed about it. An id that is taken, or a
  unique index that is violated, is an error path.
* A plan receives the answer of its idempotency lookup as an input, and the set-up
  of the system toolset that of its first lookup, so that a stale answer, read
  before others committed, is covered. The unique indexes are checked where the
  row is added.
* Ports outside the model (upstream, secret provider, embedding provider, policy)
  may answer anything. The identifier pattern behind argument names is an
  arbitrary function, digests are an arbitrary function or the value they are
  computed from, and the NDCG discount is any positive strictly falling function.
* The unique indexes and keys of the storage are a precondition of the
  publication use cases (`CatalogUseCases.Constraints`), and everything they add
  or save keeps them.
* Each transaction is one atomic step, as the row locks and the adapters' lock
  make it. What a caller does between two transactions, such as a call, a nap or
  a decision on an error, belongs to the step it follows.

What the proofs found:

* The cycle guard of the reference resolver never decides an outcome that the
  depth guard would not decide alike (`CycleGuardRedundant`).
* A call can end with an attempt still stored as running, although its execution
  is terminal (`FinishedWithAnAttemptInFlight` is such a run). This happens
  exactly when the executor, while the call was in progress, once reported an
  upstream status outside 100..599, since the end of the attempt cannot be
  constructed then: `PlannedCallEnds` says so of one call,
  `FinishedLeavesInFlightExactly` of every interleaving.
* After a forced reindex has failed, the next unforced run takes up all that was
  left exactly if none of that was current before (`ResumesWhereItStopped`);
  `ForcedRunIsNotResumed` is a run after which nothing is pending although a
  document was left.
* When two instances set up the system toolset of a tenant at once, the loser does
  not end in a conflict: its first transaction goes on also if its lookup was
  stale and the unique index refused the row (`EnsureGoesOnExactly`), and its
  second finds the other's toolset, whatever is committed in between
  (`SystemStays`). That second transaction fails exactly if an id is blank, or a
  grant is missing and its clock is behind the toolset's last change
  (`MergeSucceedsExactly`), so losing the race can make the set-up fail:
  `LoserFailsBehindWinnersClock` is such a run.
* An explicit toolset may hold the slug of the system toolset. From then on every
  set-up for that tenant that could create one ends in a conflict
  (`EnsureEndsExactly`, `SlugHolderBlocksForEver`).
* The closing transaction of a call fails exactly if the id of its audit is blank or
  taken; only then is the execution left running (`PlannedCallEnds`).
* NDCG is 0, not 1, for a case without relevant tools, so the ideal case needs a
  label (`NdcgBounds`).

## Model

| member | source | states |
|---|---|---|
| ExecutionDomain.RetryOnlyRepeatable | src/nexusmcp/modules/execution/domain.py:377-414 | a retry is allowed exactly for a repeatable call (read-only, or idempotent with a key) with a transient category; a read-only call never requires reconciliation |
| GatewayInvariant.ConsumeLockedOutcome | src/nexusmcp/modules/approval/use_cases.py:246-272 | the outcome of consuming: the domain's own checks never fire after the use case's, an approval changes only by expiry or consumption, and a consumption is for this call, now, before expiry |
| GatewayInvariant.ApplyKeeps | src/nexusmcp/modules/execution/lifecycle.py:94-378 | every transaction of lifecycle and approvals keeps the joint invariant of the four stores |
| GatewayInvariant.EveryRunKeeps | src/nexusmcp/modules/execution/lifecycle.py:94-378 | so does every run, in any order of commits |
| GatewayTheorems.ApprovalsSingleUseOverRuns | src/nexusmcp/modules/execution/lifecycle.py:128-151 | over any run two executions never share an approval, and the one used is consumed, for the same tenant, principal, version, digest, policy version and key, at the start of the execution and before its expiry |
| GatewayTheorems.OneExecutionPerKey | src/nexusmcp/modules/execution/lifecycle.py:118-151 | at most one execution per tenant, principal, version and key, whatever each plan's lookup saw |
| GatewayTheorems.AttemptsNumbered | src/nexusmcp/modules/execution/lifecycle.py:154-174 | the attempts of an execution are numbered 1..attempt_count, none missing, none twice |
| GatewayTheorems.RunIsLater | src/nexusmcp/modules/execution/lifecycle.py:304-378 | terminal executions, ended attempts, consumed approvals and audits never change again; attempt counts never fall |
| GatewayTheorems.TerminalForEver | src/nexusmcp/modules/execution/lifecycle.py:304-415 | one allowed audit from the start, exactly one audit of the matching outcome once terminal, which names the reason and counts the stored attempts for ever after |
| GatewayTheorems.PlanFailureRollsBack | src/nexusmcp/modules/execution/lifecycle.py:118-151 | a plan that raises leaves all stores as they were, except that its approval may have expired; a reused key never touches the approval |
| GatewayTheorems.PlanSuccess | src/nexusmcp/modules/execution/lifecycle.py:94-152 | a plan that succeeds adds one running execution of this call and one audit, and consumes exactly its approval |
| GatewayTheorems.ConsumedOnce | src/nexusmcp/modules/approval/use_cases.py:175-192 | of two consumptions of one approval in a run at most one succeeds |
| CallSessionInvariant.MoveTells | src/nexusmcp/modules/execution/retrying_executor.py:45-103 | whatever a session does next, its phase, its counters and the stored rows of its execution agree, and the other calls are not touched |
| CallSessionTheorems.ScheduleKeeps | src/nexusmcp/modules/execution/call_tool.py:146-230 | every interleaving of calls and approval transactions keeps that agreement for all sessions |
| CallSessionTheorems.CallsBounded | src/nexusmcp/modules/execution/retrying_executor.py:45-103 | in every interleaving an execution is sent upstream as often as it has attempts, at most max_attempts times, and more than once only if it is repeatable |
| CallSessionTheorems.CallsPerKeyBounded | src/nexusmcp/modules/execution/retrying_executor.py:45-101 | all upstream calls made for one idempotency key over a run number at most max_attempts |
| CallSessionTheorems.EarlierAttemptsRetried | src/nexusmcp/modules/execution/retrying_executor.py:64-73 | every stored attempt but the last failed with a category that the retry rule lets through |
| CallSessionTheorems.TotalBackoff | src/nexusmcp/modules/execution/retrying_executor.py:69-73 | n naps last initial * (2^n - 1) in all, and a call that returned after n attempts took n - 1 of them |
| CallSessionTheorems.FinishedIsTerminal | src/nexusmcp/modules/execution/call_tool.py:171-230 | a finished call is terminal with one terminal audit, succeeded exactly if it returned, unknown exactly if the caller is told so, cancelled exactly if cancelled; an attempt is in flight exactly if its end could not be stored; a read-only call is unknown only through an exception that is no executor failure |
| CallSessionTheorems.TerminalExactlyWhenFinished | src/nexusmcp/modules/execution/call_tool.py:171-230 | an execution is terminal exactly when its call has finished |
| CallSessionTheorems.SentExactlyOnFreshAttempt | src/nexusmcp/modules/execution/lifecycle.py:154-174 | a call that is ready is sent upstream exactly if the id of its attempt is neither blank nor taken |
| CallSessionTheorems.ClosesExactlyOnFreshAudit | src/nexusmcp/modules/execution/lifecycle.py:304-343 | a call's closing transaction fails exactly if the id of its audit is blank or taken |
| CallSessionTheorems.EachStepNearer | src/nexusmcp/modules/execution/retrying_executor.py:45-103 | each step of a call strictly lowers a bounded rank |
| CallSessionTheorems.CallsEnd | src/nexusmcp/modules/execution/retrying_executor.py:45-103 | a call takes at most 3 * max_attempts + 1 steps, whatever happens in between |
| CallLeaks.LeaksExactlyOnBadStatus | src/nexusmcp/modules/execution/domain.py:289-313 | in any consistent store the end of an attempt is lost exactly by an answer to a call in progress whose upstream status lies outside 100..599, and stays lost |
| CallLeaks.CallLeaksExactly | src/nexusmcp/modules/execution/retrying_executor.py:45-103 | a whole call loses the end of an attempt exactly if one of its inputs is such an answer |
| CallLeaks.ScheduleLeaks | src/nexusmcp/modules/execution/retrying_executor.py:45-103 | so does a call among others, in every interleaving |
| CallLeaks.FinishedLeavesInFlightExactly | src/nexusmcp/modules/execution/call_tool.py:171-230 | over any run from the empty store a finished call has left an attempt in flight exactly if it got such an answer |
| CallLeaks.FinishedWithAnAttemptInFlight | src/nexusmcp/modules/execution/adapters/httpx_executor.py:118-136 | a concrete run: the upstream answers 600, the call finishes, its execution is terminal, its attempt still in flight |
| UnitsOfWork.UnitOfWork.Commit | src/nexusmcp/modules/approval/adapters/in_memory.py:97-103 | only a commit writes the working copy back |
| UnitsOfWork.UnitOfWork.Rollback | src/nexusmcp/modules/approval/adapters/in_memory.py:105-111 | a rollback returns the working copy to the store |
| Lifecycle.ConsumeLockedApproval | src/nexusmcp/modules/approval/use_cases.py:246-272 | the code of consuming within the caller's unit of work computes the specified outcome |
| Lifecycle.ApprovalUseCases.Request | src/nexusmcp/modules/approval/use_cases.py:79-119 | approval and audit are stored together or not at all |
| Lifecycle.ApprovalUseCases.DecideOn | src/nexusmcp/modules/approval/use_cases.py:133-172 | a decision is stored with its audit; an expiry is committed before raising |
| Lifecycle.ApprovalUseCases.ConsumeAlone | src/nexusmcp/modules/approval/use_cases.py:180-192 | consuming commits on success and on expiry only |
| Lifecycle.ExecutionLifecycle.Plan | src/nexusmcp/modules/execution/lifecycle.py:94-152 | the code of plan computes the specified store and outcome, with an answer of the idempotency lookup on the store it found |
| Lifecycle.ExecutionLifecycle.StartAttempt | src/nexusmcp/modules/execution/lifecycle.py:154-174 | execution and attempt are stored together or not at all |
| Lifecycle.ExecutionLifecycle.FinishAttempt | src/nexusmcp/modules/execution/lifecycle.py:345-378 | an attempt in flight ends once, or nothing changes |
| Lifecycle.ExecutionLifecycle.Finish | src/nexusmcp/modules/execution/lifecycle.py:304-343 | a running execution ends with its audit, or nothing changes |
| Lifecycle.ExecutionLifecycle.RecordCallDecision | src/nexusmcp/modules/execution/lifecycle.py:222-245 | one audit is appended, or nothing changes |
| CallTools.ExecuteWithRetry.Execute | src/nexusmcp/modules/execution/retrying_executor.py:39-103 | the retry loop is a run of the session's steps, ends the way the session does, and never falls through |
| CallTools.CallTool.RunPlanned | src/nexusmcp/modules/execution/call_tool.py:171-230 | secret, attempts and closing transaction are a run of the session to its end, and the caller is told what the session says |
| CallTools.CallTool.Execute | src/nexusmcp/modules/execution/call_tool.py:92-230 | a refusal names the first gate that failed and stores only the denial or approval request it must; otherwise the call is planned and run |
| CallTools.RefusedUnlessAdmitted | src/nexusmcp/modules/execution/call_tool.py:92-170 | a call reaches its plan exactly if it passes every gate; a refused one leaves executions and attempts alone |
| CallTools.PlannedCallEnds | src/nexusmcp/modules/execution/call_tool.py:171-230 | every way out of a planned call: terminal unless the closing transaction failed, which is exactly if the id of its audit was blank or taken; succeeded exactly if it returned, with the stored number of attempts in the answer; an attempt stays in flight exactly if one of the call's inputs is an answer with a status outside 100..599 |
| JsonPointer.ResolvePointer | src/nexusmcp/modules/openapi_import/parser.py:320-327 | the loop over the tokens finds the node at the decoded path, or misses |
| JsonPointer.UnescapeIsOnePass | src/nexusmcp/modules/openapi_import/parser.py:323 | the two replacements, "~1" first, are one-pass decoding on every token |
| JsonPointer.UndoingTildeFirstIsWrong | src/nexusmcp/modules/openapi_import/parser.py:323 | in the other order a token decodes wrongly |
| JsonPointer.ReferenceRoundTrip | src/nexusmcp/modules/openapi_import/parser.py:320-327 | escaping and joining any non-empty path of keys and resolving the reference gives exactly the node at that path |
| RefResolver.GuardsOnlyReject | src/nexusmcp/modules/openapi_import/parser.py:284-317 | a resolution that succeeds gives the same value with fewer references on the stack and at less depth |
| RefResolver.CycleGuardRedundant | src/nexusmcp/modules/openapi_import/parser.py:301-302 | resolution succeeds exactly if plain unfolding stays within the depth bound, to the same value |
| RefResolver.ResolutionSettles | src/nexusmcp/modules/openapi_import/parser.py:284-317 | a result has no non-null reference, no example, and at most 32 - depth levels |
| RefResolver.ResolveIdempotent | src/nexusmcp/modules/openapi_import/parser.py:138-139 | resolving a result, or a part of one, again returns it unchanged, against any document |
| RefTermination.StackAloneSuffices | src/nexusmcp/modules/openapi_import/parser.py:297-307 | with the cycle stack as its only guard resolution terminates, agrees with the guarded one, and succeeds exactly if plain unfolding is finite |
| RefTermination.DepthGuardDecides | src/nexusmcp/modules/openapi_import/parser.py:291-292 | the depth guard rejects nesting beyond 32 levels even without references |
| OperationParser.MergeParameters | src/nexusmcp/modules/openapi_import/parser.py:205-217 | the merging loop computes the ordered dict of parameters |
| OperationParser.OperationLevelWins | src/nexusmcp/modules/openapi_import/parser.py:205-217 | the merged entry of a name and location is the last operation-level one, or else the last path-level one, and keys are distinct (section 4.8.9 of OpenAPI 3.1.0) |
| OperationParser.ParseInput | src/nexusmcp/modules/openapi_import/parser.py:115-163 | the parameter loop and the request body compute properties, required names, normalized parameters and conflict |
| OperationParser.NormalizeResponses | src/nexusmcp/modules/openapi_import/parser.py:247-282 | the loop over the responses computes the normalized responses, the output schema and whether any is unsupported |
| OperationParser.ResponsesExactly | src/nexusmcp/modules/openapi_import/parser.py:254-282 | the responses come in ascending order of their codes; they are unsupported exactly if some response has content without a JSON form; the output schema is that of the least 2xx code that has one |
| OperationParser.ParseOperation | src/nexusmcp/modules/openapi_import/parser.py:104-172 | parameters, request body and responses together compute input, responses and conflict |
| OperationParser.ConflictExactly | src/nexusmcp/modules/openapi_import/parser.py:115-170 | an operation is unsupported exactly if a parameter is, or its body or a response has no JSON form; otherwise it lacks an operation id or has no conflict |
| OperationParser.SchemaAgreesWithBinding | src/nexusmcp/modules/openapi_import/review.py:202-247 | the schema's properties are exactly the arguments the binding consumes, its required names exactly those the binding requires |
| OperationParser.ConflictFreeNamesAreUnique | src/nexusmcp/modules/openapi_import/parser.py:85-97 | an operation left without conflict has a tool name no other operation of the document has |
| CatalogSteps.SubmitSucceedsExactly | src/nexusmcp/modules/catalog/review.py:23-42 | submission succeeds exactly for a draft of the tenant and changes nothing else |
| CatalogSteps.ReviewShape | src/nexusmcp/modules/openapi_import/review.py:83-159 | a review answers with rows that belong together, and adds at most one draft with its binding and tool, numbered above all versions of the tool |
| CatalogPublication.RetireExactly | src/nexusmcp/modules/catalog/publish.py:105-144 | in a reachable catalog retiring fails only if the target is not newer; otherwise exactly the published version and its binding are retired |
| CatalogPublication.PublishSucceedsExactly | src/nexusmcp/modules/catalog/publish.py:147-218 | publication succeeds exactly under conditions a caller can check; the checks for rows that changed or do not match, and the storage's constraints, never fire |
| CatalogTimes.DirectIsPipelineAtAnyTimes | src/nexusmcp/modules/openapi_import/direct_publish.py:63-140 | direct publication publishes exactly if review, submission and publication in a row would, at whatever times, with the same catalog up to recorded times and the same answer; when it fails nothing changes |
| CatalogTheorems.DirectAfterReview | src/nexusmcp/modules/openapi_import/direct_publish.py:82-106 | its own checks for incomplete or inconsistent rows never fire |
| CatalogTheorems.ApplyKeeps | src/nexusmcp/modules/catalog/publish.py:147-218 | every step keeps the catalog's invariant |
| CatalogTheorems.EveryRunKeeps | src/nexusmcp/modules/catalog/publish.py:63-144 | over any run version and binding statuses move together, a tool is active exactly if it has a published version, it has at most one, and retired versions lie below it |
| CatalogHistory.PublishedNumbersIncrease | src/nexusmcp/modules/catalog/publish.py:113-144 | a published tool stays published, by the same version or a greater one, the old one being retired |
| CatalogHistory.RepeatIsHarmless | src/nexusmcp/modules/openapi_import/direct_publish.py:97-111 | whatever happened in between, repeating a direct publication while its version is published changes nothing and reports the same rows and time |
| CatalogUseCases.ReviewUnitOfWork.NextVersionNumber | src/nexusmcp/modules/catalog/adapters/in_memory.py:135-141 | one more than the greatest number of the tool's versions |
| CatalogUseCases.RetireCurrentVersion | src/nexusmcp/modules/catalog/publish.py:105-144 | the code of the retirement step, on the working copy |
| CatalogUseCases.PublishInTransaction | src/nexusmcp/modules/catalog/publish.py:147-218 | the code of publication, within the caller's unit of work |
| CatalogUseCases.ReviewInTransaction | src/nexusmcp/modules/openapi_import/review.py:83-159 | the code of review, within the caller's unit of work |
| CatalogUseCases.ReviewImportedOperation | src/nexusmcp/modules/openapi_import/review.py:74-81 | review as one transaction |
| CatalogUseCases.SubmitToolVersionForReview | src/nexusmcp/modules/catalog/review.py:23-42 | submission as one transaction |
| CatalogUseCases.PublishTool | src/nexusmcp/modules/catalog/publish.py:48-61 | publication as one transaction |
| CatalogUseCases.DirectPublishImportedOperation | src/nexusmcp/modules/openapi_import/direct_publish.py:63-140 | direct publication as one transaction: all of it is committed, or nothing |
| ImportedContents.ContentAgrees | src/nexusmcp/modules/openapi_import/review.py:202-247 | the documents the importer leaves for a review agree: the schema admits exactly the arguments that the binding's entries name, and requires exactly those marked as required |
| ImportedContents.StoredSchemasAgree | src/nexusmcp/modules/openapi_import/review.py:83-159 | every run of imports, reviews and publications keeps that agreement between each stored binding and the schema of its version |
| ImportedContents.EveryStoredSchemaAgrees | src/nexusmcp/modules/openapi_import/review.py:83-159 | so it holds of every binding that a run from the empty catalog stores |
| Ordering.AscendingUnique | src/nexusmcp/modules/toolsets/domain.py:380-385 | a list in normal form is determined by the ids it contains |
| ToolsetDomain.NormalizedIds | src/nexusmcp/modules/toolsets/domain.py:380-385 | blank ids are refused, otherwise the ids in ascending order without duplicates |
| ToolsetDomain.ReplaceMembersExactly | src/nexusmcp/modules/toolsets/domain.py:226-263 | when replacing members succeeds, that it is a no-op exactly for the same set of tools, and which members result with which provenance |
| ToolsetDomain.ReplaceGrantsExactly | src/nexusmcp/modules/toolsets/domain.py:265-295 | when replacing grants succeeds, that it is a no-op exactly for the same set of principals, and which grants result with which provenance |
| ToolsetDomain.ReplaceMembersMutates | src/nexusmcp/modules/toolsets/domain.py:226-263 | the aggregate invariant, the identity and the revision rule hold after replacing members |
| ToolsetDomain.ReplaceGrantsMutates | src/nexusmcp/modules/toolsets/domain.py:265-295 | the same for grants |
| ToolsetDomain.UpdateProfileMutates | src/nexusmcp/modules/toolsets/domain.py:196-224 | the same for the profile |
| ToolsetDomain.ActivateMutates | src/nexusmcp/modules/toolsets/domain.py:297-309 | the same for activation |
| ToolsetDomain.DisableMutates | src/nexusmcp/modules/toolsets/domain.py:311-323 | the same for disabling |
| ToolsetTheorems.SaveNeverRefuses | src/nexusmcp/modules/toolsets/adapters/_repository_rules.py:7-22 | the save rules never refuse what a mutation made |
| ToolsetTheorems.EveryRunKeeps | src/nexusmcp/modules/toolsets/domain.py:103-132 | over any run of commands every toolset satisfies its constructor, ids are in normal form, slugs are unique and there is one system toolset per tenant |
| ToolsetTheorems.RevisionCountsChanges | src/nexusmcp/modules/toolsets/use_cases.py:224-349 | the revision rises by exactly one with each effective change and with nothing else |
| ToolsetTheorems.AtMostOneTakesEffect | src/nexusmcp/modules/toolsets/domain.py:325-327 | of all commands issued against one revision at most one takes effect |
| ToolsetTheorems.MemberProvenance | src/nexusmcp/modules/toolsets/domain.py:245-256 | every member names the command that added it, since which it has been a member without interruption |
| SystemToolsets.EnsuredGrants | src/nexusmcp/modules/toolsets/use_cases.py:184-221 | either transaction that answers leaves the tenant's system toolset, with the wanted grants alone or added to those it had |
| SystemToolsets.EnsureGoesOnExactly | src/nexusmcp/modules/toolsets/use_cases.py:184-206 | the first transaction gives no answer exactly if the lookup found a system toolset, or there is one now, or the id or slug of the new one is taken |
| SystemToolsets.SystemStays | src/nexusmcp/modules/toolsets/use_cases.py:208-211 | whatever is committed in between, a system toolset there at the first transaction is there at the second |
| SystemToolsets.MergeSucceedsExactly | src/nexusmcp/modules/toolsets/use_cases.py:208-221 | the second transaction fails exactly if an id is blank, or a grant is missing and its clock is behind the toolset's last change; then nothing changes |
| SystemToolsets.EnsureEndsExactly | src/nexusmcp/modules/toolsets/use_cases.py:178-221 | over both transactions and anything committed in between: a conflict exactly if an explicit toolset holds the slug, or the new id was taken and there still is no system toolset; success exactly if the toolset could be created, or merged into |
| SystemToolsets.LoserFailsBehindWinnersClock | src/nexusmcp/modules/toolsets/domain.py:329-332 | a concrete lost race: alone the loser succeeds, after the winner it fails because its clock is behind |
| SystemToolsets.SlugHolderBlocksForEver | src/nexusmcp/modules/toolsets/domain.py:103-132 | a concrete store in which an explicit toolset holds the slug: whatever happens next, every set-up that could create a system toolset ends in a conflict |
| ToolsetAccess.EndpointGrants | src/nexusmcp/modules/toolsets/runtime.py:155-161 | an endpoint grants access exactly to the principals of its active toolset |
| ToolsetAccess.RootIsUnion | src/nexusmcp/modules/toolsets/runtime.py:90-152 | the root lists a tool exactly if an active granted toolset's endpoint lists it, in ascending order of names |
| ToolsetAccess.RootIsTheUnion | src/nexusmcp/modules/toolsets/runtime.py:90-152 | and it is the only list that is sorted and does so |
| ToolsetAccess.CallsFollowLists | src/nexusmcp/modules/toolsets/runtime.py:69-78 | the root lets a name through exactly if a granted endpoint does |
| ToolsetUseCases.ToolsetUnitOfWork.Update | src/nexusmcp/modules/toolsets/adapters/in_memory.py:40-57 | the code of save: identity, revision and uniqueness rules |
| ToolsetUseCases.ReplaceToolsetMembers | src/nexusmcp/modules/toolsets/use_cases.py:253-278 | locked read, revision check, catalog checks, mutation and save in one transaction |
| ToolsetUseCases.ReplaceToolsetGrants | src/nexusmcp/modules/toolsets/use_cases.py:286-301 | the same for grants |
| ToolsetUseCases.UpdateToolset | src/nexusmcp/modules/toolsets/use_cases.py:229-245 | the same for the profile |
| ToolsetUseCases.ActivateToolset | src/nexusmcp/modules/toolsets/use_cases.py:309-328 | the same for activation |
| ToolsetUseCases.DisableToolset | src/nexusmcp/modules/toolsets/use_cases.py:336-349 | the same for disabling |
| ToolsetUseCases.CreateToolset | src/nexusmcp/modules/toolsets/use_cases.py:136-162 | a new draft is added, or nothing changes |
| ToolsetUseCases.EnsureAllPublishedToolset | src/nexusmcp/modules/toolsets/use_cases.py:178-221 | two transactions with anything committed in between: the first one's answer, or else what the second makes of the store it finds |
| RankFusion.ReciprocalRankFusion.Fuse | src/nexusmcp/modules/tool_search/rank_fusion.py:14-47 | the first `limit` distinct ids in the order (score descending, name, id), each with the sum of 1/(c + first position) over the rankings that have it |
| RankFusion.FusionIsUnique | src/nexusmcp/modules/tool_search/rank_fusion.py:36-47 | no other list satisfies that |
| RankFusion.DominanceIsKept | src/nexusmcp/modules/tool_search/rank_fusion.py:24-42 | an id before another in every ranking that has the other comes out before it |
| RankFusion.RankedHits | src/nexusmcp/modules/tool_search/hybrid_search.py:94-100 | first position and strategy score of every id |
| RankFusion.ExecuteDetailed | src/nexusmcp/modules/tool_search/hybrid_search.py:49-91 | every hit has a diagnosis whose two ranks reconstruct its score exactly |
| Ndcg.BestSum | src/nexusmcp/modules/tool_search/evaluation.py:238-249 | the gains of any j different names add up to at most the j greatest |
| Ndcg.NoLeadNoDifference | src/nexusmcp/modules/tool_search/evaluation.py:238-249 | under a strictly falling discount a majorized list with the same weighted sum is the same list |
| Ndcg.NdcgBounds | src/nexusmcp/modules/tool_search/evaluation.py:238-249 | 0 <= NDCG@k <= 1; it is 1 exactly if something is relevant and the padded grades of the first k results are the k greatest in descending order, and 0 exactly if none of them is relevant |
| Evaluation.PercentilesRise | src/nexusmcp/modules/tool_search/evaluation.py:252-262 | percentiles rise with the quantile and stay between the least and the greatest value |
| Evaluation.SelectByCase | src/nexusmcp/modules/tool_search/evaluation.py:112-115 | the dict of a strategy's observations, smaller than the selection exactly if a case occurs twice |
| Evaluation.TallyInOrder | src/nexusmcp/modules/tool_search/evaluation.py:124-148 | the sums over the cases bound each other, and the NDCG sum is full exactly if every positive case is ideal |
| Evaluation.EvaluateRetrieval | src/nexusmcp/modules/tool_search/evaluation.py:103-167 | which input is refused; otherwise all rates lie in 0..1, top-1 is at most hit@k and MRR, NDCG at most hit@k, p50 at most p95, and mean NDCG is 1 exactly if every positive case is ideal |
| Reindex.Inspect | src/nexusmcp/modules/tool_search/index_management.py:153-203 | the state of every document, and counts that add up |
| Reindex.PendingAgreesWithInspection | src/nexusmcp/modules/tool_search/reindex_tools.py:79-86 | without force the pending count is the inspection's missing plus stale |
| Reindex.EmbeddingIndex.UpsertBatch | src/nexusmcp/modules/tool_search/reindex_tools.py:109-131 | a batch is committed as a whole or not at all; existing rows keep their ids |
| Reindex.EmbeddingIndex.Execute | src/nexusmcp/modules/tool_search/reindex_tools.py:67-143 | a prefix of the pending documents, a whole number of full batches in order, is committed, each document with the vector given for its content; all of it exactly if the run succeeds, in ceil(pending / size) batches; a dry run, or one with nothing pending, succeeds without the provider; which error is raised follows from the size, the missing provider, or what is wrong with the provider's last answer: an exception, a wrong count, or a vector of another model or dimension |
| Reindex.CompletionMakesCurrent | src/nexusmcp/modules/tool_search/reindex_tools.py:67-143 | after a completed run every published document is current and an unforced rerun has nothing to do |
| Reindex.ResumesWhereItStopped | src/nexusmcp/modules/tool_search/reindex_tools.py:79-85 | after a failed run the next unforced one has pending exactly what was not committed, less what was current before; this is all of it exactly if none of it was current, as always after an unforced run |
| Reindex.ForcedRunIsNotResumed | src/nexusmcp/modules/tool_search/reindex_tools.py:79-85 | a concrete forced run that stops after one of two documents, both current before, and leaves nothing pending |

## Left out

- request id, trace id, credential binding id, MCP scope fields and other audit metadata: carried along unchanged, nothing depends on them.
- SQL adapters, ORM mapping, admin read models and migrations: only their unique indexes appear, as checks where a row is added or saved.
- A commit that fails for reasons of the infrastructure, and a process that dies between two transactions: nothing in the code answers them.
- Cancellation while a secret is resolved or inside a lifecycle transaction: the code does not turn it into an end of the execution.
- ExecutionLifecycle.record_scope_denial: it appends one audit, as record_call_decision does.
- Policy evaluation, argument validation, egress policy and principal resolution: their answers are inputs of a call.
- CallTools.ExecuteWithRetry.Execute: sequential; interleavings with other callers are covered by CallSessionTheorems, whose steps it is proved to follow.
- Security, tags, summary, response descriptions and the allowlist of the importer: they would add only easy members.
- Object keys of a document that are not strings, and percent-encoding in references: the resolver turns the former into strings and does not decode the latter.
- Uniqueness of the argument names of one operation: the single prefix does not promise it; schema and binding agree on sets.
- OperationParser.ParseInput: the pattern that turns a parameter name into an argument name is an arbitrary function.
- Whether a normalized operation is malformed is one flag of the imported operation; which of its parts is malformed does not matter to the outcome.
- Rejection of an imported operation, and disabling of a tool: no use case performs them.
- Reindex.EmbeddingIndex.UpsertBatch: the constructor of a stored embedding also refuses blank ids and a digest of the wrong length; the id generator gives no blank id, and the documents' digests are SHA-256.
- ToolsetUseCases.EnsureAllPublishedToolset: each of its two transactions is one atomic step, but its second reads the toolset without a lock, so another commit between that read and the save is not covered.
- Profiles, health and paging of the toolset administration: derived views.
- ToolsetAccess.RootIsUnion: one state of toolsets and catalog; the code reads published tools after its unit of work, and they have distinct names, as the catalog's unique index makes them.
- The digest of a toolset's members is represented by what it is computed from, so collisions and the check of its format are not modelled.
- collect_retrieval_observations and the parsing of evaluation datasets: calls and type checks.
- Vector and full-text search, document building, embedding providers: their results are inputs.
- Reindex jobs: a status machine over a store that is not part of this model.
- Rounding of floats: scores, discounts and percentiles are real numbers.
- HTTP, MCP protocol, CLI, telemetry, redaction and the web console: no part of these decisions.
