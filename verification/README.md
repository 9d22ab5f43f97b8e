# Verified models of OpenClaw runtime protocols

This project models the stateful protocols and exact transformations at the core of the OpenClaw
runtime and the AgentOS SDK, and proves properties of them for every input and every run.
`dafny verify dfyconfig.toml` checks all of it.

Where the program changes state step by step, the model has a value-level state, a step function
for each uninterrupted stretch of code between two awaits, and theorems over all runs of those
steps; a class with the program's own fields then updates in place, and each of its methods is
proved to take exactly such a step.

| file | what it models |
|---|---|
| `TerminalOutcome.dfy` | merging, replacing, projecting and normalising run-attempt terminals |
| `SeccompFilter.dfy` | the launcher's classic BPF table, an interpreter for it, and the policy it encodes |
| `LspFraming.dfy`, `LspSession.dfy` | the length-prefixed framing of the Language Server Protocol 3.17 ("Base Protocol", "Header Part"), and what it settles in a session |
| `RuntimeManager.dfy`, `ExclusiveChains.dfy`, `LockedKeys.dfy`, `RequesterCap.dfy`, `Retirement.dfy` | creation, publication and teardown of session MCP runtimes; the per-key work chains; the two composed, for requester keys; leases, idle sweep and requester cap; deferred and required retirement |
| `CatalogCache.dfy`, `CombinedRuntime.dfy` | the catalog cache of a runtime, and the merged catalog of the combined facade |
| `SteeringQueue.dfy` | listing, selecting, leasing, acknowledging and releasing subagent completions |
| `ToolNames.dfy`, `ToolCatalog.dfy` | provider-safe names and the tool list built from a catalog |
| `RunAdmission.dfy` | admission and close around an asynchronous callback, recovery evidence, recovery leases |
| `ProcessTable.dfy`, `BoundedRead.dfy` | process limits, retention and output of the SDK; its bounded file read |
| `PublishedRuntimes.dfy`, `McpTools.dfy` | the table of published runtimes and the catalog tools several of these share |
| `Base.dfy`, `Sorting.dfy`, `Decimal.dfy`, `Text.dfy` | options, filtering and stable sorting, decimal numerals, trimming and lower-casing |

## What the proofs showed about the code

These are properties one might expect that hold only under a condition; each has a theorem with the
exact condition or a concrete run.

- Projecting a terminal and normalising it again loses a yield cleanup, an external timeout that left
  the run alive, a failure on a bare observation and a null error, and nothing else
  (`ProjectThenNormalize`).
- The 30-character limit on server names holds while fewer than 10^28 - 2 names are used, and fails for
  10^28 - 2 (`ServerNameIsSafe`, `ServerNameLimitIsExact`).
- Listing app-only inventory lists again, under suffixed names, exactly the utility tools of the last
  ordinary pass: the callable ones, or with denied inventory the denied ones (`UtilityListedTwiceExactly`).
- A completion whose cleanup has completed, or that was once suspended, is not offered again after a
  release (`ReleasedIsOfferedAgain`).
- An admission gets more than one attempt exactly when an admit begins a body on it while the callback of
  an earlier one has not reached its first await (`SecondAttemptExactly`); two attempts can then both
  succeed with different contexts (`ReentryMakesTwoContexts`). Closing still hides all of them.
- Releasing an old recovery handle a second time removes a newer hold exactly if that hold is of the
  same context (`StaleHandleRemovesOnlyItsOwnContext`, `StaleHandleOfSameContext`).
- The process admission test counts a process twice between its registration and the end of its spawn, so
  it refuses early exactly when those processes make up the difference to the limit
  (`EarlyRefusalExactly`, `SpawnRefusedEarly`); the bound on distinct processes still holds (`LimitsHold`).
- Disposing a runtime key awaits only the creation in flight. It is sure to leave every runtime of the key
  disposed exactly when, at the dispose, no creation outside the awaited chain holds a runtime or is making
  one; such a creation was revoked by an earlier disposal of the key (`TeardownCompleteExactly`,
  `RevokedCreationOutlivesCapture`). On requester keys, which go through a work chain, there never is one
  (`RequesterTeardownIsComplete`).
- A process that finishes can lose its own record in the same step (`FinishingMayForgetItself`).

## Modelling notes

- JSON, UTF-8, the rendering of a prompt section and the listing of one server are function parameters
  or nondeterministic steps; clocks and lease ids are arguments. `localeCompare` is a function from
  strings to positions on a line, an arbitrary total preorder.
- Strings in `Text` and `ToolNames`, and prompts in `SteeringQueue`, are UTF-16 code units, and JavaScript white space is
  listed in full.
- Steps are enabled at least as often as in the program: a load may deliver any catalogs its parts had
  at some time, another owner may clear a registry entry at any time, a callback may take any time.
- Ghost history, such as where each runtime is or which load listed a tool, is never read by a step.

## Model

| member | source | states |
|---|---|---|
| `TerminalOutcome.MergeIsJoin` | `packages/openclaw-core/upstream/src/agents/agent-run-terminal-outcome.ts:202-335` | the branching merge is, on every pair of terminals, the join of five independent axes: three maxima, the failed kind, and the latest failure |
| `TerminalOutcome.MergeAssociative` | `packages/openclaw-core/upstream/src/agents/agent-run-terminal-outcome.ts:202-335` | merging is associative on every three terminals, failure detail included |
| `TerminalOutcome.MergeIdempotentWithIdentity` | `packages/openclaw-core/upstream/src/agents/agent-run-terminal-outcome.ts:202-335` | merging a terminal with itself changes nothing, and `ok` is a two-sided identity |
| `TerminalOutcome.MergeCombinesFlags` | `packages/openclaw-core/upstream/src/agents/agent-run-terminal-outcome.ts:202-411` | the projected flags of a merge are the flag-wise combination of the two sides' flags, and its failure is the later one |
| `TerminalOutcome.MergeCommutes` | `packages/openclaw-core/upstream/src/agents/agent-run-terminal-outcome.ts:202-335` | merging in either order gives the same terminal once the content of the failure is erased |
| `TerminalOutcome.TerminalOfObservationSet` | `packages/openclaw-core/upstream/src/agents/agent-run-terminal-outcome.ts:202-335` | two sequences with the same set of observations merge to the same terminal but for the content of its failure, whatever the order and repetition |
| `TerminalOutcome.FlagsOfRun` | `packages/openclaw-core/upstream/src/agents/agent-run-terminal-outcome.ts:202-411` | after any sequence of observations every projected flag equals a closed form over the set of observations |
| `TerminalOutcome.OrderAndRepetitionIrrelevant` | `packages/openclaw-core/upstream/src/agents/agent-run-terminal-outcome.ts:202-411` | two sequences with the same set of observations project to the same flags, whatever the order and repetition |
| `TerminalOutcome.LatestFailureWins` | `packages/openclaw-core/upstream/src/agents/agent-run-terminal-outcome.ts:126-147` | the error detail after any sequence is that of its last observation that has one |
| `TerminalOutcome.MergeAllConcat` | `packages/openclaw-core/upstream/src/agents/agent-run-terminal-outcome.ts:202-335` | folding a sequence equals folding any two consecutive parts and merging the results |
| `TerminalOutcome.SetFailureOnlyTouchesFailure` | `packages/openclaw-core/upstream/src/agents/agent-run-terminal-outcome.ts:167-200` | replacing the failure changes no interruption flag, and a second replacement overrides the first |
| `TerminalOutcome.NormalizedIsExpressible` | `packages/openclaw-core/upstream/src/agents/agent-run-terminal-outcome.ts:338-380` | normalising legacy harness flags only produces terminals the legacy shape can express |
| `TerminalOutcome.ProjectThenNormalize` | `packages/openclaw-core/upstream/src/agents/agent-run-terminal-outcome.ts:338-411` | projecting a terminal and normalising it again is the identity exactly for the expressible terminals |
| `TerminalOutcome.NormalizeRoundTrip` | `packages/openclaw-core/upstream/src/agents/agent-run-terminal-outcome.ts:338-411` | a normalised terminal is recovered from its projection, for every legacy input |
| `SeccompFilter.TableDecidesPolicy` | `packages/agentos-sdk/native/launcher.c:79-167` | for every syscall record and every allow list, running the jump-coded table from its start returns, inside the table, the verdict of the declarative policy |
| `SeccompFilter.VerdictsDistinct` | `packages/agentos-sdk/native/launcher.c:79-167` | the action word the table returns identifies the verdict: each verdict is returned exactly for the records the policy gives it to |
| `SeccompFilter.TableVerdicts` | `packages/agentos-sdk/native/launcher.c:79-167` | the 32-bit words the table returns, in numbers: kill exactly for a foreign architecture, ENOSYS exactly for a native clone3, allow exactly for the native calls whose number and arguments pass, EPERM for all others |
| `SeccompFilter.AllowRuns` | `packages/agentos-sdk/native/launcher.c:79-80` | what the ALLOW macro expands to decides membership in the list, for any list, and falls through to the final EPERM |
| `SeccompFilter.LadderRuns` | `packages/agentos-sdk/native/launcher.c:103-138` | a ladder of equality jumps over any list of options allows exactly the listed values |
| `SeccompFilter.CloneFlagsBothHalves` | `packages/agentos-sdk/native/launcher.c:84-101` | testing the upper word for zero and the lower word against the mask is testing the 64-bit flags against the mask |
| `SeccompFilter.CloneRuns` | `packages/agentos-sdk/native/launcher.c:96-101` | the clone block allows exactly the flag sets without a forbidden bit and passes other calls on |
| `SeccompFilter.SocketpairRuns` | `packages/agentos-sdk/native/launcher.c:110-118` | the socketpair block allows exactly private UNIX stream pairs, with any close-on-exec or nonblocking bits |
| `SeccompFilter.LauncherFilter` | `packages/agentos-sdk/native/launcher.c:81-167` | the launcher's own table, with its own allow list, decides the policy for every record |
| `SeccompFilter.LauncherAllows` | `packages/agentos-sdk/native/launcher.c:81-167` | the launcher lets a native call through exactly when it is a guarded call whose arguments pass or an unguarded one on its own list |
| `LspFraming.ParseContentLength` | `packages/openclaw-core/upstream/src/agents/agent-bundle-lsp-runtime.ts:168-198` | the header loop yields the one positive length within the limit, or the error of the first rule broken |
| `LspFraming.LengthOfHeader` | `packages/openclaw-core/upstream/src/agents/agent-bundle-lsp-runtime.ts:168-198` | a header with exactly one line named content-length, in any case and with any surrounding white space, is judged by that line: a decimal numeral from 1 to 64 MiB is the length, and every other value gets its own error |
| `LspFraming.OtherHeadersRefused` | `packages/openclaw-core/upstream/src/agents/agent-bundle-lsp-runtime.ts:168-198` | a header with a line without a colon, with no announcing line or with several is refused, each with its own error |
| `LspFraming.LinesRoundTrip` | `packages/openclaw-core/upstream/src/agents/agent-bundle-lsp-runtime.ts:170` | splitting a header at line breaks loses nothing and leaves no line break inside a line |
| `LspFraming.ParseMessages` | `packages/openclaw-core/upstream/src/agents/agent-bundle-lsp-runtime.ts:200-242` | the parse loop equals the recursive parse that the theorems below are about |
| `LspFraming.HeaderDecides` | `packages/openclaw-core/upstream/src/agents/agent-bundle-lsp-runtime.ts:205-240` | the first blank line ends the header, one of more than 8192 bytes is refused, and the announced number of body bytes behind it decides: message, bad UTF-8, bad JSON, or not there yet |
| `LspFraming.FrontIsStable` | `packages/openclaw-core/upstream/src/agents/agent-bundle-lsp-runtime.ts:205-240` | a verdict on a prefix, message or error, is the verdict on every continuation; the over-long-header rejection is never premature |
| `LspFraming.ChunkingInvariance` | `packages/openclaw-core/upstream/src/agents/agent-bundle-lsp-runtime.ts:200-242` | however a byte stream is cut, the messages, the leftover and the error are those of parsing the whole stream at once |
| `LspFraming.CutsDoNotMatter` | `packages/openclaw-core/upstream/src/agents/agent-bundle-lsp-runtime.ts:200-242` | two ways of cutting the same stream give the same deliveries, leftover and error |
| `LspFraming.PrintedHeader` | `packages/openclaw-core/upstream/src/agents/agent-bundle-lsp-runtime.ts:142-145` | the printed decimal Content-Length of every body of 1 byte to 64 MiB is parsed back to the body's length |
| `LspFraming.RoundTrip` | `packages/openclaw-core/upstream/src/agents/agent-bundle-lsp-runtime.ts:142-242` | parsing the concatenated encodings of any messages with bodies of 1 byte to 64 MiB returns exactly those messages with nothing left over |
| `LspSession.RunKeeps` | `packages/openclaw-core/upstream/src/agents/agent-bundle-lsp-runtime.ts:98-101` | over every run each issued request is pending or settled, never lost; outcomes and the first failure are final, and a failed session issues nothing |
| `LspSession.FailureSettlesAll` | `packages/openclaw-core/upstream/src/agents/agent-bundle-lsp-runtime.ts:98-101` | a failure leaves nothing pending: exactly the issued requests are settled |
| `LspSession.ChunkSettlesRequests` | `packages/openclaw-core/upstream/src/agents/agent-bundle-lsp-runtime.ts:300-337` | what any chunk does to every request: a pending one is settled by the first response with its id, resolved if that is no error and rejected with it otherwise; one without a response stays pending, or is rejected with the first failure if framing failed; no other outcome changes |
| `LspSession.EventSettles` | `packages/openclaw-core/upstream/src/agents/agent-bundle-lsp-runtime.ts:98-298` | of a pending request without outcome: an abort and a timeout reject just the request they name, a failed stream and disposal reject every one, each with its own reason, and nothing else settles it |
| `LspSession.TwoChunksAsOne` | `packages/openclaw-core/upstream/src/agents/agent-bundle-lsp-runtime.ts:300-337` | two chunks have the observable effect of their concatenation, and leave the very same session unless framing failed |
| `LspSession.ChunksAreInvisible` | `packages/openclaw-core/upstream/src/agents/agent-bundle-lsp-runtime.ts:300-337` | however output is cut, every request gets the same outcome and the session the same failure, also when data keeps arriving after a framing error |
| `LspSession.Session.SendRequest` | `packages/openclaw-core/upstream/src/agents/agent-bundle-lsp-runtime.ts:250-298` | a failed session or an aborted signal issues nothing; otherwise the next id becomes pending, and a synchronous write error settles it without taking it from the registry |
| `LspSession.Session.HandleIncomingData` | `packages/openclaw-core/upstream/src/agents/agent-bundle-lsp-runtime.ts:300-337` | every request is settled as its first response in the chunk says, and the new state is the one the chunk theorems are about |
| `LspSession.Session.FailSession` | `packages/openclaw-core/upstream/src/agents/agent-bundle-lsp-runtime.ts:98-101` | the first failure is kept and rejects everything pending |
| `RuntimeManager.StepKeepsInv` | `packages/openclaw-core/upstream/src/agents/agent-bundle-mcp-manager-install.ts:100-166` | every step of every interleaving keeps claims and runtimes in exact ownership |
| `RuntimeManager.ExactlyOnePlace` | `packages/openclaw-core/upstream/src/agents/agent-bundle-mcp-manager-install.ts:100-166` | in every reachable state each runtime ever created is held by one producer, published under one key, or handed to dispose, exactly one of these, and disposed at most once |
| `RuntimeManager.PublicationIsExclusive` | `packages/openclaw-core/upstream/src/agents/agent-bundle-mcp-manager-install.ts:145-156` | only the holder of the key's claim publishes, onto an empty key; anyone else disposes its own runtime and touches neither map |
| `RuntimeManager.RequestServesIdentity` | `packages/openclaw-core/upstream/src/agents/agent-bundle-mcp-manager-install.ts:122-158` | a request leaves its key served for the identity it asks for, by a claim of such a creation or else by such a published runtime, and changes nothing exactly when the key already was |
| `RuntimeManager.PublishedForItsMaker` | `packages/openclaw-core/upstream/src/agents/agent-bundle-mcp-manager-install.ts:145-156` | in every reachable state a published runtime was made for its key, with the identity of the creation that made it |
| `RuntimeManager.ObsoleteIsHarmless` | `packages/openclaw-core/upstream/src/agents/agent-bundle-mcp-manager-install.ts:134-165` | no step of a producer without the claim changes what is published or claimed |
| `RuntimeManager.LostClaimStaysLost` | `packages/openclaw-core/upstream/src/agents/agent-bundle-mcp-manager-install.ts:134-165` | a claim once lost is never regained, over every run |
| `RuntimeManager.VacancyKeptOverRun` | `packages/openclaw-core/upstream/src/agents/agent-bundle-mcp-manager-lifecycle.ts:294-307` | a vacant key stays vacant over every run that makes no new request on it |
| `RuntimeManager.AwaitedTeardown` | `packages/openclaw-core/upstream/src/agents/agent-bundle-mcp-manager-lifecycle.ts:294-307` | disposing a key awaits only the captured producer: once that one has settled, in any run without a new request on the key, the key is vacant, everything made by the captured producer or by one behind it has been disposed, and a runtime of the key is undisposed exactly when an unsettled producer outside that chain holds it |
| `RuntimeManager.TeardownCompleteExactly` | `packages/openclaw-core/upstream/src/agents/agent-bundle-mcp-manager-lifecycle.ts:294-307` | at the moment of the dispose: every run that requests the key no more and settles the captured producer ends with every runtime of the key disposed, if and only if no producer of the key outside the captured chain holds a runtime or is creating one |
| `RuntimeManager.RevokedCreationOutlivesCapture` | `packages/openclaw-core/upstream/src/agents/agent-bundle-mcp-manager-lifecycle.ts:294-307` | a run in which the awaited producer has settled and a creation revoked by an earlier disposal still comes up with a runtime |
| `RuntimeManager.SettledChain` | `packages/openclaw-core/upstream/src/agents/agent-bundle-mcp-manager-install.ts:139-144` | every producer behind a settled one has settled |
| `RuntimeManager.TeardownLeaksNothing` | `packages/openclaw-core/upstream/src/agents/agent-bundle-mcp-manager-lifecycle.ts:294-343` | once all producers a disposed key ever had have settled, in any run without a new request on it, every runtime created for it has been disposed |
| `RuntimeManager.ProducersRunOut` | `packages/openclaw-core/upstream/src/agents/agent-bundle-mcp-manager-install.ts:139-165` | without new requests the producers take at most a fixed number of further steps |
| `RuntimeManager.NoDeadlock` | `packages/openclaw-core/upstream/src/agents/agent-bundle-mcp-manager-install.ts:139-157` | the oldest unsettled producer of a key can always take its next step |
| `RuntimeManager.RuntimeStore.GetOrCreateRuntimeEntry` | `packages/openclaw-core/upstream/src/agents/agent-bundle-mcp-manager-install.ts:122-158` | the creation joined, the runtime reused or the creation begun has the key and the identity asked for; a join or reuse changes nothing, and a new creation holds the claim on an unpublished key |
| `RuntimeManager.RuntimeStore.PublishOrDispose` | `packages/openclaw-core/upstream/src/agents/agent-bundle-mcp-manager-install.ts:149-156` | publishes exactly when it still holds the claim, otherwise disposes |
| `RuntimeManager.RuntimeStore.DisposeRuntimeKeyNow` | `packages/openclaw-core/upstream/src/agents/agent-bundle-mcp-manager-lifecycle.ts:294-307` | revokes claim and publication before anything is awaited |
| `RuntimeManager.RuntimeStore.ReleaseClaim` | `packages/openclaw-core/upstream/src/agents/agent-bundle-mcp-manager-install.ts:161-165` | removes the claim only if it is the producer's own, and touches nothing published |
| `ExclusiveChains.OneAtATimeInCallOrder` | `packages/openclaw-core/upstream/src/agents/agent-bundle-mcp-manager-lifecycle.ts:180-194` | in every reachable state, once a section has started every earlier call on its key has ended, however it ended |
| `ExclusiveChains.ChainFollowsWork` | `packages/openclaw-core/upstream/src/agents/agent-bundle-mcp-manager-lifecycle.ts:187-192` | the chain entry names the latest section while any section of the key is unfinished, and is gone once all are cleaned up |
| `ExclusiveChains.ChainsDrain` | `packages/openclaw-core/upstream/src/agents/agent-bundle-mcp-manager-lifecycle.ts:180-194` | a reachable state in which nothing but another call can happen has an empty chain map, with every section run and cleaned up |
| `ExclusiveChains.DrainingEnds` | `packages/openclaw-core/upstream/src/agents/agent-bundle-mcp-manager-lifecycle.ts:180-194` | without further calls a run has at most three steps per section |
| `ExclusiveChains.WorkChains.RunExclusive` | `packages/openclaw-core/upstream/src/agents/agent-bundle-mcp-manager-lifecycle.ts:180-187` | the new section waits for the previous tail and becomes the tail |
| `ExclusiveChains.WorkChains.SettledFinally` | `packages/openclaw-core/upstream/src/agents/agent-bundle-mcp-manager-lifecycle.ts:188-192` | the entry is removed only if it is still the settled section's |
| `LockedKeys.StepKeepsInv` | `packages/openclaw-core/upstream/src/agents/agent-bundle-mcp-manager-lifecycle.ts:309-319` | every step of the composed system keeps the unsettled creations of a requester key awaited by the one running section of its chain |
| `LockedKeys.RequesterTeardownIsComplete` | `packages/openclaw-core/upstream/src/agents/agent-bundle-mcp-manager-lifecycle.ts:309-319` | in every reachable state, disposing a requester key in a section of its chain leaves the key vacant, all its creations settled and every runtime ever created for it disposed, at once |
| `RequesterCap.CounterCountsLeases` | `packages/openclaw-core/upstream/src/agents/agent-bundle-mcp-runtime.ts:999-1010` | whatever sequence of acquires and releases, repeated ones included, the counter is the number of leases not released |
| `RequesterCap.RuntimeTable.SweepIdleRuntimes` | `packages/openclaw-core/upstream/src/agents/agent-bundle-mcp-manager-lifecycle.ts:196-219` | removes exactly the unleased runtimes idle for the whole TTL and forgets exactly the sessions this empties |
| `RequesterCap.RuntimeTable.EvictIfIdle` | `packages/openclaw-core/upstream/src/agents/agent-bundle-mcp-manager-lifecycle.ts:249-261` | removes only the captured runtime, and only while it is unleased |
| `RequesterCap.RuntimeTable.EnforceRequesterRuntimeCap` | `packages/openclaw-core/upstream/src/agents/agent-bundle-mcp-manager-lifecycle.ts:226-262` | the eviction loop ends in the state the cap theorem describes |
| `RequesterCap.CapPassCorrect` | `packages/openclaw-core/upstream/src/agents/agent-bundle-mcp-manager-lifecycle.ts:226-262` | a cap pass alone keeps the bare session runtime, the named key and everything leased, evicts the least recently used unleased requesters, as many as overflow, and ends at the cap unless nothing evictable is left |
| `RequesterCap.CapPassIsRetirements` | `packages/openclaw-core/upstream/src/agents/agent-bundle-mcp-manager-lifecycle.ts:249-261` | the evictions of a cap pass are a run of the ownership model, so they keep every runtime in exactly one place |
| `RequesterCap.SweepIsRetirements` | `packages/openclaw-core/upstream/src/agents/agent-bundle-mcp-manager-lifecycle.ts:199-217` | the removals of an idle sweep are a run of the ownership model |
| `Retirement.RequiredIsNeverEscaped` | `packages/openclaw-core/upstream/src/agents/agent-bundle-mcp-manager-install.ts:87-97` | over every run, each published runtime of a session whose retirement is required has its model context revoked and is either being disposed or still due for retirement |
| `Retirement.RequirementSurvives` | `packages/openclaw-core/upstream/src/agents/agent-bundle-mcp-manager.ts:293-350` | a required retirement stays required over every run, completed retirements included, until an ordinary deferral or a disposal lifts it |
| `Retirement.UnleasedRequiredCompletes` | `packages/openclaw-core/upstream/src/agents/agent-bundle-mcp-manager.ts:316-350` | a required session with a runtime not being disposed can be retired exactly when nothing of it is leased |
| `Retirement.ReuseCancelsOrdinaryRetirement` | `packages/openclaw-core/upstream/src/agents/agent-bundle-mcp-manager-install.ts:87-97` | reusing a runtime cancels the pending retirement of its session exactly when it is not required |
| `Retirement.LateCreation` | `packages/openclaw-core/upstream/src/agents/agent-bundle-mcp-manager-install.ts:87-97` | a runtime created while the retirement of its session is required is published with its context revoked and the session still due; otherwise it is usable and the session no longer due |
| `Retirement.CompletionClearsSession` | `packages/openclaw-core/upstream/src/agents/agent-bundle-mcp-manager.ts:346-349` | a completed retirement leaves the session unleased and undeferred, keeps its requirement, and leaves only requester runtimes that are being disposed |
| `Retirement.RetirementManager.DeferRetirement` | `packages/openclaw-core/upstream/src/agents/agent-bundle-mcp-manager.ts:293-315` | defers when the session has runtimes or the retirement is required, and revokes contexts in the latter case |
| `Retirement.RetirementManager.CompleteDeferredRetirement` | `packages/openclaw-core/upstream/src/agents/agent-bundle-mcp-manager.ts:316-350` | retires exactly when the session is deferred, has runtimes, none of them leased, and any caller is an unleased runtime of the session made of its runtimes; then other sessions stay untouched, otherwise everything does |
| `Retirement.RetirementManager.ReconcileReusableRetirement` | `packages/openclaw-core/upstream/src/agents/agent-bundle-mcp-manager-install.ts:87-97` | renews a required retirement and cancels any other |
| `CatalogCache.RetryKeepsHealthyServers` | `packages/openclaw-core/upstream/src/agents/agent-bundle-mcp-runtime.ts:563-576` | a retry load leaves the entry of every server without a diagnostic as it was, and its tools in the callable, the policy and the session-denied list |
| `CatalogCache.CatalogHoldsResults` | `packages/openclaw-core/upstream/src/agents/agent-bundle-mcp-runtime.ts:893-921` | the catalog of a load, server by server: a listed server has its entry, no diagnostic, its included tools callable, its denied ones denied, and all of them in the policy list by group in listed order; a failed one has its message and nothing else; an attempted one without result is absent; a retry adds the healthy servers it keeps |
| `CatalogCache.StepKeepsInv` | `packages/openclaw-core/upstream/src/agents/agent-bundle-mcp-runtime.ts:286-330` | every step of every interleaving of loads, invalidations, retry marks and dispose keeps the cache sound |
| `CatalogCache.AtMostOneLoad` | `packages/openclaw-core/upstream/src/agents/agent-bundle-mcp-runtime.ts:542-551` | in every reachable state at most one load is unfinished, and before dispose it is the one in flight |
| `CatalogCache.NothingSurvivesInvalidation` | `packages/openclaw-core/upstream/src/agents/agent-bundle-mcp-runtime.ts:290-294` | every catalog cached after a full invalidation was built by a load begun after it, and so was every server entry and tool in it |
| `CatalogCache.RetryReplacesItsBase` | `packages/openclaw-core/upstream/src/agents/agent-bundle-mcp-runtime.ts:932-947` | a retry load that reaches the cache replaces exactly the catalog it retried and keeps its healthy servers |
| `CatalogCache.RetryCooldown` | `packages/openclaw-core/upstream/src/agents/agent-bundle-mcp-runtime.ts:936-939` | a catalog cached with failed servers is retried by the first request five seconds later and by none before; one without failures by none |
| `CatalogCache.FailedRetryWaits` | `packages/openclaw-core/upstream/src/agents/agent-bundle-mcp-runtime.ts:965-972` | after a failed background retry the next is due in five seconds, unless the catalog was replaced, marked again or dropped meanwhile |
| `CatalogCache.DisposedStaysEmpty` | `packages/openclaw-core/upstream/src/agents/agent-bundle-mcp-runtime.ts:1090-1097` | a disposed runtime never caches a catalog again, whatever loads still finish |
| `CatalogCache.CatalogRuntime.ScheduleCatalogServerRetry` | `packages/openclaw-core/upstream/src/agents/agent-bundle-mcp-runtime.ts:295-328` | marks the server in the cached catalog for retry, or invalidates everything when it is not there |
| `CatalogCache.RequestIsNeverStale` | `packages/openclaw-core/upstream/src/agents/agent-bundle-mcp-runtime.ts:949-963` | whatever happens while a request waits for its first load and for the replay, its answer is never older than the invalidations before the request, even when the load it first joined is |
| `CatalogCache.CatalogRuntime.GetCatalog` | `packages/openclaw-core/upstream/src/agents/agent-bundle-mcp-runtime.ts:949-973` | up to its first await: answers with the cached catalog, also while a due retry starts in the background, or names the load to await |
| `CatalogCache.CatalogRuntime.ContinueGetCatalog` | `packages/openclaw-core/upstream/src/agents/agent-bundle-mcp-runtime.ts:955-961` | after the first load: answers with the cached catalog, or names the replay to await |
| `CatalogCache.CatalogRuntime.FinishGetCatalog` | `packages/openclaw-core/upstream/src/agents/agent-bundle-mcp-runtime.ts:962` | after the replay: nothing in the answer, cached or replayed, is older than the epoch of the request |
| `CatalogCache.CatalogRuntime.FinishLoad` | `packages/openclaw-core/upstream/src/agents/agent-bundle-mcp-runtime.ts:932-947` | caches only an unsuperseded result and clears only its own in-flight slot |
| `CombinedRuntime.MergeMcpToolCatalogs` | `packages/openclaw-core/upstream/src/agents/agent-bundle-mcp-combined.ts:37-73` | the one-pass merge equals the merge the theorems are about |
| `CombinedRuntime.MergedTools` | `packages/openclaw-core/upstream/src/agents/agent-bundle-mcp-combined.ts:50-61` | the merged tools come by safe server name, tool name and server name, and hold each tool as often as the parts list it together |
| `CombinedRuntime.MergedOtherLists` | `packages/openclaw-core/upstream/src/agents/agent-bundle-mcp-combined.ts:51-63` | the policy and the denied list are merged likewise: each tool as often as the parts name it, in the same order, and the list absent exactly when no part adds to it |
| `CombinedRuntime.MergedDiagnostics` | `packages/openclaw-core/upstream/src/agents/agent-bundle-mcp-combined.ts:58-72` | the failed servers of a merge are those of its parts in order, and there are none exactly when no part has any |
| `CombinedRuntime.MergedPolicy` | `packages/openclaw-core/upstream/src/agents/agent-bundle-mcp-combined.ts:51-63` | when no part has a policy list of its own, the merged policy list is the callable and the denied tools together |
| `CombinedRuntime.NewestIsMaximum` | `packages/openclaw-core/upstream/src/agents/agent-bundle-mcp-combined.ts:66` | the merged timestamp is the latest of the parts', at least zero |
| `CombinedRuntime.ServersFromLast` | `packages/openclaw-core/upstream/src/agents/agent-bundle-mcp-combined.ts:44-49` | a server is merged exactly when some part has it, with the entry of the last such part |
| `CombinedRuntime.PeekIsAlwaysFresh` | `packages/openclaw-core/upstream/src/agents/agent-bundle-mcp-combined.ts:102-105` | whatever parts and loads do, a peek equals merging the parts' catalogs of that moment, and is null exactly when some part has none |
| `CombinedRuntime.LoadAnswersItsCatalogs` | `packages/openclaw-core/upstream/src/agents/agent-bundle-mcp-combined.ts:114-129` | a load answers with the merge of the catalogs it awaited, from the cache or not |
| `CombinedRuntime.AnswerAtOnceIsFresh` | `packages/openclaw-core/upstream/src/agents/agent-bundle-mcp-combined.ts:107-110` | a request answered from the cache gets the merge of the parts' catalogs of that moment |
| `CombinedRuntime.AnswerAtOnceIsHealthy` | `packages/openclaw-core/upstream/src/agents/agent-bundle-mcp-combined.ts:107-110` | and none of these catalogs has a failed server |
| `CombinedRuntime.LoadsAreShared` | `packages/openclaw-core/upstream/src/agents/agent-bundle-mcp-combined.ts:111-137` | however requests, loads and the parts interleave, at most one load is under way |
| `CombinedRuntime.OwnersAgreeWithCatalog` | `packages/openclaw-core/upstream/src/agents/agent-bundle-mcp-combined.ts:93-97` | in every reachable state the owner map routes exactly the servers of the cached catalog, each to the part whose entry is shown |
| `CombinedRuntime.Combined.PeekCatalog` | `packages/openclaw-core/upstream/src/agents/agent-bundle-mcp-combined.ts:190-199` | answers the plain re-merge of the parts' catalogs |
| `CombinedRuntime.Combined.GetCatalog` | `packages/openclaw-core/upstream/src/agents/agent-bundle-mcp-combined.ts:107-130` | answers from the cache exactly when it is current and without diagnostics, otherwise names the shared load, starting one only if none is in flight |
| `CombinedRuntime.Combined.FinishLoad` | `packages/openclaw-core/upstream/src/agents/agent-bundle-mcp-combined.ts:114-129` | replaces cache, sources and owners together, or reuses them when the sources are the same objects |
| `CombinedRuntime.CombinedLeaseHoldsEveryPart` | `packages/openclaw-core/upstream/src/agents/agent-bundle-mcp-combined.ts:176-188` | while a combined lease is unreleased every part counts as leased, whatever other leases come and go |
| `SteeringQueue.ListingIsExact` | `packages/openclaw-core/upstream/src/agents/agent-steering-queue.ts:91-122` | the listing holds exactly the eligible completions, each once, in delivery order |
| `SteeringQueue.OfferedExactly` | `packages/openclaw-core/upstream/src/agents/agent-steering-queue.ts:91-122` | a completion is offered to a requester exactly when its kept payload names that requester and it either is pending with its cleanup not begun or sits under a lease more than 300000 ms old |
| `SteeringQueue.SelectPromptBoundedItems` | `packages/openclaw-core/upstream/src/agents/agent-steering-queue.ts:148-179` | the selection loop yields the selected batch and its prompt, and its running counter is the rendered length |
| `SteeringQueue.PromptSections` | `packages/openclaw-core/upstream/src/agents/agent-steering-queue.ts:148-179` | the prompt of a batch is the header and then every item's section for its place, in order, each behind a blank line |
| `SteeringQueue.SelectsLongestFittingPrefix` | `packages/openclaw-core/upstream/src/agents/agent-steering-queue.ts:148-179` | the batch is the longest prefix whose prompt is at most 24000 long, or the first item alone; only a single item can exceed the limit |
| `SteeringQueue.OldestFirst` | `packages/openclaw-core/upstream/src/agents/agent-steering-queue.ts:74-88` | listed completions come oldest end first, by the payload's end time or else the execution's, those without an end last, then by creation time, then by run id |
| `SteeringQueue.LeasedIsListedWhenStale` | `packages/openclaw-core/upstream/src/agents/agent-steering-queue.ts:39-47` | a leased completion is listed again exactly when its lease is older than five minutes |
| `SteeringQueue.ReleasedIsOfferedAgain` | `packages/openclaw-core/upstream/src/agents/agent-steering-queue.ts:248-274` | a released completion keeps its payload and is offered again exactly when it was never suspended and its cleanup has not completed |
| `SteeringQueue.DeliveredAtMostOnce` | `packages/openclaw-core/upstream/src/agents/agent-steering-queue.ts:182-245` | over every run with fresh lease ids no completion is delivered twice |
| `SteeringQueue.PayloadKeptUntilDelivered` | `packages/openclaw-core/upstream/src/agents/agent-steering-queue.ts:182-274` | over every run a completion keeps its payload until the run delivers it |
| `SteeringQueue.SupersededLeaseIsInert` | `packages/openclaw-core/upstream/src/agents/agent-steering-queue.ts:225-272` | once a completion has left a lease, an acknowledgement or release under that lease id never changes it again |
| `SteeringQueue.LeavingALease` | `packages/openclaw-core/upstream/src/agents/agent-steering-queue.ts:182-274` | a held lease id is lost exactly by a re-lease after staleness, or by its own acknowledgement or release |
| `SteeringQueue.RepeatedTurnsDeliverAll` | `packages/openclaw-core/upstream/src/agents/agent-steering-queue.ts:74-245` | while no other lease goes stale, repeated lease and acknowledge hands out the eligible completions in delivery order, each once, at least one a turn, until none is left |
| `SteeringQueue.TurnsServeAllInOrder` | `packages/openclaw-core/upstream/src/agents/agent-steering-queue.ts:74-245` | also while other leases go stale: those eligible at the start are handed out in delivery order among themselves followed by those left, nothing is handed out twice, and after more turns than there are runs none of them is left |
| `SteeringQueue.SteeringRuns.LeasePending` | `packages/openclaw-core/upstream/src/agents/agent-steering-queue.ts:182-216` | leases exactly the selected batch, every id of it a run of that requester, with all fields of the lease; runs of other requesters and all others are untouched |
| `SteeringQueue.SteeringRuns.AckLeased` | `packages/openclaw-core/upstream/src/agents/agent-steering-queue.ts:219-245` | delivers exactly the named completions held under the lease, with all fields of a delivery and the payload gone, and counts them, repeated ids once |
| `SteeringQueue.SteeringRuns.ReleaseLeased` | `packages/openclaw-core/upstream/src/agents/agent-steering-queue.ts:248-274` | releases exactly the named completions held under the lease, to suspended or pending, keeping the payload, and counts them |
| `ToolNames.SanitizeFragment` | `packages/openclaw-core/upstream/src/agents/agent-bundle-mcp-names.ts:28-36` | a fragment uses the safe alphabet, starts with a letter, stays within the maximum, and leaves a safe name alone |
| `ToolNames.FragmentExactly` | `packages/openclaw-core/upstream/src/agents/agent-bundle-mcp-names.ts:28-36` | the fragment of a name, character by character: trimmed, a hyphen for everything but ASCII letters, digits, underscores and hyphens, behind the fallback unless it starts with a letter, and cut to the maximum |
| `ToolNames.CandidatesDistinct` | `packages/openclaw-core/upstream/src/agents/agent-bundle-mcp-names.ts:44-45` | no two numbered forms of a name compare equal, whatever was cut off to fit the suffix |
| `ToolNames.FirstFree` | `packages/openclaw-core/upstream/src/agents/agent-bundle-mcp-names.ts:41-47` | the suffix search ends at the least free number, after at most one more suffix than there are used names |
| `ToolNames.SanitizeServerName` | `packages/openclaw-core/upstream/src/agents/agent-bundle-mcp-names.ts:39-50` | the loop returns a name free of the used ones and reserves exactly it |
| `ToolNames.ServerNameExactly` | `packages/openclaw-core/upstream/src/agents/agent-bundle-mcp-names.ts:39-50` | a server gets its fragment of at most 30 characters if that is free, else the first free numbered form, with as much of the fragment as 30 characters leave room for |
| `ToolNames.ServerNameIsSafe` | `packages/openclaw-core/upstream/src/agents/agent-bundle-mcp-names.ts:39-50` | a server name is safe, starts with a letter, and is at most 30 characters while fewer than 10^28 - 2 names are used |
| `ToolNames.ServerNameLimitIsExact` | `packages/openclaw-core/upstream/src/agents/agent-bundle-mcp-names.ts:39-50` | with 10^28 - 2 used names there is a server name longer than 30 characters, so the bound is exact |
| `ToolNames.AssignedDistinct` | `packages/openclaw-core/upstream/src/agents/agent-bundle-mcp-names.ts:58-65` | for any declared names the assigned names differ pairwise ignoring case |
| `ToolNames.AssignedSafe` | `packages/openclaw-core/upstream/src/agents/agent-bundle-mcp-names.ts:58-65` | for any declared names the assigned names are safe, start with a letter and stay within 30 characters |
| `ToolNames.AssignedDifferInLetters` | `packages/openclaw-core/upstream/src/agents/agent-bundle-mcp-names.ts:58-65` | any two assigned names differ in more than the case of their letters |
| `ToolNames.AssignSafeServerNames` | `packages/openclaw-core/upstream/src/agents/agent-bundle-mcp-names.ts:58-65` | maps exactly the declared names, different names to names that differ ignoring case |
| `ToolNames.BuildSafeToolName` | `packages/openclaw-core/upstream/src/agents/agent-bundle-mcp-names.ts:81-104` | the loop returns a tool name free of the reserved ones |
| `ToolNames.ToolNameExactly` | `packages/openclaw-core/upstream/src/agents/agent-bundle-mcp-names.ts:81-104` | a tool gets its fragment behind the server name and two underscores if that is free, else the first free numbered form, cut so that 64 characters suffice where the server name allows |
| `ToolNames.ToolNameIsSafe` | `packages/openclaw-core/upstream/src/agents/agent-bundle-mcp-names.ts:81-104` | a tool name keeps its server prefix and separator, and is safe when the server name is |
| `ToolNames.ToolNameFits` | `packages/openclaw-core/upstream/src/agents/agent-bundle-mcp-names.ts:87-99` | under a server name of at most 30 characters a tool name stays within 64 |
| `ToolCatalog.NamesAreDistinct` | `packages/openclaw-core/upstream/src/agents/agent-bundle-mcp-materialize.ts:240-445` | for every catalog, reserved names and flags the tool names differ pairwise ignoring case and avoid the reserved names |
| `ToolCatalog.CallableToolsKeepTheirNames` | `packages/openclaw-core/upstream/src/agents/agent-bundle-mcp-materialize.ts:252-271` | listing denied or app-only inventory as well leaves the callable tools under exactly their names and in their order |
| `ToolCatalog.UtilitiesNeverRenameTools` | `packages/openclaw-core/upstream/src/agents/agent-bundle-mcp-materialize.ts:272-439` | the callable tools are named and ordered as if no server offered a utility |
| `ToolCatalog.NamedAndOrdered` | `packages/openclaw-core/upstream/src/agents/agent-bundle-mcp-materialize.ts:272-443` | every listed tool is named after its own origin, the safe name of its server and its trimmed tool or operation name, and the list is in the order of the names |
| `ToolCatalog.ListedExactly` | `packages/openclaw-core/upstream/src/agents/agent-bundle-mcp-materialize.ts:272-439` | each tool is listed exactly as often as the passes ask for it |
| `ToolCatalog.ToolListings` | `packages/openclaw-core/upstream/src/agents/agent-bundle-mcp-materialize.ts:272-302` | how often each catalog tool is listed, for every combination of flags: blank names never, app-only tools in their inventory alone, others as callable and, with denied inventory, as denied |
| `ToolCatalog.UtilityListings` | `packages/openclaw-core/upstream/src/agents/agent-bundle-mcp-materialize.ts:348-439` | how often each utility is listed, for every combination of flags |
| `ToolCatalog.UtilityListedTwiceExactly` | `packages/openclaw-core/upstream/src/agents/agent-bundle-mcp-materialize.ts:348-439` | without duplicate servers a utility is listed twice exactly when app-only inventory is listed, its server offers it and the last ordinary pass admits it, and never more often |
| `ToolCatalog.BuildBundleMcpTools` | `packages/openclaw-core/upstream/src/agents/agent-bundle-mcp-materialize.ts:240-445` | the recursive builder with its loops yields the tool list the theorems are about |
| `RunAdmission.StepKeepsInv` | `packages/openclaw-core/upstream/src/agents/admitted-run-context.ts:204-266` | every step, re-entrant or not, keeps closed contexts without a valid authority, and an admission's latest context sharing whatever authority its others show |
| `RunAdmission.SecondAttemptExactly` | `packages/openclaw-core/upstream/src/agents/admitted-run-context.ts:230-264` | over every run an admission has more than one attempt exactly when an admit began a body on it while an earlier one's callback had not reached its first await |
| `RunAdmission.OneContextPerAdmission` | `packages/openclaw-core/upstream/src/agents/admitted-run-context.ts:230-264` | over every run, an admission that is not re-entered has one attempt, the promise its admits answer is that attempt, and its context is that attempt's |
| `RunAdmission.PromiseIsFinal` | `packages/openclaw-core/upstream/src/agents/admitted-run-context.ts:238-263` | once an admission's promise is stored and no body of it is starting, every later admit answers that promise, over every run |
| `RunAdmission.ClosedShowsNothing` | `packages/openclaw-core/upstream/src/agents/admitted-run-context.ts:222-229` | over every run, re-entrant or not, no context of a closed admission shows its authority |
| `RunAdmission.PendingNeverSucceedsAfterClose` | `packages/openclaw-core/upstream/src/agents/admitted-run-context.ts:252-261` | after close a pending admission never succeeds in any later run, and no new one begins |
| `RunAdmission.PendingRejectsAfterClose` | `packages/openclaw-core/upstream/src/agents/admitted-run-context.ts:252-261` | over every run after close, an attempt pending at the close stays pending or rejected, and its callback's return or throw rejects it without a visible authority |
| `RunAdmission.ReentryMakesTwoContexts` | `packages/openclaw-core/upstream/src/agents/admitted-run-context.ts:238-263` | a run in which a callback admits its own admission again, gets a second context, and both admits succeed |
| `RunAdmission.EvidenceRedeemedOnce` | `packages/openclaw-core/upstream/src/agents/admitted-run-context.ts:148-176` | over every run at most one context carries the token of a recovery; that recovery is used up, and was bound to the run of the context by the resolver or, without such a binding, by the token itself |
| `RunAdmission.RecoveryAdmission.Consume` | `packages/openclaw-core/upstream/src/agents/admitted-run-context.ts:156-175` | evidence is accepted exactly when unused and not bound to another run; its token is handed over exactly when accepted and either bound by the resolver or the run's own; presenting it uses it up in any case |
| `RunAdmission.StaleHandleRemovesOnlyItsOwnContext` | `packages/openclaw-core/upstream/src/agents/admitted-run-context.ts:106-136` | releasing a handle other than the current holder removes the holder exactly when both come from the same context |
| `RunAdmission.StaleHandleOfSameContext` | `packages/openclaw-core/upstream/src/agents/admitted-run-context.ts:130-134` | a run in which an old handle removes a newer hold of the same context |
| `RunAdmission.RecoveryEndsExactly` | `packages/openclaw-core/upstream/src/agents/admitted-run-context.ts:119-134` | an active recovery ends by its own context's release, a new claim for the run or a new lifecycle, and by nothing else, closing included |
| `RunAdmission.AdmissionTables.ClaimDelegatedAuthority` | `packages/openclaw-core/upstream/src/infra/agent-run-registry.ts:426-479` | rejects a blank instance, reuses the live authority of the same instance, and otherwise retires the old authority and makes a new claim unless the run context refuses it |
| `RunAdmission.AdmissionTables.AdmitRun` | `packages/openclaw-core/upstream/src/agents/admitted-run-context.ts:230-264` | rejects when closed, answers with the stored promise when there is one, and otherwise begins a body |
| `RunAdmission.AdmissionTables.BeginAdmission` | `packages/openclaw-core/upstream/src/agents/admitted-run-context.ts:238-263` | runs the body up to the callback, wherever it throws: evidence is used up before anything that can fail later, and the recovery holder goes before the claim |
| `RunAdmission.BodyExactly` | `packages/openclaw-core/upstream/src/agents/admitted-run-context.ts:238-263` | what an admission body leaves wherever it ends: used evidence, the recovery holder, the claim, the one new attempt, and the token of a new context |
| `RunAdmission.AdmissionTables.CallbackThrew` | `packages/openclaw-core/upstream/src/agents/admitted-run-context.ts:258-261` | closes the lease and rejects |
| `RunAdmission.AdmissionTables.CallbackReturned` | `packages/openclaw-core/upstream/src/agents/admitted-run-context.ts:252-261` | fulfils exactly when the admission is open, the context is not closed and its authority is the registered one of this lifecycle; otherwise closes the context and rejects |
| `RunAdmission.AdmissionTables.Close` | `packages/openclaw-core/upstream/src/agents/admitted-run-context.ts:222-229` | closes the admission and compare-releases its authority |
| `RunAdmission.AdmissionTables.ReleaseRecovery` | `packages/openclaw-core/upstream/src/agents/admitted-run-context.ts:130-134` | removes the holder only if it is the same lease |
| `ProcessTable.LimitsHold` | `packages/agentos-sdk/src/native.ts:105-170` | over every run preparing, in-flight and running processes, each counted once, never exceed the managed limit, and finished records never exceed the retention limit |
| `ProcessTable.EarlyRefusalExactly` | `packages/agentos-sdk/src/native.ts:111` | in every reachable table an open backend refuses a spawn below the limit of distinct processes exactly when the records still starting make up the difference |
| `ProcessTable.NoEarlyRefusalWhenStarted` | `packages/agentos-sdk/src/native.ts:111` | while no registered process is still starting, an open backend refuses exactly when the limit is reached |
| `ProcessTable.SpawnRefusedEarly` | `packages/agentos-sdk/src/native.ts:111` | a run in which, with a limit of two, a spawn is refused while there is one process |
| `ProcessTable.RetentionKeepsNewest` | `packages/agentos-sdk/src/native.ts:139-140` | retention keeps every running record, and of the finished ones exactly those started last |
| `ProcessTable.FinishingMayForgetItself` | `packages/agentos-sdk/src/native.ts:133-141` | a finishing process is itself forgotten at once exactly when as many finished ones as are retained were started after it |
| `ProcessTable.RetainedIsPrefix` | `packages/agentos-sdk/src/native.ts:142-149` | however output, failures and reads interleave, the retained bytes are a prefix of the received ones within the limit, and all of them while nothing failed |
| `ProcessTable.ChannelsKeptApart` | `packages/agentos-sdk/src/native.ts:142-149` | what is retained of each channel is a prefix of what the process wrote to that channel, and all of it while nothing failed |
| `ProcessTable.CollectChunk` | `packages/agentos-sdk/src/native.ts:142-149` | a chunk becomes one numbered event of its channel with the bytes that still fit; the failure is the output limit when it is exceeded, and else that of a throwing callback |
| `ProcessTable.LimitReached` | `packages/agentos-sdk/src/native.ts:142-149` | collection fails for size exactly when more than the limit was received, with exactly the limit retained |
| `ProcessTable.CursorsYieldEverythingOnce` | `packages/agentos-sdk/src/native.ts:53` | reading from each returned cursor yields every retained event exactly once, in order |
| `ProcessTable.NativeProcesses.AdmitSpawn` | `packages/agentos-sdk/src/native.ts:111-112` | admits exactly when open and the spawns in flight plus the distinct running records are below the limit |
| `ProcessTable.NativeProcesses.FinishProcess` | `packages/agentos-sdk/src/native.ts:133-141` | marks the process finished and deletes the finished records beyond the retention limit |
| `ProcessTable.NativeProcesses.CollectOutput` | `packages/agentos-sdk/src/native.ts:142-149` | updates the record as the output theorems require |
| `BoundedRead.ReadFile` | `packages/agentos-sdk/src/filesystem.ts:37-60` | for every stable content and every schedule of short reads the result is exactly the content, or the size error, within limit + 1 reads; for any file the result is within the limit |
| `BoundedRead.ReadMore` | `packages/agentos-sdk/src/filesystem.ts:46-56` | a non-empty read extends what has been read by the next part of the content |

## Left out

- RuntimeManager.StepKeepsInv: connection metadata, revalidation windows and the requester reuse test by connection hash are not modelled; a requester replacement appears as the removal of its runtime followed by a request.
- RuntimeManager.TeardownLeaksNothing: teardown of a whole session or of all sessions is the disposal of each of its keys; the collection of the keys is not modelled.
- Retirement.RequiredIsNeverEscaped: pending model-context data and session-key maps are not modelled; when a queued disposal runs is a step of its own.
- RequesterCap.CapPassCorrect: a cap pass is proved alone; runtimes that come or go while it waits on a key are covered only by the guard of `EvictIfIdle`.
- LspSession.RunKeeps: request timers, the cancel notification and process termination are outside; a request may time out or be aborted at any step.
- CatalogCache.StepKeepsInv: server sessions, back-off and transport retirement inside a load are not modelled; how the filter and the session sort a listed tool into included, denied and excluded is given.
- SteeringQueue.ListingIsExact: the requester key is taken as already trimmed; the sanitising and truncation inside a prompt section are a parameter.
- ToolNames.ServerNameIsSafe: case is compared on ASCII letters only, which is exact for sanitised names; other Unicode case mappings in raw names and reserved names are not modelled.
- ToolCatalog.BuildBundleMcpTools: labels, schemas, execution modes and metadata of the tools are not modelled.
- RunAdmission.AdmissionTables.ClaimDelegatedAuthority: the delegated-authority registry is reduced to one authority per run with claim, validate, compare-release and clearing by others; owners other than the authority are not modelled.
- ProcessTable.LimitsHold: signals, timers, job control and disposal of a closed backend beyond clearing the table are outside.
- BoundedRead.ReadFile: the abort signal and path checks are not modelled.
- Terminal outcomes built from lifecycle events and wait results (after line 411 of the terminal file) are shallow option mappings.
- Landlock, cgroups, openat2 and everything in the launcher except the filter: kernel behaviour.
- Whether the syscall policy is adequate is not judged, only that the table implements it.
- MCP transport, OAuth, child processes, configuration resolution, logging and the command-line layers.
