# DODO MCP: a Dafny model of its concurrency, authority and parsing logic

DODO MCP is a local server that one owner runs: it serves one active workspace and leased
per-project runtimes to MCP clients, asks the owner to approve dangerous actions, and grants
OAuth clients access. This project models the parts of it whose correctness depends on
interleaving, on state kept across calls, or on exact byte-level rules, and proves what they
promise.

How the models are built:

- Code that changes objects in place is a class whose methods follow the source statement by
  statement. Each method is proved against a function on values that describes one atomic
  section, the code between two `await` points.
- The objects are composed: `AppServer` over host, runtime manager and workspaces,
  `AuthorityServer` over store and consent handlers, `ProjectRegistry` over its table. Their
  `Valid` says what all runs keep, so a method can be called in every state that the others
  leave, and its contract says what the caller may rely on.
- An event names one such section together with everything it learns from outside: times,
  random values, job counts, failures, answers of the provider. A run is any sequence of
  events, so a statement about all runs covers every interleaving.
- Paths, ids, digests and nonces that are only compared are numbers. Hashes and MACs are
  ideal: equal digests have equal inputs, and a MAC is built only by who holds the key.
- SQLite statements and transactions are atomic steps on maps.

| part | files |
|---|---|
| workspace switch, leased runtimes, request gate | `Workspaces`, `InstallationRuntime`, `WorkspaceHost`, `Lifecycle`, `LifecycleSafety`, `LifecycleRouting`, `LifecycleOverlap`, `LifecyclePromises`, `AppServer` |
| project lease file | `ProjectLease` |
| mutation queue | `MutationQueue`, `MutationQueueRuns` |
| local IPC | `IpcFrames`, `Ipc`, `IpcAgreement` |
| approvals, OAuth consent, client deletion | `StoreTables`, `ApprovalGate`, `Interactions`, `ClientDeletion`, `AuthorityRuns`, `ApprovalRuns`, `ConsentRuns`, `AuthorityServer` |
| Remote Config leases | `RemoteConfig`, `RemoteConfigGateway`, `RemoteConfigRuns` |
| project registry | `Names`, `Registry`, `RegistryRuns`, `ProjectRegistry` |
| language server probe | `Decimal`, `LspFraming`, `LspChunking`, `LspMessages` |
| Windows command lines | `WindowsArgv`, `WindowsArgvProofs` |
| shared types and facts | `Wrappers`, `Common` |
| runtime cache, limiters, migrations, file identities | `RuntimeCache`, `RateLimits`, `Migrations`, `FileIdentity` |

## Where the code falls short of what is expected of it

Each of these is a proved statement: a failing input, and where there is one, the exact
condition under which the code does what it should.

- **A moved project can be leased on its old directory.** Cached and pending runtimes are
  looked up by project id alone (src/server/installationRuntime.ts:57,
  src/server/installationRuntime.ts:60), and the second registry check does not compare what
  it finds (src/server/installationRuntime.ts:70). Two failing runs:
  `RelocatedProjectGetsTheOldRuntime` and, for a project that is moved while it is being
  opened, `MovedWhileOpening`. Exactly when: `LeasesAreRoutedExactlyUnlessMoved`.
- **A failed switch can overlap the next one.** The state returns to ready before the
  half-built workspace is shut down (src/server/workspaceHost.ts:149-151):
  `RollbackOverlapsTheNextSwitch`. Exactly when: `SwitchesOverlapExactlyWhenNotAwaited`. The
  discard touches nothing that is in use: `DiscardIsApart`.
- **A nested run that is not awaited breaks exclusion.** It takes no reference
  (src/security/mutationQueue.ts:25): `UnawaitedNestedRunOverlaps`. Exactly when:
  `ExclusionHoldsExactlyWhenNestedRunsAreAwaited`, `BodiesOverlapExactlyWhen`.
- **Two takeovers of a dead owner's lease can both succeed.** The unlink does not look again
  (src/server/projectLease.ts:20-21): `TwoTakeoversBothSucceed`. Exactly when:
  `LeaseExcludesExactlyWithoutRacingTakeovers` for the file, `TwoHoldersExactlyWhen` for two
  holders.
- **"Request again" can be in vain.** An approval that was granted and then ran out is still
  found, and blocks the same action until something else frees it
  (src/security/approvals.ts:45-51): `LateCallersGetStuck`. Exactly when, and for how long:
  `ExpiredExactlyWhenStuck`, `RetryFailsUntilFreed`.
- **A crash can leave a grant of a deleted client behind** in the provider's table, though not in
  the grants that give access (src/auth/interactions.ts:142-144): `CrashLeavesAnOrphan`.
  Exactly when: `CrashOrphansExactlyWhen`, `OrphansAreLeftExactlyByCrashes`.
- **Two names may be one to `findByName`.** SQL `lower` keeps the Kelvin sign (U+212A) apart
  from `k`, JavaScript does not (src/projects/registry.ts:93, src/projects/registry.ts:371):
  `FoundByItsName`, `KelvinHidesAProject`.
- **A rebuilt cache entry keeps its old age.** `Map.set` does not move a key
  (src/projects/federation.ts:293): `RefreshedExactlyWhen`, `RebuiltMayBeNextToGo`.
- **The limiter is not a token bucket**, as its comment says (src/server/appServer.ts:623), but
  a fixed window that admits twice its bound across a window border:
  `AtMostTwiceTheWindow`, `TwiceTheWindowIsReached`. An interval inside which no window begins
  stays within the bound: `OneWindowAdmitsItsBound`.
- **A quoted program name may not survive.** The quoting follows the rules for arguments, but
  Windows reads the program name without escapes (src/platform/shell.ts:60):
  `ProgramIsRecoveredExactlyWhen`. The computed length counts one separator too many when
  there are no arguments: `LengthIsExactWithArguments`.

## Model

| member | source | states |
|---|---|---|
| InstallationRuntimes.InstallationRuntime.Resume | src/server/installationRuntime.ts:66-79 | every waiter of a settled opening gets a lease or fails, after checking again that nothing is closing |
| WorkspaceHosts.WorkspaceHost.PassGate | src/server/appServer.ts:325-341 | a request that passed its body is counted again only when untargeted, with the workspace ready and the server open |
| Lifecycle.StepKeepsInv | src/server/appServer.ts:470-489 | every atomic section of host, manager and gate keeps placement, agreement, liveness, lease counts and bounds together |
| LifecycleSafety.Reachable | src/server/appServer.ts:470-489 | so all of it holds after every run from the start of the server |
| LifecycleSafety.RootsAreFreedExactlyByDeath | src/server/bootstrap.ts:92-244 | on every run, a workspace can be built on a root exactly when every instance that had this root is down: the lease is given back by the end of the shutdown and by nothing else |
| LifecycleSafety.ServicesOutliveTheirCallers | src/server/workspaceHost.ts:111-166 | in every reachable state the workspace of every unreleased lease and every unfinished tool call is up with its resources |
| LifecycleSafety.LeasesAreAccounted | src/server/installationRuntime.ts:50-96 | users of a workspace equal its unreleased leases, at most 16 projects are open or opening, the in-flight count is its parts, and live workspaces have different roots |
| LifecycleSafety.CurrentIsUp | src/server/workspaceHost.ts:199-220 | unless closed, the current workspace and its resources are up |
| LifecycleSafety.TheSwapIsQuiet | src/server/workspaceHost.ts:118-146 | the current workspace changes only in the commit, when no tool call and no lease is left on the old one, which is still whole, and the new one is up |
| LifecycleSafety.SwappedOutStaysQuiet | src/server/workspaceHost.ts:155-196 | a workspace that was swapped out never again has a lease or a tool call, and never becomes current |
| LifecycleSafety.FailedSwitchChangesNothing | src/server/workspaceHost.ts:147-153 | a switch that ends before its commit leaves host, manager and the current workspace exactly as they were |
| LifecycleSafety.TeardownFollowsCommit | src/server/workspaceHost.ts:155-196 | while an old workspace is torn down, the host is switching and another workspace is current and up; without a switch the host is not switching |
| LifecycleSafety.OnlyTheseGoDown | src/server/workspaceHost.ts:155-220 | only three steps take a serving workspace down, each in its state: the old one behind a commit, a closing runtime, the current one at the end; and no lease or tool call refers to it then. So nothing of the old workspace goes down before the swap |
| LifecycleSafety.RollbackOverlapsTheNextSwitch | src/server/workspaceHost.ts:147-153 | a run in which a second switch drains while the first still discards what it had built |
| LifecycleOverlap.FailedCallsAreUnfinishedExactlyWhileDiscarding | src/server/workspaceHost.ts:147-153 | the failed switch calls that built a workspace and have not returned are exactly those whose incoming workspace is closing; an incoming workspace that is up is the one being prepared |
| LifecycleOverlap.SwitchesOverlapExactlyWhenNotAwaited | src/server/workspaceHost.ts:96-153 | along a run, no accepted switch overlaps an earlier call if and only if each failed call that built a workspace sees it die before the next switch begins |
| LifecycleOverlap.DiscardIsApart | src/server/workspaceHost.ts:147-153 | the discarded workspace is neither current nor next, shares no root, lease or tool call with them, and its end changes nothing else |
| LifecycleOverlap.DiscardBlocksItsRoot | src/server/workspaceHost.ts:140-153 | until it is down, a switch to the same directory is rolled back |
| AppServers.AppServer.ValidServes | src/server/appServer.ts:470-489 | in every state that calls of the methods lead to, each lease and tool call is on a workspace that is up, and so is the current one unless the host is closed |
| AppServers.AppServer.SwitchGate | src/server/appServer.ts:325-341 | a request that passes untargeted is served by a current workspace that is up |
| AppServers.AppServer.BeginTool | src/server/appServer.ts:308-312 | a tool call that starts is on the current workspace, which is up, and is new |
| AppServers.AppServer.SwitchTo | src/server/workspaceHost.ts:96-111 | a switch begins only to another root, with no lease on the current workspace, and changes nothing but the state of the host; refused, it changes nothing |
| AppServers.AppServer.Drain | src/server/workspaceHost.ts:118-131 | the drain is over only with nothing in flight, no jobs, and no lease or tool call on the current workspace, which stays current |
| AppServers.AppServer.Probe | src/server/workspaceHost.ts:133-141 | whatever the probe finds, the current workspace and the runtimes are untouched |
| AppServers.AppServer.Prepare | src/server/workspaceHost.ts:143-153 | a commit finds the old workspace whole and unused and the new one up; without a commit the current workspace and the runtimes are untouched |
| AppServers.AppServer.OldResourcesClosed | src/server/workspaceHost.ts:155-162 | what is torn down behind a switch is unused, and the current workspace stays up |
| AppServers.AppServer.OldServicesClosed | src/server/workspaceHost.ts:162-195 | the host is ready again only when the old workspace is down |
| AppServers.AppServer.Acquire | src/server/installationRuntime.ts:50-79 | a lease that is granted is new, counted once and on a workspace that is up; a refusal changes nothing |
| AppServers.AppServer.FinishOpen | src/server/installationRuntime.ts:80-95 | a runtime that is published is up |
| AppServers.AppServer.Resume | src/server/installationRuntime.ts:66-79 | behind a settled opening every lease, old or new, is on a workspace that is up, and the opening is gone |
| AppServers.AppServer.Release | src/server/installationRuntime.ts:75-78 | exactly this lease is gone; releasing again changes no lease |
| AppServers.AppServer.CloseProject | src/server/installationRuntime.ts:103-109 | a project starts closing only with no jobs, an empty queue and no lease or tool call on its runtime; refused, nothing changes |
| AppServers.AppServer.CloseProjectServices | src/server/installationRuntime.ts:110-111 | only a workspace that nothing refers to goes down |
| AppServers.AppServer.FinishClose | src/server/installationRuntime.ts:111-113 | a runtime leaves the table only when it is down |
| AppServers.AppServer.OpeningsSettled | src/server/installationRuntime.ts:115-118 | behind this section no opening is pending |
| AppServers.AppServer.UsersDrained | src/server/installationRuntime.ts:121 | behind this section no lease is left |
| AppServers.AppServer.ShutdownDone | src/server/installationRuntime.ts:123-124 | the store closes only when no runtime and no lease is left |
| AppServers.AppServer.HostDrained | src/server/workspaceHost.ts:208-213 | the current workspace is torn down only when no tool call is left |
| AppServers.AppServer.CloseHostServices | src/server/workspaceHost.ts:214-219 | only a workspace that nothing refers to goes down |
| LifecycleRouting.LeasesFollowTheRegistry | src/server/installationRuntime.ts:50-79 | while the registry moves no project, every lease is on the root registered for its project |
| LifecycleRouting.AcquireIsRoutedExactly | src/server/installationRuntime.ts:50-58 | a lease granted at once is on the registered root if and only if the current workspace or the cached runtime of the project is there |
| LifecycleRouting.LeasesAreRoutedExactlyUnlessMoved | src/server/installationRuntime.ts:50-79 | along a run, every lease is on the root the registry gives at that moment if and only if no call finds a cached runtime of its project on another root and no waiter resumes on a runtime opened on another root |
| LifecycleRouting.RelocatedProjectGetsTheOldRuntime | src/server/installationRuntime.ts:56-58 | a run in which a moved project is leased on its old root |
| LifecycleRouting.MovedWhileOpening | src/server/installationRuntime.ts:60-73 | a run in which a project is moved while it is being opened, and both callers are leased on the old root |
| ProjectLeases.LeaseFile.Acquire | src/server/projectLease.ts:6-28 | alone, a lease is taken from nobody but a dead owner, and the two attempts suffice |
| ProjectLeases.FirstLiveOwnerKeeps | src/server/projectLease.ts:11-27 | of any processes that try one after the other, the first live one that gets the lease keeps it, and every later one is refused, itself included |
| ProjectLeases.ReleaseUndoesAcquire | src/server/projectLease.ts:12 | acquiring and releasing leaves the lease free for anybody, and no other owner can release it |
| ProjectLeases.LeaseExcludesExactlyWithoutRacingTakeovers | src/server/projectLease.ts:11-28 | with any number of processes, every holder owns the lease file throughout a run if and only if no unlink hits the file of a live holder |
| ProjectLeases.TwoHoldersExactlyWhen | src/server/projectLease.ts:11-28 | a step leads to two holders, once others only go on taking the lease, if and only if it unlinks the file of a live holder and some live process is before its creation of the file |
| ProjectLeases.TwoTakeoversBothSucceed | src/server/projectLease.ts:20-21 | a run that ends with two holders |
| MutationQueues.MutationQueue.Enter | src/security/mutationQueue.ts:22-35 | when a run is rejected, nested, queued or started |
| MutationQueues.MutationQueue.Abort | src/security/mutationQueue.ts:31 | an aborted waiter leaves the queue, and the others keep their order |
| MutationQueues.MutationQueue.Release | src/security/mutationQueue.ts:13-18 | dropping the last reference frees the queue or hands it to the oldest waiter |
| MutationQueues.MutationQueue.Finish | src/security/mutationQueue.ts:36-38 | the end of a run closes its ticket before it drops the reference |
| MutationQueues.MutationQueue.RetainJob | src/security/mutationQueue.ts:44-53 | a job joins the holder's ticket, takes a free queue, or is refused |
| MutationQueues.MutationQueue.ReleaseJob | src/security/mutationQueue.ts:51-52 | releasing a job twice counts once |
| MutationQueues.MutationQueue.CanStart | src/security/mutationQueue.ts:39-42 | who may start a job now |
| MutationQueueRuns.OneTicketHolds | src/security/mutationQueue.ts:12-53 | at most one ticket has references, it is the active one, and they are its unfinished run plus its unreleased jobs |
| MutationQueueRuns.WaitersAreServedInOrder | src/security/mutationQueue.ts:13-38 | waiters exist only behind a holder, at most 32; every arrival is exactly one of granted, waiting, rejected; grants follow arrival |
| MutationQueueRuns.TheLastReferenceGrantsTheNext | src/security/mutationQueue.ts:13-18 | the step that drops the last reference grants the oldest waiter, or frees the queue when nobody waits |
| MutationQueueRuns.OnlyReleasesHandOver | src/security/mutationQueue.ts:22-53 | nothing but the end of a run or a job changes the holder |
| MutationQueueRuns.ExclusionHoldsExactlyWhenNestedRunsAreAwaited | src/security/mutationQueue.ts:24-38 | all running bodies belong to the holder throughout a run if and only if no ticket ends under a nested run |
| MutationQueueRuns.BodiesOverlapExactlyWhen | src/security/mutationQueue.ts:13-38 | a step lets two bodies run under different tickets, at once or with the next caller, if and only if it takes the last reference under a nested run |
| MutationQueueRuns.UnawaitedNestedRunOverlaps | src/security/mutationQueue.ts:24-25 | a run with two bodies under different tickets at once |
| IpcFrames.FeedPrefix | src/ipc/server.ts:37-43 | until its newline arrives, a line only fills the buffer |
| Ipc.ServerChunking | src/ipc/server.ts:36-43 | every splitting of a line into chunks has the effect of the whole line at once |
| Ipc.ClientChunking | src/ipc/client.ts:33-40 | every splitting of a line into chunks has the effect of the whole line at once |
| IpcAgreement.ResolvedCallsAgree | src/ipc/client.ts:22-59 | a call that resolves got the answer of a handler that was called with exactly its payload, whatever is replayed, forged or reordered |
| IpcAgreement.HandlersRunForCallers | src/ipc/server.ts:52-66 | a connection runs its handler at most once, and only for a call of this run |
| IpcAgreement.MatchingIsOneToOne | src/ipc/authentication.ts:79-84 | calls and connections match one to one |
| IpcAgreement.SettledStaysSettled | src/ipc/client.ts:25-29 | a call settles once, whatever arrives or fails later |
| IpcAgreement.ConnectionsAreOneUse | src/ipc/server.ts:43-67 | behind its first request, accepted or not, a connection never calls the handler again and never answers otherwise |
| StoreTables.Store.FindPendingActionApproval | src/store/store.ts:373-384 | the loop over the query finds a live row than which none is newer, if and only if there is a live row |
| ApprovalGate.RequireLocalApproval | src/security/approvals.ts:38-75 | a call consumes an unexpired approval of its epoch and proceeds, reports a waiting or run-out one unchanged, or denies one of another epoch and asks anew; no other row changes |
| Interactions.InteractionRouter.Interaction | src/auth/interactions.ts:50-94 | a consent request is recorded once, for a registered client, when fewer than twenty wait |
| Interactions.InteractionRouter.Complete | src/auth/interactions.ts:106-142 | the approval is consumed first; saving starts only for the approved and registered client |
| ClientDeletion.DeletionsCompose | src/auth/clientDeletion.ts:35-42 | deleting clients one after the other is deleting the set of them |
| ClientDeletion.DeleteOne | src/auth/clientDeletion.ts:36-40 | the five statements together delete exactly this client, although the third reads grants that the second has changed |
| ClientDeletion.DeleteReviewedClients | src/auth/clientDeletion.ts:27-44 | the loops delete the whole set if every selected client is as it was reviewed, and nothing otherwise |
| AuthorityRuns.StepEvolves | src/store/store.ts:395-411 | no event removes an approval, changes its purpose or moves its status other than by the guarded updates |
| ApprovalRuns.DoneStaysDone | src/store/store.ts:395-411 | consumed and denied approvals never change again |
| ApprovalRuns.PurposeStays | src/store/store.ts:329-411 | an approval keeps its purpose and its times |
| ApprovalRuns.UsedAtMostOnce | src/security/approvals.ts:45-47 | on every run at most one call proceeds on an approval |
| ApprovalRuns.ApprovedByTheOwner | src/server/ipcDispatch.ts:154-160 | a row that is approved or consumed was approved by the owner, in time, for the purpose it has |
| ApprovalRuns.ProceedingIsAuthorised | src/security/approvals.ts:38-75 | a call proceeds only on an unexpired owner approval for its workspace, epoch, principal, tool, action and policy version, which no other call uses |
| ApprovalRuns.RunKeepsPolicyBound | src/security/approvals.ts:28-31 | no approval is ahead of the policy version of its workspace |
| ApprovalRuns.TrustChangeVoidsApprovals | src/store/store.ts:197-203 | after a trust change, no earlier approval of the workspace is ever used |
| ApprovalRuns.OneLiveRowPerAction | src/security/approvals.ts:40-60 | on every run at most one row per action waits or is approved |
| ApprovalRuns.TheQueryIsDetermined | src/store/store.ts:373-384 | so the query has one possible answer, and its order does not matter |
| ApprovalRuns.ExpiredExactlyWhenStuck | src/security/approvals.ts:45-51 | a call fails with APPROVAL_EXPIRED exactly if the action has an approved row of this epoch that ran out, and changes nothing |
| ApprovalRuns.StuckUntilFreed | src/security/approvals.ts:42-51 | such a row blocks its action along a run exactly as long as it is not denied and the trust mode not changed |
| ApprovalRuns.RetryFailsUntilFreed | src/security/approvals.ts:48-51 | the retry that the message asks for fails again exactly that long |
| ApprovalRuns.LateCallersGetStuck | src/security/approvals.ts:45-51 | every request with a lifetime gets there: it asks, the owner approves in time, and the call that comes after the lifetime fails |
| ConsentRuns.RunKeepsInv | src/auth/interactions.ts:106-152 | registration, minting and uniqueness of grants hold along every run |
| ConsentRuns.EveryGrantIsApproved | src/auth/interactions.ts:106-152 | every unrevoked grant and access row belongs to a registered client, no approval yields two grants, and the owner approved exactly this client and these scopes |
| ConsentRuns.NoOrphansWithoutCrash | src/auth/interactions.ts:142-144 | without a crash, the provider's grant row of a deleted client exists only until its handler returns |
| ConsentRuns.CrashOrphansExactlyWhen | src/auth/interactions.ts:142-144 | a crash leaves a grant row of an unregistered client if and only if some handler holds one at that moment |
| ConsentRuns.OrphansAreLeftExactlyByCrashes | src/auth/interactions.ts:142-144 | along a run, the grant rows of unregistered clients are all held by their handlers if and only if no crash happens while one is held |
| ConsentRuns.CrashLeavesAnOrphan | src/auth/interactions.ts:142-144 | seven events from an empty store that leave such a row |
| ConsentRuns.RevokedStaysRevoked | src/store/store.ts:291-326 | a revoked grant stays as it is over every run |
| ConsentRuns.DeletionIsAllOrNothing | src/auth/clientDeletion.ts:30-44 | a deletion leaves no grant, access, live approval or provider row of any selected client, or changes nothing |
| ConsentRuns.OthersAreUntouched | src/auth/clientDeletion.ts:35-42 | every row that belongs to no selected client stays as it was |
| ConsentRuns.WhatGoesWasReviewed | src/auth/clientDeletion.ts:12-24 | the access rows and unrevoked grants that go are exactly those reviewed |
| ConsentRuns.DeletionIsFinal | src/auth/interactions.ts:143-144 | a deleted client stays without access until it is registered again, also with consents under way |
| ConsentRuns.ConsentsAreBounded | src/auth/interactions.ts:66-69 | never more than twenty consents wait |
| AuthorityServers.AuthorityServer.SetTrustMode | src/store/store.ts:197-203 | no approval that the workspace has is ever used again |
| AuthorityServers.AuthorityServer.RequireApproval | src/security/approvals.ts:38-75 | a call proceeds only on an unused approval that the owner gave for exactly it, and fails as expired exactly if such an approval ran out |
| AuthorityServers.AuthorityServer.ApproveAction | src/server/ipcDispatch.ts:154-160 | an accepted approval is one by the owner for the purpose of the row; refused, nothing changes |
| AuthorityServers.AuthorityServer.DenyApproval | src/server/ipcDispatch.ts:161-165 | what is denied is never used, whatever happens later |
| AuthorityServers.AuthorityServer.OpenRequest | src/auth/interactions.ts:50-94 | never more than twenty consents wait, and a page is shown only for a recorded request |
| AuthorityServers.AuthorityServer.BeginComplete | src/auth/interactions.ts:106-142 | saving begins only for a client and scopes that the owner approved in time |
| AuthorityServers.AuthorityServer.ResumeComplete | src/auth/interactions.ts:143-151 | a grant that is stored is for a registered client and the only one of its approval; otherwise no grant changes |
| AuthorityServers.AuthorityServer.GrantDestroyed | src/auth/interactions.ts:144 | the provider row of a client that is gone is gone too when its handler returns |
| AuthorityServers.AuthorityServer.RevokeGrantOf | src/server/ipcDispatch.ts:218-224 | a revoked grant is revoked for good; refused, nothing changes |
| AuthorityServers.AuthorityServer.DeleteSelected | src/auth/clientDeletion.ts:27-44 | every selected client is gone without a trace, or nothing has changed |
| RemoteConfigGateways.LocalConfig.CreateRemoteSession | src/server/localConfig.ts:592-600 | a new session replaces and revokes the old one; refused, nothing changes |
| RemoteConfigGateways.LocalConfig.Close | src/server/localConfig.ts:601-608 | closing revokes the current session for good |
| RemoteConfigGateways.RemoteConfigGateway.Open | src/server/remoteConfig.ts:108-124 | a new lease replaces the old one; a bad lifetime changes nothing, a closed target leaves no lease |
| RemoteConfigGateways.RemoteConfigGateway.Close | src/server/remoteConfig.ts:126-136 | every secret and the shared session are gone |
| RemoteConfigGateways.RemoteConfigGateway.Active | src/server/remoteConfig.ts:185-189 | a lease that is over is closed when it is looked at |
| RemoteConfigGateways.RemoteConfigGateway.PairRequest | src/server/remoteConfig.ts:202-222 | a code pairs only in an active lease, from an allowed origin, within the attempts of its window and in time; it then turns into the cookie |
| RemoteConfigGateways.RemoteConfigGateway.IsAuthorized | src/server/remoteConfig.ts:191-193 | a cookie is accepted only by an active lease |
| RemoteConfigRuns.OneSecretAndOneSession | src/server/remoteConfig.ts:108-136 | an open lease has exactly one of code and cookie, and at most one owner session is unrevoked, the lease's own |
| RemoteConfigRuns.AcceptedExactlyWhenMintedInThisLease | src/server/remoteConfig.ts:185-222 | a cookie is accepted if and only if a pairing of the lease that is still open minted it |
| RemoteConfigRuns.AtMost110Guesses | src/server/remoteConfig.ts:207-212 | within a lease at most 110 codes are compared in time |
| RemoteConfigRuns.GuessesReach110 | src/server/remoteConfig.ts:207-212 | in every lease that outlives its code, 110 are reached |
| RemoteConfigRuns.CodesPairOnce | src/server/remoteConfig.ts:212-218 | a code pairs at most once |
| Names.LowersAlike | src/projects/registry.ts:369-371 | against an ASCII name, both lowercasings agree up to Kelvin signs |
| ProjectRegistries.ProjectRegistry.AddProject | src/projects/registry.ts:252-334 | all uniqueness constraints are kept; refused, nothing changes; accepted, exactly one active project stands for the directory, and no row is lost or reassigned |
| ProjectRegistries.ProjectRegistry.ReaddRow | src/projects/registry.ts:260-280 | for the same directory, name and level change together or not at all |
| ProjectRegistries.ProjectRegistry.SetAccessLevel | src/projects/registry.ts:337-358 | all constraints and the set of active projects are kept; accepted, the project is active at exactly the given level |
| ProjectRegistries.ProjectRegistry.RemoveProject | src/projects/registry.ts:376-395 | an accepted removal takes exactly this active project without unfinished work, frees its name, and keeps its row |
| RegistryRuns.ActiveProjectsAreUnique | src/projects/registry.ts:252-395 | after any operations from an empty registry, active projects differ in root, in inode and in ASCII-folded name, and there are at most 1000 |
| RegistryRuns.StepKeepsInv | src/projects/registry.ts:252-395 | every operation keeps all uniqueness constraints, the bound and the validity of names together |
| RegistryRuns.WhatMayChange | src/projects/registry.ts:252-395 | a root changes only by a move of its own inode, a name or level only when the owner gives exactly that one, and a row is removed only by a removal |
| RegistryRuns.AddOutcome | src/projects/registry.ts:252-334 | a refused `add` changes nothing; an accepted one leaves exactly one project for the directory, a moved one under its old id, and all others as they were |
| RegistryRuns.RunContinues | src/projects/registry.ts:252-395 | no row disappears, changes its inode or birth time, or changes after its removal |
| RegistryRuns.RemovedNeverReturns | src/projects/registry.ts:376-395 | a removed id never becomes active again |
| RegistryRuns.FoundByItsName | src/projects/registry.ts:368-374 | an active project with an ASCII name is found by it if and only if no other active name equals it up to case and Kelvin signs |
| RegistryRuns.KelvinHidesAProject | src/projects/registry.ts:90-101 | two accepted projects of which the first is not found by its name |
| LspFraming.LanguageServerProbe.Data | src/setup/componentProbes.ts:34-60 | a chunk over the budget fails the probe; any other leaves it where handling all complete frames of the lengthened buffer ends |
| LspFraming.LanguageServerProbe.ReadFrames | src/setup/componentProbes.ts:39-58 | the loop handles complete frames until none is left or one fails |
| LspChunking.CutGrows | src/setup/componentProbes.ts:40-46 | more bytes never change a frame that was cut or refused |
| LspChunking.ChunksDoNotMatter | src/setup/componentProbes.ts:34-58 | within the budget, chunks have the effect of their concatenation |
| LspChunking.EveryCutIsAsGood | src/setup/componentProbes.ts:34-58 | two ways to cut one stream end alike |
| LspChunking.OverBudgetFails | src/setup/componentProbes.ts:35-36 | a longer stream fails, however it is cut |
| LspMessages.FrameIsCut | src/setup/componentProbes.ts:26-29 | the frame that `send` writes is cut off exactly |
| LspMessages.PartialFrameWaits | src/setup/componentProbes.ts:40-44 | a proper prefix of a frame is neither cut nor refused |
| LspMessages.EverySplitYieldsTheMessages | src/setup/componentProbes.ts:34-58 | for every list of messages and every split of any beginning of its stream, exactly the complete messages are handled in order and a proper prefix of the next frame is left |
| LspMessages.WholeStream | src/setup/componentProbes.ts:34-58 | a whole stream yields exactly the list and leaves nothing |
| LspMessages.FlagsTellTheHandshake | src/setup/componentProbes.ts:47-54 | the flags are set exactly by the replies, and failure is exactly a message out of order |
| LspMessages.ProbePassesExactlyWhen | src/setup/componentProbes.ts:61-66 | the probe passes if and only if both requests were answered in order without error and the exit code is 0 |
| WindowsArgvProofs.OnePass | src/platform/shell.ts:58 | the two replacements are one pass over backslash runs |
| WindowsArgvProofs.QuoteAtMostDoubles | src/platform/shell.ts:56-59 | quoting at most doubles a text, plus two |
| WindowsArgvProofs.ParseQuoted | src/platform/shell.ts:56-59 | one quoted argument is read back by Microsoft's rules, up to where it ends |
| WindowsArgvProofs.ArgumentsAreRecovered | src/platform/shell.ts:55-61 | every list of arguments without NUL is recovered from its joined quotation |
| WindowsArgvProofs.LengthIsExactWithArguments | src/platform/shell.ts:60 | the computed length is the true one with NUL exactly when there are arguments |
| WindowsArgvProofs.ProgramIsRecoveredExactlyWhen | src/platform/shell.ts:56-60 | the program name survives if and only if it has no quote and does not both need quoting and end in a backslash |
| WindowsArgvProofs.AcceptedLinesRoundTrip | src/platform/shell.ts:62-65 | an accepted vector fits the limit and is split back into program and arguments |
| RuntimeCache.FederatedProjects.RuntimeFor | src/projects/federation.ts:264-300 | a hit moves to the end, a miss is stored and the oldest entries go |
| RuntimeCache.ReturnedRuntimeIsCached | src/projects/federation.ts:264-300 | the returned runtime was built for the requested key and is cached |
| RuntimeCache.CacheIsTheRecentOnes | src/projects/federation.ts:267-298 | under fixed keys the cache holds the last sixteen distinct projects in the order of their last request |
| RuntimeCache.HitsExactlyTheRecentOnes | src/projects/federation.ts:266-272 | a request hits if and only if fewer than sixteen others were requested since the last one for its project |
| RuntimeCache.RefreshedExactlyWhen | src/projects/federation.ts:268-293 | a request makes its project the most recent one exactly on a hit, on a first entry, or when it was already |
| RuntimeCache.RebuiltMayBeNextToGo | src/projects/federation.ts:293-298 | a rebuilt runtime can be evicted by the very next miss |
| RateLimits.AtMostTwiceTheWindow | src/server/localConfig.ts:184-194 | for all nondecreasing times, a closed interval of one window length has at most twice the bound |
| RateLimits.TwiceTheWindowIsReached | src/server/appServer.ts:623-640 | twice the bound is reached by every limiter |
| RateLimits.OneWindowAdmitsItsBound | src/server/appServer.ts:629-638 | an interval inside which no window begins after its first request admits at most the bound of one |
| RateLimits.AFreshWindowAdmits | src/server/appServer.ts:633-638 | no request is refused before the bound is used up |
| Migrations.Database.RunMigrations | src/store/db.ts:845-868 | the transaction commits all missing migrations or leaves the database as it was |
| Migrations.Database.RunWithRetry | src/store/db.ts:824-843 | the loop goes on exactly behind attempts that found the database locked before the deadline; the first other failure ends it with nothing changed |
| Migrations.AtMostNineteenRetries | src/store/db.ts:824-843 | with the pauses of the loop, at most nineteen attempts find the database locked before the deadline |
| Migrations.OpenerOutcome | src/store/db.ts:845-868 | an opener gets through exactly if the database is not newer and no missing migration throws, and then the database is at exactly its version |
| Migrations.EveryRunIsOneFold | src/store/db.ts:813-868 | after any openers, versions and crashes, each migration took effect once and in order, so upgraded and fresh databases are equal |
| FileIdentity.EncodingRoundTrips | src/platform/fileIdentity.ts:9-29 | every 64-bit value survives encoding, parsing and converting back |
| FileIdentity.EncodingIsInjective | src/platform/fileIdentity.ts:9-12 | different values have different encodings, also across the border of safe integers |
| FileIdentity.ParseAcceptsTheImage | src/platform/fileIdentity.ts:14-19 | parsing accepts exactly what encoding produces |

## Left out

- Express and HTTP plumbing, OAuth tokens and PKCE inside `oidc-provider`, JWT checks, TLS and Cloudflare processes: external systems.
- Desktop, Android and speech helpers, PowerShell and ACL scripts, installers, downloads, CLI texts and HTML pages: host-specific code.
- Scope intersection, the `decide` table, address classification, redaction and row getters: easy members.
- Jobs, agents, recovery, brain and memory services: a job is a count, an agent run a flag, and services go down as one step with a beginning and an end. Every tool call is taken to bracket itself with `beginTool`.
- Awaiters of one opening promise are taken to resume before any other call; `schedules.start` and the `close` of resources are taken not to throw.
- The wait loops with `sleep` are events that may happen when their condition holds; when they happen, and so progress, is not modelled.
- Audit rows, log lines, listeners of a switch and cookies' age carry no state that a branch reads. Closing the HTTP listener, the Local Config server and the MCP handler is not modelled; the host closes only behind the runtime manager, as in `shutdown` and on the failure path of the start.
- The `place` of a workspace instance, the lists of granted and rejected waiters, the approval of a grant, and the contents a probe received are bookkeeping of the model: no branch depends on them.
- IPC: the bound of 64 connections, socket timeouts, the credential file and its endpoint; `buffer` is cut in whole characters, as the socket decodes them. A valid JSON text is a term, and the size bound of a response is an input.
- Approvals: the denials at the end of a workspace switch are `Deny` events; ids and provider grant ids are fresh; the tie of equal creation times is any order. The gate, which is not a transaction, is one section because it has no `await`; a second process that changes trust in between is not modelled.
- Client deletion: JSON payloads are the ids they name, and `oauth_models` rows that are not valid JSON name none.
- Remote Config: the clock stands still within one section; before `attachLocal` every `open` is refused. The lease timer is a `Close` event.
- Registry: rows that were edited by hand or left by the first schema version are not modelled, so no row is `invalid`. File system inspection gives the directory, whether it is missing, and whether two paths differ only in case. Names without unpaired surrogates are stored as they are. Unicode lowercasing is any function that folds ASCII, sends the Kelvin sign to `k`, and keeps every other text outside ASCII.
- Language server probe: `JSON.parse` and the tests on the fields of a message are a function from contents to kinds; the timeout is not modelled. The JSON text of a message is not built.
- Windows command lines: `quoteBatchArgument` and the shell candidates of `shellSpec` are not modelled.
- Migrations: a migration is any partial function on the schema; which SQLite errors count as a lock is the input `Locked`.
- ProjectLeases.LeaseFile.Acquire: does not model other processes between its calls; `LeaseExcludesExactlyWithoutRacingTakeovers` does.
- The handler behind a connection does its work between two events, and its reply is any.
- Migrations.Database.RunWithRetry: takes the attempts that failed as an input, because SQLite decides them; their pauses are in `AtMostNineteenRetries`.
