# SecretsVault: a verified model of the broker's core

SecretsVault keeps secrets in one encrypted file, hands them to agents under grants, leases and human approvals, and
records every decision in a hash-chained audit log. This project models that core in Dafny and proves what it promises
over whole runs: requests, failures, crashes, locks and restarts in any order.

`dafny verify dfyconfig.toml` checks everything.

## How it is organised

Each stateful part appears twice: as a pure step function with theorems over all runs, and as a class or method with
the loops and updates of the source, whose postcondition is that step function. `SessionObject.Session` and
`DaemonObject.BrokerDaemon` are the two large objects. What their postconditions say is that the object takes the step
of the abstract vault or dispatch; what such a step needs and brings about is said by `Effects` and `Access` in terms of
the document, the credential and the log, and what runs of steps amount to by the lemmas over runs.

| file | subject |
|---|---|
| Prelude.dfy | options, results and the iterator adaptors the source uses |
| Audit.dfy, AuditTheorems.dfy, Paging.dfy | the log: chain, handles, ceilings, tamper evidence, paged reads |
| Model.dfy, Capability.dfy, Authority.dfy, Contents.dfy, Effects.dfy | the document: records, operations and sweeps, the authority they confer, the stored values, what each operation needs and brings about |
| Commit.dfy, Lifetime.dfy, Histories.dfy, Copies.dfy, Withdrawal.dfy, Enrolment.dfy, Requests.dfy | the commit protocol and whole runs of operations, failures and crashes: reveals, leases, agents, requests |
| HumanSessions.dfy, SessionRuns.dfy | the memory-only registry of human sessions |
| Session.dfy | the session object |
| Broker.dfy, Access.dfy, AgentRuns.dfy, Lifting.dfy, DaemonRuns.dfy, Daemon.dfy | request dispatch, what each request needs, agent-only runs, whole lives of the daemon, the daemon object |
| RunRegistry.dfy, ChildEnv.dfy | the run protocol and the child environment |
| Envelope.dfy, Store.dfy, VaultFile.dfy | the vault file: bytes, key slots, atomic save, and the commit protocol down to those bytes |
| Framing.dfy, Dotenv.dfy | bounded line framing and dotenv output |

## What is assumed

- A SHA-256 digest and an HMAC tag are the terms they were computed from, so both are injective; what a forger without
  the key can present is stated by `AuditTheorems.Unforged`.
- The header's JSON codec, Argon2id and the AEAD are parameters. `Envelope.Lossless` and `Envelope.Lawful` state what is
  used of them, the codec's only for headers the source's types can hold (`Envelope.Canonical`); that no slot opens to
  anything but the master key is the hypothesis `Envelope.OnlyOpens`. `VaultFile.Trusted` adds that documents read back
  from their JSON.
- Random ids of projects, agents, leases, approvals and runs, agent tokens and credentials are fresh, and neither clock runs backwards (`Lifetime.Legal`, `Broker.Ready`,
  `Broker.Timely`). Wall-clock instants and monotonic instants are nanoseconds.
- One append to the log writes the whole line or nothing; either may be reported as a failure. Reads of the log succeed.
- The daemon owns the idle lock (`defer_idle_lock`), so no operation locks from within; an idle lock is a turn of its own.

## Where a statement is narrower than it may look

- The source's comments say that a refused ordinary operation changes nothing. It may: the envelope in memory is
  resealed before the size check and the save, and unlock opens that envelope. `Commit.RefusedCommitAtUnlock` says
  exactly when the next unlock adopts a refused document, `Commit.RefusedSaveSurfaces` gives an instance, and a restart
  always goes back to the stored one.
- A lock drops keys, document and human sessions on every path, but what it stores may fail to be saved. Statements about
  withdrawal therefore ask that the operation reported success, and `Histories.EveryRevealWasApproved` counts a lock or a
  denial as ending a request only when it was saved.
- Create on a log that already holds a MAC reports success and yields a vault that never unlocks.
  `Commit.CreateIsOpenable` gives the exact condition on the log, `Commit.ForeignMacNeverUnlocks` says that nothing heals
  it, and `Commit.RetriedCreateNeverUnlocks` is how it comes about.
- A handle whose file was truncated below its view may append without noticing; `AuditTheorems.AppendOntoForeignFile`
  says exactly when the walk then accepts the file.
- A line longer than both framing caps together is skipped or ends the session, depending on the chunks it arrives in.
  `Framing.ChunksMatterOnlyInFloods` says that this is exactly when chunks matter, and `Framing.OneFloodTwoOutcomes` is
  the shortest such line.
- A closed approval or an expired lease stays so for good, but a denial, consumption or revocation that was not saved can
  be undone by a restart; `Copies.SavedClosureIsFinal` and `Withdrawal.WithdrawnForGood` ask for the reported success.
- A refused session mint adds nothing but may have evicted an entry, because room is made before the preflight.

## Model

| member | source | states |
|---|---|---|
| `Commit.NoSelfBricking` | src/session.rs:3066-3155 | From a successful create on an empty log, after any sequence of commits, notes, locks, unlocks, refusals, I/O failures and crashes, the checkpoints of the stored, in-memory and decrypted documents each name an existing entry with its exact hash; the right passphrase unlocks in place and after a restart |
| `Commit.EveryLifeStaysOpenable` | src/session.rs:3066-3155 | The same invariant from any state that satisfies it, over any life |
| `Commit.OpenableOpens` | src/session.rs:378-397 | Checkpoints that name existing entries are all an unlock and a load need |
| `Commit.CommitEffect` | src/session.rs:3100-3155 | Each way a commit can end: nothing adopted, or memory, envelope and disk all hold the new document; an ordinary commit that changes any copy leaves its own entry as that copy's checkpoint; a lifecycle commit may keep the previous checkpoint |
| `Commit.CreateIsOpenable` | src/session.rs:191-261 | With a fresh key, a created vault satisfies the invariant, and unlocks, exactly when the log it was created on holds no MAC; for any key, exactly when that log verifies under it |
| `Commit.RetriedCreateNeverUnlocks` | src/session.rs:239-245 | The failing family of create: once a create has written its entry, its key lost, every later create with a fresh key on that log, however the log has grown, yields a vault that never unlocks again in all its life |
| `Commit.ForeignMacNeverUnlocks` | src/session.rs:239-245 | The same for a create on any log that holds a MAC of another key: after any moves, restarts included, unlocking fails |
| `Commit.RefusedCommitAtUnlock` | src/session.rs:378-397 | After a refused commit the next unlock in place adopts the refused document exactly when its seal was made, which takes its entry in the log unless the operation only withdraws authority; otherwise it adopts the old envelope, and a restart always goes back to the stored document |
| `Commit.RefusedSaveSurfaces` | src/session.rs:3100-3155 | An instance: a project whose save failed is refused, appears at the next unlock, and is gone after a restart |
| `Commit.CommitSeals` | src/session.rs:3100-3155 | Which document a commit seals, which entry it names, and what each outcome leaves in memory, envelope and disk |
| `Commit.MissingEntryBricks` | src/session.rs:3066-3078 | Why the entry is appended before the vault is saved: a vault whose checkpoint is missing from the log never opens |
| `Commit.LoadKeepsOpenable` | src/session.rs:268-306 | Loading what the file holds succeeds and keeps the invariant |
| `Commit.RestartsLocked` | src/session.rs:268-306 | A restarted vault starts exactly on a structurally valid log; it is locked, and its envelope is what the file holds |
| `Commit.DoKeepsOpenable` | src/session.rs:3100-3155 | Every single step of a vault's life, a crash at any point of a commit included, keeps the invariant |
| `Commit.NoteKeepsOpenable` | src/session.rs:2742-2793 | An entry nobody checkpoints changes the log only, whether or not it can be written |
| `Commit.NoteEffect` | src/session.rs:2742-2793 | A bare entry is exactly the next line, with its body, MACed under the session's key, written exactly when it fits the ceiling of its priority and the file system takes it; success exactly when it is also synced |
| `Commit.CreateIff` | src/session.rs:191-261 | A vault is created exactly on a structurally valid log with room for the entry, if entry and vault can be written; it is then unlocked, holds the blank document, and is checkpointed at that entry |
| `Commit.UnlockIff` | src/session.rs:332-397 | On every reachable vault the passphrase, and nothing but it, opens the envelope in memory; a wrong one changes nothing but the log |
| `Audit.Walk` | src/audit.rs:664-708 | Accepts exactly the files whose lines are numbered 1..n, hash-linked and, given the key, correctly MACed where a MAC is present; returns the true head and exact counts |
| `Audit.CheckCheckpoint` | src/audit.rs:343-370 | Accepts exactly when the log reaches that entry, numbered from 1, and it is spelled with that hash and hashes everything before it |
| `Audit.AuditLog.constructor` | src/audit.rs:402-425 | A handle starts at the validated end of the file |
| `Audit.AuditLog.Resync` | src/audit.rs:625-655 | Adopts the file's tail when the file is ahead and readable, and never rewinds |
| `Audit.AuditLog.StageEntry` | src/audit.rs:430-478 | Builds the entry that would follow the file, refused when it does not fit its ceiling; the handle does not move |
| `Audit.AuditLog.AppendEntry` | src/audit.rs:522-548 | Writes a staged entry only if it still chains from the head; handle and file after each I/O outcome |
| `Audit.AuditLog.AppendRecord` | src/audit.rs:553-561 | Stage and write in one go |
| `Audit.AcceptsPrefix` | src/audit.rs:664-708 | Truncating an accepted log leaves an accepted log: truncation alone is invisible to the walk |
| `AuditTheorems.HeadInjective` | src/audit.rs:284-289 | Equal chain hashes come from equal event sequences of equal length |
| `AuditTheorems.GenuineMacPinsHistory` | src/audit.rs:664-708 | One genuine MAC in an accepted file pins its own position and every event before it, MACed or not |
| `AuditTheorems.HistoryBeforeAnyMacIsGenuine` | src/audit.rs:291-297 | Against a forger without the key, an accepted file agrees with the genuine log up to its last MAC |
| `AuditTheorems.CheckpointPinsHistory` | src/audit.rs:343-370 | A genuine checkpoint is accepted exactly when every event up to it is genuine and its hash is spelled as recorded |
| `AuditTheorems.GenesisCheckpointIsNeverAccepted` | src/audit.rs:343-370 | The head of an empty log can never pass the checkpoint check |
| `AuditTheorems.TailIsForgeable` | src/audit.rs:664-708 | The accepted limit: an unauthenticated entry can always be added after the last line |
| `AuditTheorems.AppendEffect` | src/audit.rs:522-548 | One append to an accepted file does nothing or adds one chained, correctly MACed line within its ceiling; a stale staged entry is always refused; success exactly when fresh and written |
| `AuditTheorems.InterleavingsKeepTheLogSound` | src/audit.rs:430-548 | Any interleaving of any number of handles, with I/O failures anywhere, keeps the file accepted with its MACs, numbered 1..n, under the hard limit |
| `AuditTheorems.EveryAppendObeysItsCeiling` | src/audit.rs:486-517 | Whatever grows the log is one whole line and keeps it within the soft limit, or the hard one for lifecycle entries; otherwise the file is unchanged |
| `AuditTheorems.StageIff` | src/audit.rs:430-517 | An entry is staged exactly when its JSON and 148 bytes of framing fit the soft limit, or the hard one for lifecycle entries; with a key that is exactly what it adds to the file |
| `AuditTheorems.ResyncReachesHead` | src/audit.rs:625-655 | A handle that follows an accepted file resyncs to its true head |
| `AuditTheorems.AppendOntoForeignFile` | src/audit.rs:522-548 | After the file was changed behind a handle's back, an append that goes through leaves an accepted file exactly when the file was ahead of the handle or level with it on the same head |
| `AuditTheorems.RejectionIsPermanent` | src/audit.rs:664-708 | A rejected log stays rejected however it grows |
| `Paging.PageIsASlice` | src/session.rs:1007-1046 | A page is the requested number of entries ending at the cursor, and the next cursor is the entry just before it or absent |
| `Paging.PagingReturnsTheFirstSnapshot` | src/session.rs:996-1047 | Following the cursor with any page sizes ends and returns each entry up to the first read's head exactly once, in order, although every read appends |
| `Capability.ProposeKeepsInv` | src/session.rs:2187-2245 | Every edit any operation proposes keeps: one active grant per pair, unrevoked leases non-empty and inside the active grant of an active agent, open approvals backed by a live reveal grant, an approved row carrying its claim window |
| `Capability.SweepRestoresInv` | src/session.rs:2206-2245 | However one pair's grant changed, sweeping that pair restores the invariant |
| `Capability.AddGrantKeepsInv` | src/session.rs:2328-2366 | Upserting a grant, with its sweeps, keeps the invariant |
| `Capability.RevokeGrantKeepsInv` | src/session.rs:2405-2433 | Revoking a grant, with its sweeps, keeps the invariant |
| `Capability.RevokeAgentKeepsInv` | src/session.rs:1228-1269 | Revoking an agent, with its sweeps, keeps the invariant |
| `Capability.CreateLeaseKeepsInv` | src/session.rs:1278-1385 | A created lease is backed, and reclaiming rows before the cap check keeps the invariant |
| `Capability.RequestKeepsInv` | src/session.rs:1631-1759 | A new request is backed and carries its pending window |
| `Capability.DecideAndClaimKeepInv` | src/session.rs:1858-1938 | Deciding or claiming a row keeps every row's windows and backing |
| `Capability.PurgeKeepsInv` | src/session.rs:58-76 | Dropping terminal rows keeps the invariant |
| `Capability.LockKeepsInv` | src/session.rs:2122-2145 | Revoking every lease and denying every open approval keeps the invariant |
| `Authority.AuthorizeIff` | src/session.rs:1485-1627 | On every reachable document a credential is honoured exactly when it names a live lease with the op; the op is then in the current grant; the fallback that persists a late invalidation never fires |
| `Authority.ClaimIff` | src/session.rs:1943-2060 | A claim succeeds exactly on an approved row of this agent, project and key, inside its window, whose secret exists |
| `Authority.OpenApprovalHasLiveGrant` | src/session.rs:1992-2000 | The withdrawn-grant branch of a claim never fires on an open row |
| `Authority.PurgeIsAuthorityNeutral` | src/session.rs:58-76 | Purging at one time changes no lease authorization and no claim decision at any later time |
| `Authority.CapsCountLiveRows` | src/session.rs:1342-1352 | An otherwise valid lease or approval request is refused for capacity exactly when the cap is filled with live rows |
| `Authority.LifecycleOnlyShrinks` | src/session.rs:3087-3095 | Every operation that may proceed unrecorded confers nothing its document did not confer before: no lease for another agent, project, op or time, no claim or decision at a later time |
| `Authority.NarrowingShrinks` | src/session.rs:2286-2318 | A grant that is a subset of what the pair holds only withdraws authority, leases and approvals with their bindings and times included |
| `Authority.LockOnlyShrinks` | src/session.rs:2122-2145 | A locked-down document confers exactly the grants the document conferred: no lease, no claim, no decision |
| `Contents.SetChangesOneKey` | src/session.rs:853-884 | Setting a secret makes it readable under its key and changes no other key |
| `Contents.DeleteChangesOneKey` | src/session.rs:968-986 | Deleting a secret removes exactly that key |
| `Contents.OtherCallsKeepContents` | src/session.rs:853-986 | No other operation changes any stored value |
| `Contents.RemovalLosesNothing` | src/model.rs:377-385 | A project can be removed exactly when it exists and holds no value; it is then gone |
| `Contents.EditsKeepShape` | src/model.rs:4-8 | Every operation keeps every secret in an existing project, names and keys unique, and every record within the validators' limits |
| `Effects.RevokeAgentEffect` | src/session.rs:1260-1269 | Revoking takes an existing name; afterwards nobody active bears that id or token, none of its leases is unrevoked, none of its approvals open; every other agent, grant and row is as before |
| `Effects.InactiveIsRefused` | src/session.rs:1510-1530 | An agent that is not active gets nothing: no operation with or without a credential, no lease, no request, no claim |
| `Effects.AddAgentEffect` | src/session.rs:1207-1224 | A new agent takes a valid unused name below the cap, is active under its id and token, and nothing else changes; ids and tokens stay unique |
| `Effects.AddGrantEffect` | src/session.rs:2328-2366 | A grant takes known names and some ops; afterwards the pair may do exactly those ops, keeps exactly the leases within them, and its open approvals exactly while they include reveal; no other pair notices |
| `Effects.RevokeGrantEffect` | src/session.rs:2405-2433 | Revoking takes a pair with a grant; afterwards it may do nothing, all its leases are revoked, all its approvals closed; no other pair notices |
| `Effects.CreateLeaseIff` | src/session.rs:1278-1373 | A lease is granted exactly to an active agent, for 1 to 86400 seconds, for ops its grant holds, while fewer than 1024 leases are live |
| `Effects.LeaseConfersWhatWasAsked` | src/session.rs:1355-1373 | A minted credential is honoured exactly for this agent, this project, these ops and this long; every other decision is as before |
| `Effects.DropLeaseEffect` | src/session.rs:1426-1463 | A lease is returned exactly by its agent or the owner while it exists; it is then revoked for good, and nothing else changes |
| `Effects.RequestApprovalEffect` | src/session.rs:1631-1745 | A request is taken exactly when the agent may reveal that stored key and fewer than 1024 requests are live; it then waits ten minutes, and every live row stays |
| `Effects.DecideApprovalEffect` | src/session.rs:1858-1915 | A decision takes a human and a pending row inside its window; approving makes it claimable for five minutes, denying closes it; every other row is as before |
| `Effects.DecisionDecidesClaims` | src/session.rs:1905-1915 | After an approval the agent's claim of that key succeeds exactly for five minutes while the value is stored; after a denial no claim of that row ever does |
| `Effects.ClaimEffect` | src/session.rs:2044-2058 | A claim consumes its row and nothing else, and no second claim of it ever succeeds |
| `Effects.AddProjectEffect` | src/session.rs:598-619 | A project takes a valid unused name below the cap and is found under it; nothing else changes |
| `Effects.RemoveProjectEffect` | src/session.rs:802-812 | A removed project is gone and no other is |
| `Effects.SetSecretIff` | src/session.rs:853-884 | A value of 1 to 65536 bytes is stored exactly under an existing project, and under a valid key below the cap unless the key is there |
| `Effects.DeleteSecretIff` | src/session.rs:968-986 | A value is deleted exactly when it is stored |
| `Copies.VersionsEvolve` | src/session.rs:3100-3155 | Every copy of the document after a step was a copy before it or is what the step makes of the decrypted one |
| `Copies.EveryCopyIsShaped` | src/model.rs:4-8 | In every run, failures and crashes included, every copy keeps its secrets in existing projects, names and keys unique, and records within limits |
| `Copies.ValuesPersist` | src/session.rs:817-986 | A value every copy holds stays through every run that does not set or delete that key |
| `Copies.ClaimsYieldTheLastValue` | src/session.rs:2044-2061 | After a set that reported success and any run that leaves the key alone, every copy holds that value and any claim of it that succeeds finds it |
| `Copies.ClosedThroughEdit` | src/session.rs:1858-2058 | A denied or consumed approval keeps every field through every edit until it is purged |
| `Copies.ClosedForGood` | src/session.rs:1858-2058 | A row closed alike in every copy stays exactly as it is, or is purged, in every later run |
| `Copies.SavedClosureIsFinal` | src/session.rs:1858-2058 | A denial, consumption or withdrawal that reported success is final: in every later run each copy holds exactly the closed row or has purged it |
| `Lifetime.PerformVersions` | src/session.rs:3084-3155 | After one operation every copy of the document is an old one or what the operation proposed; on success all are the latter |
| `Lifetime.CallSucceedsIff` | src/session.rs:3084-3155 | An operation succeeds exactly when it is admissible on the unlocked document, the vault can be sealed and saved, and its entry can be written; one that only takes away needs no entry, so a full log never blocks it |
| `Lifetime.PriorityIff` | src/session.rs:2286-2318 | Exactly the revocations, and grants of no more than the pair may do already, have lifecycle priority |
| `Lifetime.RefusalIsRecorded` | src/session.rs:2765-2793 | An inadmissible operation leaves exactly one entry saying who was refused what and why, if it fits and is written, and changes nothing else |
| `Lifetime.NamesTellApart` | src/session.rs:564-2061 | The recorded name tells every operation from every other, and an approval from a denial |
| `Lifetime.HappeningsAreReal` | src/session.rs:1631-2061 | What the history of a run says really happened: a request was an agent's call, a decision was a human's and says what it says, a reveal was a saved claim |
| `Histories.EveryRevealWasApproved` | src/session.rs:1943-2061 | Over every run, each value revealed to an agent was requested for the same agent, project and key, approved by a human inside the pending window, claimed inside the claim window, never revealed before under that approval, with no saved denial, lock, loss of the grant or of the agent in between; every copy of the document satisfies the invariant throughout |
| `Histories.JustifiedWithin900Seconds` | src/session.rs:1905-1916 | Such a claim comes less than 900 seconds after its request |
| `Histories.AdvanceKeepsGood` | src/session.rs:1278-2061 | One step of any kind, crashes included, keeps the books and the invariant of every copy |
| `Histories.RevealIsJustified` | src/session.rs:2002-2044 | A claimable row carries its own justification |
| `Histories.CreatedIsNewborn` | src/session.rs:191-261 | The runs start from what create leaves |
| `Withdrawal.WideningIsRecorded` | src/session.rs:3066-3095 | In every run a power that some copy of the document newly confers comes from an operation whose entry is that copy's checkpoint; revocations, narrowings, locks, unlocks, restarts and crashes never create one |
| `Withdrawal.DeadLeasesStayDead` | src/session.rs:1485-1627 | A lease revoked or expired in every copy never authorizes again, whatever follows |
| `Withdrawal.WithdrawnForGood` | src/session.rs:2206-2225 | A lease taken away by an operation that reported success never authorizes anything again in any run |
| `Withdrawal.CredentialKeepsItsTerms` | src/session.rs:1485-1612 | From any reachable state on: once any copy of the document has held a lease, its credential is honoured in every later run only for that agent, project and ops and before that expiry |
| `Withdrawal.ExpiredLeasesStayDead` | src/session.rs:1570-1574 | At or after the expiry that any copy ever held, the credential is refused in every later run |
| `Withdrawal.RunsAgree` | src/session.rs:1278-1385 | In every run the copies agree on the terms of every lease any of them holds |
| `Withdrawal.SavedLockKills` | src/session.rs:2122-2145 | A saved lock leaves every lease dead in every copy |
| `Withdrawal.LockedOutForGood` | src/session.rs:2122-2169 | After a saved lock no credential handed out before it ever authorizes anything again, in any run |
| `Withdrawal.SavedWithdrawalKills` | src/session.rs:2206-2225 | A saved revocation, narrowing or agent revocation leaves the lease dead in every copy |
| `Withdrawal.TakenAwayIsRevoked` | src/session.rs:2187-2225 | Revoking a lease, its grant, its agent or narrowing below its ops marks that very row revoked |
| `Withdrawal.LeaseNeverExceedsItsRequest` | src/session.rs:1278-1385 | After a lease was created with success, in every later run its credential is honoured only for the agent that asked, in that project, for those ops, for that long |
| `Enrolment.RunsStayEnrolled` | src/session.rs:1207-1224 | In every run ids and tokens tell agents apart, ids projects, and all of them were drawn |
| `Enrolment.SavedRevocationRetires` | src/session.rs:1228-1269 | A revocation that reported success leaves nobody active under that id or token in any copy |
| `Enrolment.GoneForGood` | src/session.rs:1260-1269 | An agent retired in every copy stays retired in every later run |
| `Enrolment.RevokedAgentIsGone` | src/session.rs:1228-1269 | After a revocation that reported success, in every later run: nobody active bears the id or token in any copy, the token is in no digest table, and no operation is authorized, no lease minted, nothing requested or claimed in its name |
| `Requests.OpenRequestStays` | src/session.rs:1631-2061 | An open request every copy holds is still held by every copy, unchanged, after any run that neither decides nor claims it nor takes away what it rests on nor locks, until its deadline |
| `Requests.RequestGetsApproved` | src/session.rs:1858-1938 | A saved request is approved when a human approves it within ten minutes, whatever else happened in between |
| `Requests.ApprovedRequestYieldsTheValue` | src/session.rs:1943-2061 | A saved request that a human approves within ten minutes and its agent claims within five more yields the value, over any runs in between that spare it: restarts, unlocks, refusals, failed saves and other agents' requests included |
| `SessionObject.Session.constructor` | src/session.rs:191-306 | A session starts with the stored document as its envelope, an empty human-session table and digests that follow the document |
| `SessionObject.DigestsAreActiveAgents` | src/session.rs:3158-3173 | The digest table knows exactly the tokens of active agents |
| `SessionObject.SweepAgentLeases` | src/session.rs:2187-2193 | Revokes exactly the agent's unrevoked leases, in place |
| `SessionObject.SweepAgentApprovals` | src/session.rs:2194-2205 | Denies exactly the agent's open approvals, in place |
| `SessionObject.SweepUncoveredLeases` | src/session.rs:2206-2225 | Revokes exactly the pair's leases the current grant no longer covers, in place |
| `SessionObject.SweepPairApprovals` | src/session.rs:2226-2245 | Denies the pair's open approvals when reveal is no longer granted |
| `SessionObject.LockDown` | src/session.rs:2134-2146 | Revokes every lease and denies every open approval, in place |
| `SessionObject.Retain` | src/session.rs:58-76 | The retain loop keeps the survivors in order |
| `SessionObject.PurgeTerminal` | src/session.rs:58-76 | Drops exactly the rows that can no longer authorize anything |
| `SessionObject.DoProjectRemove` | src/session.rs:802-812 | Removes an existing project without secrets, refuses otherwise |
| `SessionObject.DoAgentRevoke` | src/session.rs:1228-1269 | Deactivates the agent and sweeps its leases and approvals |
| `SessionObject.DoGrantAdd` | src/session.rs:2328-2366 | Upserts the active grant and sweeps the pair |
| `SessionObject.DoGrantRevoke` | src/session.rs:2405-2433 | Revokes the active grant and sweeps the pair |
| `SessionObject.DoLeaseCreate` | src/session.rs:1278-1373 | Checks in order, reclaims rows at the cap, appends the lease |
| `SessionObject.DoLeaseRevoke` | src/session.rs:1426-1463 | Ownership check, idempotent revocation |
| `SessionObject.DoApprovalRequest` | src/session.rs:1631-1745 | Checks in order, reclaims rows at the cap, appends the pending row |
| `SessionObject.DoApprovalDecide` | src/session.rs:1858-1915 | Decides a pending row inside its window, one error per other state |
| `SessionObject.DoRevealClaim` | src/session.rs:1943-2044 | Binding, grant, state and expiry in that order; the value only with the edit that consumes the row |
| `SessionObject.Judge` | src/session.rs:1485-1612 | The branches of the lease decision |
| `SessionObject.OldestEntry` | src/session.rs:2513-2521 | Finds a least recently used entry |
| `SessionObject.Session.Create` | src/session.rs:191-261 | Outcome and log after every failure point of create, equal to the abstract one |
| `SessionObject.Session.Load` | src/session.rs:268-306 | Opens exactly the structurally valid logs, locked, with empty tables |
| `SessionObject.Session.RebuildAgentDigests` | src/session.rs:3158-3173 | The loop computes the digest table of the document |
| `SessionObject.Session.Record` | src/session.rs:2742-2762 | An entry of its own, MACed when unlocked |
| `SessionObject.Session.RecordDenial` | src/session.rs:2765-2793 | A best-effort denial entry |
| `SessionObject.Session.CommitWith` | src/session.rs:3100-3155 | The whole new state after each failure point of a commit |
| `SessionObject.Session.Lock` | src/session.rs:407-412 | Drops keys, document and human sessions; agent digests stay |
| `SessionObject.Session.LockPersist` | src/session.rs:2122-2169 | On every path, failed commits included, ends with no key, no document and no human session |
| `SessionObject.Session.UnlockWithProof` | src/session.rs:332-376 | Unlock with its best-effort entries |
| `SessionObject.Session.DoUnlock` | src/session.rs:378-397 | Verifies every MAC, opens the in-memory envelope, checks its checkpoint |
| `SessionObject.Session.Gate` | src/session.rs:3040-3064 | Refuses while locked; the refusal fails when it cannot be recorded |
| `SessionObject.Session.ProjectAdd` | src/session.rs:564-619 | Equals the abstract operation |
| `SessionObject.Session.ProjectRemove` | src/session.rs:773-812 | Equals the abstract operation |
| `SessionObject.Session.SecretSet` | src/session.rs:817-884 | Equals the abstract operation |
| `SessionObject.Session.SecretDelete` | src/session.rs:933-986 | Equals the abstract operation |
| `SessionObject.Session.AgentAdd` | src/session.rs:1178-1224 | Equals the abstract operation |
| `SessionObject.Session.AgentRevoke` | src/session.rs:1228-1269 | Equals the abstract operation |
| `SessionObject.Session.ResolveAgent` | src/session.rs:2483-2486 | Resolves exactly the digests in the table, locked or not |
| `SessionObject.Session.GrantAdd` | src/session.rs:2275-2325 | Equals the abstract operation, with the priority of a narrowing or a widening |
| `SessionObject.Session.GrantRevoke` | src/session.rs:2370-2402 | Equals the abstract operation |
| `SessionObject.Session.LeaseCreate` | src/session.rs:1278-1385 | Equals the abstract operation |
| `SessionObject.Session.LeaseRevoke` | src/session.rs:1426-1476 | Equals the abstract operation |
| `SessionObject.Session.AuthorizeLease` | src/session.rs:1485-1627 | Equals the abstract decision with its entries |
| `SessionObject.Session.ApprovalRequest` | src/session.rs:1631-1759 | Equals the abstract operation |
| `SessionObject.Session.ApprovalDecide` | src/session.rs:1858-1938 | Equals the abstract operation |
| `SessionObject.Session.RevealClaim` | src/session.rs:1943-2061 | Equals the abstract operation, and the value returned is the one stored before the commit |
| `SessionObject.Session.CollectTerminal` | src/session.rs:546-555 | Purges the decrypted document only |
| `SessionObject.Session.SweepLapsedSessions` | src/session.rs:2616-2628 | Drops exactly the lapsed entries |
| `SessionObject.Session.SessionOpen` | src/session.rs:2497-2566 | Sweep, evict a least recently used entry at the cap, preflight, insert, roll back |
| `SessionObject.Session.ValidateSession` | src/session.rs:2577-2593 | Drops a lapsed entry, slides nothing |
| `SessionObject.Session.AuthorizeSession` | src/session.rs:2598-2603 | Resolves a live credential to its actor without sliding |
| `SessionObject.Session.SlideSession` | src/session.rs:2607-2613 | Moves the window of one known entry |
| `SessionObject.Session.SessionTouch` | src/session.rs:2652-2692 | A refused touch renews nothing |
| `SessionObject.Session.SessionClose` | src/session.rs:2700-2721 | Removes the entry whether or not the close can be recorded |
| `SessionObject.Session.AuditShowPage` | src/session.rs:1007-1047 | The page is taken before the read's own entry is appended |
| `HumanSessions.MintKeepsCap` | src/session.rs:2511-2545 | A mint keeps at most 256 entries, adds only its own and only on success, and displaces a live entry only when 256 live ones leave no room, and then a least recently used one |
| `HumanSessions.RoomIsMade` | src/session.rs:2511-2521 | Sweeping and evicting always leave room for one |
| `SessionRuns.SessionsAreBounded` | src/session.rs:2497-2720 | Over every run of requests, idle locks, restarts and crashes: locked means no human session, never more than 256, and a credential authenticates only in the unlock epoch that minted it, under 1800 s from its mint and within its own window since its last allowed operation |
| `SessionRuns.RefusalsRenewNothing` | src/broker.rs:1597-1610 | A refused request slides no window and mints nothing |
| `SessionRuns.DispatchStaysSeated` | src/broker.rs:1392-1624 | Every request keeps the session invariant |
| `DaemonObject.BrokerDaemon.HandleRequest` | src/broker.rs:1286-1323 | One request changes session and daemon exactly as the abstract dispatch does; a stored value is in the answer exactly when a reveal was allowed, and it is that key's |
| `DaemonObject.BrokerDaemon.Identify` | src/broker.rs:1413-1511 | Exactly one credential, resolved to an identity; no credential is never human |
| `DaemonObject.BrokerDaemon.Serve` | src/broker.rs:1514-1624 | The gates, the arm, the slide of an allowed request, the boundary record of an unrecorded refusal |
| `DaemonObject.BrokerDaemon.Finish` | src/broker.rs:1597-1624 | Only an allowed request slides; only an unrecorded refusal is recorded |
| `DaemonObject.BrokerDaemon.LockAndDrain` | src/broker.rs:1367-1390 | Ends with an empty run registry, every activated run's group terminated, no key, no document and no human session, whatever fails |
| `DaemonObject.BrokerDaemon.EditAndDrain` | src/broker.rs:1950-2047 | A saved agent or grant revocation, or a grant without run, removes exactly the runs it undercuts and terminates each activated one once; a refused edit touches none |
| `DaemonObject.BrokerDaemon.OwnerArm` | src/broker.rs:1708-2104 | The owner's arms equal the abstract ones |
| `DaemonObject.BrokerDaemon.AgentArm` | src/broker.rs:1645-2481 | The agents' arms equal the abstract ones |
| `DaemonObject.BrokerDaemon.RevealToAgent` | src/broker.rs:2229-2270 | Authorize, then claim the named approval or ask for one; the value comes with an allowed claim only |
| `DaemonObject.BrokerDaemon.UnlockVault` | src/broker.rs:1782-1847 | Unlock, then a best-effort mint that never masks the unlock |
| `DaemonObject.BrokerDaemon.OpenSession` | src/broker.rs:2482-2525 | Passphrase proof only |
| `DaemonObject.BrokerDaemon.PerformEdit` | src/broker.rs:1852-1969 | Each edit reaches the session operation of its own name |
| `DaemonObject.BrokerDaemon.DrainUndercut` | src/broker.rs:1985-2047 | Removes exactly the undercut runs, terminates each activated one's group once, and nothing else |
| `DaemonObject.UndercutsIff` | src/broker.rs:1950-2047 | Of the runs that were allowed, a revocation or a grant drains exactly those it takes the permission to run from |
| `DaemonObject.BrokerDaemon.Authorize` | src/broker.rs:1682-1684 | The lease decision with the presented credential, if any |
| `DaemonObject.BrokerDaemon.Inject` | src/broker.rs:1645-1707 | Agent only; lock state, lease form, authorization, then the write, each refusal recorded |
| `DaemonObject.BrokerDaemon.ListSecrets` | src/broker.rs:1741-1781 | An agent needs read on the project, the owner does not |
| `DaemonObject.BrokerDaemon.RevealToHuman` | src/broker.rs:2195-2228 | The owner reveals directly, only while unlocked, and exactly the stored value |
| `DaemonObject.BrokerDaemon.PollApproval` | src/broker.rs:2271-2285 | An agent sees only its own approvals |
| `DaemonObject.BrokerDaemon.Touch` | src/broker.rs:2526-2553 | Session credential only |
| `DaemonObject.BrokerDaemon.Close` | src/broker.rs:2554-2566 | Session credential only |
| `DaemonObject.BrokerDaemon.MintSession` | src/session.rs:2497-2566 | The mint as dispatch uses it, with the eviction it chose |
| `Access.IdentifyIff` | src/broker.rs:1413-1511 | A request speaks for the owner exactly with a passphrase that opens the vault, or a live session, and nothing else; for an agent exactly with that agent's token and nothing else; for nobody exactly without any credential |
| `Access.RefusedIdentities` | src/broker.rs:1413-1511 | Several credentials are a protocol error; an unknown token or wrong passphrase an authentication failure; a session that is not live has expired |
| `Access.ServedIff` | src/broker.rs:29-55 | Nobody gets anything but the status; an agent may lock, list, inject, reveal, poll, signal its runs and manage its leases and nothing else; the owner anything, but never with a lease |
| `Access.AuthorizeRefusals` | src/session.rs:1485-1612 | Which refusal a lease decision gives: unknown project, inactive agent or missing grant or op, or an expired credential |
| `Access.AuthorizeEffect` | src/session.rs:1485-1627 | An authorization succeeds exactly when the document permits the operation, by grant or by live lease; it changes nothing but the log, which gains its verdict |
| `Access.InjectIff` | src/broker.rs:1645-1707 | An injection succeeds exactly for an agent whose grant or lease includes inject, on an unlocked vault, once the file is written and that is recorded under the agent or lease used |
| `Access.ListIff` | src/broker.rs:1741-1781 | A listing succeeds exactly for an agent whose grant or lease includes read, or for the owner of an existing project, on an unlocked vault, with its own entry written |
| `Access.AgentRevealIff` | src/broker.rs:2229-2270 | A claim succeeds exactly when the agent's grant or lease includes reveal, its approval of that key is not five minutes old, the value is stored, and consuming it is saved with its entry; without an approval the answer is pending exactly when a request was saved |
| `Access.HumanRevealIff` | src/broker.rs:2195-2228 | The owner is shown a value exactly when it is stored, the vault unlocked, and the reveal recorded |
| `Access.RevealedValueIsStored` | src/session.rs:2044-2061 | The value an allowed reveal yields is the one stored under that very key of that very project |
| `Access.AskLeaseIff` | src/broker.rs:2106-2137 | A lease request succeeds exactly for an agent, when the lease is askable, live leases leave room, and it is saved with its entry |
| `Access.ReturnLeaseIff` | src/broker.rs:2178-2194 | A lease is returned exactly when it exists and, unless the owner returns it, is the agent's own; a full log does not stand in the way |
| `Access.EditIff` | src/broker.rs:1852-2047 | An owner's edit succeeds exactly when it is admissible and stored, with its entry unless it only takes away; a decision is made in the name the request authenticated as |
| `Access.StatusIff` | src/broker.rs:2271-2285 | An agent may poll exactly its own approvals, on an unlocked vault |
| `Access.ReadArmsIff` | src/broker.rs:1708-1732 | The plain reads succeed exactly with their own entry written, behind the lock gate where they have one; verifying the log gives its verdict |
| `Access.SessionOpenIff` | src/broker.rs:2482-2525 | A session is opened exactly with a passphrase, for 1 to 1800 seconds, on an unlocked vault, with its entry written |
| `Access.SessionTouchIff` | src/session.rs:2652-2692 | A touch renews exactly a live session whose touch can be recorded, and no other session |
| `Access.SessionCloseIff` | src/session.rs:2700-2721 | A close ends exactly a live session, recorded or not, and no other |
| `Access.AllowedRequestRenews` | src/broker.rs:1597-1610 | An allowed request of a session starts that session's window anew and changes no other |
| `Access.VaultUnlockIff` | src/broker.rs:1782-1847 | The vault is unlocked exactly by the passphrase, in whatever state it is, and then holds the envelope in memory |
| `Access.UnlockMints` | src/broker.rs:1820-1847 | An unlock also opens a session of five minutes exactly when that can be recorded |
| `Access.VaultLockEffect` | src/broker.rs:1367-1390 | A lock always drops key, document and sessions; unless sealing or saving fails the file then holds no usable lease and no open approval, and everything else as it was |
| `Lifting.ServeKeeps` | src/broker.rs:1392-1624 | What survives every step of the vault survives every life of the daemon: requests, launches, idle locks, restarts and crashes |
| `DaemonRuns.RevokedAgentIsRefused` | src/broker.rs:1950-1969 | After a request that revoked an agent was answered with success, in every later life of the daemon its token is refused, no request speaks in its name, no child is started for it, and nothing is authorized, minted, requested or claimed in its name |
| `DaemonRuns.NewAgentIsKnown` | src/broker.rs:1938-1949 | After a request that added an agent was answered with success, a request with its token alone speaks for it |
| `DaemonRuns.BanishedIsAStranger` | src/broker.rs:644-700 | To the daemon such an agent is a stranger: authentication and the launch gate do not know its token or id |
| `DaemonRuns.WithdrawnLeaseIsRefused` | src/session.rs:2206-2225 | After an edit that took a lease away was answered with success, its credential is refused in every later life of the daemon |
| `DaemonRuns.MintedLeaseKeepsToItsRequest` | src/broker.rs:2106-2137 | After a lease request was answered with success, in every later life of the daemon its credential is honoured only for the agent that asked, in that project, for those ops, for that long |
| `DaemonRuns.RefusalsAreRecorded` | src/broker.rs:1611-1624 | No refusal of an authenticated request goes unrecorded, if the log has room for one entry and no write is lost |
| `Broker.LaunchIff` | src/broker.rs:644-871 | A child is started exactly for a known agent's token alone, on an unlocked vault, with a current grant to run in the project, and exactly with the stored values of the keys it named or of all the project's keys |
| `DaemonObject.BrokerDaemon.CheckLaunch` | src/broker.rs:644-871 | The checks of a launch under the session lock, in order |
| `DaemonObject.BrokerDaemon.GateLaunch` | src/broker.rs:644-871 | A refused launch is recorded, an accepted one changes nothing yet |
| `DaemonObject.SelectSecrets` | src/broker.rs:785-863 | The loops collect exactly the values a launch asks for, or refuse |
| `DaemonObject.BrokerDaemon.ReadBehindGate` | src/session.rs:3040-3064 | A gated read |
| `AgentRuns.AgentsAloneAreContained` | src/broker.rs:29-55 | No sequence of requests that present neither an opening passphrase nor a live session, wrong and ended ones and launches of runs included, changes projects, secrets, agents or grants of any copy, creates an approved row, unlocks the vault or opens a human session, and it reveals at most as many values as there were approved rows when it began |
| `AgentRuns.AgentsAloneAreContainedAnywhere` | src/broker.rs:1536-1544 | The same from any state a daemon can reach |
| `AgentRuns.ClaimUsesUpItsRow` | src/session.rs:2044-2058 | A successful claim uses up its approved row |
| `AgentRuns.AgentEditApprovesNothing` | src/session.rs:1278-1759 | No operation an agent can reach approves anything |
| `RunRegistry.EveryInterleavingIsBalanced` | src/run.rs:408-449 | Under every interleaving of reserve, spawn, activate, commit, drain and exit: at most 16 runs and 4 per agent, and the termination of every spawned child's group has exactly one owner, past or present |
| `RunRegistry.QuiescenceSettlesEverything` | src/broker.rs:1005-1253 | When every handler has returned and every drain is done, no slot is leaked and each child ever spawned was terminated exactly once |
| `RunRegistry.DrainedLaunchNeverReturns` | src/run.rs:555-582 | A launch a drain has removed never comes back: activation fails and the handler owns the group |
| `RunRegistry.DrainCatchesEveryLaunch` | src/run.rs:487-500 | A full drain empties the registry, launches between reservation and activation included |
| `RunRegistry.ReservedIff` | src/run.rs:408-449 | A slot is reserved exactly for a new id while fewer than 16 runs are registered and fewer than 4 of this agent's; no other entry changes |
| `RunRegistry.UndisturbedLaunch` | src/run.rs:408-582 | A launch that finds room and that no drain disturbs is registered with its child's group, and afterwards leaves the registry as it found it, its group terminated once |
| `RunRegistry.DrainedLaunchIsKilled` | src/broker.rs:1005-1253 | A launch whose entry a drain took before it was activated is told so and terminates its own child |
| `RunRegistry.Registrar.TryReserve` | src/run.rs:408-449 | Reserves exactly when the id is new and both caps leave room |
| `RunRegistry.Registrar.CountFor` | src/run.rs:502-509 | The loop counts the agent's runs |
| `RunRegistry.Registrar.Remove` | src/run.rs:469-474 | At most one caller gets an entry |
| `RunRegistry.Registrar.TakeMatching` | src/run.rs:487-500 | Removes and returns exactly the matching entries |
| `RunRegistry.Reservation.Activate` | src/run.rs:556-566 | Succeeds exactly when no drain took the entry |
| `RunRegistry.Reservation.Drop` | src/run.rs:574-582 | An uncommitted reservation gives its slot back |
| `RunRegistry.Groups.Terminate` | src/run.rs:603-619 | Only a positive group id is signalled |
| `RunRegistry.FinishRun` | src/broker.rs:1227-1231 | Only the party that removed the entry terminates the group |
| `RunRegistry.TerminateMatchingRuns` | src/broker.rs:1233-1253 | Each activated entry it took is terminated once, and nothing else |
| `ChildEnv.BuildChildEnv` | src/run.rs:228-268 | The child gets the allowlisted caller entries and then every selected secret, in order and byte for byte, exactly when no caller entry collides, nothing carries a NUL and all of it fits |
| `ChildEnv.OnlyAllowlistedCallers` | src/run.rs:79-88 | No caller entry outside the allowlist or with a forbidden name reaches the child |
| `ChildEnv.Push` | src/run.rs:236-252 | One entry is added exactly when the environment stays carriable |
| `Envelope.RoundTripsExactlyWhenPersistable` | src/envelope.rs:255-350 | For every header the source's types can hold, reading what was written gives the envelope back exactly when it is well formed and the writer's size check lets it through |
| `Envelope.SavedVaultsReopen` | src/envelope.rs:437-459 | After any number of reseals every honest passphrase still unlocks to the same keys, which open exactly the last document; the file reads back exactly when it is small enough to be written |
| `Envelope.HonestPassphraseUnlocks` | src/envelope.rs:377-411 | A passphrase that wraps the master key in some slot unlocks, whatever other slots there are |
| `Envelope.WrongPassphraseIsGeneric` | src/envelope.rs:371-411 | A passphrase that opens no slot gets the one generic refusal |
| `Envelope.OneBadSlotBlocksAll` | src/envelope.rs:483-503 | The recipe exists exactly when there is a passphrase slot and all of them are Argon2id with 19456 to 262144 KiB, 2 to 10 passes, 1 to 8 lanes and a 16-byte salt |
| `Envelope.CreateIsHonest` | src/envelope.rs:201-252 | A created envelope is well formed, has a header its codec keeps, and is honest for its own passphrase |
| `Envelope.Le32RoundTrip` | src/envelope.rs:269-273 | Little-endian lengths round trip modulo 2^32 |
| `Envelope.RecipeLists` | src/envelope.rs:483-503 | The recipe lists exactly the passphrase slots |
| `Envelope.ParsedIff` | src/envelope.rs:255-319 | What is taken for a vault, and as which: exactly a file of at most 16 MiB that is the magic, version 1, the length of a header of at most 1 MiB, that header, a nonce and a tagged ciphertext, the header decoding to one with one to eight slots of the right field sizes |
| `Envelope.UnlockOpenedASlot` | src/envelope.rs:377-411 | The keys an unlock returns came out of a passphrase slot under this passphrase, and the document key out of its wrapping under the master key |
| `Envelope.EnvelopeObject.Parse` | src/envelope.rs:255-319 | Same checks in the same order, same result |
| `Envelope.EnvelopeObject.ToBytes` | src/envelope.rs:322-333 | The byte layout |
| `Envelope.EnvelopeObject.ValidatePersistable` | src/envelope.rs:340-350 | Lets through exactly what fits the loader's caps |
| `Envelope.EnvelopeObject.ResealDocument` | src/envelope.rs:449-458 | Only nonce and ciphertext change |
| `Envelope.EnvelopeObject.OpenDocument` | src/envelope.rs:437-445 | Opens under the exact header |
| `Envelope.EnvelopeObject.KekRecipe` | src/envelope.rs:483-503 | The loop equals the recipe or its first fault |
| `Envelope.EnvelopeObject.Derive` | src/envelope.rs:506-515 | One key per recipe entry, in order |
| `Envelope.EnvelopeObject.UnlockWith` | src/envelope.rs:377-411 | The first slot that opens decides |
| `Envelope.EnvelopeObject.Unlock` | src/envelope.rs:359-361 | Recipe, derivation and unwrap composed |
| `Framing.ReadFrame` | src/mcp.rs:362-398 | The loop is the read as a function of the chunks; it takes the first line or reports it oversized, and the buffer never exceeds the cap and one chunk |
| `Framing.DrainFrame` | src/mcp.rs:403-427 | The loop is the drain as a function of the chunks |
| `Framing.DrainedReads` | src/mcp.rs:403-427 | Draining resumes exactly after the newline when resynced, and gives up only on a line longer than both caps |
| `Framing.FramedReads` | src/mcp.rs:362-398 | Whatever the chunks, one read takes the line that starts there; only a line longer than both caps may end it early |
| `Framing.ReadIsDeterministic` | src/mcp.rs:355-427 | The chunks make no difference to a read exactly when its line is within both caps together |
| `Framing.ReadSession` | src/mcp.rs:449-465 | The read loop is the session as a function of the chunks |
| `Framing.SessionSeesTheSplit` | src/mcp.rs:449-465 | Whatever the chunks, a session sees the newline split of the stream with each over-long line replaced by one oversize frame, or that split up to a line longer than both caps |
| `Framing.ChunksMatterOnlyInFloods` | src/mcp.rs:355-465 | Every way of chunking a stream gives its newline split exactly when no line is longer than both caps together |
| `Framing.OneFloodTwoOutcomes` | src/mcp.rs:387-425 | The shortest such line: skipped when it arrives whole, fatal to the session byte by byte |
| `Framing.ReadLineBounded` | src/wire.rs:102-131 | The result is a function of the bytes alone |
| `Framing.ReadersAgree` | src/wire.rs:102-131 | Both readers agree on every terminated line within the cap, and on nothing else do both yield a line |
| `Framing.SplitLosesNothing` | src/mcp.rs:362-398 | Joining the split gives the stream back |
| `Dotenv.SerializeRoundTrips` | src/dotenv.rs:21-42 | Output exists exactly for distinct valid keys with representable values, and a reader of the documented rules gets back exactly the sorted entries |
| `Dotenv.OrderDoesNotMatter` | src/dotenv.rs:21-30 | Result and errors are the same for every permutation of the input |
| `Dotenv.Serialize` | src/dotenv.rs:21-42 | The loops compute the rendering or the first fault |
| `Dotenv.EscapeValue` | src/dotenv.rs:63-85 | The loop computes the quoted form |
| `Dotenv.ValidateValue` | src/dotenv.rs:44-54 | Refuses exactly the control characters other than newline, carriage return and tab |
| `Dotenv.ValueRoundTrip` | src/dotenv.rs:56-85 | A value, bare or quoted, reads back exactly |
| `Dotenv.BareExactlyWhenPlain` | src/dotenv.rs:63-72 | A value is written bare exactly when it is not empty and has no white space, control character or character the shell would read; otherwise it is quoted |
| `Dotenv.OrderIsUnique` | src/dotenv.rs:22-23 | Distinct keys have one sorted arrangement |
| `Dotenv.NeighboursSuffice` | src/dotenv.rs:24-29 | Comparing neighbours finds every duplicate |
| `Store.EveryInterruptionIsSafe` | src/store.rs:42-94 | Wherever a save is interrupted the vault file holds the old content or all of the new and no other name changed; success only with the new content and nothing left behind, failure only with the old |
| `Store.Directory.SaveAtomic` | src/store.rs:42-94 | At most eight names are tried; it succeeds exactly when the first free name is created, written, synced and renamed; its run is a run of the step machine, and a failure whose clean-up works leaves nothing behind |
| `Store.Directory.Publish` | src/store.rs:69-87 | Write, sync, rename; any failure removes the temporary file |
| `VaultFile.VaultOutlivesEverything` | src/session.rs:3100-3155 | Down to the bytes: after any life of commits, locks, unlocks, failures, oversized documents and crashes at any file-system step, the vault file parses, the passphrase it was created with unlocks it, and what opens is exactly the stored document of the commit protocol; likewise the envelope in memory |
| `VaultFile.BytesFollow` | src/session.rs:268-306 | File and memory hold the two documents of the protocol through every life |
| `VaultFile.CommitFollows` | src/session.rs:3100-3155 | One commit changes bytes and protocol state alike |
| `VaultFile.SaveFollows` | src/store.rs:42-94 | Reseal, size check and atomic save, interrupted anywhere, leave in the file what the protocol says is stored |

## Left out

- Cryptographic internals: Argon2id, XChaCha20-Poly1305, HKDF, HMAC, Ed25519 and the random source are library calls.
- JSON, base64, hex case rules and timestamp formatting: an event carries the length of its JSON, which is what the ceilings depend on.
- Which project, keys, target and run fields an operation writes into its entry: they are hashed and MACed as part of the event (`Audit.Detail`) and come as inputs.
- Blank lines and torn lines of the log file, and failing reads of it.
- Project folders, path canonicalization, descriptors passed over the socket, file locks: their guarantees come from the kernel.
- SessionObject.Session.ProjectAdd: the checks of a project's folders and paths are not modelled, because projects carry no folders here.
- DaemonObject.BrokerDaemon.Inject: the contained file write is the kernel's; whether it succeeded is an input.
- The document's size at commit is an input (`tooLarge`) of `Commit` and `Lifetime`; `VaultFile` computes it from the bytes.
- Timestamps, display prefixes and `last_seen` of records, and the listing operations' results.
- SessionObject.Session.Create: the existence check, the minimum passphrase length and the instance lock are not modelled, because they decide before any of this state exists.
- SessionObject.Session.DoUnlock: whether a passphrase opens a slot is an input; the slots themselves are modelled in `Envelope`.
- DaemonObject.BrokerDaemon.LockAndDrain: the per-run revocation entries are not written in the model, because they are best effort and only extend the log, which `Lifetime.Noting` covers.
- DaemonObject.BrokerDaemon.EditAndDrain: the revocation entries of drained runs are omitted in the same way.
- DaemonObject.BrokerDaemon.AgentArm: a revealed value that is not UTF-8 is counted as revealed, although the reply then carries an error.
- DaemonObject.BrokerDaemon.AgentArm: the lookup and signalling of `run_signal` is one input verdict, because only its entry touches this state.
- DaemonObject.BrokerDaemon.HandleRequest: a request without any vault, several vaults and the handshake are not modelled.
- `handle_run` after its gate: the session lock is released there, so what a run records later comes as turns of its own (`Broker.RunNoting`), and run properties start at the reservation. The order in which a launch lists its values is not modelled.
- Signals, grace periods and reaping: a process group counts as terminated once it was signalled.
- The watchdog thread, connection caps, socket timeouts and zeroization.
- The MCP adapter's lease map and tool table, and `parse_run_params`: look-ups and shape checks that would add only easy members.
- `src/cli.rs`, `src/client.rs`, `src/main.rs`, `src/broker_identity.rs` and the dashboard.
- UTF-8 encoding of dotenv output: text is a sequence of Unicode scalar values.
