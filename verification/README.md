# Citrate Comms in Dafny

Citrate Comms is a server-blind messenger: members encrypt with MLS, a relay orders and stores
ciphertext, and the application state (deals, tasks, boards) is a replicated store carried inside
the messages. This project models the parts that have to be right for that to work and proves what
they guarantee, for all inputs and over whole runs.

| part | modules |
|---|---|
| Relay: the state machine and its small updates | `RelayState`, `RelaySteps`, `RelayEffects` |
| Relay: what every run guarantees | `RelayOrder`, `RelayHistory`, `RelayAuthority`, `RelayDelivery`, `RelayInvites`, `RelayOneTime`, `RelayClaims`, `RelayProvenance` |
| Relay: when each operation is accepted, to what effect, and why it is refused | `RelayAcceptance`, `RelayRefusals` |
| Relay: disk and restarts | `Bytes`, `Table`, `StoreLayout`, `Durability`, `DurableRuns` |
| Relay: the mutable object | `DeliveryService` |
| Audit hash chain, grants, nonces | `Audit`, `Rbac`, `Nonces` |
| Replicated domain store | `Lamport`, `DomainStore`, `Convergence`, `Replication`, `Views` |
| Member daemon's inbox | `Inbox`, `InboxReads`, `InboxWelcomes` |
| Relay and daemon together | `EndToEnd` |
| CSV export | `Csv` |
| Shared vocabulary | `Common`, `Proto` |

How the model is set up:

- The relay is a machine `Step` over sixteen operations, restart included, and `Exec` runs any
  sequence of them. `DeliveryService.Service` is the object as the source writes it, fields updated
  in place in loops, proved operation by operation to move as `Step` does. `Operate` lifts that to
  whole runs: an object that is started over an empty store, serves requests, and is dropped and
  reopened from its own store at each restart follows `Exec`, reply by reply. So the run theorems
  are theorems about the object.
- A restart in the machine only resets what lives in memory. `RestartsAreFaithful` shows that this
  is what a process that reopens its store really does: the disk is six ordered tables keyed by
  bytes, scanned in byte order.
- Hashes and signature recovery are arbitrary functions passed in as `Crypto`. Nothing is assumed of
  them: tamper evidence is stated as "equal, or here is a collision", and "signed" means that
  recovery names that wallet.
- MLS is an opaque handle with two partial functions, merging a Commit and opening a message.
- Replication is a system of any number of actors with Lamport clocks; any published event may
  reach any actor at any time, any number of times.
- Time, fresh nonces and the results of an MLS join are arguments.

Where the code does less than its own text says, the model follows the code:

- The domain store calls its fold commutative (crates/comms-core/src/domain/store.rs:62). Equal stamps keep the first
  value and a record's space comes from its first event, so that holds exactly for pairwise
  compatible events: `ConvergeExactly`, with `EqualStampsDiverge` as the smallest failure. Actors
  that stamp with their own clock and keep one space per entity never leave that case:
  `SystemConverges`. The idempotence it claims holds outright: `RedeliveryIsIdle`.
- `join_group` says everything else fetched stays buffered (crates/comms-member-daemon/src/lib.rs:400),
  and `stash` says that what it drops could never be consumed (lines 506-508). But `join_group` puts
  the batch back before its group is recorded, and a poll of any other group drops what waits for a
  group whose Welcome is still there: `UnjoinedSurvivesExactly` and `JoinGroupBatch` give the exact
  conditions, `BatchWithWelcome` an instance of each loss.
- A failing poll returns its error only: what it had decrypted before is consumed and never returned.
  `AnsweredExactly` says exactly when polls return everything they decrypt, `FailingPollSwallows` is the
  smallest loss.
- `OffboardAtomic` of formal/README.md has a removal and its Commit in one step. An offboard whose Commit
  repeats an accepted one drops the member with no Commit of its own: `OffboardIsOneStep` says exactly
  when, `ReplayedOffboardIsReachable` gives a run.
- A generation at `u64::MAX` no longer rises; `OffboardEndsGrantExactly` says exactly what survives.
- A revoke is meant to fail every later redeem (crates/comms-relay/src/lib.rs:693-694). Publishing the hash
  again, by any seated member and not only the minter, clears its consumed and revoked marks:
  `RevivedExactly` says that this is the only way back, `RevokedTokenReturns` plays it through to the
  referral. Single use is therefore per publication: `InviteAccounting`, `SpentUntilRepublished`.
- A comment gives KeyPackage rows an index in their key (crates/comms-core/src/store.rs:29); the
  code keys a wallet's whole queue by the wallet.

The relay results are unbounded counterparts of the invariants that formal/README.md names for the
delivery service and the audit chain.

## Model

| member | source | states |
|---|---|---|
| `DurableRuns.RestartsAreFaithful` | crates/comms-relay/src/lib.rs:256-376 | Durability refinement. For every run from a fresh relay, with any number of restarts anywhere in it, each at its own time, the process that really reopens its store (`Open` on what the writes left) reaches exactly the state of the machine in which a restart only resets nonces, sessions, claims and mailboxes. Only bound: no vector outgrows `isize::MAX` elements. |
| `DeliveryService.Operate` | crates/comms-relay/src/lib.rs:228-1198 | The object over all its lifetimes: started over an empty store, serving each request by its method, and dropped and reopened from its own store at each restart, it is after any sequence of operations exactly where the machine is, and gave each of the machine's replies. |
| `DurableRuns.ReopensAlong` | crates/comms-relay/src/lib.rs:256-376 | At every point of every run from a fresh durable relay, its store reopens to the machine's restart. |
| `DurableRuns.RunMirrored` | crates/comms-relay/src/lib.rs:389-464 | Over any run the store mirrors memory: audit records and referrals under their big-endian index and nothing else, snapshots equal to the groups, log entries under their sequence keys and nothing else, directory and invites row for row. |
| `DurableRuns.StepMirrored` | crates/comms-relay/src/lib.rs:401-464 | Each single operation keeps that agreement of store and memory, the two-write and three-write ones included. |
| `DurableRuns.FreshStart` | crates/comms-relay/src/lib.rs:263-292 | Opening an empty store is the initial durable relay, genesis record written. |
| `Durability.ReopenRebuilds` | crates/comms-relay/src/lib.rs:256-376 | Reopening a mirrored store gives back rosters, epochs, next sequence numbers, acceptance tables, trees, creators, generations, logs in sequence order, KeyPackage queues, invites, referrals and the verified chain, with only the volatile parts empty. |
| `Durability.LegacyReopenRebuilds` | crates/comms-relay/src/lib.rs:270-312 | A store whose snapshots carry no creator reopens to the same groups: the backfill finds each creator in the earliest creation record of the chain. |
| `Durability.LogIsRebuilt` | crates/comms-relay/src/lib.rs:313-322 | The scanned envelope rows under a group are its log in sequence order, however the groups' keys interleave. |
| `Durability.LedgerIsRebuilt` | crates/comms-relay/src/lib.rs:349-360 | Referral rows sorted by their decoded index give the ledger back in order. |
| `Durability.OpenRefusesExactly` | crates/comms-relay/src/lib.rs:256-360 | A store is refused if and only if its stored chain does not verify or a key has not the width of its column family. |
| `DeliveryService.OpenStore` | crates/comms-relay/src/lib.rs:256-376 | The replay loops compute `Open`: the same relay on a readable store, the same error on a broken chain or a malformed key. |
| `DeliveryService.ReplayChain` | crates/comms-relay/src/lib.rs:265-292 | Refuses exactly the stored chains whose walk fails, with that fault; starts and stores a genesis record when there are none. |
| `DeliveryService.ReplayCreators` | crates/comms-relay/src/lib.rs:270-279 | The loop over the chain keeps, per group, the creator of its earliest creation record. |
| `DeliveryService.Backfill` | crates/comms-relay/src/lib.rs:305-312 | Fills exactly the missing creators and nothing else. |
| `StoreLayout.ReplayLogs` | crates/comms-relay/src/lib.rs:313-322 | The push loop appends each row to its group and gives every group its own rows in scan order; a row of no group is skipped, a short key is an error. |
| `StoreLayout.ReplayGroups` | crates/comms-relay/src/lib.rs:294-304 | The snapshot loop rebuilds one group per row, or fails on a key that is not 32 bytes. |
| `StoreLayout.ReplayDirectory` | crates/comms-relay/src/lib.rs:324-336 | The directory loop rebuilds one queue per wallet row, or fails on a key that is not 20 bytes. |
| `StoreLayout.ReplayInvites` | crates/comms-relay/src/lib.rs:338-348 | The invite loop rebuilds one record per token-hash row, or fails on a key that is not 32 bytes. |
| `StoreLayout.ReplayReferrals` | crates/comms-relay/src/lib.rs:349-360 | The referral loop decodes every index and sorts; on the rows of any scan the result is the stored rows in key order; fails on a key that is not 8 bytes. |
| `StoreLayout.SortRowsSorts` | crates/comms-relay/src/lib.rs:359-360 | The sort is ascending in the index and keeps every row with its multiplicity. |
| `StoreLayout.ScannedIsSorted` | crates/comms-relay/src/lib.rs:349-360 | A scan of keys of one width is already in index order, so the sort leaves it as it is. |
| `RelayOrder.TotalOrder` | crates/comms-relay/src/lib.rs:1077-1190 | In every reachable state of every run: log entry i carries sequence i, `next_seq` is the log length, the Commits carry epochs 1..current in that order, the acceptance table holds exactly those epochs with those hashes, the chain verifies, and its receipts for the group are as many as the log entries, receipt i with the group, place i, and the epoch, sender, kind, ciphertext hash and size of entry i. |
| `RelayOrder.FirstCreatorExactly` | crates/comms-relay/src/lib.rs:270-279 | The creator read off a chain is the one named by the first record that creates the group. |
| `RelayOrder.StepKeepsInv` | crates/comms-relay/src/lib.rs:824-1190 | Every operation keeps the order and audit-agreement invariant. |
| `RelayOrder.AcceptedEpochs` | crates/comms-relay/src/lib.rs:1113-1159 | The epochs with an accepted Commit are exactly 1 to the current epoch. |
| `RelayOrder.StoredCommitIsAccepted` | crates/comms-relay/src/lib.rs:1161-1164 | Every Commit in the log is the one its epoch accepted, by hash. |
| `RelayOrder.PriorSeqFinds` | crates/comms-relay/src/lib.rs:1123-1137 | The search a replay makes finds the Commit of every committed epoch. |
| `RelayHistory.NoEpochFork` | crates/comms-relay/src/lib.rs:1113-1159 | What an epoch accepted at any point of a run it has at every later point; logs only grow and epochs never fall. |
| `RelayHistory.ConflictingCommitRefused` | crates/comms-relay/src/lib.rs:1113-1141 | A Commit with another hash for a committed epoch is refused and changes nothing, alone or inside an offboard. |
| `RelayHistory.ForkRefusedEverAfter` | crates/comms-relay/src/lib.rs:1113-1141 | Once an epoch has its Commit, every other Commit for it is refused in every later state of the run. |
| `RelayHistory.ReplayIsIdempotent` | crates/comms-relay/src/lib.rs:1123-1137 | An admissible resubmission of an accepted Commit answers the original position and changes no part of the state, disk included. |
| `RelayHistory.RunExtends` | crates/comms-relay/src/lib.rs:389-399 | Over any run the audit chain, every log, every acceptance table, creators and generations are append-only or monotone. |
| `RelayAcceptance.SubmitExactly` | crates/comms-relay/src/lib.rs:1054-1159 | In every reachable state a submission is sequenced if and only if its sender is the session's wallet and holds a session and a seat, it is within 4 MiB and 4096 recipients, all seated, and, for a Commit, it repeats the one its epoch accepted or is for the next epoch. |
| `RelayAcceptance.SubmitEffect` | crates/comms-relay/src/lib.rs:1161-1190 | A submission that is no repeat takes the next place in the log, moves epoch and acceptance table if it is a Commit, is fanned out, and is receipted field by field; nothing else changes. |
| `RelayAcceptance.OnboardExactly` | crates/comms-relay/src/lib.rs:881-936 | An onboard succeeds if and only if a seated session holder with the authority to add sends its own Welcome for this group, within the limits, to seated recipients or the joiner. |
| `RelayAcceptance.OffboardExactly` | crates/comms-relay/src/lib.rs:969-1006 | An offboard succeeds if and only if a seated session holder with the authority to remove (for the owner: the owner) names a seated member and sends its own Commit for this group, a repeat or one for the next epoch, within the limits. |
| `RelayAcceptance.RegisterExactly` | crates/comms-relay/src/lib.rs:824-843 | A group is registered if and only if its creator holds a session and the id is new; it starts with its creator alone, epoch 0 and an empty log, and is audited. |
| `RelayAcceptance.PublishPackageExactly` | crates/comms-relay/src/lib.rs:518-557 | A package is accepted if and only if its wallet holds a session, names this domain and a live nonce, bound the key itself with a 65-byte attestation, and has fewer than 64 queued; it is queued last and audited. |
| `RelayAcceptance.TakePackageExactly` | crates/comms-relay/src/lib.rs:562-571 | A take answers the oldest package whenever one is queued and removes exactly it. |
| `RelayAcceptance.ClaimExactly` | crates/comms-relay/src/lib.rs:601-619 | A claim is acknowledged if and only if its sender holds a session, and stored if and only if its ciphertext is new to the token and fewer than 16 wait. |
| `RelayAcceptance.ClearClaimsExactly` | crates/comms-relay/src/lib.rs:633-635 | Clearing drops exactly the claims of the token. |
| `RelayAcceptance.PublishInviteExactly` | crates/comms-relay/src/lib.rs:650-691 | An invite is minted if and only if the wallet holds a session and a seat in the existing group, the group state is non-empty and at most 4 MiB, and the hash is known or fewer than 4096 are kept. |
| `RelayAcceptance.RevokeInviteExactly` | crates/comms-relay/src/lib.rs:701-721 | A revoke succeeds if and only if the minter with a session asks, unless it asks to be told and the invite is used; it marks exactly that invite. |
| `RelayAcceptance.RedeemExactly` | crates/comms-relay/src/lib.rs:736-798 | A redeem succeeds if and only if the package is sane, the token is of this existing group, and it is neither revoked, consumed nor expired; seat, mark, ledger row and answer are given. |
| `RelayAcceptance.LoginExactly` | crates/comms-relay/src/lib.rs:474-486 | A login succeeds if and only if its nonce is live, chain and domain are the relay's, it has not expired, and the address it names signed it; it opens that wallet's session and spends the nonce. |
| `RelayAcceptance.ChallengeExactly` | crates/comms-core/src/identity.rs:59-67 | A challenge adds its nonce and drops exactly those issued ten minutes ago or earlier. |
| `RelayAcceptance.EndSessionExactly` | crates/comms-relay/src/lib.rs:501-503 | Ends exactly that wallet's session. |
| `RelayAcceptance.FetchExactly` | crates/comms-relay/src/lib.rs:1193-1198 | A fetch hands out the whole mailbox, empties it, and leaves every other alone. |
| `RelayAcceptance.RestartExactly` | crates/comms-relay/src/lib.rs:362-375 | A restart resets nonces, claims, mailboxes and sessions, and nothing else. |
| `RelayRefusals.RefusalsInOrder` | crates/comms-relay/src/lib.rs:474-1159 | In every reachable state an operation is refused if some reason for refusing it is true, and then for the first true one in the order in which the source makes its checks. |
| `RelayRefusals.RefusalsAreTrue` | crates/comms-relay/src/lib.rs:1233-1290 | Every refusal names a reason that is true of the request and the state, its numbers included. |
| `RelayProvenance.PackagesAreBound` | crates/comms-relay/src/lib.rs:518-571 | In every run from the start, each package ever taken or still queued was published by its own wallet, which held a session and had bound its key to this relay. |
| `RelayProvenance.InvitesWereMinted` | crates/comms-relay/src/lib.rs:650-691 | Every invite in a reachable state was minted earlier in the run by its inviter, who then held a session and a seat in its group. |
| `RelayProvenance.SeatProvenance` | crates/comms-relay/src/lib.rs:736-956 | In every run from the start, whoever has a seat got it by registering the group, by an entitled member's onboard, or by a token that a seated session holder of that very group had minted before. |
| `RelayAuthority.AuthorityProvenance` | crates/comms-relay/src/lib.rs:851-1040 | In every run each roster change by an onboard or offboard was asked for by a session-holding member whom the history of the run authorizes (see `AuthorityByHistory`) and who logged in with its own signature earlier in the run; only the owner removes the owner. |
| `RelayAuthority.AuthorityByHistory` | crates/comms-relay/src/lib.rs:851-875 | In every run the check accepts exactly the owner, the wallet the first creation record names if no operation of the run offboarded it from the group, and the subject of a live, capable, owner-signed grant for the group issued for as many offboards as the run has seen (up to saturation). |
| `RelayAuthority.GenerationCounts` | crates/comms-relay/src/lib.rs:124-136 | In every run a wallet's generation in a group is the number of its successful offboards from it, capped at `u64::MAX`. |
| `RelayAuthority.RosterProvenance` | crates/comms-relay/src/lib.rs:736-1040 | In any state a wallet appears on a roster only by register, redeem or an entitled onboard, and leaves only by an entitled offboard. |
| `RelayAuthority.SessionProvenance` | crates/comms-relay/src/lib.rs:474-508 | A wallet with a session signed a login with a live nonce for this domain and chain earlier in the run. |
| `RelayAuthority.AuthorizeExactly` | crates/comms-relay/src/lib.rs:851-875 | The check accepts exactly owner, generation-0 creator or capable owner-signed grant at the current generation. |
| `RelayAuthority.OffboardEndsAuthority` | crates/comms-relay/src/lib.rs:124-136 | Once a non-owner is offboarded at generation k below saturation, no grant up to k and no creator status authorizes it in that group in any later state, whatever follows. |
| `RelayAuthority.OffboardEndsGrantExactly` | crates/comms-relay/src/lib.rs:132-136 | A grant that authorized a member dies with its offboard if and only if its generation was below `u64::MAX`. |
| `RelayAuthority.OffboardRaisesGeneration` | crates/comms-relay/src/lib.rs:132-136 | A successful offboard below saturation strictly raises the member's generation. |
| `RelayAuthority.OffboardIsOneStep` | crates/comms-relay/src/lib.rs:969-1040 | A successful offboard drops exactly the named member, raises its generation, ends its session and answers the position of a Commit with the submitted hash. Exactly when that epoch was new, the Commit is appended to the log, entered in the acceptance table, fanned out and receipted, and the epoch advances. Then MemberRemoved and RoleRevoked follow on the chain; no other group changes. |
| `RelayAuthority.ReplayedOffboard` | crates/comms-relay/src/lib.rs:1006-1018 | An entitled admin who hands in an already accepted Commit removes the member all the same: roster changed, log, epoch, acceptance table and mailboxes not. |
| `RelayAuthority.ReplayedOffboardIsReachable` | crates/comms-relay/src/lib.rs:1123-1137 | A six-step run from the start that does it: log in, register, onboard, commit, offboard with the same Commit. |
| `RelayAuthority.OnboardIsOneStep` | crates/comms-relay/src/lib.rs:881-956 | A successful onboard seats exactly the joiner, logs the Welcome next, fans it out, stores the tree, appends receipt and MemberAdded to the chain, and moves neither the epoch nor another group. |
| `RelayAuthority.CreatorGoverns` | crates/comms-relay/src/lib.rs:824-875 | A new group has exactly its creator, who alone besides the owner may act in it without a grant. |
| `RelayEffects.RefusalChangesNothing` | crates/comms-relay/src/lib.rs:474-1159 | Every refused operation leaves the whole state, disk included, as it was, the onboard rollback included; a refused login has spent its nonce and a refused publication may have. |
| `RelayEffects.OnboardRefused` | crates/comms-relay/src/lib.rs:914-936 | A refused Welcome is rolled back completely: a joiner who was not on the roster leaves it, one who was stays. |
| `RelayEffects.OrderedFrame` | crates/comms-relay/src/lib.rs:881-1190 | Submit, onboard and offboard touch no nonce, directory, claim, invite or referral, and open no session. |
| `RelayDelivery.ExactDelivery` | crates/comms-relay/src/lib.rs:1161-1198 | Without a restart, for every wallet and group: everything fetched followed by the mailbox, restricted to the group, is what waited at the start followed by the log accepted since, each envelope as often as its recipients name the wallet. |
| `RelayDelivery.LifetimeDelivery` | crates/comms-relay/src/lib.rs:1161-1198 | From empty mailboxes, a whole process lifetime hands out exactly the log accepted in it. |
| `RelayDelivery.RecipientsOnRoster` | crates/comms-relay/src/lib.rs:1089-1111 | A newly logged envelope is the submitted one; its sender held a session and a seat, and everyone it names was on the roster or is the joiner being onboarded. |
| `RelayDelivery.FanOutCounts` | crates/comms-relay/src/lib.rs:1173-1175 | The fan-out adds one copy per mention, to the wallets named and to no other. |
| `RelayInvites.InviteAccounting` | crates/comms-relay/src/lib.rs:650-798 | Over any run, redeems of a token hash plus what it can still give never exceed what it could give at the start plus its publishes, and the ledger grows by exactly one correct row per redeem. |
| `RelayInvites.SpentUntilRepublished` | crates/comms-relay/src/lib.rs:678-798 | After a redeem or revoke no redeem of that hash succeeds in any continuation without a re-publish. |
| `RelayInvites.RevivedExactly` | crates/comms-relay/src/lib.rs:678-688 | A token that gives nothing becomes redeemable in a step if and only if that step is a successful publish of its hash. |
| `RelayInvites.RevokedTokenReturns` | crates/comms-relay/src/lib.rs:678-721 | After the minter revoked a token, any seated member with a session may publish its hash again; the token is then redeemed and the referral names that member. |
| `RelayInvites.RedeemAdmits` | crates/comms-relay/src/lib.rs:736-798 | A successful redeem used a live, unrevoked, unconsumed token of that group; it seats exactly the joiner, spends exactly that token and answers the minter's group info and the current epoch. |
| `RelayInvites.RedeemRow` | crates/comms-relay/src/lib.rs:785-796 | A redeem adds the row naming the minter, the joiner, the group, the token and the time; a refused one adds none. |
| `RelayOneTime.KeyPackagesAreOneTime` | crates/comms-relay/src/lib.rs:518-571 | Over any run a wallet's published packages are those taken followed by those queued, in order, and at most 64 wait. |
| `RelayOneTime.NoncesAreSingleUse` | crates/comms-relay/src/lib.rs:469-541 | Across logins and publications the successes naming a nonce never outnumber the times it was issued. |
| `RelayClaims.EarlyClaimsStay` | crates/comms-relay/src/lib.rs:601-635 | Until cleared or restarted, a token's claims inbox only grows at its end, holds at most sixteen claims and no ciphertext twice, so squatting cannot displace a claim. |
| `DeliveryService.Service.Serve` | crates/comms-relay/src/lib.rs:201-226 | Within one process lifetime, serving any sequence of requests on the mutable object is a run of the machine. |
| `DeliveryService.Service.Perform` | crates/comms-relay/src/lib.rs:228-1198 | Each request moves the object exactly as the machine's step and gives its reply. |
| `DeliveryService.Service.Submit` | crates/comms-relay/src/lib.rs:1077-1190 | The in-place ordered path (checks, replay search, epoch advance, log, two writes, fan-out loop, audit) meets its step. |
| `DeliveryService.Service.FindPrior` | crates/comms-relay/src/lib.rs:1123-1137 | The loop finds the sequence number of the first Commit of an epoch. |
| `DeliveryService.Service.Distribute` | crates/comms-relay/src/lib.rs:1173-1175 | The fan-out loop computes the counted fan-out, repeated recipients included. |
| `DeliveryService.Service.SubmitAs` | crates/comms-relay/src/lib.rs:1054-1067 | Refuses a sender other than the session's wallet, otherwise submits. |
| `DeliveryService.Service.Onboard` | crates/comms-relay/src/lib.rs:881-956 | Checks, provisional seat, Welcome, rollback or commit of the seat, in place, meet their step. |
| `DeliveryService.Service.Offboard` | crates/comms-relay/src/lib.rs:969-1040 | Checks, Remove, roster drop, generation, session, persist and the audit pair, in place, meet their step. |
| `DeliveryService.Service.AuthorizeMembershipOp` | crates/comms-relay/src/lib.rs:851-875 | The check chain gives the verdict that `AuthorizeExactly` characterizes, with the right error. |
| `DeliveryService.Service.PublishKeyPackage` | crates/comms-relay/src/lib.rs:518-557 | Session, domain, nonce, binding and quota are checked in that order, the nonce spent before the binding is looked at. |
| `DeliveryService.Service.TakeKeyPackage` | crates/comms-relay/src/lib.rs:562-571 | Pops the oldest package and rewrites the stored queue, or answers none. |
| `DeliveryService.Service.SubmitClaim` | crates/comms-relay/src/lib.rs:601-619 | The duplicate search and the cap, keeping the earliest claims. |
| `DeliveryService.Service.PublishInvite` | crates/comms-relay/src/lib.rs:650-691 | Session, group, seat, size and quota are checked in order; a re-publish overwrites. |
| `DeliveryService.Service.RevokeInvite` | crates/comms-relay/src/lib.rs:701-721 | Only the minter revokes; a used token is reported when asked. |
| `DeliveryService.Service.RedeemInvite` | crates/comms-relay/src/lib.rs:736-798 | The refusals in the source's order, then roster, consume, ledger and three writes. |
| `DeliveryService.Service.ReferralTally` | crates/comms-relay/src/lib.rs:804-814 | One entry per inviter of the ledger, in address order, with the number of its distinct joiners. |
| `DeliveryService.Service.RegisterGroup` | crates/comms-relay/src/lib.rs:824-843 | A session holder creates a group that does not exist yet. |
| `DeliveryService.Service.Authenticate` | crates/comms-relay/src/lib.rs:474-486 | Opens the session of exactly the wallet the login verifies. |
| `DeliveryService.Service.Fetch` | crates/comms-relay/src/lib.rs:1193-1198 | Drains one mailbox and leaves the others. |
| `DeliveryService.Service.constructor` | crates/comms-relay/src/lib.rs:230-249 | An in-memory relay starts as the initial state. |
| `Audit.HeadCommitsToHistory` | crates/comms-core/src/audit.rs:24-142 | With nothing assumed of the hash: two valid non-empty chains with one head hash are equal record by record, or two of their records are an explicit collision. |
| `Audit.TamperIsDetected` | crates/comms-core/src/audit.rs:118-142 | A different list with the honest head fails verification unless it contains a collision. |
| `Audit.WalkExactly` | crates/comms-core/src/audit.rs:118-142 | The walk accepts exactly the valid chains, and otherwise reports the fault of the first unsound record. |
| `Audit.FaultIsTrue` | crates/comms-core/src/audit.rs:118-142 | The fault reported of a record is true of it: wrong sequence, non-zero genesis link, broken link or wrong hash. |
| `Audit.AppendKeepsValid` | crates/comms-core/src/audit.rs:78-95 | Appending keeps a chain valid and every earlier record in place, and adds one record of that event at that time. |
| `Audit.BuiltIsValid` | crates/comms-core/src/audit.rs:51-95 | Every chain made by `new` and `append` verifies, with one record per event after the genesis. |
| `Audit.AuditChain.constructor` | crates/comms-core/src/audit.rs:51-64 | A new chain is the one-record genesis chain and is valid. |
| `Audit.AuditChain.FromRecords` | crates/comms-core/src/audit.rs:68-75 | Adopts exactly the non-empty lists that verify; otherwise gives the walk's fault, or `Empty`. |
| `Audit.AuditChain.Append` | crates/comms-core/src/audit.rs:78-95 | Extends the list by one linked record and keeps it valid; refuses on an empty list. |
| `Audit.AuditChain.VerifyIntegrity` | crates/comms-core/src/audit.rs:118-142 | The loop with the running previous hash accepts exactly the valid chains and reports the first fault. |
| `Rbac.GrantAcceptedExactly` | crates/comms-core/src/rbac.rs:179-258 | A grant is accepted for a group and generation exactly when the owner signed these very fields for that subject, scope and generation and it has not expired. |
| `Rbac.SignedGrantVerifies` | crates/comms-core/src/rbac.rs:116-258 | A grant the owner signs verifies for its own group and generation until it expires, and for no other. |
| `Rbac.CapabilityMatrix` | crates/comms-core/src/rbac.rs:35-73 | Which roles hold each capability, and which roles each role may grant. |
| `Rbac.SignsExactly` | crates/comms-core/src/rbac.rs:137-174 | A grant is signed if and only if the issuer's role may grant the role, and says what it was asked to say. |
| `Rbac.NoEscalation` | crates/comms-core/src/rbac.rs:64-174 | Whatever anyone but the owner manages to sign carries no membership or role-assignment power. |
| `Nonces.NonceStore.Issue` | crates/comms-core/src/identity.rs:60-67 | After an issue the live nonces are the new one and exactly the older ones still within the time limit. |
| `Nonces.NonceStore.Consume` | crates/comms-core/src/identity.rs:68-70 | Answers whether the nonce was live and removes exactly it. |
| `Nonces.NonceStore.VerifyLogin` | crates/comms-core/src/identity.rs:120-153 | The nonce is spent whatever the verdict; unknown nonce, chain, domain, expiry, signature and address are checked in that order. |
| `Bytes.SeqKeyOrder` | crates/comms-core/src/store.rs:153-158 | Under one prefix the byte order of the keys is the numeric order of the indices, over all of `u64`. |
| `Bytes.SeqKeyParts` | crates/comms-core/src/store.rs:153-158 | A key gives back its prefix and its index. |
| `Bytes.BigEndianOrder` | crates/comms-core/src/store.rs:153-158 | Big-endian byte order is numeric order at every width. |
| `Bytes.ValueOrder` | crates/comms-core/src/store.rs:153-158 | Among keys of one length, byte order is the order of the numbers they decode to. |
| `Table.ScanIsUnique` | crates/comms-core/src/store.rs:125-133 | A table has one listing in key order. |
| `Table.ScanReadsBack` | crates/comms-core/src/store.rs:125-133 | Reading a scan back into a map gives the table. |
| `Table.ScanTable` | crates/comms-core/src/store.rs:125-133 | The iterator loop yields that listing. |
| `Replication.SystemConverges` | crates/comms-core/src/domain/store.rs:75-108 | After any run of any number of actors that tick, stamp, publish and receive in any order with any repeats, two actors that received the same set of events hold equal records, provided no ticking clock overflows and each entity keeps one space. |
| `Replication.RunIsSane` | crates/comms-core/src/domain/mod.rs:71-89 | Over any such run stamps of different events differ, every clock is past all it has received, and every store is the fold of what it received. |
| `Replication.MoveEffect` | crates/comms-core/src/domain/mod.rs:76-89 | An emit publishes one event in its actor's name, and an emit or receipt reaches exactly that actor. |
| `Replication.EmitsAfterReceived` | crates/comms-core/src/domain/mod.rs:76-89 | An actor's next event is stamped after everything it has received. |
| `Lamport.TickExceedsObserved` | crates/comms-core/src/domain/mod.rs:76-89 | A tick after an observation exceeds both counters exactly when neither stands at `u64::MAX`. |
| `Lamport.BeforeTotal` | crates/comms-core/src/domain/mod.rs:56-63 | The stamp order is a strict total order, by counter and then by the bytes of the actor. |
| `Lamport.BeforeTransitive` | crates/comms-core/src/domain/mod.rs:56-63 | The stamp order is transitive. |
| `Lamport.LamportClock.Tick` | crates/comms-core/src/domain/mod.rs:76-82 | Stamps with the advanced counter and the clock's own actor. |
| `Lamport.LamportClock.Observe` | crates/comms-core/src/domain/mod.rs:84-88 | The counter becomes the larger of the two. |
| `Convergence.Converge` | crates/comms-core/src/domain/store.rs:75-108 | Two replicas that folded the same set of pairwise compatible events, in any order and with any repeats, hold equal records. |
| `Convergence.ConvergeExactly` | crates/comms-core/src/domain/store.rs:75-108 | Replicas agree on every part of a history if and only if its events are pairwise compatible: one space per entity, and no stamp shared by two values of a field. |
| `Convergence.CommuteExactly` | crates/comms-core/src/domain/store.rs:75-108 | Two events commute on a fresh store if and only if they are compatible. |
| `Convergence.EqualStampsDiverge` | crates/comms-core/src/domain/store.rs:83-92 | Concretely: two titles with one stamp leave different stores in the two orders. |
| `Convergence.FoldSummarizes` | crates/comms-core/src/domain/store.rs:75-108 | Each record holds, per field, the value of the latest write, and the stamp of the latest delete, whatever the order. |
| `Convergence.SetFieldsExactly` | crates/comms-core/src/domain/store.rs:83-92 | An upsert writes each field it proposes when that is missing or older, its first mention winning, and touches no other. |
| `Convergence.RedeliveryIsIdle` | crates/comms-core/src/domain/store.rs:60-108 | Idempotence with no condition on the events: once a replica has folded a list, delivering any of it again, in any order and any number of times, changes nothing. |
| `Convergence.StampsRise` | crates/comms-core/src/domain/store.rs:83-98 | Whatever arrives, no field or tombstone moves back in time. |
| `Convergence.SnapshotCatchUp` | crates/comms-core/src/domain/store.rs:308-325 | A restored snapshot of a replica that folded H, then folded with any E (overlaps allowed), is the store of any replica that saw the same events. |
| `Convergence.DeletedIsInvisible` | crates/comms-core/src/domain/store.rs:94-112 | An entity with any delete among the events is not live, whatever else arrived and in whatever order. |
| `DomainStore.Store.Apply` | crates/comms-core/src/domain/store.rs:75-101 | The in-place update, field loop included, is the fold step the convergence results are about. |
| `DomainStore.Store.ApplyAll` | crates/comms-core/src/domain/store.rs:104-108 | The loop is the fold. |
| `DomainStore.Store.Snapshot` | crates/comms-core/src/domain/store.rs:308-316 | Whatever order the map yields, rebuilding from the entries gives the same records, one entry per record. |
| `DomainStore.Store.FromSnapshot` | crates/comms-core/src/domain/store.rs:319-325 | The rebuild loop gives the records the entries list. |
| `Views.IdsIn` | crates/comms-core/src/domain/store.rs:114-123 | Exactly the ids of that kind whose record is in the space and not deleted, in ascending byte order, each once. |
| `Views.Pipeline` | crates/comms-core/src/domain/store.rs:209-224 | Five lanes, Lead, Qualified, Proposal, Won, Lost; each holds, in id order, exactly the deals of the space with that stage, column by column as their records show them, and a live deal whose stage field holds a stage's tag stands in that lane and in no other. |
| `Views.StageRoundTrip` | crates/comms-core/src/domain/store.rs:399-416 | A stage's tag reads back as the stage, and any other string as Lead. |
| `Views.StatusRoundTrip` | crates/comms-core/src/domain/store.rs:451-466 | A status' tag reads back as the status, and any other string as Todo. |
| `Views.DealShown` | crates/comms-core/src/domain/store.rs:186-199 | Each column of a deal is what the field of its name holds, of the right type, or its default. |
| `Views.TaskShown` | crates/comms-core/src/domain/store.rs:245-261 | Each column of a task is what the field of its name holds, of the right type, or its default. |
| `Views.DealsIn` | crates/comms-core/src/domain/store.rs:186-206 | Exactly the live deals of the space, column by column as their records show them, in id order. |
| `Views.TasksInColumn` | crates/comms-core/src/domain/store.rs:245-274 | Exactly the live tasks whose board and column fields refer to this column, column by column as their records show them, by order and then id. |
| `Views.ColumnViewIsUnique` | crates/comms-core/src/domain/store.rs:264-274 | A column has one view, so replicas with equal records show it identically although maps yield any order. |
| `Views.BoardOf` | crates/comms-core/src/domain/store.rs:276-302 | A live board with its space, its name and exactly the live columns whose board field refers to it, named, by order and then id; none for a board that is not live. |
| `Views.BoardViewIsUnique` | crates/comms-core/src/domain/store.rs:276-302 | A board has one view. |
| `Views.DeletedInNoView` | crates/comms-core/src/domain/store.rs:110-302 | An entity with any delete among the events is in no list, lane, column or board. |
| `Inbox.InboxConserves` | crates/comms-member-daemon/src/lib.rs:383-518 | With no condition: over any sequence of arrivals, polls and joins, the Commit and Application traffic of any group is what its polls were allowed to take (see `EatenExactly`) and what was lost, step by step in order, followed by what still waits in order: nothing repeated or reordered. |
| `Inbox.ConservedExactly` | crates/comms-member-daemon/src/lib.rs:383-518 | A group's traffic leaves only through polls of that group, in order, if and only if no step of the run loses any. |
| `Inbox.RoomyLosesNothing` | crates/comms-member-daemon/src/lib.rs:509-518 | A joined group loses nothing, however much waits at the relay, over any run whose put-backs fit the cap of 4096. |
| `Inbox.StepConserves` | crates/comms-member-daemon/src/lib.rs:383-518 | In any state and for any group, a step accounts for all of its traffic: only a poll of that group consumes any, up to and including the first envelope that does not decrypt; lost is what the cap clips of a known group's put-back, or all that waits for a group not known at the put-back. |
| `Inbox.PollAnswersExactly` | crates/comms-member-daemon/src/lib.rs:753-840 | However much waits, a successful poll returns exactly the group's decrypted Application messages in order, each at the state its predecessors left, and leaves none; a poll fails exactly when some decryption does, and then puts back all traffic after the first failing envelope. |
| `Inbox.PollErrorIsTrue` | crates/comms-member-daemon/src/lib.rs:836-839 | A failing poll reports the error of the first envelope that does not decrypt. |
| `Inbox.MessagesAreAuthentic` | crates/comms-member-daemon/src/lib.rs:802-821 | Every returned message is of the polled group, with the text and the sender the engine authenticated for an envelope that waited, not the sender the relay put on it. |
| `Inbox.TryExactly` | crates/comms-member-daemon/src/lib.rs:782-822 | Each outcome of handling one envelope, in terms of the engine's answer. |
| `Inbox.FailingSiftExactly` | crates/comms-member-daemon/src/lib.rs:781-828 | A failing poll takes of its group's traffic exactly the part up to and including the first envelope that does not decrypt at the state its predecessors left, reports that envelope's error, keeps all the rest, and leaves the handle from before it, or the one the engine had moved to when text or sender turned out bad. |
| `Inbox.SiftStops` | crates/comms-member-daemon/src/lib.rs:775-828 | The loop keeps exactly the other groups' envelopes up to the point where it stops and every envelope after it. |
| `Inbox.EatenExactly` | crates/comms-member-daemon/src/lib.rs:825-828 | What a poll may take, defined on the traffic alone, is all of it when it decrypts and otherwise the shortest part that does not. |
| `Inbox.SiftOthers` | crates/comms-member-daemon/src/lib.rs:775-781 | A poll keeps every other group's traffic in order. |
| `Inbox.JoinGroupBatch` | crates/comms-member-daemon/src/lib.rs:383-410 | `join_group` keeps its group's waiting traffic if and only if there is none, or the group was joined already and none of it is clipped. |
| `Inbox.JoinGroupExactly` | crates/comms-member-daemon/src/lib.rs:383-410 | `join_group` answers that nothing waits if and only if no Welcome of the group does, succeeds if and only if the engine accepts the first one, and joins at most that group, exactly when it succeeds. |
| `Inbox.UnjoinedSurvivesExactly` | crates/comms-member-daemon/src/lib.rs:506-518 | Traffic of a group not joined yet survives a step if and only if there is none, the step does not drain, or it is a `join_pending` for which an acceptable Welcome of the group waits and which clips none of it. |
| `Inbox.BatchWithWelcome` | crates/comms-member-daemon/src/lib.rs:400-410 | Concretely: a message that arrives in one batch with its Welcome is lost by `join_group`, lost by a poll of another group although the Welcome stays, and kept by `join_pending`. |
| `Inbox.JoinPendingKeepsBatch` | crates/comms-member-daemon/src/lib.rs:420-447 | For every group it ends up in, what waited before `join_pending` is what the cap clips followed by what waits after. |
| `Inbox.AdmitsExactly` | crates/comms-member-daemon/src/lib.rs:425-440 | `join_pending` ends up in exactly the groups it was in and those for which an acceptable Welcome waits. |
| `InboxReads.AnsweredExactly` | crates/comms-member-daemon/src/lib.rs:753-840 | Over any run, the messages the polls of a joined group return are exactly the decryptions of what they consumed if and only if none of them fails after decrypting an Application. |
| `InboxReads.RunReads` | crates/comms-member-daemon/src/lib.rs:753-840 | Over any run, a joined group's handle is the one that everything its polls consumed leads to, failing envelopes passed over, and what was decrypted on the way was returned or swallowed by a failing poll. |
| `InboxReads.FailingPollSwallows` | crates/comms-member-daemon/src/lib.rs:836-839 | Concretely: a good message before a bad one is decrypted, not returned, and gone. |
| `InboxWelcomes.WelcomesAccounted` | crates/comms-member-daemon/src/lib.rs:383-447 | In every step the Welcomes of a group not joined stay in order, but for those used up: the first by `join_group` when the engine accepts it (else it moves to the end), the tried ones by `join_pending`, and what the cap clips. |
| `InboxWelcomes.WelcomesStayExactly` | crates/comms-member-daemon/src/lib.rs:404-408 | No Welcome of a group not joined leaves in a step if and only if none waits, the step does not drain, or the cap clips none and the step is neither a `join_pending` nor a `join_group` whose first Welcome is accepted; so polls never take one and a failed `join_group` keeps it. |
| `EndToEnd.MemberReadsLog` | crates/comms-member-daemon/src/lib.rs:499-504 | Relay and daemon together, in one relay lifetime: a joined member under the cap consumes, in log order and with nothing missing, the Commits and Applications of the group's log that name it, as often as they do; its handle is the one they lead to; and its polls return exactly their decryptions if and only if none fails after decrypting one. |
| `EndToEnd.LogReachesMember` | crates/comms-relay/src/lib.rs:1161-1198 | With no condition on the daemon: what waited followed by the member's part of the log accepted since is what the daemon consumed and lost, followed by what waits in its buffer and at the relay. |
| `EndToEnd.RunSplits` | crates/comms-member-daemon/src/lib.rs:499-504 | A joint run is a run of the relay machine and a run of the daemon, and what the relay handed out is exactly what arrived. |
| `Inbox.MemberDaemon.TakeInbox` | crates/comms-member-daemon/src/lib.rs:499-504 | Drains the buffer followed by the mailbox. |
| `Inbox.MemberDaemon.Stash` | crates/comms-member-daemon/src/lib.rs:509-518 | Appends what a later call can use, then drops the oldest beyond 4096. |
| `Inbox.MemberDaemon.PollMessages` | crates/comms-member-daemon/src/lib.rs:753-840 | The drain, loop and put-back meet the poll the results above are about, reply included. |
| `Inbox.MemberDaemon.JoinNamed` | crates/comms-member-daemon/src/lib.rs:383-410 | Meets the join above; answers success exactly when a Welcome waits and the engine accepts it. |
| `Inbox.MemberDaemon.JoinEverything` | crates/comms-member-daemon/src/lib.rs:420-447 | Meets the join above; the reply lists the newly joined groups in order, and is an error exactly when nothing was joined and some Welcome failed. |
| `Inbox.SiftLoop` | crates/comms-member-daemon/src/lib.rs:775-828 | The loop with its early exits computes the sift: handle, kept envelopes, failure and messages. |
| `Csv.TableRoundTrip` | webapp/src/components/crm/CrmTable.tsx:87-91 | A reader for section 2 of RFC 4180 that takes every line break as a separator reads a whole export back row for row, each cell with an apostrophe in front when it began with a formula character. |
| `Csv.FileRoundTripExactly` | webapp/src/components/crm/CrmTable.tsx:87-91 | A reader that also takes the optional line break after the last record reads an export back whole if and only if it is one row long or its last row is not one empty cell. |
| `Csv.FileReadsFound` | webapp/src/components/crm/CrmTable.tsx:87-91 | That reader finds all rows but a last row of one empty cell. |
| `Csv.LastEmptyCellIsLost` | webapp/src/components/crm/CrmTable.tsx:87-91 | Concretely: a header and one empty cell read back as the header. |
| `Csv.RowRoundTrip` | webapp/src/lib/csv.ts:12-15 | Any non-empty row reads back as its cells, each with an apostrophe in front if and only if it begins with =, +, -, @, a tab or a carriage return. |
| `Csv.CellRoundTrip` | webapp/src/lib/csv.ts:12-15 | A printed cell is read back and ends where it should, whatever separator follows; one without quote, comma or line break is printed unquoted. |
| `Csv.NoDecodedFormula` | webapp/src/lib/csv.ts:10-15 | No cell that either reader decodes from an export begins with =, +, -, @, a tab or a carriage return. |

## Left out

- Failing and partial disk writes: every write succeeds, and no crash falls inside an operation; the source promises nothing about memory and disk after one.
- CBOR encoding and decoding errors: values are stored as values; member lists and acceptance tables of a snapshot are kept as a set and a map.
- Real cryptography: digests, signing strings and recovery are functions of their inputs, and the ways recovery can fail are one error, `Unrecoverable`.
- Encryption at rest, key handling and RocksDB itself: a column family is an ordered map.
- MLS internals, ratchet trees and what a removed member can decrypt: the handle is opaque and the tree a byte string.
- Integer widths: sequence numbers, sizes and times are natural numbers. The saturating generation, the epoch's checked increment and the wrapping Lamport tick are modelled; a sequence number cannot reach `u64::MAX` before its log vector is full.
- Vectors longer than `isize::MAX`: excluded from the durability results by `Fits`, since no process can hold one.
- Reopening a store under another domain or workspace owner: a restart keeps both.
- Restart of an in-memory relay: refused in the machine, since nothing is stored to reopen.
- Read-only queries (`poll_claims`, `group_log`, `group_members`, `ratchet_tree`, counts): they return a field.
- Audit events no modelled operation appends (agents added or removed, roles asserted).
- EndToEnd.MemberReadsLog: covers one relay lifetime, since a restart empties the mailboxes, and a wallet for which no other client fetches.
- The rest of a daemon's life: create, add, send, offboard, role changes, `reconcile_roster`, rosters and persistence of its own state. In the model, writing that state succeeds.
- Conversations, threads, contacts, accounts and projects: they read fields of a live record, as the modelled views do.
- Replication.SystemConverges: assumes no clock that ticks stands at `u64::MAX` and one space per entity; `ConvergeExactly` and `TickExceedsObserved` say what happens otherwise.
- CSV reading: besides CRLF the readers take the bare line feed the export writes as a line break, and any character but quote, comma, line feed and carriage return as plain text, where section 2 of RFC 4180 has printable ASCII.
- WebSocket transport, client connector, admin surface, command-line programs, desktop and web interface, release manifest, attachments, mentions and notifications.
