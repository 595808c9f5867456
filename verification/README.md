# The relay's protocol, modelled and proved

The relay lets hosts and their paired mobile devices exchange end-to-end encrypted frames
through a server that cannot read them. This project models the five parts of it on which
safety depends, and proves what holds of them for every input, every run and every
interleaving:

- **Pairing** (`Tables`, `Hosts`, `Pairing`, `PairingRequests`, `PairingService`, and the results in
  `PairingSteps`, `ClaimLife`, `PairingInvariants`, `DeviceHistory`, `EagerExpiry`,
  `ApprovalRules`, `PairingAnswers`, `RequestRules`, `ListingOrder`; `Scenarios` has runs of real
  requests and `Samples` values that validation accepts). The store is five maps keyed by the
  primary keys. A transaction is one atomic step `Execute`: sweep what is overdue, act, and on error
  put everything back. The service class runs the same operations statement by statement and is
  proved to take exactly those steps.
- **Authentication** (`Auth`, `AuthService`, `Protocol`, `ProtocolSafety`, `SignedApprovals`,
  `Vouching`, `LockedHosts`, `ActiveSubjects`, `AuthRules`, `Handlers`). `Protocol` interleaves
  single statements: the key read with its signature check, the challenge update and the ticket
  insert of `Prove`, ticket use, the three steps of the approve handler, and every pairing
  transaction. A request in flight is its program counter and what it has read.
- **The session hub** (`RouteKeys`, `Hub`, `HubServer`, `HubRuns`, `HubSafety`, `HubTickets`,
  `HubLogs`, `HubTheorems`, `HubTenants`, `HubOrder`, `HubLife`, `HubRules`, `HubScenarios`,
  `Misrouting`). Moves are the critical sections under the server's mutex, the handler's steps
  outside it (among them the write of a frame, which follows its routing decision after the lock is
  released), the ticket a connection is admitted on, and pairing transactions.
- **Wire encodings** (`Text`, `Base64Url`, `Keys`, `Canonical`, `Transcripts`, `Decimal`, `Frames`,
  `FrameGrammar`, `FrameRules`, `FrameSizes`, `TranscriptLayout`, `Alphabets`).
- **The challenge limiter** (`Limiter`).

The operations are functions and methods named after the source. What they answer and store is
stated a second time without them, in the columns of the tables, the texts of the wire and the
numbers of the protocol, by the modules called Rules, Answers, Order, Layout and the like.

Cryptography enters as function-valued parameters (`Env`, `Crypto`, `Digest`), so nothing is
assumed of it except where a lemma says so. Clock readings, random values and the outcome of
socket writes are parameters as well.

Where the source and its promises differ, the code is followed, a run of real requests shows the
failure, and the exact condition is proved:

- `CancelInvite` looks its invite up under trimmed names but cancels claims under the names as
  given. Each pending claim keeps a pending invite if and only if the names were trimmed or the
  invite has no live claim (`CancelInviteBacking`, with `UntrimmedCancelLeavesClaimPending`).
- Lazy expiry cannot be told from eager expiry except by the `updatedAt` of an expired claim,
  which shows when the expiry was noticed (`RepliesEqualUnlessLate`, with `LateReadingDiffers`).
- The lifetime check of `Prove` subtracts in 64 bits, so it also passes when the subtraction
  overflows (`LifetimeCheck`, with `OverlongChallengePasses`). The bound on acceptance is proved
  without it, from the rows the relay itself wrote.
- Accepting a ticket vouches for the device it names, over every run, exactly when the device is
  the subject (`AcceptanceVouchesForDevice`, with `AcceptedForAbsentDevice`).
- Enrolment accepts signing keys with white space at the ends and authentication does not
  (`AuthWantsTrimmedKeys`), so such a host is locked out for good (`LockedOutHost`).
- A frame may be written after its device was revoked: exactly when its routing decision, made
  under the lock, came before the revocation (`WriteAfterRevocation`, with
  `WriteLandsAfterRevocation`). No decision is made after it (`NoDecisionAfterRevocation`).
- Tenant ids hold no slash, so no frame ever crosses tenants (`NoFrameCrossesTenants`). Within a
  tenant a joined route key determines host and device exactly when no other slash cuts them into
  two names (`UnsharedMeansClean`); exactly then no run routes a frame of the one device to another
  (`MisroutesExactly`, with `SharedKeyMisroutes`).
- The strict decoder of the auth and pairing services skips line breaks, so it does not fix the
  spelling (`DecodeExactAccepts`, `DecodeExactIsNotCanonical`); the frame parser's does.
- The limiter admits at most `2 * limit - 1`, not `2 * limit`, requests in a minute, and that is
  reached (`AdmissionsAreBounded`, `BoundIsReached`).

Verify with `dafny verify dfyconfig.toml`.

## Model

| member | source | states |
|---|---|---|
| `PairingService.Service.ApproveClaim` | internal/pairing/service.go:381-563 | the transaction, statement by statement with rollback and a store fault at any statement, is the atomic step of the request or leaves every table as it was |
| `PairingService.Service.ApproveValidated` | internal/pairing/service.go:391-562 | the same after validation; once the device upsert succeeded neither late guard can fire |
| `PairingService.Service.Conclude` | internal/pairing/service.go:503-562 | the claim, sibling and invite updates: success exactly with one live claim and one open invite, any failure restores the saved tables |
| `PairingService.Service.ExpirePending` | internal/pairing/service.go:804-818 | marks exactly the overdue pending claims and invites |
| `PairingService.Service.CreateInvite` | internal/pairing/service.go:124-170 | the atomic step of the validated request, with its error cases |
| `PairingService.Service.SubmitClaim` | internal/pairing/service.go:172-259 | the atomic step of the validated request, with its error cases and rollback of the sweep |
| `PairingService.Service.GetClaimWithToken` | internal/pairing/service.go:261-308 | the sweep is committed and the claim shown only to the holder of its token |
| `PairingService.Service.ListPendingClaims` | internal/pairing/service.go:310-363 | after the sweep, exactly the host's pending claims, each once, ordered by creation and then claim id |
| `PairingService.Service.ClaimDeviceID` | internal/pairing/service.go:365-379 | the device of the claim under that tenant and host, or claim_not_found |
| `PairingService.Service.RejectClaim` | internal/pairing/service.go:565-595 | the atomic step: a live pending claim becomes rejected, anything else rolls back |
| `PairingService.Service.CancelClaim` | internal/pairing/service.go:597-644 | the atomic step: only with the claim's token, only while pending |
| `PairingService.Service.CancelInvite` | internal/pairing/service.go:646-687 | the atomic step with trimmed names for the invite and the given names for its claims |
| `PairingService.Service.RevokeDevice` | internal/pairing/service.go:733-749 | the atomic step: an active row becomes revoked, anything else is device_not_found |
| `PairingService.OrderedIds` | internal/pairing/service.go:321-328 | the ids of a table in the order of the listing query, each once |
| `PairingRequests.PlanIsOk` | internal/pairing/service.go:124-146 | whatever the request, its action is admissible: an accepted invite lives at most ten minutes and its names are trimmed |
| `PairingRequests.ApprovalNamesAreTrimmed` | internal/pairing/service.go:779-802 | a validated approval names its claim exactly as it is stored |
| `PairingSteps.ExecuteMoves` | internal/pairing/service.go:124-749 | every operation, failed or not, moves claims and invites out of pending at most once, approves at most the one claim it names, consumes only that claim's invite and never replaces a registered identity |
| `PairingSteps.ApprovalTouchesOnly` | internal/pairing/service.go:471-562 | an approval changes its claim, turns its pending siblings consumed, changes its invite and its device, and no other row of any table |
| `PairingSteps.AfterApprovalMoves` | internal/pairing/service.go:471-562 | an approval is a step that its claim wins: approved in time, its invite consumed, no identity replaced |
| `ClaimLife.ClaimEnds` | internal/pairing/service.go:503-687 | how a pending claim ends: approved if named, consumed if a sibling wins, rejected or cancelled by name, cancelled with its invite under the given name, expired if overdue; a failed operation ends nothing and an ended claim never changes |
| `ClaimLife.InviteEnds` | internal/pairing/service.go:535-687 | the same for invites: consumed by the claim that wins it, cancelled by its trimmed name, expired if overdue |
| `PairingAnswers.SweepMarks` | internal/pairing/service.go:804-818 | exactly the overdue pending rows are marked, with the moment they are noticed |
| `PairingAnswers.InviteAnswers` | internal/pairing/service.go:143-170 | a new invite needs an active host and a new name, and is stored pending with its times |
| `PairingAnswers.WithdrawAnswers` | internal/pairing/service.go:646-687 | an invite is cancelled exactly while live under its trimmed name |
| `PairingAnswers.WithdrawnClaims` | internal/pairing/service.go:677-679 | with it exactly the live claims that carry the names as given are cancelled |
| `PairingAnswers.RefusedSubmission` | internal/pairing/service.go:197-249 | what a submission answers: invite_not_found without an invite or an enabled tenant and host, invite_not_pending, claim_exists, or the claim and its expiry |
| `PairingAnswers.AcceptedSubmission` | internal/pairing/service.go:220-258 | what is stored for a claim, column by column |
| `PairingAnswers.ViewAnswers` | internal/pairing/service.go:261-308 | a claim is shown only for its own token, with the status it has now and the three approval texts each in its place |
| `PairingAnswers.ListAnswers` | internal/pairing/service.go:310-363 | the listing holds exactly the live claims of that tenant and host, as stored |
| `PairingAnswers.ListedClaim` | internal/pairing/service.go:334-362 | what a listed claim shows |
| `ListingOrder.ListedInOrder` | internal/pairing/service.go:321-328 | older claims come first, and claims of one age in the byte order of their ids in UTF-8 |
| `ListingOrder.TextsSortAsBytes` | internal/pairing/service.go:321-328 | comparing texts by code points is comparing their UTF-8 bytes |
| `PairingAnswers.RejectAnswers` | internal/pairing/service.go:565-595 | a claim is rejected exactly by its own tenant and host, while live |
| `PairingAnswers.CancelAnswers` | internal/pairing/service.go:597-644 | a claim is cancelled exactly with its own token, while live |
| `PairingAnswers.RevokeAnswers` | internal/pairing/service.go:733-749 | a device is revoked exactly while registered and not revoked |
| `PairingAnswers.SubmittedIsThere` | internal/pairing/service.go:172-379 | a claim just submitted is listed for its host alone, shown to its token alone, and its device is found |
| `RequestRules.ClaimRule` | internal/pairing/service.go:751-777 | a claim passes validation exactly for identifiers without white space of at most 128 bytes, a key version of at least one, a point of 65 bytes, nonces of 32 and 12 bytes, a ciphertext of 16 to 262144 bytes of the announced length and a header of at most 8192 bytes; else which error |
| `RequestRules.ApprovalRule` | internal/pairing/service.go:779-802 | an approval passes validation exactly for plain names, positive versions, two different points, a header of 1 to 8192 bytes, a nonce of 12 and a ciphertext of 16 to 262144; else which error |
| `RequestRules.InviteRule` | internal/pairing/service.go:130-142 | an invite passes validation exactly for plain names, an end after now, and at most ten minutes to the nanosecond |
| `RequestRules.NoToken` | internal/pairing/service.go:860-868 | an access token is exactly a spelling of 32 bytes |
| `RequestRules.IdentifierRule` | internal/pairing/service.go:894-899 | an identifier is one to 128 bytes without any of the 25 white-space code points |
| `PairingInvariants.ReachableInv` | internal/pairing/service.go:217-562 | in every reachable state an invite is consumed exactly when it has one approved claim and never has two, and claims hang on existing invites of the same expiry |
| `PairingInvariants.ApprovedInTime` | internal/pairing/service.go:391-393 | every approval comes less than 600 000 ms after its invite was created, even if the clock goes back |
| `PairingInvariants.ReachableBacking` | internal/pairing/service.go:646-687 | while every CancelInvite is given trimmed names, each pending claim has a pending invite in every reachable state |
| `PairingInvariants.CancelInviteBacking` | internal/pairing/service.go:661-679 | in any such state CancelInvite keeps that property if and only if the names were trimmed or the invite has no live claim |
| `Scenarios.UntrimmedCancelLeavesClaimPending` | internal/pairing/service.go:661-679 | five requests that pass validation, the last a CancelInvite with a space after the invite, after which a claim is pending and its invite is not |
| `ApprovalRules.MatchingApproval` | internal/pairing/service.go:432-562 | on a live pending claim with its invite open, an approval under another agreement key or key version than the claim announced is invalid_device_identity, one the device row contradicts is a binding conflict, both changing nothing, and any other succeeds |
| `ApprovalRules.UnnamedApproval` | internal/pairing/service.go:419-431 | an approval of a claim that is not stored under its tenant and host is claim_not_found and changes nothing |
| `ApprovalRules.EndedApproval` | internal/pairing/service.go:449-455 | an approval of a claim that ended or ran out is claim_not_pending and changes nothing |
| `ApprovalRules.ForeignApproval` | internal/pairing/service.go:456-458 | an approval whose agreement key or key version is not that of the claim header is invalid_device_identity and changes nothing |
| `ApprovalRules.RepeatedApproval` | internal/pairing/service.go:432-448 | an approved claim answers success to the same approval and approval_conflict to any other, for a collision-free hash |
| `ApprovalRules.LateInvite` | internal/pairing/service.go:459-470 | an approval after the invite closed is invite_not_pending and changes nothing |
| `ApprovalRules.ConflictingApproval` | internal/pairing/service.go:471-501 | an approval that differs from the registered device, or whose binding version is not greater, is a binding conflict and changes nothing |
| `ApprovalRules.GrantedApproval` | internal/pairing/service.go:471-562 | otherwise it succeeds: the device row, the claim row and the invite row that result, column by column |
| `ApprovalRules.SiblingsConsumed` | internal/pairing/service.go:529-541 | and the other live claims of the invite are consumed at that moment |
| `ApprovalRules.ApprovedUnderHeader` | internal/pairing/service.go:456-458 | in every run an approved claim was approved under the agreement key and key version of its own header |
| `ApprovalRules.DevicesAreAnnounced` | internal/pairing/service.go:456-501 | in every run a device is registered under an agreement key and key version that a claim of that very device announced |
| `PairingInvariants.ReachableNames` | internal/pairing/service.go:124-165 | stored invite names are trimmed in every reachable state |
| `DeviceHistory.ReachableHistory` | internal/pairing/service.go:456-528 | the device table is the fold of approvals and revocations: approvals of one device share keys and key version, their binding versions strictly increase, and they are exactly the approved claims |
| `DeviceHistory.FoldReads` | internal/pairing/service.go:471-501 | the row of a device is that of its last approval, revoked exactly when a revocation followed |
| `DeviceHistory.RunProgress` | internal/pairing/service.go:476-483 | over any operations a device keeps its keys, its binding version never falls, and leaving the revoked state costs a greater one |
| `DeviceHistory.ReactivationNeedsRebinding` | internal/pairing/service.go:476-483 | a revoked device is active again only if some operation approved a pending claim of it with a strictly greater binding version |
| `DeviceHistory.ReplayChangesNoDevice` | internal/pairing/service.go:432-448 | replaying a successful approval after any operations reports success and changes no device row |
| `DeviceHistory.ApprovedStays` | internal/pairing/service.go:432-448 | an approved claim never changes again |
| `EagerExpiry.LazyRefinesEager` | internal/pairing/service.go:804-818 | under a nondecreasing clock every operation after every run answers as in a relay whose rows expire exactly at expires_at, and leaves the same tables, up to sweep timestamps |
| `EagerExpiry.RepliesEqualUnlessLate` | internal/pairing/service.go:261-308 | the answers are equal outright if and only if the operation is not the reading of an expired claim that was stamped late |
| `Scenarios.LateReadingDiffers` | internal/pairing/service.go:261-308 | five requests that pass validation, the last the reading of a claim one millisecond late, whose answer differs from the eager one |
| `EagerExpiry.ApprovalsAreTimely` | internal/pairing/service.go:133-141 | under a nondecreasing clock every approval falls within the 600 000 ms after its invite's creation |
| `Hosts.HostService.EnrollHost` | internal/host/service.go:44-121 | the first enrolment pins a host's identity, a repeated one may only change the display name, any other is a conflict that changes nothing |
| `Hosts.FirstEnrolmentPins` | internal/host/service.go:71-116 | after a first enrolment another goes through if and only if it repeats the pinned identity, and then changes the display name only |
| `Hosts.EnrolmentAnswers` | internal/host/service.go:64-121 | what an enrolment answers and stores: tenant_not_found, a new row, the display name alone, or identity_conflict |
| `RequestRules.EnrollmentRule` | internal/host/service.go:44-57 | an enrolment passes validation exactly with three names, a positive version and two different points; else which error |
| `RequestRules.EnrolmentPlan` | internal/host/service.go:44-121 | the host service enrols under trimmed names, as one step of the pairing tables |
| `Auth.ValidScope` | internal/auth/service.go:442-482 | who the subject of a valid scope is and which purposes name a device |
| `AuthRules.ScopeRule` | internal/auth/service.go:442-499 | a scope is valid exactly when its names are trimmed and the table of nine purposes has it: four of a host alone, four of a host for a device, one of a device |
| `AuthRules.ScopeErrorRule` | internal/auth/service.go:442-499 | else the refusal names the scope, the purpose or the subject type |
| `AuthRules.ChallengeRule` | internal/auth/service.go:153-188 | Prove goes on from a challenge exactly when it is of version one and this relay, of a valid scope, neither early, late nor too long, its texts of 32, 64 and 32 bytes, and signed by the relay |
| `AuthRules.ProofRule` | internal/auth/service.go:153-198 | and accepts it exactly when the signature has 64 bytes and verifies under the key of a subject that is up |
| `AuthRules.CreationRule` | internal/auth/service.go:84-151 | the challenge handed out and the row stored, column by column, with a life of 60 000 ms |
| `AuthRules.ProvingRule` | internal/auth/service.go:199-226 | a successful proof consumes its challenge and stores a ticket of the same scope under the hash of its bytes for 60 000 ms |
| `AuthRules.UsingRule` | internal/auth/service.go:229-292 | a ticket text is accepted exactly when it spells 32 bytes whose hash is a live ticket of that very scope with its subject up |
| `AuthRules.KeyErrorRule` | internal/auth/service.go:354-390 | a subject has a usable key exactly when it is up and its key is a point |
| `ActiveSubjects.ActiveMeansUp` | internal/auth/service.go:249-270 | active, in the tables: tenant enabled; host enrolled, enabled and not revoked; for a device also approved and not revoked; and a key |
| `ActiveSubjects.TicketSpends` | internal/auth/service.go:243-291 | a ticket is consumed exactly under these conditions, and only its row changes |
| `ActiveSubjects.ChallengeSpends` | internal/auth/service.go:294-352 | a challenge is consumed exactly when its row agrees in every column and its subject is up, and only its row changes |
| `ActiveSubjects.AcceptedWhileUp` | internal/auth/service.go:249-270 | in every interleaving a ticket is accepted only while its tenant, host and device rows say so |
| `ActiveSubjects.SpentWhileUp` | internal/auth/service.go:190-201 | in every interleaving a challenge is consumed only while they say so, under the key in the row |
| `ActiveSubjects.DisabledTenantWaits` | internal/auth/service.go:249-252 | from the move that disables a tenant until one that enables it, no ticket of it is accepted and no challenge of it consumed |
| `ActiveSubjects.DisabledTenantGetsNothing` | internal/auth/service.go:354-390 | and CreateChallenge for it is an error that stores nothing |
| `Auth.LifetimeCheck` | internal/auth/service.go:166-169 | the lifetime check, with 64-bit subtraction, passes if and only if the lifetime is at most 60 s or the subtraction overflows |
| `Auth.OverlongChallengePasses` | internal/auth/service.go:166-169 | the longest challenge there is, whose lifetime overflows, passes the check |
| `Keys.AuthWantsTrimmedKeys` | internal/host/service.go:161-168 | authentication accepts a public key if and only if enrolment does and it has no white space at the ends |
| `Keys.TrailingBreakKey` | internal/auth/service.go:501-510 | every key enrolment accepts it also accepts with a line break at the end, and then authentication does not |
| `LockedHosts.BreakEnrols` | internal/host/service.go:51-56 | an enrolment with such a key passes validation |
| `LockedHosts.LockedOutHost` | internal/auth/service.go:354-390 | in every run that begins with the enrolment of a host with such a key, the host has no usable key in any later state |
| `LockedHosts.NoKeyNoTicket` | internal/auth/service.go:84-227 | a subject without a usable key gets neither a challenge nor a ticket, and nothing changes |
| `AuthService.Service.CreateChallenge` | internal/auth/service.go:84-151 | the challenge returned and the row stored, or the error and no change |
| `AuthService.Service.ConsumeChallenge` | internal/auth/service.go:294-352 | consumes the one row that agrees in every field, is unconsumed and unexpired and whose subject is active, or changes nothing |
| `AuthService.Service.Prove` | internal/auth/service.go:153-227 | the order of its checks and its two writes; a consumed challenge stays consumed when the ticket cannot be stored |
| `AuthService.Service.ConsumeTicket` | internal/auth/service.go:229-292 | consumes the ticket of exactly the expected scope while unexpired and its subject active, or changes nothing |
| `AuthService.Service.SubjectSigningKey` | internal/auth/service.go:354-390 | the registered key of an active subject, or the error |
| `AuthService.CreatedChallengePasses` | internal/auth/service.go:84-188 | a challenge the relay created passes the checks of Prove if and only if it has not expired |
| `AuthService.ExchangeCompletes` | internal/auth/service.go:84-292 | create, prove and use succeed within the limits; over any tables reached later the same challenge and ticket are refused, whatever the signature, the time and the pairing tables |
| `AuthService.ThreeMoves` | internal/auth/service.go:190-226 | Prove without interruption is the verify, spend and mint moves of the interleaved model |
| `AuthService.PassedProofVerifies` | internal/auth/service.go:153-198 | a request that passes the checks of Prove may make the verify move under the key just read |
| `Protocol.NextMoves` | internal/relay/pairing_handlers.go:164-199 | every move of the interleaved model is a pairing step in which only the approve handler can turn a claim approved |
| `Protocol.NextAuthMoves` | internal/auth/service.go:127-226 | challenge and ticket rows are only added, and consumed at most once |
| `Protocol.NextProofsAdvance` | internal/auth/service.go:190-226 | a proof only advances, spends only an unconsumed row of an active subject, and mints only an unused ticket |
| `Protocol.NextHandlersAdvance` | internal/relay/pairing_handlers.go:173-194 | an approve request only advances, is authorized only by an unused ticket of its own scope, and wins only the claim it looked up |
| `Protocol.HandlerMovesAreOk` | internal/relay/pairing_handlers.go:187-194 | the transaction an authorized handler runs is an admissible move |
| `ProtocolSafety.RunIsSafe` | internal/auth/service.go:153-292 | the invariant behind the theorems below holds in every state of every interleaving |
| `ProtocolSafety.RunAuthMoves` | internal/auth/service.go:127-292 | over any stretch of any interleaving challenge and ticket rows are only added, and what is consumed stays consumed |
| `ProtocolSafety.KeysNeverChange` | internal/host/service.go:71-116 | in every interleaving a registered signing key stays what it was |
| `ProtocolSafety.SpentUnderActiveKey` | internal/auth/service.go:190-201 | when a challenge row is consumed, the key its signature was checked under is at that instant the registered key of an active subject, and the check went through |
| `ProtocolSafety.TicketsComeFromChallenges` | internal/auth/service.go:199-226 | in every interleaving ticket rows map one-to-one into consumed challenge rows of the same scope, each minted within 60 s of issue |
| `ProtocolSafety.AcceptedOnceInTime` | internal/auth/service.go:229-292 | each ticket is accepted at most once, for its own scope, less than 120 000 ms after its challenge was issued |
| `ProtocolSafety.AcceptedWhileActive` | internal/auth/service.go:243-270 | a ticket is accepted only while its subject is active |
| `Vouching.AcceptanceVouchesForDevice` | internal/auth/service.go:252-270 | over every interleaving, acceptance implies that the device a scope names is active if and only if the purpose is not one of a host acting on a device |
| `Vouching.AcceptedForAbsentDevice` | internal/auth/service.go:252-270 | the run of a host that enrols, proves its key and has a ticket accepted for a device that does not exist |
| `ProtocolSafety.ApprovalsCostTickets` | internal/relay/pairing_handlers.go:164-194 | in every interleaving approved claims map one-to-one into consumed approve tickets for the claim's own tenant, host and device |
| `ProtocolSafety.ApprovalsCostChallenges` | internal/relay/pairing_handlers.go:164-194 | in every interleaving every approved claim has its own consumed challenge of its own scope, with a signature that passed the check under the registered key of the claim's own host |
| `SignedApprovals.ApprovalsAreSigned` | internal/auth/service.go:190-201 | so approved claims map one-to-one into proof transcripts of consumed challenges, each with a signature that verifies under the registered key of the claim's own host |
| `Handlers.Gate.ApprovePairingClaim` | internal/relay/pairing_handlers.go:164-199 | lookup, ticket, approval in that order: no change without the ticket, and with it exactly the approval's step |
| `Handlers.Gate.RejectPairingClaim` | internal/relay/pairing_handlers.go:201-229 | the same for a rejection and its own purpose |
| `Handlers.Gate.RevokeDevice` | internal/relay/pairing_handlers.go:288-312 | with the ticket, the revocation and the eviction of the route happen together or not at all |
| `Handlers.GateScopes` | internal/relay/pairing_handlers.go:173-299 | the scopes of the tickets the three handlers ask for, written out |
| `Handlers.ApprovalIsThreeMoves` | internal/relay/pairing_handlers.go:173-194 | the approve handler without interruption is the lookup, authorize and settle moves of the interleaved model |
| `RouteKeys.KeyTellsTenant` | internal/relay/server.go:496-498 | slash-free tenants are recovered from the joined key, whatever the other identifiers look like |
| `RouteKeys.CleanTailIsUnique` | internal/relay/server.go:496-498 | host and device are recovered from the rest of the key when no other slash cuts them into names |
| `RouteKeys.UnsharedMeansClean` | internal/relay/server.go:458-498 | among the non-empty identifiers of at most 128 bytes that a request may carry, and slash-free tenants, a key has one reading if and only if no other slash cuts host and device into two such names |
| `RouteKeys.ShortNamesClean` | internal/relay/server.go:458-498 | for short identifiers that means no slash in the host after its first character and none in the device before its last |
| `RouteKeys.TenantIdIsSlashFree` | internal/tenant/service.go:38-52 | the tenant ids the relay makes hold no slash |
| `Hub.ForwardsToOpposite` | internal/relay/server.go:415-441 | a frame that passes the sender checks is forwarded if and only if the sender is current and the opposite role of its own route is held, and then to that holder |
| `HubRules.MessageRule` | internal/relay/server.go:217-441 | what becomes of a message: invalid, impostor, replaced, unroutable, or forwarded to the holder of the other role |
| `HubRules.SenderRule` | internal/relay/server.go:499-510 | a frame passes the sender check exactly when it names its session and points away from its role |
| `HubRules.AdmissionRule` | internal/relay/server.go:322-364 | a connection is let in exactly when the server is not stopping and its device row exists and is not revoked |
| `HubRules.SocketScope` | internal/relay/server.go:241-259 | the scope of the ticket a socket costs, written out |
| `HubOrder.BeginTakes` | internal/relay/server.go:331-352 | in every run a host that begins is alone on its route and the former holders of both roles are closed, a device that begins takes only its own role, and no other route changes |
| `HubOrder.DeviceAfterHost` | internal/relay/server.go:331-352 | in every run, whenever both roles of a route are held the device began after the host |
| `HubOrder.DecidedForLaterDevice` | internal/relay/server.go:415-431 | so every forwarding decision is between a host and a device that began after it |
| `HubOrder.DepartFrees` | internal/relay/server.go:365-389 | in every run a handler that leaves while current frees its route and has its peer closed, and one that was displaced changes nothing |
| `HubOrder.RevokeFrees` | internal/relay/server.go:395-414 | in every run revoking a live device marks its row and frees its route with both holders closed, and revoking any other changes nothing |
| `HubOrder.StopFrees` | internal/relay/server.go:159-185 | in every run the first stop frees every route and closes every holder |
| `HubLife.MessageOutcome` | internal/relay/server.go:217-238 | in every run a refused message sends its handler away and leaves no trace, and a forwarded one gives it a write to do |
| `HubLife.WriteOutcome` | internal/relay/server.go:436-441 | in every run a write that fails sends the handler away, and one that succeeds is recorded |
| `HubLife.LeavingIsSilent` | internal/relay/server.go:212-238 | in every run nothing is decided or written for a handler that is leaving |
| `HubLife.FinishOutcome` | internal/relay/server.go:212-216 | in every run only a handler that removed itself is counted out, and once |
| `HubServer.Server.BeginWebSocket` | internal/relay/server.go:322-364 | a host replaces the whole route and a device its own role, the displaced are exactly the close list; turned away while shutting down or without a live device row |
| `HubServer.Server.RemoveSession` | internal/relay/server.go:365-389 | only the current holder changes anything: it goes and its peer is closed |
| `HubServer.Server.RevokeDevice` | internal/relay/server.go:395-414 | the row is revoked and both roles evicted, or nothing happens |
| `HubServer.Server.RouteFrame` | internal/relay/server.go:415-441 | the routing decision, with a failed write treated as a missing route |
| `HubServer.Server.ReadLoop` | internal/relay/server.go:217-238 | every message before the first refused one goes out as it came in, and the refusal has the code of that message |
| `HubServer.Server.BeginShutdown` | internal/relay/server.go:159-185 | both maps are cleared and each session in them is closed exactly once; a second call does nothing |
| `HubServer.Server.IsDeviceOnline` | internal/relay/server.go:390-394 | true exactly when some connection holds the device role of the route |
| `HubSafety.NextPlaced` | internal/relay/server.go:322-414 | every move keeps each begun connection in exactly one place |
| `HubSafety.NextLiveOk` | internal/relay/server.go:322-414 | every move keeps the device rows of registered sessions live |
| `HubTheorems.OnePlaceEach` | internal/relay/server.go:322-389 | in every run each begun connection is registered in its role's map at its own key, or self-removed, or on exactly one close list, and nowhere else |
| `HubTheorems.NeverCurrentAgain` | internal/relay/server.go:365-389 | a connection that is no longer current never becomes current again |
| `HubTheorems.RegisteredIsLive` | internal/relay/server.go:322-364 | in every reachable state each registered session's device row exists and is not revoked |
| `HubTheorems.NoDecisionAfterRevocation` | internal/relay/server.go:395-431 | after a device is revoked no frame is routed from or to its sessions, written or not, until an approval rebinds it with a greater binding version, and then only for connections that began after that approval |
| `HubTheorems.WriteAfterRevocation` | internal/relay/server.go:431-441 | a write for a revoked device follows a decision made before the revocation if and only if its sender had begun by then, and if and only if no approval rebound the device before its sender began |
| `HubScenarios.WriteLandsAfterRevocation` | internal/relay/server.go:431-441 | the run of real requests that ends with such a write: pair, connect, route, revoke, write |
| `HubTheorems.DecidedForPeer` | internal/relay/server.go:415-431 | every decision to forward goes from the current holder of one role to the current holder of the opposite role of the route, on a frame that names its sender |
| `HubTheorems.WrittenAsDecided` | internal/relay/server.go:226-441 | every frame written was decided by an earlier move of its sender between holders current at that move, is what the sender sent, and is written once |
| `HubTenants.NoFrameCrossesTenants` | internal/relay/server.go:415-498 | with the relay's own tenant ids no frame is routed across tenants, and where no other slash cuts the sender's names it goes to the sender's own device |
| `HubTickets.ConnectionsCostTickets` | internal/relay/server.go:198-208 | in every run begun connections map one-to-one into consumed WebSocket tickets of their own tenant, host, device and role |
| `HubLogs.DecidedAt` | internal/relay/server.go:415-431 | every decision in the log was made by one move of its sender |
| `HubLogs.RunLogs` | internal/relay/server.go:415-441 | in every run a connection about to write is at its own decision, not yet written, and no decision is written twice |
| `HubScenarios.SharedKeyMisroutes` | internal/relay/server.go:415-498 | the run of real requests that pairs and connects two devices of one tenant with one key and ends with the frame of the one's host written to the other |
| `Misrouting.MisroutesExactly` | internal/relay/server.go:415-498 | some run with the relay's own tenant ids routes a frame of the device to another one if and only if another slash cuts its host and device into names |
| `Samples.SamplesPair` | internal/pairing/service.go:751-802 | for every set of valid names there are enrolment, claim and approval requests that validation accepts, so the runs above exist |
| `Misrouting.SmallestDoubles` | internal/relay/server.go:496-498 | hosts and devices with such a double: h/x with d, and h with x/d |
| `HubTheorems.ShutdownDrains` | internal/relay/server.go:159-216 | from the start of a shutdown both maps stay empty, no handler begins, the wait group never rises and counts the unfinished handlers, each of which was closed or removed itself |
| `HubTheorems.WaitGroupCounts` | internal/relay/server.go:212-216 | in every reachable state the wait group is the number of handlers begun and not finished |
| `Canonical.FieldRoundTrip` | internal/protocol/canonical.go:14-22 | reading a length-prefixed field gives back its bytes and what follows |
| `Canonical.Int64RoundTrip` | internal/protocol/canonical.go:28-32 | the same for every int64 |
| `Canonical.TranscriptInjective` | internal/protocol/canonical.go:14-32 | transcripts of one shape with equal bytes have equal items |
| `Transcripts.ChallengeTranscriptInjective` | internal/auth/service.go:392-415 | equal challenge transcripts have equal fields |
| `Transcripts.ProofTranscriptInjective` | internal/auth/service.go:417-429 | equal proof transcripts have equal challenge bytes, signatures and subjects |
| `Transcripts.TranscriptsAreSeparate` | internal/auth/service.go:392-429 | no challenge transcript is a proof transcript |
| `TranscriptLayout.ChallengeLayout` | internal/auth/service.go:392-415 | the signed challenge reads as domain, version, fingerprint, id, value, subject type, subject id, tenant, host, device, purpose and the two times, and ends there |
| `TranscriptLayout.ProofLayout` | internal/auth/service.go:417-429 | the signed proof reads as domain, version one, challenge bytes, relay signature, subject type and subject id, and ends there |
| `TranscriptLayout.LengthBytes` | internal/protocol/canonical.go:14-22 | a field is its length in four bytes, most significant first, and its bytes |
| `TranscriptLayout.IntegerBytes` | internal/protocol/canonical.go:28-32 | an integer is eight bytes, most significant first, in two's complement |
| `Text.Utf8Injective` | internal/protocol/canonical.go:24-26 | different texts have different bytes |
| `Text.TrimSpaceIsTrimmed` | internal/pairing/service.go:894-899 | trimming is idempotent and leaves alone exactly the texts without white space at either end |
| `Alphabets.TrimSpaceCuts` | internal/pairing/service.go:131-133 | trimming takes white space off both ends, all of it, and nothing else |
| `Alphabets.SymbolAt` | internal/protocol/envelope.go:337-343 | the 64 symbols of the encoding, section 5 of RFC 4648 |
| `Alphabets.ThreeBytes` | internal/protocol/envelope.go:337-343 | three bytes and their four symbols are one 24-bit number |
| `Base64Url.DecodeBase64Accepts` | internal/protocol/envelope.go:337-343 | decodeBase64 accepts exactly the encoder's output, so the two are mutually inverse |
| `Base64Url.StrictDecodeAccepts` | internal/pairing/service.go:887-892 | the strict decoder accepts exactly the encodings with line breaks strewn in |
| `Base64Url.DecodeExactAccepts` | internal/auth/service.go:501-510 | what decodeExact accepts, both ways |
| `Base64Url.DecodeExactIsNotCanonical` | internal/auth/service.go:501-510 | two spellings of one byte string that decodeExact accepts |
| `Base64Url.EncodeLength` | internal/protocol/envelope.go:70-72 | the encoding has EncodedLength characters |
| `Frames.StrictObject` | internal/protocol/envelope.go:112-144 | the loop yields the members as a table if and only if no name repeats |
| `Frames.ParseRelayFrame` | internal/protocol/envelope.go:82-110 | the imperative parser computes the specification parser |
| `Frames.BoundedIntAccepts` | internal/protocol/envelope.go:315-336 | an integer member is accepted if and only if it is the canonical decimal of a number in range |
| `FrameGrammar.RequireKeysMeans` | internal/protocol/envelope.go:146-156 | exactly the schema's keys, each once |
| `FrameGrammar.ParserAccepts` | internal/protocol/envelope.go:82-290 | parsing yields a frame if and only if the frame is valid and the members are its printed members in some order |
| `FrameRules.ParserReadsWires` | internal/protocol/envelope.go:82-290 | the parser accepts exactly the spellings, in any member order, of the seven kinds of frame within their lengths and ranges, all written out, and reads them as what they spell |
| `FrameRules.AcceptedDirection` | internal/protocol/envelope.go:193-262 | client hello, android confirmation and rpc.request go from mobile to windows, server hello, windows confirmation, rpc.response and event the other way |
| `FrameSizes.ClampIsIdle` | internal/protocol/envelope.go:74-80 | the final clamp of WireFrameLimit never changes the value |
| `FrameSizes.ValidFrameFits` | internal/protocol/envelope.go:60-80 | the compact form of every valid frame fits WireFrameLimit |
| `Limiter.ChallengeLimiter.AllowChallenge` | internal/relay/auth_handlers.go:159-191 | purge loop, window reset and count are the verdict of the specification on the old table |
| `Limiter.AdmissionsAreBounded` | internal/relay/auth_handlers.go:159-191 | under a nondecreasing clock at most limit requests per source and window, and at most 2 * limit - 1 in any half-open minute of any run |
| `Limiter.BoundIsReached` | internal/relay/auth_handlers.go:159-191 | for every source and limit a run that reaches that bound |
| `Limiter.TableIsBounded` | internal/relay/auth_handlers.go:159-191 | never more than 1024 sources are tracked |
| `Limiter.RefusedWhenFull` | internal/relay/auth_handlers.go:159-191 | with a positive limit a request is turned away only when its source was let in limit times in its open window, or 1024 other sources have an open window |

## Left out

- SQL, drivers and migrations: tables are maps and a statement is an update of one; store faults are modelled in `ApproveClaim` only, elsewhere a statement either applies or reports what the code tests for.
- JSON lexing: the frame parser starts from a sequence of named raw members, and sizes are those of the compact form.
- ECDSA, SHA-256, curve checks and randomness: parameters; nothing cryptographic is proved.
- Invalid UTF-8: texts are sequences of Unicode characters, so Go strings that are not UTF-8 are not modelled.
- HTTP plumbing, status codes, bearer parsing, TLS, listeners, CLI, configuration, certificates and identity files.
- The `internal/session` registry: the server does not route with it.
- Endpoint cryptography and the retired token flow of the documentation: not part of the relay's code.
- Tenant records beyond the enabled flag, host and device timestamps that no rule reads, and `ListDevices`: they would add only easy members.
- A server without a store: route checks are then skipped; the hub here always has one.
- Connection types other than host and device: a request cannot produce one, so the default branches of the hub's switches are not modelled.
- Clock overflow: a clock reading plus sixty seconds is taken to fit in an int64.
- The hub's runs take challenges and tickets as they come: between its own moves the auth tables may take any step that adds rows or consumes them, as every move of `Protocol` does (`NextAuthMoves`), and the tickets of `HubScenarios` are taken as minted.
- The relay's own tenant ids: `PlainTenants` asks of a run that tenants have slash-free ids, as those of `TenantId` are; how a tenant is created is otherwise not modelled.
- The order in which the frame parser reads fields and checks key sets: the model checks the same conditions, and a frame is accepted in the same cases; the error value is one and the same in the source.
- EffectiveMessageBytes: follows the code, which maps a negative setting to the maximum, where docs/protocol/relay-v1.md:43 speaks of the minimum of both.
- HubServer.Server.ReadLoop: states the loop while no other critical section intervenes; interleavings are covered by `HubTheorems`.
- Handlers.Gate.ApprovePairingClaim: states the handler while no other request intervenes; interleavings are covered by `ProtocolSafety`.
- PairingService.Service.CreateInvite: its host lookup and its insert are two statements; the step takes what the lookup returned as a parameter, so runs include every interleaving, the method only the uninterrupted one.
- Hosts.HostService.EnrollHost: likewise for its lookup of the tenant.
