# KeepSave verification model

KeepSave stores secrets and delegates access to them. Its durable state lives in database
transactions, and many workers, requests and clean-up loops act on it at once. This project
models the parts of it whose correctness depends on more than one function: each committed
transaction is one atomic step over maps of rows, the clock and the answers of the
environment are parameters, and any number of actors interleave. Every file is one component:

- `Outbox.dfy`: the leased, fenced job queue.
- `Delivery.dfy`, `DeliveryProofs.dfy`: proof messages sent through that queue, with crashes,
  lease expiry and the sweep.
- `Proofs.dfy`: single-use identity proofs, invitations and their guess counters.
- `Framing.dfy`, `AuditChain.dfy`: the hash-chained audit log, its verifier and its prune.
- `OAuth.dfy`, `OAuthProofs.dfy`: delegated OAuth, from request to rotating tokens.
- `Glob.dfy`, `Policy.dfy`: key patterns, scopes, and the authorization decision.
- `LockOrder.dfy`, `Guard.dfy`: the order in which authority locks are taken.
- `RateLimit.dfy`, `Pagination.dfy`, `SdkCache.dfy`, `SqlSplit.dfy`: the token bucket, keyset
  pagination, the SDK's secret cache and the migration splitter.
- `Wrappers.dfy`: optional values.

Where the code changes state, a class has the stored rows as fields and its methods are proved
equal to specification functions on those rows; the lemmas are about those functions and about
whole runs of them. For each such function one lemma (`...InColumns`, `...InWords` or
`...InCharacters`) says when the operation succeeds and what it writes, column by column and without
its auxiliary definitions; others say what several operations are good for together, such as
`DeliveryProofs.JobInTurnIsCarriedOut`, `Proofs.NewProofWorksForItsTime` and
`OAuthProofs.ApprovalIsWorthAToken`. `dafny verify dfyconfig.toml` checks everything.

Things the proofs brought out:

- The eviction of idle rate-limit buckets is invisible exactly when
  `floor((cleanup + 1 ns) / interval) * rate >= burst`; otherwise a drained client that waits one
  clean-up period gets a whole burst more (`RateLimit.EvictionIsUnobservable`). The five-minute period is fixed
  in the constructor, so the condition is about the arguments `rate`, `interval` and `burst`.
- "At most five wrong guesses ever meet a proof's hash" does not hold as it stands: a guess whose
  audit append fails is compared and rolled back without a trace, through either consumer. A run
  keeps to the limit, however often its failing transactions are tried again, exactly when every
  wrong guess in it is compared in a transaction that commits (`Proofs.BoundHoldsIffMissesCommit`).
- A cache key of the SDK names its generation unambiguously. It names project and environment
  unambiguously, for the projects of a set, exactly when no identifier in the set is another one
  followed by a colon and more (`SdkCache.ScopesAreUnambiguousIff`); identifiers without a colon,
  such as the server's UUIDs, are of that kind. With a cache lifetime, calls for the projects of a
  set always get the right lists under the same condition and no other (`SdkCache.ListsAreRightIff`).
- "Following the cursors lists everything" has an exception: a cursor repeats the filter's action and
  environment, and escaping can push it over the 1024 bytes the next request accepts. Pages list
  everything exactly when the escaped text is short enough (`Pagination.AppendsLeaveTheListing`,
  `Pagination.FitsIff`), as it always is up to 101 bytes.
- In reachable states the expiry that `Validate` computes from four limits is always the
  token's own (`OAuthProofs.ValidatedUntilTheTokenExpires`).
- The prune of the audit log needs the rows to form one chain, but not the stored head to match:
  once something is removed the head is rewritten (`AuditChain.PruneDropsLeadingRun`).
- Clearing the SDK's cache is not what keeps it current: the generation in the key is. The
  proof of `SdkCache.ListsAreCurrent` allows every clearing step to be left out.

## Model

| member | source | states |
|---|---|---|
| `Outbox.Queue.EnqueueTx` | backend/internal/jobs/queue.go:33-39 | an accepted job is stored pending, unclaimed and with no attempt spent; an invalid one, or one whose id exists, changes nothing |
| `Outbox.EnqueueInColumns` | backend/internal/jobs/queue.go:33-39 | an event of the runs stores exactly that row for exactly the valid new jobs |
| `Outbox.Queue.ClaimKinds` | backend/internal/jobs/queue.go:48-87 | refines the claim specification: both expiry updates, then the first ready row of the wanted kinds that no other transaction holds |
| `Outbox.ClaimTakesAReadyJob` | backend/internal/jobs/queue.go:48-78 | nothing is claimed if and only if no unlocked job of the wanted kinds, no kinds meaning all, is due with an attempt left and pending, or abandoned with its lease before any outside effect |
| `Outbox.ClaimInColumns` | backend/internal/jobs/queue.go:56-72 | the job returned is leased to this worker, one attempt and fence higher, for the lease in whole milliseconds, and every other row changes at most by the end of an expired lease |
| `Outbox.ClaimRefusesBadLeases` | backend/internal/jobs/queue.go:52-54 | a nil worker or a lease outside one second to five minutes claims nothing and changes nothing |
| `Outbox.Queue.Apply` | backend/internal/jobs/queue.go:88-129 | a move succeeds exactly for the holder of the current worker, fence and live lease in an allowed status, and is otherwise fenced without effect |
| `Outbox.MoveInColumns` | backend/internal/jobs/queue.go:88-129 | which handle is the holder, and what each move writes: dispatched; done and completed; uncertain, failed or pending again with its back-off |
| `Outbox.AbandonInColumns` | backend/internal/vault/project.go:69 | deleting a project fails its pending and leased jobs and no dispatched one |
| `Outbox.RowSteps` | backend/internal/jobs/queue.go:48-129 | every event keeps a row well formed, never changes a settled row, never lowers a fence, and lowers (attempts left, status rank) whenever it changes the row |
| `Outbox.StepKeepsTableOk` | backend/internal/jobs/queue.go:33-129 | every transaction keeps all rows well formed whatever the clock says: a pending job always has an attempt left, an in-flight one a worker and a lease |
| `Outbox.RunKeepsTableOk` | backend/internal/jobs/queue.go:33-129 | the same over every run, and no job disappears |
| `Outbox.RetriesAreBounded` | backend/internal/jobs/queue.go:60-104 | in any run a job changes at most as often as its fuel, so retries end |
| `Outbox.NoJobIsStranded` | backend/internal/jobs/queue.go:52-87 | a claim after a lease has expired settles the job, takes it, or leaves it ready to be claimed |
| `Outbox.RetryWaits` | backend/internal/jobs/queue.go:97-105 | a failed job put back cannot be claimed within a second and can be after five minutes |
| `Outbox.DispatchedExternalIsFinal` | backend/internal/jobs/queue.go:88-105 | a dispatched external job is never dispatched again and stays dispatched, done or uncertain |
| `Outbox.ExternalDispatchedAtMostOnce` | backend/internal/jobs/queue.go:88-105 | over every run at most one dispatch of an external job succeeds |
| `Outbox.DispatchesCostAttempts` | backend/internal/jobs/queue.go:60-90 | local work is dispatched at most as often as attempts remain, one more if it is leased now |
| `Outbox.ClaimGivesAFreshFence` | backend/internal/jobs/queue.go:60-87 | a claim returns a handle with a new fence that owns the job, which was ready and first in order |
| `Outbox.StaleHandleIsFenced` | backend/internal/jobs/queue.go:106-129 | a handle older than the row's fence is refused for ever by every operation |
| `Outbox.NewerClaimFencesOlder` | backend/internal/jobs/queue.go:60-129 | of two claims of one job in a run the older handle never works again after the newer claim |
| `Delivery.Worker.BeginDelivery` | backend/internal/identity/delivery.go:119-164 | the dispatch barrier: dispatched only from pending with a live proof, cancelled and erased when the proof is not, refused otherwise |
| `Delivery.BarrierInColumns` | backend/internal/identity/delivery.go:119-164 | a pending delivery is opened if and only if its proof is unspent, unrevoked and unexpired and the check of the session it names, if any, did not fail; otherwise it is cancelled and erased |
| `Delivery.Worker.FinishDelivery` | backend/internal/identity/delivery.go:203-219 | records an outcome and erases the message only while the delivery is still dispatched |
| `Delivery.SettleInColumns` | backend/internal/identity/delivery.go:203-219 | the columns a result writes, on a dispatched delivery only |
| `Delivery.Worker.MarkDeliveryUncertain` | backend/internal/identity/delivery.go:269-291 | settles a delivery as uncertain only when it was dispatched more than a minute ago |
| `Delivery.MarkInColumns` | backend/internal/identity/delivery.go:269-291 | the columns this writes, a minute after dispatch only |
| `Delivery.Worker.Select` | backend/internal/identity/worker.go:88-120 | the batch is the oldest sweepable deliveries in order, and all of them when fewer than the limit |
| `Delivery.Worker.SweepDeliveries` | backend/internal/identity/worker.go:84-154 | each selected row is settled from what other transactions have left of it, the first failing transaction ends the sweep, and the count is of the rows it settled |
| `Delivery.Worker.SweepRow` | backend/internal/identity/worker.go:111-145 | one row's transaction settles it exactly when it is still sweepable, or fails and changes nothing |
| `Delivery.SweepInColumns` | backend/internal/identity/worker.go:121-139 | which outcome and reason a sweep gives a delivery: uncertain after a minute or when its job is lost, cancelled when its proof has ended, failed when its job has, and none otherwise |
| `Delivery.UndisturbedSweep` | backend/internal/identity/worker.go:84-154 | undisturbed, a sweep settles, erases and counts exactly the selected deliveries and touches no job, proof or other delivery |
| `DeliveryProofs.StepKeepsInv` | backend/internal/identity/worker.go:20-154 | every step of every thread, crash, sweep, request and foreign queue event keeps the delivery invariant |
| `DeliveryProofs.RunKeepsInv` | backend/internal/identity/worker.go:20-154 | the same over every interleaving |
| `DeliveryProofs.SentAtMostOnce` | backend/internal/identity/delivery.go:110-223 | over every interleaving the sender is entered at most once per delivery, each time after a barrier that saw the proof this delivery names unspent, unrevoked and unexpired, and the check of its session not failing |
| `DeliveryProofs.BarrierNeedsPendingAndLive` | backend/internal/identity/delivery.go:119-164 | a thread gets before its send only through a barrier that committed while the delivery was pending and its proof live, and the session it names, if any, passed its check |
| `DeliveryProofs.SettledFromPendingIsNeverSent` | backend/internal/identity/worker.go:121-152 | a delivery that any step settles out of pending is never sent afterwards |
| `DeliveryProofs.StepKeepsTruthful` | backend/internal/identity/delivery.go:166-219 | a delivery becomes sent only through an entry of the sender |
| `DeliveryProofs.SentWasTransmitted` | backend/internal/identity/delivery.go:166-219 | in every run a delivery recorded as sent was handed to the sender |
| `DeliveryProofs.SettledIsFinal` | backend/internal/identity/delivery.go:203-219 | a settled delivery never changes again, so a late result cannot overwrite a swept one, and its message is erased |
| `DeliveryProofs.DoneMeansResolved` | backend/internal/identity/worker.go:46-78 | a proof job that is done belongs to a delivery that was sent, failed or cancelled and is erased |
| `DeliveryProofs.NothingIsStranded` | backend/internal/identity/worker.go:84-154 | past the leases of its jobs and the dispatch minute an unsettled delivery has a pending job, or one expiry pass and one sweep settle it |
| `DeliveryProofs.JobInTurnIsCarriedOut` | backend/internal/identity/worker.go:20-78 | a due job that nobody else holds is carried out by one pass of a worker: the message is cancelled, sent once, or left failed or uncertain as the sender answers, its text is erased, and the job is done unless nobody knows |
| `Proofs.Service.CreateProof` | backend/internal/identity/service.go:169-226 | creation within the hourly budget supersedes live proofs of the same user and purpose, except invitations |
| `Proofs.CreateInColumns` | backend/internal/identity/service.go:169-226 | when a proof is stored, its columns and lifetime, and exactly which earlier ones it revokes |
| `Proofs.Service.ConsumeProof` | backend/internal/identity/service.go:281-380 | one consumption: refused, counted as a wrong guess, applied with its effect and marked consumed, or rolled back |
| `Proofs.ComparedInColumns` | backend/internal/identity/service.go:333-359 | a value is compared if and only if the proof is of the right purpose, unexpired, unspent, unrevoked and has a guess left, and a confirmation comes from its own user's session |
| `Proofs.ConsumeInColumns` | backend/internal/identity/service.go:281-380 | refused, missed, aborted or accepted, each exactly when, and what each writes: the contact for its user, or the password with the sessions and proofs it ends |
| `Proofs.Service.AcceptInvitation` | backend/internal/identity/team.go:140-244 | one acceptance under the same counter, with the addressee, owner and membership checks |
| `Proofs.AcceptComparedInColumns` | backend/internal/identity/team.go:178-191 | a value is compared if and only if the proof stands as above and the invitation is open and its inviter's |
| `Proofs.AcceptInColumns` | backend/internal/identity/team.go:192-244 | the outcomes of an acceptance, each exactly when, and the membership, mark and spent proof it writes |
| `Proofs.RevokeInColumns` | backend/internal/identity/team.go:122-137 | a withdrawal revokes the invitation and its proof, of that organization only |
| `Proofs.NewProofWorksForItsTime` | backend/internal/identity/service.go:169-380 | a new proof presented with its value is accepted if and only if fifteen minutes have not passed, its contact still allows it, and a confirmation comes from its own user and session |
| `Proofs.NewInvitationWorksForItsTime` | backend/internal/identity/team.go:60-244 | a new invitation is accepted if and only if a day has not passed and the caller is its addressee, not yet a member, and an owner only as an admin |
| `Proofs.StepKeepsOk` | backend/internal/identity/service.go:169-380 | every transaction keeps at most one live proof per user and purpose, contacts owned by one user, counters within five and accepted invitations spent |
| `Proofs.RunKeepsOk` | backend/internal/identity/service.go:169-380 | the same over every run |
| `Proofs.GuessesAreBounded` | backend/internal/identity/service.go:345-372 | through both consumers together at most five committed wrong guesses meet a proof's hash, and it is applied at most once and never when consumed or revoked |
| `Proofs.AbortedGuessesAreNotCounted` | backend/internal/identity/service.go:355-372 | through either consumer n wrong guesses whose transaction fails are all compared and leave no trace |
| `Proofs.BoundHoldsIffMissesCommit` | backend/internal/identity/service.go:345-372 | a run, with its failing transactions tried any number of times, stays within the guesses left if and only if every wrong guess in it is compared in a transaction that commits |
| `Proofs.FailingConsumeGuessesOn` | backend/internal/identity/service.go:345-372 | one proof, confirmed or reset with failing appends, meets six wrong guesses in a well-formed database |
| `Proofs.FailingAcceptGuessesOn` | backend/internal/identity/team.go:185-199 | and so does one invitation, through its acceptance |
| `Proofs.ConsumedStays` | backend/internal/identity/service.go:333-380 | a consumed proof stays consumed in every later state |
| `Proofs.ResetEndsEarlierAuthority` | backend/internal/identity/service.go:295-332 | a password reset ends every live proof and session of that user and changes nothing of any other user |
| `Proofs.AcceptanceJoinsOnlyTheAddressee` | backend/internal/identity/team.go:185-244 | membership comes only from an unspent invitation addressed to the caller, adds exactly that member, and cannot be repeated |
| `Proofs.StepKeepsBudget` | backend/internal/identity/service.go:169-202 | no step takes an hour over five proofs created for a user and purpose, in whatever order transactions see their times |
| `Proofs.RunKeepsBudget` | backend/internal/identity/service.go:169-202 | the same over every run |
| `Framing.LengthIsReadable` | backend/internal/repository/audit_repo.go:377-382 | the eight-byte header gives back the length of the field that follows |
| `Framing.EncodingIsInjective` | backend/internal/repository/audit_repo.go:365-382 | two lists of as many fields with the same hashed bytes are equal field by field |
| `AuditChain.AuditRepository.CreateTx` | backend/internal/repository/audit_repo.go:71-92 | an append links the new row to the stored head and moves the head to its hash |
| `AuditChain.AuditRepository.VerifyChain` | backend/internal/repository/audit_repo.go:283-361 | accepts exactly when the hashed rows form one chain from "" with every hash right and the stored head at its end; it reports a hashed row only when there is no such chain, and the head only when the chain ends elsewhere |
| `AuditChain.HashedBytes` | backend/internal/repository/audit_repo.go:363-382 | the bytes under the hash are the link and six columns in their order, each behind its length, with the details in canonical form |
| `AuditChain.OverwrittenColumnsAreReported` | backend/internal/repository/audit_repo.go:283-361 | a chained row with a hashed column overwritten leaves no chain, or exhibits a collision |
| `AuditChain.FollowLinks` | backend/internal/repository/audit_repo.go:309-352 | following the map of links finds the one chain of all hashed rows, or there is none |
| `AuditChain.ReadLinks` | backend/internal/repository/audit_repo.go:186-247 | the prune's walk orders all hashed rows into their chain, or reports that they form none |
| `AuditChain.SameTipSameContents` | backend/internal/repository/audit_repo.go:283-382 | two linked tables with one key and one tip hold the same contents in the same order, or two of their rows are a collision of the hash |
| `AuditChain.AcceptedTablesAgree` | backend/internal/repository/audit_repo.go:283-382 | two tables accepted with one key and head have as many chained rows, which agree one by one in user, project, action, environment, canonical details and address, or their rows exhibit a collision |
| `AuditChain.LinksDoNotRepeat` | backend/internal/repository/audit_repo.go:309-352 | links never repeat along a linked chain unless two of its rows are a collision |
| `AuditChain.LinkedHasNoFork` | backend/internal/repository/audit_repo.go:309-325 | so a linked chain has no fork |
| `AuditChain.ChainIsUnique` | backend/internal/repository/audit_repo.go:283-361 | the rows of a table form at most one such chain |
| `AuditChain.AppendExtends` | backend/internal/repository/audit_repo.go:71-92 | an append to a verified journal leaves a verified one whose log is longer by one entry with exactly the columns appended |
| `AuditChain.AuditRepository.PruneChained` | backend/internal/repository/audit_repo.go:160-277 | removes the leading run older than the cutoff, re-links the rest and returns the number removed; a broken chain is left alone |
| `AuditChain.PruneDropsLeadingRun` | backend/internal/repository/audit_repo.go:249-277 | what remains is a verified journal whose log is exactly what followed the removed run |
| `AuditChain.PruneRemovesOnlyThose` | backend/internal/repository/audit_repo.go:249-277 | no other row is removed, unhashed rows stay as they are, and only links and hashes of the rest change |
| `AuditChain.RunRefinesLog` | backend/internal/repository/audit_repo.go:71-277 | any mix of appends and prunes from a verified journal holds exactly the log those operations describe, or two rows of one journal on the way collided |
| `AuditChain.RunStaysIntact` | backend/internal/repository/audit_repo.go:71-361 | and the verifier accepts the result |
| `OAuth.Service.DecideRequest` | backend/internal/mcpauth/service.go:152-210 | a decision consumes an open request once; an approval adds a consent no longer than its session and one code bound to the request |
| `OAuth.SessionInColumns` | backend/internal/mcpauth/service.go:61-77 | the session check, with ten minutes for a decision |
| `OAuth.LineageInColumns` | backend/internal/mcpauth/service.go:234-245 | a lineage stands while its session, consent and client do |
| `OAuth.BeginInColumns` | backend/internal/mcpauth/service.go:98-122 | a request is stored open for five minutes, for an enabled client at its own redirect |
| `OAuth.DecideInColumns` | backend/internal/mcpauth/service.go:152-210 | a decision succeeds exactly on an open request from a recent session, and an approval writes a consent of at most eight hours and a code of one minute |
| `OAuth.Service.ExchangeCode` | backend/internal/mcpauth/service.go:265-321 | an exchange spends an unused, unexpired code of matching client, redirect and challenge for a family and its first token |
| `OAuth.ExchangeInColumns` | backend/internal/mcpauth/service.go:265-321 | an exchange succeeds exactly for an unused, unexpired code of a standing lineage presented as requested; family and token, ten minutes at most, are written out |
| `OAuth.InsertableInColumns` | backend/internal/mcpauth/service.go:246-263 | an issued token repeats no id and no hash |
| `OAuth.Service.RefreshToken` | backend/internal/mcpauth/service.go:322-384 | a refresh rotates an unrotated token, revokes the family of a rotated one, and otherwise changes nothing |
| `OAuth.RefreshInColumns` | backend/internal/mcpauth/service.go:322-384 | rotation, replay and denial, each exactly when, with the new token's ten minutes cut to consent and family |
| `OAuth.Service.ValidateToken` | backend/internal/mcpauth/service.go:385-417 | accepts exactly an unrotated token of a standing lineage and returns the least of the four expiries |
| `OAuth.ValidateInColumns` | backend/internal/mcpauth/service.go:385-417 | acceptance column by column; the expiry told is the first of token, session, consent and family |
| `OAuth.Service.RevokeToken` | backend/internal/mcpauth/service.go:418-469 | revokes the token's family only for its own client under a standing lineage |
| `OAuth.RevokeInColumns` | backend/internal/mcpauth/service.go:418-469 | a client revokes exactly the family of a standing lineage of its own |
| `OAuth.Service.RevokeDelegationFamily` | backend/internal/mcpauth/delegations.go:57-95 | revokes a family only for the human who consented, on this resource |
| `OAuth.RevokeDelegationInColumns` | backend/internal/mcpauth/delegations.go:57-95 | a human revokes exactly a family of their own consent for this resource |
| `OAuth.Service.RequireGrantTx` | backend/internal/mcpauth/service.go:475-506 | admits a stored delegation exactly while consent, family, token and client stand |
| `OAuth.GrantInColumns` | backend/internal/mcpauth/service.go:475-506 | which stored delegations are admitted, column by column |
| `OAuth.Service.FamilyPrincipalTx` | backend/internal/mcpauth/delegations.go:101-129 | what it returns is a delegation of that human and client built on the newest live token and admitted by RequireGrantTx; it returns nothing only if there is none |
| `OAuth.NarrowsInColumns` | backend/internal/mcpauth/delegations.go:101-129 | which delegation may be returned: the human's own, of this client, on the newest live token, until the first of four ends |
| `OAuthProofs.NewServiceIsOk` | backend/internal/mcpauth/service.go:25-33 | a service with clients and sessions but nothing delegated satisfies the invariant |
| `OAuthProofs.StepKeepsInv` | backend/internal/mcpauth/service.go:98-469 | every transaction, unlocked read and change of sessions, clients or consents keeps the lineage invariant |
| `OAuthProofs.RunKeepsInv` | backend/internal/mcpauth/service.go:98-469 | the same over every interleaving |
| `OAuthProofs.RunGrows` | backend/internal/mcpauth/service.go:98-469 | stored rows never change but for their one mark, which is never taken back |
| `OAuthProofs.OneFamilyPerApproval` | backend/internal/mcpauth/service.go:152-321 | every family hangs from exactly one approved request and no two families from the same one |
| `OAuthProofs.ExactlyOneLiveToken` | backend/internal/mcpauth/service.go:265-384 | every family has exactly one unrotated token in every reachable state |
| `OAuthProofs.OneAccessTokenPerRequest` | backend/internal/mcpauth/service.go:385-417 | two access tokens accepted under one approved request are the same token |
| `OAuthProofs.HashFindsTheRowRead` | backend/internal/mcpauth/service.go:219-233 | the row a locked transaction finds by hash is the one the earlier unlocked read found |
| `OAuthProofs.CodeIsBoundToItsRequest` | backend/internal/mcpauth/service.go:294-302 | a code is exchanged only by the client, redirect and challenge of the approved request it came from |
| `OAuthProofs.CodeIsExchangedOnce` | backend/internal/mcpauth/service.go:297-305 | an exchanged code is refused in every later state, whatever is presented with it |
| `OAuthProofs.ReplayRevokesTheFamily` | backend/internal/mcpauth/service.go:351-366 | a rotated refresh token never rotates again: presented while the lineage stands it revokes the family for good, otherwise it is refused |
| `OAuthProofs.RevokedForever` | backend/internal/mcpauth/service.go:322-506 | after a family is revoked no later validation, refresh, grant admission or narrowing on it succeeds |
| `OAuthProofs.RevocationIsFinal` | backend/internal/mcpauth/service.go:418-469 | a revocation by the token's own client under a standing lineage ends the family for good |
| `OAuthProofs.DelegationRevocationIsFinal` | backend/internal/mcpauth/delegations.go:57-95 | and so does one by the human who consented, from any live session |
| `OAuthProofs.DecidedOnce` | backend/internal/mcpauth/service.go:152-210 | a request that was approved or denied is never decided again, and a denial approves nothing |
| `OAuthProofs.EndedSessionStaysEnded` | backend/internal/mcpauth/service.go:61-77 | after a session is revoked nothing delegated under it validates, refreshes or is exchanged |
| `OAuthProofs.ExpiryNarrows` | backend/internal/mcpauth/service.go:181-264 | token expiry is at most family expiry, consent expiry and session expiry, in that order, in every reachable state |
| `OAuthProofs.ValidatedUntilTheTokenExpires` | backend/internal/mcpauth/service.go:402-416 | what a resource server is told is the token's own expiry, lies in the future and within the session of that user, and is admitted by RequireGrantTx |
| `OAuthProofs.ExchangedTokenIsAccepted` | backend/internal/mcpauth/service.go:246-321 | an exchanged token ends with the first of ten minutes, consent and family, and after any later run is accepted exactly until then while it is unrotated and its session, consent, client and family stand |
| `OAuthProofs.RotatedInTokenIsAccepted` | backend/internal/mcpauth/service.go:322-384 | so is the token of a rotation |
| `OAuthProofs.ApprovalIsWorthAToken` | backend/internal/mcpauth/service.go:152-417 | undisturbed, an approval's code is exchanged within its minute by the client it was made for, and the token of that is accepted for the approving user |
| `Glob.MatchKey` | backend/internal/policy/policy.go:174-199 | true exactly when replacing each star by some string turns the pattern into the key, the empty pattern matching everything |
| `Glob.FindAll` | backend/internal/policy/policy.go:190-198 | the greedy loop succeeds exactly when the middle parts occur in order without overlap |
| `Glob.FirstOccurrenceSuffices` | backend/internal/policy/policy.go:190-198 | taking the first occurrence of a part is as good as taking any |
| `Glob.OneStarMatches` | backend/internal/policy/policy.go:174-189 | literal, prefix and suffix patterns and a star between two ends that may not overlap |
| `Policy.LegacyAllows` | backend/internal/policy/policy.go:164-172 | allows exactly when some scope names the action and its pattern matches the key |
| `Policy.CutSplits` | backend/internal/policy/policy.go:166 | a scope is a verb, alone or before the first colon, and a pattern after it |
| `Policy.ScopeInWords` | backend/internal/policy/policy.go:164-172 | which actions and keys a scope allows; writing covers deleting |
| `Policy.LeaseKeysAllowed` | backend/internal/policy/policy.go:203-228 | accepts exactly the lease keys that the parent's read scopes cover, with unbounded keys only under unbounded scopes |
| `Policy.LeaseInWords` | backend/internal/policy/policy.go:203-228 | which lease keys a parent's scopes cover |
| `Policy.Evaluator.LoadAuthority` | backend/internal/repository/authority_store.go:23-102 | the stored authority of each kind of principal, or nothing when any stage fails |
| `Policy.GrantedInWords` | backend/internal/repository/authority_store.go:23-93 | for each kind of principal when it has an authority, and whom, where, with which scopes and until when |
| `Policy.LoadInWords` | backend/internal/repository/authority_store.go:94-101 | the project must stand; tenant and role come from its organization or its owner |
| `Policy.Evaluator.Authorize` | backend/internal/policy/policy.go:87-153 | refines the decision specification that the confinement lemmas are about |
| `Policy.DecisionInWords` | backend/internal/policy/policy.go:87-153 | allowed, until the authority ends, if and only if principal, resource, tenant, actor, role and scope all fit, each written out |
| `Policy.RoleInWords` | backend/internal/policy/policy.go:110-161 | the roles that may do each action |
| `Policy.ScopeCheck` | backend/internal/policy/policy.go:119-150 | scopes of a key or agent allow an action exactly on a matching key, environment and verb |
| `Policy.LeaseScopesAreCovered` | backend/internal/policy/policy.go:203-228 | whatever an accepted lease's keys read, the parent's scopes read |
| `Policy.AgentIsConfined` | backend/internal/repository/authority_store.go:62-93 | whatever an agent token is allowed, its parent API key is allowed at that instant on the same resource, whether or not it names its actor and tenant, and the token's permission ends no later |
| `Policy.AgentOnlyReads` | backend/internal/policy/policy.go:87-153 | an agent token only reads, within its lease's project, environment and literal keys |
| `LockOrder.LowerIsAStrictTotalOrder` | backend/internal/authority/guard.go:46-48 | the rank of lock rows, user, organization, project, member, session and then id, is a strict total order |
| `LockOrder.LowerInWords` | backend/internal/authority/guard.go:46-48 | the rank kind by kind |
| `LockOrder.ProjectPlanOrdered` | backend/internal/authority/guard.go:145-215 | the rows a project lock takes are in rank order for any set of organizations and members |
| `LockOrder.ProjectPlanHolds` | backend/internal/authority/guard.go:145-215 | exactly which rows a project lock takes and in which mode |
| `LockOrder.MaintenancePlanOrdered` | backend/internal/authority/guard.go:220-257 | the rows a maintenance lock takes are in rank order |
| `LockOrder.MaintenancePlanHolds` | backend/internal/authority/guard.go:220-257 | exactly which rows a maintenance lock takes and in which mode |
| `LockOrder.NoWaitCycle` | backend/internal/authority/guard.go:49-257 | transactions that take rows in rank order never form a cycle of waits |
| `LockOrder.SomeoneCanGoOn` | backend/internal/authority/guard.go:49-257 | whenever some transaction is unfinished, some transaction waits for nobody, so there is no deadlock |
| `LockOrder.SchedulesEndWithTheWork` | backend/internal/authority/guard.go:49-257 | whoever goes on each time and however queues are served, a schedule takes as many steps as there are rows and commits outstanding, can go on until then, and never lets two transactions hold a row in conflicting modes |
| `LockOrder.AllCanFinish` | backend/internal/authority/guard.go:49-257 | from every state of transactions with ordered plans a schedule leads to all of them having committed |
| `Guard.Transaction.LockSubjects` | backend/internal/authority/guard.go:49-69 | takes the distinct users in ascending order and succeeds exactly when none is nil and each is found by the statement that locks it |
| `Guard.Transaction.RequireSession` | backend/internal/authority/guard.go:73-86 | succeeds, with the session locked, exactly for the caller's own unrevoked, unexpired session, created within ten minutes when that is asked |
| `Guard.Transaction.RequireActiveTx` | backend/internal/authority/guard.go:90-95 | takes user then session in rank order and succeeds exactly when the user exists and the session stands |
| `Guard.Transaction.RequireOrg` | backend/internal/authority/guard.go:99-108 | takes organization, membership and session, in rank order behind any locked subjects, and succeeds exactly for an active member of the role with a standing session |
| `Guard.Transaction.LockMember` | backend/internal/authority/guard.go:110-127 | takes membership state before membership and succeeds exactly when the state is active with an epoch and the member has the role |
| `Guard.FindingInWords` | backend/internal/authority/guard.go:49-127 | what each kind of row must be for its lock to count |
| `Guard.SessionInWords` | backend/internal/authority/guard.go:73-86 | what a standing session is |
| `Guard.Transaction.LockProjectOrganizations` | backend/internal/authority/guard.go:145-215 | takes an ordered plan and succeeds exactly when every statement of it finds what it needs, the one that locks the project still finding the discovered owner and organization; on success the plan is the one for the owner and organization that very statement saw, every row stood when it was locked, members are active and the session live, and further subjects without an organization are the owner |
| `Guard.ProjectAdmitsInWords` | backend/internal/authority/guard.go:145-165 | who the actor is, and that a project lock builds on the discovered owner and organization |
| `Guard.DiscoveredInWords` | backend/internal/authority/guard.go:165-215 | from there it succeeds if and only if no id is nil, each row of the plan is found in its turn, the project is then unchanged and not deleted, others than the owner are named only in an organization, and the session is the caller's |
| `Guard.Transaction.LockProjectMaintenance` | backend/internal/authority/guard.go:220-257 | the same for maintenance, deleted projects included: it succeeds exactly when each statement up to the project lock finds what it needs, the plan is the one for the owner and organization the locking statement saw, and the member states locked are of exactly those subjects that have one |
| `Guard.MaintenanceAdmitsInWords` | backend/internal/authority/guard.go:220-257 | maintenance succeeds if and only if no id is nil, the users and organization are found, and the project is then unchanged |
| `RateLimit.RateLimiter.Allow` | backend/internal/api/ratelimit.go:56-89 | refines the bucket specification that the bounds are about |
| `RateLimit.AdmitInColumns` | backend/internal/api/ratelimit.go:56-89 | a request is admitted if and only if a token is there once whole intervals are paid out up to the burst, and it spends one |
| `RateLimit.RateLimiter.Cleanup` | backend/internal/api/ratelimit.go:41-54 | one round removes exactly the buckets idle for longer than the period |
| `RateLimit.EvictInColumns` | backend/internal/api/ratelimit.go:41-54 | a client is kept if and only if it was seen within the period |
| `RateLimit.EvictionIsUnobservable` | backend/internal/api/ratelimit.go:41-89 | over every run the clean-up changes no answer, if and only if a stale bucket would have refilled completely |
| `RateLimit.ProbeShowsEviction` | backend/internal/api/ratelimit.go:41-89 | otherwise this run of two bursts around a clean-up is answered differently |
| `RateLimit.WindowBoundWithoutEviction` | backend/internal/api/ratelimit.go:56-89 | without eviction a window [s, t] admits at most burst + rate * (floor((t - s) / interval) + 1) requests of a key |
| `RateLimit.WindowBound` | backend/internal/api/ratelimit.go:41-89 | the same with clean-up rounds, when stale buckets would have refilled |
| `RateLimit.PatientClientsAreAdmitted` | backend/internal/api/ratelimit.go:41-89 | over every run a client that leaves an interval between its requests is never turned away |
| `Pagination.Service.Query` | backend/internal/auditview/service.go:97-134 | the first rows of the listing below the cursor, or nothing for a cursor that is garbled or made for another project or filter |
| `Pagination.Service.SearchPage` | backend/internal/auditview/service.go:77-159 | one page of the listing, with a cursor exactly when rows remain; invalid filters, cursors longer than 1024 bytes among them, are refused before anything is read |
| `Pagination.RefusalsInWords` | backend/internal/auditview/service.go:77-111 | which filters and cursors are refused, before and after the caller is admitted |
| `Pagination.PageInWords` | backend/internal/auditview/service.go:112-159 | a page is the newest matching rows below the cursor, newest first, and has a cursor, made of its last row and the filter, exactly when matching rows are left |
| `Pagination.FitsIff` | backend/internal/auditview/service.go:152-157 | a cursor handed on is short enough to be accepted exactly when the time of its row and the escaped action and environment take at most 638 bytes together |
| `Pagination.ShortTextAlwaysFits` | backend/internal/auditview/service.go:77-85 | filters of at most 101 bytes of action and environment always get cursors that are accepted |
| `Pagination.CursorOfLongTextIsRefused` | backend/internal/auditview/service.go:152-157 | a valid filter of 150 bytes that are escaped gets a first page whose cursor is refused in any log, so the second row is never listed |
| `Pagination.SortedDescends` | backend/internal/auditview/service.go:112 | the listing is strictly descending in (created_at, id) |
| `Pagination.SortedHolds` | backend/internal/auditview/service.go:112 | and holds exactly the matching rows |
| `Pagination.NextPageGoesOn` | backend/internal/auditview/service.go:152-157 | below the last row of a full page lies exactly the rest of the listing |
| `Pagination.FollowNeverRepeats` | backend/internal/auditview/service.go:135-159 | however the log changes between pages, the pages together are strictly descending, so no row comes twice |
| `Pagination.FollowListsOnlyMatches` | backend/internal/auditview/service.go:97-159 | every row listed matched and was in the log when its page was read |
| `Pagination.FollowMissesNothing` | backend/internal/auditview/service.go:135-159 | a row that is there throughout is listed by the time no cursor is left |
| `Pagination.QuietFollowIsTheListing` | backend/internal/auditview/service.go:135-159 | if nothing below each handed-on cursor changes, the pages are exactly the first listing and end after as many as it takes, if and only if every cursor on the way fits |
| `Pagination.RowsAboveTheCursorAreUnseen` | backend/internal/auditview/service.go:112 | rows written above the cursor between pages do not change what is below it |
| `Pagination.AppendsLeaveTheListing` | backend/internal/auditview/service.go:135-159 | while the log only gains rows above each cursor, the pages are exactly the listing at the start, without duplicate or omission, in as many pages as that takes, if and only if every cursor on the way fits |
| `SdkCache.KeyDeterminesGeneration` | sdks/go/keepsave.go:585 | equal cache keys carry the same generation |
| `SdkCache.ScopesAreUnambiguousIff` | sdks/go/keepsave.go:585 | keys tell the projects of a set and their environments apart if and only if no identifier in it is another one followed by a colon and more |
| `SdkCache.NoColonIsEnough` | sdks/go/keepsave.go:585 | identifiers without a colon are of that kind |
| `SdkCache.Client.ChangeToken` | sdks/go/keepsave.go:108-114 | a new token empties the cache and starts a generation |
| `SdkCache.Client.ChangeAPIKey` | sdks/go/keepsave.go:117-123 | a new API key empties the cache and starts a generation, keeping the token |
| `SdkCache.Client.FinishLogout` | sdks/go/keepsave.go:534-540 | a confirmed logout clears the token only if it is still the one it started with |
| `SdkCache.Client.OnUnauthorized` | sdks/go/keepsave.go:436-444 | a 401 clears the cache, and the token only if the request used it and it is still current |
| `SdkCache.Client.Invalidate` | sdks/go/keepsave.go:336-344 | removes exactly the entries whose key has the prefix |
| `SdkCache.MethodsAreSteps` | sdks/go/keepsave.go:108-123 | the client's methods are the machine's clearing and changing steps run without a pause |
| `SdkCache.HitIsCurrent` | sdks/go/keepsave.go:585-590 | a cache hit returns a list of the scope asked for, fetched since the call read its generation |
| `SdkCache.StepKeepsInv` | sdks/go/keepsave.go:402-607 | every step of every call and every change of credentials keeps each entry's list fetched at a generation between its key's and the current one |
| `SdkCache.RunKeepsInv` | sdks/go/keepsave.go:402-607 | the same over every interleaving |
| `SdkCache.ListsAreCurrent` | sdks/go/keepsave.go:581-607 | every list returned, cached or fetched, was fetched with credentials in force while the call ran, for the scope asked for |
| `SdkCache.ListsAreRightIff` | sdks/go/keepsave.go:581-607 | over all runs that ask for projects of a set, every list is of the project and environment asked for, if and only if nothing is cached or no identifier of the set is another one followed by a colon and more |
| `SdkCache.CollisionMisleads` | sdks/go/keepsave.go:581-607 | otherwise this run of two calls gets the list of another project from the cache |
| `SqlSplit.SplitSQLStatements` | backend/internal/repository/migrate.go:159-245 | the scanner computes the split defined by tokens, trimmed and without empty statements |
| `SqlSplit.StatementsAreTheSegments` | backend/internal/repository/migrate.go:225-244 | the statements are the segments in order, trimmed, without the empty ones |
| `SqlSplit.TokensInCharacters` | backend/internal/repository/migrate.go:166-224 | what starts each kind of token |
| `SqlSplit.TriggerInCharacters` | backend/internal/repository/migrate.go:251-275 | a statement is an open trigger if and only if CREATE TRIGGER is spelled in it, in any case, and the word END does not end it |
| `SqlSplit.SpaceInCharacters` | backend/internal/repository/migrate.go:227 | which characters are white space |
| `SqlSplit.TokenGoesOn` | backend/internal/repository/migrate.go:166-236 | the flags of the scanner follow the token it is inside |
| `SqlSplit.SplitIsLossless` | backend/internal/repository/migrate.go:159-245 | joining the untrimmed segments with semicolons gives back the input |
| `SqlSplit.SplitIsExact` | backend/internal/repository/migrate.go:200-233 | cuts are exactly the semicolons outside literals, comments and open triggers |
| `SqlSplit.LineEndsAtNewline` | backend/internal/repository/migrate.go:169-175 | a line comment runs through its first newline |
| `SqlSplit.BlockEndsAtFirstClose` | backend/internal/repository/migrate.go:177-185 | a block comment runs through the first closing mark after its slash |
| `SqlSplit.QuoteEndsAtClose` | backend/internal/repository/migrate.go:187-198 | a literal runs to the first unpaired quote not followed by another |
| `SqlSplit.EndKeywordIsAWord` | backend/internal/repository/migrate.go:261-275 | the END test holds exactly when the text ends with the word END, blanks aside |
| `SqlSplit.TrimSpaceCutsOnlySpace` | backend/internal/repository/migrate.go:227 | trimming removes white space only and leaves none at either end |

## Left out

- SQLite and MySQL branches: the guard and the queue are modelled on PostgreSQL, with `SKIP LOCKED` and row locks.
- HTTP, SMTP and GitHub traffic, JSON, base64, RSA and AES codecs: their results are parameters. A refresh or exchange takes the S256 transform of the verifier as an input.
- The HMAC, SHA-256 and canonical JSON functions: arbitrary functions, of which only "never empty" is used; the chain lemmas name the colliding rows instead of assuming that there are none.
- Proofs.GuessesAreBounded: bounds committed guesses, because a rolled-back guess leaves no counter; BoundHoldsIffMissesCommit says exactly when all guesses are bounded.
- DeliveryProofs.SentAtMostOnce: assumes that no worker but the delivery worker claims or moves jobs of kind `identity.proof_delivery`, and that custody returns its callback's error; the callers of other packages are not part of this model.
- DeliveryProofs.BarrierNeedsPendingAndLive: takes the barrier's transaction as one step. `identity/delivery.go:126` reads the proof without locking it, and `RevokeInvitation` by another administrator (`identity/team.go:122-137`) takes no lock that conflicts before the audit head, so it can commit between that read and the dispatch; "live" is then as of the read.
- Guard.Transaction.LockProjectOrganizations: covers the guard's own entry points; the locks of organization off-boarding in `identity/team.go` interleave membership rows differently and are left out of the deadlock theorem.
- OAuthProofs.OneAccessTokenPerRequest: takes the session's expiry as fixed, as nothing in the repository changes it; deletion of rows by retention jobs is left out.
- Pagination.Service.Query: the SELECT is modelled by its order, filter and limit on a set of rows; a NULL environment reads as the empty string, and the safe references of an entry are left out.
- Pagination.Service.SearchPage: text is valid UTF-8, and the length of a row's time in RFC 3339, which depends on the session's time zone, is a field of the row; times from the year 10000 on, which `encoding/json` refuses, are left out.
- RateLimit.RateLimiter.Allow: integers are unbounded, so overflow of `int(elapsed / interval) * rate` is left out.
- SdkCache.Client.ChangeToken: the generation is unbounded where the source has 64 bits, and a client without a cache is left out.
- SqlSplit.SplitSQLStatements: characters stand for bytes; case mapping and white space outside ASCII are left out.
- Outbox.Queue.ClaimKinds: the commit that publishes a claim is part of the step; a claim whose commit fails is a claim that did not happen.
- The revision counters that fence cached authority, the membership-epoch trigger, and the unkeyed branch of `DeleteOlderThan`.
- The resend of a proof message: it is a new proof and a new delivery.
- Role tables, the circuit breaker, exports, CRUD repositories, the event bus and metrics: they would add only direct comparisons.
