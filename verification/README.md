# ArcID: verified model of its stateful cores

ArcID is an identity provider: OAuth tokens, sessions, DIDs, verifiable credentials and webhooks over a
PostgreSQL database, with Redis beside it. This project models the parts whose correctness depends on what
happens *between* calls (token rotation among concurrent callers, leases, optimistic allocation, two-tier
revocation) and the arithmetic of its encodings, and proves properties of every input and every run.

`dafny verify dfyconfig.toml` checks the whole project (Dafny 4.11).

| module | what it models |
|---|---|
| `Options`, `Powers` | the optional value and the powers the others share |
| `Base58` | base58btc encoding with its in-place base conversion, and the decoder it determines |
| `DidKey` | JWK to did:key registration, base64url, SEC1 packing in one file and unpacking in another |
| `BitString`, `StatusList` | the W3C bitstring status list: bit packing, entries, and the compare-and-swap allocator among concurrent issuers |
| `WebhookQueue` | delivery workers sharing one event table through leases, with manual retries beside them |
| `Tokens` | token, session, identity and client rows, granted scopes, and the refresh, kill-chain, revoke, logout and issue flows over them |
| `BulkRevocation` | the transaction that ends one session, the other sessions or all sessions of an identity |
| `CleanupJob` | the token-cleanup job |
| `Protocol` | all of these flows cut into their database statements, with cleanup and the deletion of identities and clients, interleaved by any number of callers |
| `Flows` | context switch, MFA verification, recovery, code exchange, step-up and revoke-by-id; flows as runs of `Protocol` |
| `Evolution` | what no statement ever undoes |
| `Rotation` | refresh-token families in every interleaving (section 6 of RFC 6749, section 4.14 of RFC 9700) |
| `Assurance` | assurance levels, parked sessions and killed sessions in every interleaving |
| `Parking` | exactly when a session that login parked, or any closed session, can come to a token |
| `Requests` | requests one after another and what they are answered |
| `Cleanup` | what cleanup's deletions change in the next answer, and what keeps all later answers as they were |
| `Visibility` | exactly when a cleanup can be told from later answers |
| `AccessRevocation` | the jti blocklist, the guards, and revocation under Redis loss, restarts, dropped writes and cleanup |
| `Sessions` | session creation under a cap |
| `Challenges` | single redemption of WebAuthn challenges |

How the system is rendered:

- A table is a map from keys to rows. A conditional `updateMany` is one atomic step that reports how many rows
  it changed. UUIDs and random tokens are keys that were never used before.
- Objects whose methods update fields, and module-level state, are classes (`TokenStore`, `StatusListService`,
  `WebhookWorker`, `JtiBlocklist`, `AuthGuard`, `SessionService`, `ChallengeStore`); each method equates the new
  state with a function of the old one, and the theorems are about those functions.
- Beside the theorems about runs, each flow has lemmas that say on the table rows, without its specification function,
  exactly when it goes through and what it leaves (`...Rows`, `...Answers`, `...Rules`).
- Concurrency is a state machine over single statements. A caller can stop at any point: rejected, thrown or dead.
- Time is a clock in milliseconds that only moves forward. Where the code reads the clock twice and it matters
  (`claimBatch`, token signing), the two readings are separate.

## Results where the code does not do what one would expect

Each is a lemma with a concrete input or run, next to a lemma giving the exact condition under which the
expected property holds.

- A kill-chain is not final while a rotation of the family is in flight: a caller that won its swap earlier still
  writes its child afterwards, unless its identity or client has been deleted. `Rotation.KillIsFinalIffNoneInFlight`:
  final if and only if none that could still write was in flight.
- did:key registration checks no coordinate length, so two different EC keys can share a DID
  (`DidKey.DifferentKeysOneDid`); `DidKey.DidCollision` says exactly which ones do.
- The allocator looks at the oldest list only, though its comment promises a new list when all are full. Once the
  oldest is full every call makes a list of its own and takes index 0 of it, for good
  (`StatusList.OneCredentialPerList`); an empty database gets there (`StatusList.SaturationIsReached`,
  `StatusList.ProvisionsDespiteRoom`), and from a moment at which all lists are full the promise is broken exactly
  from the second new list on (`StatusList.RoomIffOneWasMade`). Two calls that find no list both make one
  (`StatusList.ColdStartMakesTwo`).
- `releaseLease` is unconditional. If a delivery outlives its lease, two workers deliver one event at once and two
  failures count as one (`WebhookQueue.OutlivedLeaseBreaksExclusion`, `WebhookQueue.SecondClaimIffLeaseOutlived`).
- The manual retry checks an event and writes it in two statements. Written while the event is being delivered
  again, its reset of `attempts` is overwritten by the delivery's own count
  (`WebhookQueue.RetryMidDelivery`, `WebhookQueue.RetryMidDeliveryMiscounts`); otherwise attempts counts the
  failures since the last retry (`WebhookQueue.AttemptsCountFailures`).
- The backoff comment in `src/jobs/webhook-worker.ts:179` says 30 s after the first failure; line 180 computes
  120 s. The model follows line 180.
- Cleanup changes later answers when it deletes an access token (revocation by id no longer finds it), a refresh
  token (no kill-chain any more), a session (logout no longer blocks its caller's token) or the RevokedJti row of an
  access token left unrevoked (bulk revocation no longer aborts on it), and only then:
  `Visibility.CleanupIsInvisibleIff`. Deleted access tokens alone are noticed by nobody but revocation by id, guards
  that ask for a scope, and the scopes of tokens handed out by a refresh: `Visibility.UnseenApartFromAccessIff`.
  Which of the modelled requests can notice at once: `Cleanup.NextAnswerUnchangedIff`.
- A refresh takes its scopes from the newest unrevoked access token of the pair, and from the client when there is
  none. Once cleanup has deleted that row, scopes narrowed at the exchange come back in full, and guards accept what
  they refused: `Visibility.ScopesWiden`.
- An access token's `exp` is counted from the second in which it is signed, its row's expiry from an earlier
  reading of the clock. If a second begins in between, the token outlives its row's expiry and a recorded
  revocation can be swept away while the token still verifies (`AccessRevocation.RefusedIffTimely`).
- A login that needs a second factor creates its session valid and parks it as invalid with a second, separately
  committed write. A code exchange in between finds the session and issues a token for it afterwards, without any
  recovery (`Parking.ExchangeBeforeParking`). A closed session can come to a token exactly if it has one, a recovery
  can still get through, a caller that read it while it was valid can still issue, or a refresh token of it is still
  good (`Parking.ClosedComesToTokenIff`). If nobody read the session before it was parked, the recovery handler is the
  only way, since MFA verification refuses invalid sessions. It checks the expiry when it reads the session and not
  when it writes, so the way is open while the session is unexpired or a handler is past that check
  (`Parking.ParkedOpensIffRecoverable`).
- A logout that blocklists its caller's token leaves that token's row unmarked, and a bulk revocation covering it
  then aborts on the duplicate or returns early (`BulkRevocation.BulkRevokeIsInertAfterLogout`).

## Model

| member | source | states |
|---|---|---|
| Base58.EncodeBytes | src/lib/multibase.ts:23-56 | the in-place conversion computes base58btc as defined by value: the digits of the big-endian number, after one '1' per leading zero byte |
| Base58.FoldBytes | src/lib/multibase.ts:36-48 | the digit loop ends with exactly the canonical base-58 digits of the bytes' big-endian value |
| Base58.FoldByte | src/lib/multibase.ts:38-47 | one byte folded in: value becomes 256 * value + byte, digits stay below 58, the top digit stays nonzero, at most two digits are pushed |
| Base58.Multiply | src/lib/multibase.ts:38-43 | the inner loop preserves the number held by digits and carry together; the carry stays within a byte through 32-bit shift and truncation, and ends positive unless the digits were just 0 |
| Base58.Render | src/lib/multibase.ts:50-55 | the output loop spells the leading '1's and then the digits from the top down |
| Base58.DecodeUndoesEncode | src/lib/multibase.ts:23-56 | decoding undoes encoding for every byte sequence |
| Base58.EncodeUndoesDecode | src/lib/multibase.ts:23-56 | encoding undoes decoding for every string over the alphabet, so the encoding is a bijection onto those |
| Base58.EncodeIsInjective | src/lib/multibase.ts:23-56 | different byte sequences never encode alike |
| Base58.ConvertUndoesConvert | src/lib/multibase.ts:35-48 | leading-zero-preserving conversion there and back is the identity for any two bases |
| Base58.CanonicalDigits | src/lib/multibase.ts:36-48 | a digit string without a zero on top is the only one of its value |
| Base58.LeadingOnes | src/lib/multibase.ts:24-33 | leading '1's equal leading zero bytes, no more and no fewer |
| Base58.EncodedLength | src/lib/multibase.ts:36-55 | n bytes after the leading zeros take at most 3 * ceil(n / 2) characters |
| Base58.AlphabetIsBase58 | src/lib/multibase.ts:13-14 | the alphabet has 58 characters in ascending order, exactly the digits and ASCII letters other than '0', 'O', 'I' and 'l' |
| Base58.EncodedNumber | src/lib/multibase.ts:23-56 | the characters, ranked by their codes and read in base 58 from the left, are the number the bytes are in base 256 |
| Base58.KnownEncodings | src/lib/multibase.ts:23-56 | three encodings worked out |
| DidKey.UrlDecodeUndoesUrlEncode | src/modules/identity/flows/register-wallet-did.flow.ts:27-32 | padding-restoring base64url decoding undoes unpadded encoding (RFC 4648 section 5), given a correct standard decoder |
| DidKey.StandardDecodeDecodes | src/modules/identity/flows/register-wallet-did.flow.ts:31 | a standard decoder of that kind exists |
| DidKey.UrlEncodeIsInjective | src/lib/security/jws-proof.ts:58-59 | unpadded base64url encoding is injective |
| DidKey.Base64Alphabets | src/modules/identity/flows/register-wallet-did.flow.ts:27-32 | tables 1 and 2 of RFC 4648, character by character |
| DidKey.SextetsSpellBytes | src/modules/identity/flows/register-wallet-did.flow.ts:27-32 | three bytes are four sextets of the same 24-bit number; a last group is filled up with zero bits (section 4 of RFC 4648) |
| DidKey.PaddedToFour | src/modules/identity/flows/register-wallet-did.flow.ts:27-32 | the padded length is divisible by four, with as many padding characters as the last group lacks bytes |
| DidKey.JwkToKeyInfo | src/modules/identity/flows/register-wallet-did.flow.ts:45-89 | filling the point in place yields 0x04, x, y, with the curve's multicodec prefix, and each refusal for its own reason |
| DidKey.KeyInfoAnswers | src/modules/identity/flows/register-wallet-did.flow.ts:45-89 | for every JWK, exactly when it is accepted, with which bytes and prefix, and exactly when it is refused for which reason |
| DidKey.PrefixesAreMulticodec | src/modules/identity/flows/register-wallet-did.flow.ts:91-102 | the prefixes are the varints of the multicodec codes 0xed, 0x1200, 0x1201 and 0x1202, and no other curve has one |
| DidKey.EncodeDidKey | src/lib/multibase.ts:85-93 | the did:key of prefix and key bytes |
| DidKey.DidDecodes | src/lib/multibase.ts:85-93 | a DID starts with did:key:z and gives back prefix and key bytes |
| DidKey.DidCollision | src/modules/identity/flows/register-wallet-did.flow.ts:45-102 | two accepted JWKs share a DID if and only if key type, curve and concatenated coordinates agree |
| DidKey.DidInjective | src/modules/identity/flows/register-wallet-did.flow.ts:45-102 | with coordinates of equal length the map from keys to DIDs is injective |
| DidKey.DifferentKeysOneDid | src/modules/identity/flows/register-wallet-did.flow.ts:66-80 | two different keys with one DID, since no length is checked |
| DidKey.UnpackUndoesPack | src/lib/security/jws-proof.ts:33-61 | unpacking a packed point returns curve, x and y if and only if both coordinates have the curve's length (32, 48 or 66) |
| DidKey.RegisterThenResolve | src/lib/security/jws-proof.ts:33-61 | registering a key and resolving it returns that key if and only if its lengths are the curve's |
| DidKey.PublicKeyAnswers | src/lib/security/jws-proof.ts:33-61 | for every key, exactly which lengths resolve to which curve, with which halves, and exactly when each refusal is given |
| BitString.PackEntries | src/modules/credentials/services/status-list.service.ts:123-135 | the loop yields the one buffer whose most-significant-first bits are the in-range entries of value 1 |
| BitString.PackEncodes | src/modules/credentials/services/status-list.service.ts:127-134 | packing a set of indices sets exactly the bits of those in range |
| BitString.LeftmostFirst | src/modules/credentials/services/status-list.service.ts:123-135 | index i is bit i % 8 from the left of byte i / 8, with the eight masks written out, and there are ceil(size / 8) bytes |
| BitString.ReadFromTheLeft | src/modules/credentials/services/status-list.service.ts:116-119 | reading an index reads that bit, and 0 past the buffer |
| BitString.EncodingIsUnique | src/modules/credentials/services/status-list.service.ts:127-134 | a set of indices has one encoding of a given size |
| BitString.MarkEncodes | src/modules/credentials/services/status-list.service.ts:128-133 | one more entry sets its own bit and no other |
| StatusList.StatusListService.UpdateEntry | src/modules/credentials/services/status-list.service.ts:76-105 | upsert and re-encode leave the tables the specification gives, or fail without a list |
| StatusList.StatusListService.CheckEntry | src/modules/credentials/services/status-list.service.ts:109-119 | the bit read through decompression, or not found |
| StatusList.StatusListService.EncodeList | src/modules/credentials/services/status-list.service.ts:123-136 | compressed bits of exactly the entries of value 1 |
| StatusList.StatusListService.FindEntries | src/modules/credentials/services/status-list.service.ts:88-90 | exactly the entries of one list with their values, each index once |
| StatusList.StatusListService.FindOldest | src/modules/credentials/services/status-list.service.ts:30-33 | a list of the purpose that no other precedes, if there is one |
| StatusList.StatusListService.IncrementIfUnchanged | src/modules/credentials/services/status-list.service.ts:60-63 | the guarded increment changes one row or none and says which |
| StatusList.StatusListService.AllocateIndex | src/modules/credentials/services/status-list.service.ts:24-72 | uncontended, hands out the next index of the oldest list if it has room, else index 0 of a new list |
| StatusList.UpdateThenCheck | src/modules/credentials/services/status-list.service.ts:76-119 | an update shows at its own index and nowhere else, in any list |
| StatusList.CheckReturnsLastWrite | src/modules/credentials/services/status-list.service.ts:76-119 | after any sequence of updates, a check returns the last value written at an index if and only if the index is in range or that value is 0 |
| StatusList.AllocationIsExact | src/modules/credentials/services/status-list.service.ts:24-72 | in every interleaving of reads, creations, commits and swaps no slot is handed out twice, indices are below maxSize and are exactly 0 to issuedCount - 1 |
| StatusList.LostSwapMeansProgress | src/modules/credentials/services/status-list.service.ts:60-69 | a swap is lost if and only if another allocation on that list succeeded since the read |
| StatusList.OneCredentialPerList | src/modules/credentials/services/status-list.service.ts:29-51 | once the lists dated up to some moment are full, in every later state no call that begins afterwards joins an existing list, and every list made since holds exactly one credential |
| StatusList.RoomIffOneWasMade | src/modules/credentials/services/status-list.service.ts:29-51 | from a moment at which all lists are full, some list has room exactly when one was made since, so every provisioning but the first breaks the promise |
| StatusList.SaturationIsReached | src/modules/credentials/services/status-list.service.ts:29-71 | a run from an empty database that fills the first list to its 131072 indices |
| StatusList.ColdStartMakesTwo | src/modules/credentials/services/status-list.service.ts:30-51 | a run in which two calls that both found no list are both about to provide one, the first list having room |
| StatusList.ProvisionsDespiteRoom | src/modules/credentials/services/status-list.service.ts:29-51 | a run from an empty database that ends with a list about to be made beside one with room, the oldest being full |
| StatusList.RevokeTouchesOneCredential | src/modules/credentials/flows/revoke-credential.flow.ts:32-37 | revoking one credential sets its bit and leaves the check of every other credential as it was |
| StatusList.NewCredentialIsClear | src/modules/credentials/flows/issue-credential.flow.ts:86-140 | a credential just issued checks as not revoked |
| StatusList.CheckIsLastStatus | src/modules/credentials/flows/revoke-credential.flow.ts:32-37 | in every run over all issuers, an issued credential checks as the last status set for it, 0 if none |
| WebhookQueue.WebhookWorker.SelectBatch | src/jobs/webhook-worker.ts:79-91 | the oldest claimable unlocked rows, at most 20, and no claimable row left out unless the batch is full of older ones |
| WebhookQueue.WebhookWorker.ClaimBatch | src/jobs/webhook-worker.ts:68-97 | leases exactly that batch to this worker |
| WebhookQueue.WebhookWorker.DeliverBatch | src/jobs/webhook-worker.ts:153-214 | uncontended, every claimed row ends delivered or with one failure more and its retry time, each at its own moment, and no other row changes |
| WebhookQueue.BatchIsARun | src/jobs/webhook-worker.ts:153-214 | what a batch leaves, when every delivery ends within its lease, is what a run of claim, fetches and outcomes of the interleaved system leaves, each outcome at its own moment |
| WebhookQueue.AcceptedIsDone | src/jobs/webhook-worker.ts:165-172 | an accepted delivery leaves the row delivered, unleased and never claimable again, its counters as they were |
| WebhookQueue.RefusedWaits | src/jobs/webhook-worker.ts:177-197 | a refused one leaves one failure more and no lease; at the limit no retry time, below it one 30 s times 4^n away within a fifth, from which on the row is claimable |
| WebhookQueue.ClaimRules | src/jobs/webhook-worker.ts:76-90 | who is claimable, with the 90 s lease, and that a batch is at most the 20 oldest of them |
| WebhookQueue.RetryRules | src/modules/webhooks/routes/webhook-config.route.ts:432-461 | a manual retry is for events neither delivered nor scheduled, and makes them due at once with no attempts counted |
| WebhookQueue.NoDoubleDelivery | src/jobs/webhook-worker.ts:68-214 | in every run that keeps its leases, manual retries included, no event is in two deliveries at once and each delivery holds the lease it will release |
| WebhookQueue.SecondClaimIffLeaseOutlived | src/jobs/webhook-worker.ts:84-87 | an event in flight can be claimed again, once its retry time has come, if and only if its delivery has outlived the lease |
| WebhookQueue.OutlivedLeaseBreaksExclusion | src/jobs/webhook-worker.ts:100-112 | a run without the lease assumption: two deliveries at once, a foreign lease cleared, two failures counted as one |
| WebhookQueue.OutcomesAreBounded | src/jobs/webhook-worker.ts:164-197 | in every run an event is recorded as delivered at most once, and recorded failures and deliveries together never exceed maxAttempts times one more than its manual retries |
| WebhookQueue.AttemptsCountFailures | src/modules/webhooks/routes/webhook-config.route.ts:432-461 | if manual retries are written while no delivery that fetched a failure is under way, attempts is the number of failures since the last one |
| WebhookQueue.RetryMidDelivery | src/modules/webhooks/routes/webhook-config.route.ts:455-461 | a retry written during a delivery that then fails leaves the delivery's own count, right exactly if that had fetched none |
| WebhookQueue.RetryMidDeliveryMiscounts | src/modules/webhooks/routes/webhook-config.route.ts:432-461 | a run of two people retrying one event after which attempts is two with one failure since |
| WebhookQueue.ExhaustedIsClaimedAgain | src/modules/webhooks/routes/webhook-config.route.ts:455-461 | a run in which an exhausted event is retried by hand, claimed again and fails beyond its first budget |
| WebhookQueue.StepIsMonotone | src/jobs/webhook-worker.ts:68-197 | maxAttempts never changes, delivered stays, attempts falls only by a manual retry, and neither delivered nor exhausted events are claimed |
| WebhookQueue.DeliveredStaysDelivered | src/jobs/webhook-worker.ts:79-87 | a delivered event is never claimed again in any run, manual retries included |
| WebhookQueue.SpentIsClaimedOnlyAfterRequeue | src/jobs/webhook-worker.ts:79-87 | an exhausted event is claimed again only after a manual retry of it was written |
| WebhookQueue.RetryWaitsForBackoff | src/jobs/webhook-worker.ts:177-188 | after its n-th failure an event that is not retried by hand is not claimed before 0.8 * 4^n * 30 seconds have passed |
| WebhookQueue.BackoffGrows | src/jobs/webhook-worker.ts:180-187 | the retry windows of successive attempts never overlap, whatever the jitter |
| WebhookQueue.JitterRange | src/jobs/webhook-worker.ts:39-41 | jitter keeps a backoff within 20 percent, rounding included |
| Tokens.TokenStore.TokenRefresh | src/modules/oauth/flows/token-refresh.flow.ts:55-178 | the flow's answer, scopes and level included, and the tables it leaves, branch by branch |
| Tokens.RefreshAnswers | src/modules/oauth/flows/token-refresh.flow.ts:66-113 | for every token, exactly when a refresh is accepted and exactly when it is refused for which reason, on the rows |
| Tokens.RefreshCarriesLevel | src/modules/oauth/flows/token-refresh.flow.ts:158-174 | the level signed and reported is the one the session's row holds, none without the row |
| Tokens.RefreshedRows | src/modules/oauth/flows/token-refresh.flow.ts:133-175 | the consumed token, its child and the new access token column by column; every other row as it was |
| Tokens.RefreshedSession | src/modules/oauth/flows/token-refresh.flow.ts:133-175 | the session is bound to the child and otherwise unchanged, like all other sessions |
| Tokens.InheritedFromNewest | src/modules/oauth/flows/token-refresh.flow.ts:115-131 | a pair's scopes are those of its unrevoked access token that is newer than its others, the client's if it has none |
| Tokens.TokenStore.FindNewest | src/modules/oauth/flows/token-refresh.flow.ts:115-123 | the pair's unrevoked access token that none was issued after, if there is one |
| Tokens.TokenStore.FindScopes | src/modules/oauth/flows/token-refresh.flow.ts:115-131 | the scopes a refresh passes on: those of the pair's newest unrevoked access token, else the client's |
| Tokens.TokenStore.TriggerKillChain | src/modules/oauth/flows/token-refresh.flow.ts:191-217 | family revoked, session invalidated, access tokens of identity and client blocklisted |
| Tokens.TokenStore.BlocklistLiveAccessTokens | src/modules/oauth/flows/token-refresh.flow.ts:299-332 | marks exactly the live access tokens of the pair and records each once, with its own expiry |
| Tokens.TokenStore.IssueTokens | src/modules/oauth/services/token.service.ts:85-242 | a new access row with its scopes, a refresh row in the parent's or a fresh family, and the session bound to it, or nothing without the client or the identity |
| Tokens.IssuedRows | src/modules/oauth/services/token.service.ts:148-242 | what issuing leaves, column by column, a fresh family with an id of its own |
| Tokens.TokenStore.RevokeIfLive | src/modules/oauth/flows/token-refresh.flow.ts:134-143 | the compare-and-swap changes one live row or none and says which |
| Tokens.TokenStore.TokenRevoke | src/modules/oauth/flows/token-revoke.flow.ts:20-85 | own tokens only for a known caller: access tokens are marked and recorded, refresh tokens marked, anything else ignored |
| Tokens.RevokedRows | src/modules/oauth/flows/token-revoke.flow.ts:20-85 | on the rows: the caller's access token marked and recorded under its expiry, or the caller's refresh token marked, or nothing |
| Tokens.TokenStore.LogoutSession | src/modules/auth/flows/logout.flow.ts:45-116 | the session's bound and back-referenced refresh tokens revoked, the session invalid, and the jti of a caller that has jti and expiry recorded with that expiry |
| Tokens.LoggedOutRows | src/modules/auth/flows/logout.flow.ts:76-105 | the session is invalid, no refresh token that names it or that it is bound to is live, and every other session and refresh token is as it was |
| Tokens.LoggedOutRecord | src/modules/auth/flows/logout.flow.ts:45-116 | the caller's jti is recorded under its expiry unless recorded already, and a session not found or not the caller's leaves everything as it was |
| Tokens.LoginRows | src/modules/auth/flows/login.flow.ts:161-193 | a login's session, access token and root refresh token, column by column |
| Tokens.DeletionRows | src/modules/identity/routes/profile.route.ts:162 | deleting an identity, or a client, keeps exactly the rows of the others |
| Tokens.TwoRevocations | src/modules/auth/flows/logout.flow.ts:80-102 | the two revocations of logout amount to one over the union of their rows |
| Tokens.KillChainKills | src/modules/oauth/flows/token-refresh.flow.ts:191-332 | after a replay: no live token in the family, session invalid, no live unrecorded access token of the pair; all other rows untouched |
| Tokens.RotationAddsOneChild | src/modules/oauth/flows/token-refresh.flow.ts:115-175 | a rotation revokes the presented token alone and adds one live child naming it as parent in its family, at the session's level and with the inherited scopes |
| Flows.SwitchContext | src/modules/auth/flows/switch-context.flow.ts:71-167 | aborts on a lost swap, else revokes the bound token, blocks the session's access tokens and re-issues at the session's level |
| Flows.SwitchAnswers | src/modules/auth/flows/switch-context.flow.ts:71-110 | a switch goes through exactly on a valid, unexpired session of the caller's that is unbound or bound to a live token; otherwise it changes nothing |
| Flows.SwitchRows | src/modules/auth/flows/switch-context.flow.ts:103-167 | the bound token is revoked and one pair of tokens is added at the session's level; other refresh tokens and sessions are as they were |
| Flows.SwitchEndsAccess | src/modules/auth/flows/switch-context.flow.ts:93-145 | exactly the session's unrevoked access tokens are marked and recorded under their expiries |
| Flows.MfaVerify | src/modules/auth/flows/mfa-verify.flow.ts:36-95 | refuses invalid sessions, else promotes and issues at aal2 |
| Flows.MfaRows | src/modules/auth/flows/mfa-verify.flow.ts:36-95 | exactly with the code and on a valid session; what it leaves column by column, and nothing otherwise |
| Flows.RecoverSession | src/modules/auth/routes/mfa.route.ts:72-110 | revalidates and promotes an unexpired session, valid or not, and issues at aal2 |
| Flows.RecoveryRows | src/modules/auth/routes/mfa.route.ts:72-110 | exactly with the code and on an unexpired session, valid or not; what it leaves column by column, and nothing otherwise |
| Flows.ExchangeRows | src/modules/oauth/flows/token-exchange.flow.ts:107-138 | exactly on a valid session; tokens at that session's level and with the code's scopes, column by column, and nothing otherwise |
| Flows.FoundIsNewest | src/modules/oauth/flows/token-exchange.flow.ts:107-112 | the session found is a valid one of the identity after which none was created, and one is found if there is one |
| Flows.Elevate | src/modules/auth/services/step-up.service.ts:94-105 | elevates exactly a live session of that identity and reports whether it did |
| Flows.ElevatedRows | src/modules/auth/services/step-up.service.ts:94-105 | elevation sets the level and its date on that session and nothing else |
| Flows.EvictedRows | src/modules/auth/services/session.service.ts:78-96 | eviction at sign-in marks the sessions named that are the identity's, and no others |
| Flows.RevokeTokenById | src/modules/oauth/flows/revoke-token-by-id.flow.ts:27-85 | finds exactly a row of the caller's own, revokes and records it if it was not, and changes nothing a second time |
| Flows.RevokedByIdRows | src/modules/oauth/flows/revoke-token-by-id.flow.ts:27-85 | found exactly if the row is the caller's; marked, and recorded if it was not marked before; nothing else changes |
| Flows.RefreshIsARun | src/modules/oauth/flows/token-refresh.flow.ts:133-178 | an accepted refresh is a run of the protocol's steps |
| Flows.ReplayIsARun | src/modules/oauth/flows/token-refresh.flow.ts:83-85 | a replay with its kill-chain is a run of the protocol's steps |
| Flows.SwitchIsARun | src/modules/auth/flows/switch-context.flow.ts:71-167 | a context switch is a run of the protocol's steps |
| Flows.MfaIsARun | src/modules/auth/flows/mfa-verify.flow.ts:36-95 | an MFA verification is a run of the protocol's steps |
| Flows.RecoveryIsARun | src/modules/auth/routes/mfa.route.ts:72-110 | a recovery is a run of the protocol's steps |
| Flows.LoginIsARun | src/modules/auth/flows/login.flow.ts:161-193 | a login without a second factor is a run of the protocol's steps |
| Flows.ElevationIsARun | src/modules/auth/services/step-up.service.ts:94-105 | an elevation is a step of the protocol |
| Flows.ReadLevelCarries | src/modules/oauth/flows/token-refresh.flow.ts:158-175 | among other callers too, what a rotation is about to sign is the level the session's row holds when it is read, none without the row |
| Flows.ExchangeIsARun | src/modules/oauth/flows/token-exchange.flow.ts:107-138 | a code exchange, from its session lookup on, is a run of the protocol's steps |
| Flows.BulkIsARun | src/modules/auth/repositories/session.repository.ts:41-83 | a bulk revocation is a run of the protocol's steps |
| BulkRevocation.RevokeInBulk | src/modules/auth/repositories/session.repository.ts:41-83 | for each scope, all or nothing: commits, returns early, or aborts on a jti already recorded |
| BulkRevocation.OtherSessionsEnd | src/modules/auth/routes/password.route.ts:143-187 | password change, with another valid session: goes through exactly if no token to end is recorded already, and then ends exactly the other valid sessions and their tokens |
| BulkRevocation.CurrentSessionStays | src/modules/auth/routes/password.route.ts:143-187 | afterwards every session of the identity but the current one is invalid, and the current one and its tokens are as they were |
| BulkRevocation.NothingToEnd | src/modules/auth/routes/password.route.ts:152 | without another valid session, or without any for a reset, nothing happens |
| BulkRevocation.OneSessionEnds | src/modules/auth/routes/session.route.ts:80-134 | one session ended: exactly its row and the identity's tokens that name it, or nothing if one of those is recorded already |
| BulkRevocation.OneSessionIsOver | src/modules/auth/routes/session.route.ts:80-134 | that session is invalid, its tokens are revoked, and nothing of another session or identity changes |
| BulkRevocation.ValidSessionsEnd | src/modules/auth/repositories/session.repository.ts:41-83 | password reset: exactly the identity's valid sessions, its access tokens, and the refresh tokens that name one of those sessions |
| BulkRevocation.EverythingEnds | src/modules/identity/routes/admin.route.ts:11-43 | suspension, sign-out everywhere, deletion: exactly everything the identity has, dated or not |
| BulkRevocation.NothingIsLeft | src/modules/identity/routes/admin.route.ts:11-43 | nothing of the identity's is valid or unrevoked or unrecorded afterwards, and nothing of another identity changes |
| BulkRevocation.BulkRevokeSweeps | src/modules/auth/repositories/session.repository.ts:59-83 | a committed run leaves in its scope no valid session and no unrevoked or unrecorded token, and everything outside it alone |
| BulkRevocation.BulkRevokeIsInertAfterLogout | src/modules/auth/repositories/session.repository.ts:48-82 | after a logout that recorded its caller's jti, a bulk revocation covering that token changes nothing; it commits only by returning early |
| Evolution.RunEvolves | src/modules/oauth/flows/token-refresh.flow.ts:133-175 | in every run, cleanup and the deletion of identities and clients included, keys are fresh, every row's identity and client exist, rows that remain keep their identity and dates, and revocations and session levels are never taken back |
| Evolution.OnlyRecoveryRevalidates | src/modules/auth/routes/mfa.route.ts:88-92 | an invalid session is invalid or deleted in every later state until a recovery handler revalidates it |
| Rotation.OneHolderPerFamily | src/modules/oauth/flows/token-refresh.flow.ts:134-175 | in every interleaving a family has at most one live token or rotation in flight |
| Rotation.FamiliesAreLinear | src/modules/oauth/services/token.service.ts:150-233 | in every interleaving what survives of a family is the end of one chain of one identity and client, dated in its order, each token the child of the one before, all but the last revoked |
| Rotation.ChainSwept | src/jobs/token-cleanup.job.ts:75-82 | cleanup takes rows of a family from its old end only |
| Rotation.ChainEmptied | src/modules/identity/routes/profile.route.ts:162 | the deletion of an identity, like that of a client, takes a family whole or leaves it as it is |
| Rotation.ParentsAreSpentAndUnique | src/modules/oauth/flows/token-refresh.flow.ts:172-173 | a parent is older and revoked and of the same family, or deleted with everything older; no token has two children and no family two roots |
| Rotation.RevokedIsForever | src/modules/oauth/flows/token-refresh.flow.ts:134-143 | revoked never goes back to false, no row changes family, parent or dates, and a row is lost only to cleanup, a week after its issue or expiry at the earliest, or together with its identity or client |
| Rotation.KillIsFinalIffNoneInFlight | src/modules/oauth/flows/token-refresh.flow.ts:206-217 | after the family update the family never has a live token again if and only if no rotation of it was in flight whose identity and client exist |
| Rotation.DeadStaysDead | src/modules/oauth/flows/token-refresh.flow.ts:134-175 | a family with neither a live token nor a rotation in flight that could write one stays so in every run |
| Rotation.InFlightRevives | src/modules/oauth/flows/token-refresh.flow.ts:145-175 | a rotation in flight whose identity and client exist can give its family a live token, whatever has happened to the family since its swap |
| Rotation.SweepReachesEarlierTokens | src/modules/oauth/flows/token-refresh.flow.ts:299-332 | in every interleaving, when the kill-chain throws, each access token of the pair created before its read is revoked or expired |
| Assurance.NoTokenOutclaimsItsSession | src/modules/oauth/flows/token-refresh.flow.ts:158-175 | in every run, while the session row exists, no access token claims a level it does not hold, when signed or at any later moment |
| Assurance.ClaimAfter | src/modules/auth/flows/switch-context.flow.ts:106-167 | every level a caller is about to sign was read from, or written to, the session row |
| Assurance.ParkedSessionYieldsNothing | src/modules/auth/flows/login.flow.ts:161-193 | a session that nobody had read when login parked it has no token, no issuing caller and no way through MFA verification, step-up, context switch or code exchange until it is revalidated |
| Assurance.KilledSessionIsInvalid | src/modules/oauth/flows/token-refresh.flow.ts:214-219 | in every interleaving, when a kill-chain throws, its session is invalid or deleted unless a recovery revalidated it since the kill |
| Parking.ExchangeBeforeParking | src/modules/auth/flows/login.flow.ts:161-179 | a run from empty tables: login creates the session, a code exchange finds it, login parks it, and the exchange issues a token for it without any recovery |
| Parking.ClosedComesToTokenIff | src/modules/oauth/flows/token-exchange.flow.ts:107-138 | in every run an invalid or deleted session can come to a token if and only if it has one, a recovery can still get through, a caller that read it while it was valid can still issue for it, or a refresh token of it is good |
| Parking.ParkedOpensIffRecoverable | src/modules/auth/routes/mfa.route.ts:72-110 | a session that nobody had read when it was parked can come to a token if and only if its row exists and is unexpired or some handler is past its expiry check |
| CleanupJob.RunTokenCleanup | src/jobs/token-cleanup.job.ts:40-140 | at most four attempts, only a busy pool is tried again, and at most one transaction deletes, exactly the old rows of four tables |
| CleanupJob.DeleteOld | src/jobs/token-cleanup.job.ts:63-117 | the four deletions and their counts |
| CleanupJob.CleanedRows | src/jobs/token-cleanup.job.ts:63-97 | exactly which rows stay, in days; for sessions the second half of the source's condition follows from the first |
| CleanupJob.FirstOtherDecides | src/jobs/token-cleanup.job.ts:40-140 | the first attempt that does not find the pool busy decides what is reported |
| Requests.PlayIsSound | src/jobs/token-cleanup.job.ts:66-97 | in every state reached by requests and cleanups, rows carry their token's expiry, ids were drawn before, and marked access tokens are recorded while good |
| Requests.GuardNeeds | src/api/plugins/auth-guard.plugin.ts:160-265 | each guard's condition column by column |
| Requests.RotatesIff | src/modules/oauth/flows/token-refresh.flow.ts:66-113 | a refresh is accepted exactly for a live, unexpired token of an existing client and an identity that is neither deleted nor barred |
| Requests.AnswersAreFlows | src/modules/oauth/flows/token-refresh.flow.ts:55-178 | a refresh and a code exchange are answered as their flows go |
| Requests.IntrospectionRows | src/modules/oauth/routes/introspect.route.ts:37-80 | an access token is reported active exactly while its row is unrevoked, unexpired and unrecorded, a refresh token while it is live and unexpired |
| Cleanup.NextAnswerUnchangedIff | src/jobs/token-cleanup.job.ts:66-97 | the next request after a cleanup, however late, is answered as it would have been, unless it is a verification or exchange with a deleted session, a switch bound to a deleted token or that finds another session once a newer one is deleted, a bulk revocation whose blocking rows were deleted, a revocation by id of a deleted row, or a refresh whose session's level or narrowed scopes were deleted; each of these conditions is written out on the tables |
| Requests.SwitchesIff | src/modules/auth/flows/switch-context.flow.ts:71-110 | a context switch goes through exactly with a usable session of the caller's that is unbound or bound to a live refresh token, and an existing client; otherwise it leaves everything as it was |
| Cleanup.CleanNewest | src/jobs/token-cleanup.job.ts:66-73 | of one pair's unrevoked access tokens cleanup deletes the newest last |
| Cleanup.AlikeAnswerAlike | src/jobs/token-cleanup.job.ts:66-97 | tables that differ in spent rows only are answered alike in every course of requests, all answers if the access tokens agree |
| Visibility.CleanupIsInvisibleIff | src/jobs/token-cleanup.job.ts:66-97 | all answers to every later course of requests and cleanups stay as they would have been if and only if no access token, no refresh token, no session and no RevokedJti row of an unrevoked access token is deleted |
| Visibility.UnseenApartFromAccessIff | src/jobs/token-cleanup.job.ts:66-97 | all answers but those of revocation by id and of scope guards, and all but the scopes in tokens handed out, stay so if and only if no refresh token, no session and no such RevokedJti row is deleted |
| Visibility.DeletedAccessShows | src/modules/oauth/routes/tokens.route.ts:108-138 | requests that tell any deleted access-token row |
| Visibility.DeletedRefreshShows | src/jobs/token-cleanup.job.ts:75-82 | requests that tell any deleted refresh-token row |
| Visibility.DeletedSessionShows | src/jobs/token-cleanup.job.ts:90-97 | requests that tell any deleted session row |
| Visibility.DeletedBlockerShows | src/jobs/token-cleanup.job.ts:86-88 | requests that tell any deleted RevokedJti row whose access token is unrevoked |
| Visibility.AccessRowIsReached | src/jobs/token-cleanup.job.ts:66-73 | a login, and a wait of a week and a millisecond past its access token's expiry, lead to a cleanup that deletes that row and nothing else |
| Visibility.BlockerIsReached | src/modules/auth/flows/logout.flow.ts:109-115 | a login, a logout and the token's expiry lead to a cleanup that deletes such a RevokedJti row and no token or session |
| Visibility.ScopesWiden | src/modules/oauth/flows/token-refresh.flow.ts:115-131 | a run of two narrowed exchanges, a revocation and a cleanup after which the next refresh yields all of the client's scopes, which a guard then accepts, where without the cleanup it would yield and accept the narrowed ones |
| AccessRevocation.JtiBlocklist.BlockJti | src/lib/security/jti-blocklist.ts:83-107 | one store gets the entry, for at least a second |
| AccessRevocation.JtiBlocklist.IsJtiBlocked | src/lib/security/jti-blocklist.ts:116-140 | the answer of the store in reach; dropping a lapsed entry changes no later answer |
| AccessRevocation.BlockedUntil | src/lib/security/jti-blocklist.ts:83-140 | a block answers exactly up to its last millisecond, at least a second, and touches no other jti |
| AccessRevocation.BlockCoversToken | src/modules/oauth/flows/token-revoke.flow.ts:36-39 | rounding to seconds neither drops a block before the token expires nor keeps it a second longer |
| AccessRevocation.AuthGuard.RequireUser | src/api/plugins/auth-guard.plugin.ts:103-129 | refuses unverified, subjectless and revoked tokens and nothing else, as GuardAnswers says on the stores |
| AccessRevocation.GuardAnswers | src/api/plugins/auth-guard.plugin.ts:103-129 | for every token and stores: passes exactly with a subject and no jti, or a jti neither held by the tier in reach nor in the table |
| AccessRevocation.GuardPassesIffNotRecorded | src/api/plugins/auth-guard.plugin.ts:103-129 | in every run, while a timely token verifies, requireUser passes it if and only if its revocation was never recorded |
| AccessRevocation.GuardsAgree | src/api/plugins/auth-guard.plugin.ts:103-129 | going by the table alone, the guard of module Requests and this one let the same tokens through |
| AccessRevocation.ScopeAnswers | src/api/plugins/auth-guard.plugin.ts:160-167 | the scope check passes exactly if the scope is the token's |
| AccessRevocation.SessionAnswers | src/api/plugins/auth-guard.plugin.ts:184-265 | each refusal of the session guards, exactly when it is given, with the 15 minutes written out |
| AccessRevocation.AuthGuard.RequireScope | src/api/plugins/auth-guard.plugin.ts:160-167 | the user check, then the scope among the token's own |
| AccessRevocation.AuthGuard.RequireAal2 | src/api/plugins/auth-guard.plugin.ts:184-214 | the user check, then the session row's validity, expiry and level, each with its own refusal |
| AccessRevocation.AuthGuard.RequireElevated | src/api/plugins/auth-guard.plugin.ts:216-265 | the same, then an elevation within 15 minutes |
| AccessRevocation.PassMeansSatisfied | src/api/plugins/auth-guard.plugin.ts:184-265 | the session guards pass exactly when the session row is valid, unexpired, at aal2 and, for elevation, recently elevated |
| AccessRevocation.RevokedIsRefused | src/api/plugins/auth-guard.plugin.ts:114-129 | in every run every process refuses a timely token whose revocation was recorded, while it verifies |
| AccessRevocation.LookupAgreesWithTable | src/api/plugins/auth-guard.plugin.ts:114-129 | while a timely token verifies, the two-tier lookup, RevokedJti alone and whether it was revoked all agree |
| AccessRevocation.TierOneOutlastsToken | src/lib/security/jti-blocklist.ts:83-140 | an entry that is not lost answers without the table until the token expires |
| AccessRevocation.RefusedIffTimely | src/jobs/token-cleanup.job.ts:86-88 | revocation is enforced in every run if and only if the token's last good moment is not after its stored expiry |
| AccessRevocation.TimelyIffSignedInTheSameSecond | src/modules/oauth/services/token.service.ts:124-166 | that is so exactly when no second begins between reading the clock and signing |
| Sessions.SessionService.Create | src/modules/auth/services/session.service.ts:56-112 | adds the new row and invalidates exactly the excess oldest active sessions of the identity |
| Sessions.SessionService.FindOldest | src/modules/auth/services/session.service.ts:78-87 | as many active sessions as asked for, none newer than any left out |
| Sessions.SessionService.Oldest | src/modules/auth/services/session.service.ts:84 | a session than which none is older |
| Sessions.CapLeaves | src/modules/auth/services/session.service.ts:66-112 | min(active before, cap - 1) + 1 sessions are active afterwards, the new one among them, other identities' untouched |
| Sessions.CapOnRows | src/modules/auth/services/session.service.ts:56-112 | the same counted on the rows; only such sessions are invalidated, none newer than one that stays, and nothing else changes |
| Sessions.CapIsKept | src/modules/auth/services/session.service.ts:66-96 | over any history of sign-ins the cap is kept once met, and met after the first sign-in |
| Challenges.KeyInjective | src/lib/challenge-store.ts:46-47 | distinct identity and ceremony pairs have distinct keys, for every identity string |
| Challenges.ChallengeStore.GetRedis | src/lib/challenge-store.ts:57-72 | a client once obtained is kept |
| Challenges.ChallengeStore.StoreChallenge | src/lib/challenge-store.ts:81-108 | the entry goes to the one store in use, for the ceremony's time |
| Challenges.ChallengeStore.ConsumeChallenge | src/lib/challenge-store.ts:118-159 | returns the unexpired entry and removes it in any case |
| Challenges.LinkRows | src/lib/challenge-store.ts:57-72 | a client is there afterwards if it was before or Redis is enabled and loads, and the stores are as they were |
| Challenges.StoredRows | src/lib/challenge-store.ts:81-108 | storing writes the store in use and no other, unless Redis fails first |
| Challenges.ConsumedRows | src/lib/challenge-store.ts:118-159 | consuming empties the key in the store in use and yields exactly an entry in time |
| Challenges.TtlSeconds | src/lib/challenge-store.ts:37-40 | 120 seconds to register, 90 to authenticate |
| Challenges.RedeemedOnceAsLatestInTime | src/lib/challenge-store.ts:81-159 | in every run a challenge is redeemed at most once, as the latest of its pair and within its time |
| Challenges.LeftAloneIsRedeemable | src/lib/challenge-store.ts:81-159 | a challenge left alone is what the next consume returns, if and only if its time has not run out |

## Left out

- Rotation.SweepReachesEarlierTokens: says nothing of access tokens issued after the sweep's read, because the code does not reach them.
- WebhookQueue.NoDoubleDelivery: holds for runs in which every delivery ends or its worker dies before the lease runs out, because the code has no other protection; without it the property is false.
- WebhookQueue.WebhookWorker.DeliverBatch: says what a batch does while no other worker acts on its rows; interleaved deliveries are the steps of the state machine.
- StatusList.CheckReturnsLastWrite: updates run one at a time; the code reads all entries and then rewrites the list, so concurrent updates of one list can lose a bit.
- Assurance.NoTokenOutclaimsItsSession: says nothing once cleanup has deleted the session row, because refresh does not look at the session's expiry and a token can outlive it.
- BulkRevocation.RevokeInBulk: account deletion and suspension also change the identity's status, which module Requests has as a request of its own; blocklist writes after the transaction are the business of module AccessRevocation.
- One row key stands for a row's id, its raw token and its jti; jtis are never null, as `issue()` always sets them.
- Kill-chain branches for a token without a family (`src/modules/oauth/flows/token-refresh.flow.ts:218-283`): every row has one.
- What an outer transaction keeps after the kill-chain throws; kill-chain lemmas are about the flow's own writes.
- Revocation writes that fail are swallowed by the code. `Tokens`, `Flows`, `Protocol` and `Requests` have them succeed; `AccessRevocation` has them arrive late, out of order or never.
- The difference between a token's signed and stored expiry: only `AccessRevocation` tells them apart, and it covers verifiers that refuse a token in its `exp` millisecond (section 4.1.4 of RFC 7519) and verifiers that accept it.
- Calendar arithmetic: `subDays`, `addMinutes` and `addDays` are taken as multiples of 24 hours and of minutes. TTL strings (`parseTtlToMinutes`, `parseTtlToDays`) would only add easy members.
- Audiences, plans, tenants, ID tokens, API keys and the remaining guards (`requirePlan`, `requirePermission`, whose fallback asks for a scope as `requireScope` does). Which scopes a client may ask for at the authorization endpoint; in `Protocol` the scopes passed on are any scopes, in `Requests` they are those the code passes on.
- The listings of active sessions and tokens (`src/modules/auth/routes/session.route.ts:46-56`, `src/modules/oauth/routes/tokens.route.ts:91-98`) and the freshness check of the authorization endpoint look at unexpired rows only and would add easy members to `Requests`.
- Rows of one moment in `orderBy issuedAt` and `orderBy createdAt` are taken in the order their keys were drawn; the code leaves that order open.
- A caller names a client whose id has been drawn. The rows of a deleted client or identity are gone at once; access tokens already signed stay good until they expire unless they were recorded as revoked before, as account deletion does first.
- Credential checks (passwords, TOTP, recovery codes, passkeys), JOSE, zlib, base64 decoding and HTTP: parameters, or an inverse pair where the proof needs one.
- `SessionService.create` under concurrency and across its two clock readings; two simultaneous sign-ins can both count before either inserts. In `Protocol` and `Requests` the sessions it evicts are any sessions of the identity.
- `challenge-store` calls are atomic: a call that learned that there is no Redis client and resumes after one was obtained is not modelled. Several processes without Redis are not either, as the source itself rules them out.
- Whether the Redis client hands back the stored JSON as a string is a parameter of consuming; if it does not, consuming yields nothing.
- The poll loop's delay and stop flag, request signing, audit logs, notifications and webhook dispatch.
- Authorization codes and their single use: the code exchange is modelled from its session lookup on. E-mail tokens, magic links, social login, passkey login and verify-session sign in as `SignIn` does or are find-then-update members that would only be easier.
- Liveness: whether anybody ever finishes a step.
