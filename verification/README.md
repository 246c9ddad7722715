# Verified model of go-idento's sessions, guesses and OAuth grants

This project models the stateful core of go-idento and proves what it keeps, over all runs:

- **The OAuth 2.1 authorization server** (`OAuthRules`, `OAuthHandlers`, `OAuthProtocol`, `OAuthInvariants`,
  `OAuthTheorems`, `OAuthOutcomes`, `OAuthConsents`, `OAuthRecords`, `OAuthRuns`): authorize, code, grant, rotating
  refresh family, access-token validation, revocation and garbage collection. Each store call is one atomic step; a
  request in flight is a program counter with its local variables; any number of requests interleave with each other,
  the sweeps, revocations and user changes. A history that influences nothing records codes, grants, hash chains,
  approvals and tokens.
- **Client assertions** (`ClientAssertions`): the checks, and replay protection against the sweep of recorded ids.
- **Refresh sessions** (`Sessions`, `SessionCap`, `SessionRotation`): issuing with sweep and eviction, rotation in
  place, revocation, the older single slot; the cap over sequential runs, rotation and revocation interleaved.
- **Bounded guesses** (`Lockout`, `Limiter`, `PhoneCodes`, `RecoveryCodes`): numeric bounds over whole runs, two of
  them on state that is printed to a string and parsed again.
- **The in-memory store** (`MemStore`, `TableOps`, `CompositeKeys`, `Versions`): an object whose maps are updated in
  place, cascade deletion across ten tables, string-encoded composite keys, optimistic concurrency.
- **Codecs and arithmetic** (`GoStrings`, `Scopes`, `Totp`).

`Entities` holds the rows; `Wrappers` the optional and error types; `Accounts` a loaded account.

A class method is proved against functions on the tables (`TableOps`) or on one request (`NextTables`,
`NextRequest`); the machines run on those same functions, so their theorems are about what the methods do.

## Assumptions

- Random ids and secrets are never drawn twice, and are not empty; the clock does not go back; store calls do not
  fail.
- SHA-256 of a secret is an ideal hash: the value `Sha256(secret)`. Where a hash is kept inside a text, it is a
  function to strings, and each lemma says what it needs of it (no separator, not empty).
- An access token presented to the revocation endpoint was signed by this server; validation also takes session tokens
  and foreign texts.
- A clock reading happens with the store call before it, except where a handler reads the clock again after its last
  call: signing a token has a reading of its own.
- User ids are the random ids given at sign-up and hold no '|'; lemmas that need it say so, and
  `CompositeKeys.TokensSparedIff` and `StringKeysCollide` say what happens otherwise.
- Instants are nanosecond counts; integers are unbounded except in `Totp`, `GoStrings.ParseInt` and the SMS attempt
  counter, where 32- and 64-bit arithmetic is written out. Strings are sequences of code points, so length limits
  (grant ids, session ids, assertion ids) count code points, not bytes.

## What the proofs found

- **Client assertions.** The documentation promises that each id is accepted once. A handler that verifies an
  assertion in time, stalls past its expiry plus leeway and records it after a sweep is accepted again
  (`StalledReplayExample`). `StalledReplayIff` and `AcceptsAgainIff` give the exact condition; handlers that record
  before the validity ends are safe (`AcceptedAtMostOnce`).
- **Refresh reuse.** Only the last rotated-away secret revokes the grant; an older one is refused and changes nothing
  (`ReuseByAge`, with a run in `OldSecretExample`), although the documentation says a reused refresh token revokes the
  whole grant.
- **Code replay.** A replay between marking the code and creating the grant deletes nothing
  (`EarlyReplayRevokesNothing`), and the grant created afterwards works (`EarlyReplayExample`); the only way a deleted
  grant id comes back is that pending creation (`ReappearsIff`). Once a used code has been collected - exactly when it
  had expired - replaying it no longer revokes (`PurgeForgetsReplay`).
- **Garbage collection and slow signing.** A token signed long after its handler read the clock can outlive its
  grant's expiry, and the sweep then ends it early (`LateTokenExample`). `ValidAfterPurgeIff` is the exact condition:
  the token validated before and its grant had not expired at the cutoff. `PurgeIsInvisible` gives a sufficient one,
  on the token alone: signed no later after the reading behind its grant's expiry than the refresh lifetime exceeds
  the access lifetime. It is not necessary, since a later refresh moves the grant's expiry and token times are cut to
  whole seconds.
- **Default scopes.** A configured scope name with a space in it yields scopes outside the configuration
  (`DefaultScopesUnboundedExample`); `DefaultScopesBoundedIff` is the exact condition.
- **Disconnecting a client** leaves its unredeemed codes in place (`DisconnectKeepsCodes`).
- **Session secrets** have no compare-and-swap: overlapping rotations both succeed (`DoubleUseExample`), and that
  overlap is the only way (`SecondUseOverlaps`).
- **Recovery-code misses** never count towards lockout (`RecoveryMissesUncounted`).
- **Registration limiter.** At most 2*limit - 1 requests fit into any interval of one window, and that is reached.
- **TOTP.** Beyond 31 digits the 32-bit modulus is zero and the source divides by it (`ModulusZeroIff`).
- **Change-number codes** bind a code to a number while the number holds no '|' (`ChangeGuessBinds`); a number that
  does can be exchanged for another (`ChangeCodeUnbound`).

## Main results

Each is a statement over every reachable state, run or input, except the examples, which are runs or inputs.

- OAuth grants: `RefreshSecretsRedeemedOnce`, `StoredHashesEndTheChain`, `ChainsAreDisjoint`, `OneGrantPerCode`,
  `GrantsAreProven`, `CodesAreValidated`, `EndToEndAuthority`, `AuthorityAcrossReads`, on the invariant
  `EventKeepsInv`.
- Revocation: `GoneForever`, `ReappearsIff`, `ReplayRevokesForGood`, `LoserRevokesForGood`, `ReuseByAge`,
  `ReuseRevokesForGood`, `DeletedForGood`, `StampChangeRevokes`, `DeletedUserEnds`; limits shown by
  `EarlyReplayExample`, `OldSecretExample`.
- One handler alone and between others: `CompletionRuns`, `RedeemAnswers`, `RedeemRefused`, `RefreshAnswers`,
  `RefreshRefused`, `RefreshRotates`.
- The authorization endpoint: `ParseAuthzIff`, `VisitAnswers`, `ApprovalAnswers`, `ApprovalIsRemembered`,
  `DisconnectForgets`.
- Garbage collection: `PurgeIsInvisible`, `ValidAfterPurgeIff`, `PurgeForgetsReplay`, `LateTokenExample`.
- The history: `ApprovedIff`, `AnswersAreRecorded`.
- Scopes: `DefaultScopesBoundedIff`, `RoundTripIff`, `UnionIsSetUnion`.
- Client assertions: `AcceptedWasValid`, `SecondAcceptanceIsLate`, `AcceptedAtMostOnce`, `AcceptsAgainIff`,
  `StalledReplayIff`.
- Sessions: `SessionsCapped`, `IssueExact`, `EvictsOldest`, `SecondUseOverlaps`, `OverwritesOtherIff`,
  `RevokedForGood`.
- Guesses: `LockoutBound` with `LocksAtTheLimit` and `SuccessStartsOver`; `CleanupIsInvisible`, `AdmissionBound` with
  `BoundReached`; `PhoneCodes.SucceedsIff`, `ComparedBound`, `ChangeGuessBinds`; `CodesConserved`,
  `RecoveryCodes.SucceedsIff`.
- The store: `StringKeysRefineTuples`, `CascadeIsExact`, `PurgeIsExact`, `TokensSparedIff`, `VersionsChain`,
  `OneCommitPerVersion`.
- TOTP: `Totp.Authenticator.Validate`, `CodeIsTruncation`, `WindowAccepts`, `WindowEnds`, `ModulusZeroIff`.

The table below lists these and the other lemmas first, then the methods they are about, the store's last.

## Model

| member | source | states |
|---|---|---|
| `OAuthTheorems.RefreshSecretsRedeemedOnce` | oauth/token.go:242-300 | In every reachable state, under every interleaving of refreshes split at the read and the swap, a grant's refresh hashes are pairwise distinct and the secrets redeemed are all but the last of them, once each and in order |
| `OAuthTheorems.StoredHashesEndTheChain` | stores/memstore/oauth.go:164-174 | A stored grant shows the last two hashes of its chain (nothing where the chain is shorter), and its expiry is one refresh lifetime after the clock reading of the handler that installed the last |
| `OAuthTheorems.ChainsAreDisjoint` | oauth/token.go:291-293 | No refresh hash belongs to two grants |
| `OAuthTheorems.OneGrantPerCode` | oauth/token.go:192-217 | Across every interleaving of redemptions at most one grant is created from a code; its id is the one recorded on the used code, and it carries the code's user, client, resource and scopes (section 4.1.2 of RFC 6749) |
| `OAuthTheorems.GrantsAreProven` | oauth/token.go:146-222 | Under every interleaving each grant was minted by a request that presented the secret of its code, before the code expired and made by the code's client, with a verifier that proves the code's challenge and a redirect URI and resource that agree |
| `OAuthTheorems.CodesAreValidated` | oauth/authorize.go:140-192 | Under every interleaving each stored code answers an acceptable authorization request: a redirect URI of the client's, a challenge of 43 base64url characters, a configured resource; the code carries the request's columns and expires one code lifetime after it was issued |
| `OAuthTheorems.EndToEndAuthority` | oauth/token.go:355-401 | Every access token that validates acts for the user who approved, as the client approved for, on the requested resource, with scopes within its grant's, its code's, those ever approved for that user and client, and the configured ones whenever the default scopes are |
| `OAuthTheorems.AuthorityAcrossReads` | oauth/token.go:378-400 | The same when anything at all happens between the user read and the grant read of one validation |
| `OAuthTheorems.GoneForever` | oauth/token.go:391-394 | A grant id that has been drawn, is not stored and is not about to be created names no stored grant in any continuation |
| `OAuthTheorems.ReappearsIff` | oauth/token.go:193-217 | A drawn id without a stored grant can name one again exactly when a redemption that recorded it on its code has not created the grant yet |
| `OAuthTheorems.CompletionRuns` | oauth/token.go:146-301 | Running the store calls of one handler back to back in the shared state leaves the tables and the answer that the sequential handler computes, and no other request changed |
| `OAuthTheorems.ReplayDeletes` | oauth/token.go:163-168 | A stored used code presented again deletes the grant recorded on it, whatever else is wrong with the request, and is refused |
| `OAuthTheorems.ReplayRevokesForGood` | oauth/token.go:163-168 | A replay handled to completion while no redemption of the code is unfinished removes the grant in every continuation, and no access token minted from it validates again (section 4.14.2 of RFC 9700) |
| `OAuthTheorems.LoserDeletes` | oauth/token.go:197-202 | A redemption that lost its code deletes the grant recorded on the code, if the code is still stored, and is refused |
| `OAuthTheorems.LateRedemptionDeletes` | oauth/token.go:192-203 | So does one that passed every check and finds the code used when it marks it |
| `OAuthTheorems.LoserRevokesForGood` | oauth/token.go:197-202 | In every reachable state, a redemption that lost the race for its code, run to completion once the other one has created its grant, removes that grant in every continuation, and none of its access tokens validates again |
| `OAuthTheorems.EarlyReplayRevokesNothing` | oauth/token.go:197-215 | A replay between marking the code and creating the grant finds no grant to delete |
| `OAuthTheorems.ReuseByAge` | oauth/token.go:254-266 | Of the rotated-away secrets of a grant, presented by its client, exactly the most recent one deletes the grant, and that unless the handler that rotated it read the clock no longer than a positive grace period ago; every other is refused and changes nothing |
| `OAuthTheorems.ReuseRevokesForGood` | oauth/token.go:254-263 | With no grace period, or once it is over, the owning client presenting the just-rotated secret removes the grant in every continuation, and no access token of it validates again |
| `OAuthTheorems.DeletedForGood` | oauth/token.go:391-400 | What a handler run to completion has deleted stays deleted and its tokens stay refused, in every continuation |
| `OAuthInvariants.EventKeepsInv` | oauth/token.go:146-301 | Every step of every request, sweep, revocation, user change and clock tick keeps the invariant that ties store rows and requests in flight to the history |
| `OAuthInvariants.ReachableOk` | oauth/token.go:146-301 | That invariant holds in every state a run from an empty store reaches |
| `OAuthInvariants.NextAuthorizeOk` | oauth/authorize.go:84-105 | Every code about to be issued is for scopes its user has approved for that client: on the page just now, or by a remembered consent that covers the request |
| `OAuthInvariants.CoveredIsApproved` | oauth/authorize.go:101-105 | A request covered by a remembered consent asks only for approved scopes, also after printing and parsing |
| `OAuthInvariants.UnionIsApproved` | oauth/authorize.go:225-235 | Merging a request into the remembered consent records only approved scopes |
| `OAuthRuns.EarlyReplayExample` | oauth/token.go:192-217 | A run from the empty store in which a replay comes between marking the code and creating the grant: it is refused, the grant is created afterwards, and its access token validates |
| `OAuthRuns.OldSecretExample` | oauth/token.go:254-266 | A run with two rotations after which the first secret is presented again by its client: refused, and the grant stays as it was |
| `OAuthRuns.LateTokenExample` | oauth/server.go:416-426 | A run in which a token signed long after its handler read the clock validates before a sweep of expired grants and not after it |
| `OAuthRecords.ApprovedIff` | oauth/authorize.go:84-99 | The history holds a scope as approved exactly when its user approved, in the run, a request of that client with that scope |
| `OAuthRecords.AnswersAreRecorded` | oauth/token.go:303-347 | In every reachable state every access token a request was answered with is in the history that the theorems speak of |
| `OAuthOutcomes.RedeemAnswers` | oauth/token.go:146-222 | A redemption run on its own answers with tokens if and only if the code is stored, unused, unexpired and of this client, redirect URI, verifier and resource agree, and the user is there and not locked out |
| `OAuthOutcomes.RedeemRefused` | oauth/token.go:146-203 | Every other redemption: with which error it is refused, and that only the replay of a used code changes anything, by deleting the grant recorded on it |
| `OAuthOutcomes.UserRedeems` | oauth/token.go:192-222 | The grant a redemption creates, the code it marks, the client it touches and the tokens it answers with, column by column, a refresh token exactly when the client may refresh; nothing else changes |
| `OAuthOutcomes.RefreshAnswers` | oauth/token.go:234-301 | A refresh run on its own answers with tokens if and only if grant, client, secret, expiry, resource, user, security stamp and scopes all agree; the answer holds the next refresh token and the requested scopes, or all of the grant's |
| `OAuthOutcomes.RefreshRefused` | oauth/token.go:234-290 | Every other refresh: with which error it is refused, and exactly when it deletes the grant - the just-rotated secret outside the grace period, an expired grant, a changed security stamp - and nothing else |
| `OAuthOutcomes.RefreshRotates` | oauth/token.go:291-300 | A successful refresh replaces the hash of its grant, remembers the old one, slides the expiry, and changes no other row |
| `OAuthOutcomes.PurgeIsInvisible` | oauth/server.go:416-426 | In every reachable state, purging with a cutoff not in the future changes no answer to a redemption or refresh, and no validation of a token signed at most the excess of the refresh over the access lifetime after the reading its grant expiry came from |
| `OAuthOutcomes.ValidAfterPurgeIff` | oauth/server.go:416-426 | For any token: it validates after the purge exactly when it did before and its grant had not expired at the cutoff |
| `OAuthOutcomes.PurgeForgetsReplay` | oauth/server.go:416-426 | What a purge does change: a replayed used code deletes its grant before it, and after it exactly when the code had not expired at the cutoff; the grant survives exactly when the code had expired and the grant had not |
| `OAuthOutcomes.RevokeBySecretIff` | oauth/token.go:439-459 | The revocation endpoint deletes a grant for a refresh token exactly when the secret is the current or previous one and the grant is of the calling client; it always answers the same |
| `OAuthOutcomes.RevokeByAccessTokenIff` | oauth/token.go:439-471 | The same for an access token within its time |
| `OAuthOutcomes.RevokeOwnIff` | oauth/server.go:391-403 | The application revokes for a user exactly that user's grant; another user's is reported as unknown and stays |
| `OAuthOutcomes.StampChangeRevokes` | oauth/token.go:276-283 | After a change of a user's security stamp, whatever else happens, no access token signed under another stamp validates and no grant from before can be refreshed; trying it with the current secret deletes the grant |
| `OAuthOutcomes.DeletedUserEnds` | stores/memstore/memstore.go:125-165 | Deleting a user removes exactly that user's codes, consents and grants; whatever happens later, redemptions in flight included, no token of the user validates and no grant of the user is refreshed |
| `OAuthConsents.VisitAnswers` | oauth/authorize.go:101-108 | A visit skips the consent page exactly when the remembered consent of the user for the client holds every scope asked for; then it issues the code, column by column, and otherwise changes nothing |
| `OAuthConsents.ApprovalAnswers` | oauth/authorize.go:225-236 | An approval issues the code and remembers the union of old and new scopes for this user and client, with the first creation time; nothing else changes |
| `OAuthConsents.ApprovalIsRemembered` | oauth/authorize.go:101-105 | After an approval a visit for the same client skips the page exactly when each of its scopes was approved then or before |
| `OAuthConsents.DisconnectForgets` | oauth/server.go:407-412 | Disconnecting a client makes the next visit show the page for that user and client, and leaves every other user and client their consent and their grants |
| `OAuthConsents.ConsentBirthKept` | stores/memstore/oauth.go:127-136 | No event changes the creation time of a remembered consent that stays, interleaved approvals included |
| `OAuthOutcomes.DisconnectedTokensEnd` | oauth/server.go:407-412 | Disconnecting a client ends exactly the tokens of that user's grants of that client |
| `OAuthOutcomes.DisconnectKeepsCodes` | oauth/server.go:407-412 | Disconnecting a client leaves unredeemed codes redeemable: the answer to a redemption is unchanged |
| `OAuthRules.DefaultScopesBoundedIff` | oauth/server.go:356-370 | What a request without scope is granted stays within the configured scopes exactly when every white-space-free piece of every default scope is configured |
| `OAuthRules.DefaultScopesUnboundedExample` | oauth/server.go:356-370 | A configured scope name holding a space yields scopes outside the configuration |
| `OAuthRules.ResolvedScopesConfigured` | oauth/server.go:356-370 | Otherwise whatever is asked for resolves to configured scopes |
| `OAuthRules.NarrowedScopes` | oauth/token.go:284-290 | Narrowing on refresh stays within the grant's scopes and its result survives printing and parsing |
| `OAuthRules.ParseAuthzIff` | oauth/authorize.go:140-192 | An authorization request is accepted exactly when redirect URI, response type, grant type, challenge, scopes and resource are each acceptable, and for those values; an error goes to the redirect URI exactly when it is one of the client's, and says what is wrong first |
| `OAuthRules.VerifierIff` | oauth/util.go:122-141 | A verifier proves a challenge exactly when it is 43 to 128 unreserved characters that hash to it (section 4.1 of RFC 7636) |
| `OAuthRules.ParseRefreshTokenIff` | oauth/token.go:238-241 | A refresh token is read as an id of 1 to 64 characters without a dot and a non-empty secret, exactly when it is the two around a dot |
| `OAuthRules.RefreshTokenRoundTrip` | oauth/token.go:238-241 | The refresh token handed out parses back into its grant id and secret |
| `TableOps.CascadeComposes` | stores/memstore/memstore.go:168-181 | Cascading over users one by one or together is the same |
| `TableOps.SweepsAreExact` | stores/memstore/oauth.go:103-114 | The sweeps delete exactly the codes, grants and assertion ids that expired strictly before the cutoff, used or not, and change nothing they leave |
| `TableOps.StaleClientsExact` | stores/memstore/oauth.go:55-70 | A registration survives exactly when it is not older than the cutoff, was used since, or a grant names it |
| `CompositeKeys.StringKeysRefineTuples` | stores/memstore/memstore.go:367-430 | No sequence of calls with bar-free user ids and provider names tells the string-keyed tokens and logins from tuple-keyed ones, cascades included |
| `CompositeKeys.StringKeysCollide` | stores/memstore/memstore.go:85 | With a bar in a user id one user reads another's token |
| `CompositeKeys.ConsentsAreSeparate` | stores/memstore/oauth.go:19 | Saving or deleting a consent never touches another user's or client's |
| `CompositeKeys.CascadeIsExact` | stores/memstore/memstore.go:125-165 | For ids without a bar a cascade leaves a deleted user no row in any of the ten tables, and every other user all of theirs |
| `CompositeKeys.PurgeIsExact` | stores/memstore/memstore.go:168-181 | The anonymous purge does that to exactly the guests created before the cutoff |
| `CompositeKeys.TokensSparedIff` | stores/memstore/memstore.go:129-133 | For arbitrary ids deleting one user spares every possible token of another exactly when neither id followed by a bar starts with the other |
| `Versions.VersionsChain` | stores/memstore/memstore.go:102-115 | The committed versions of a row form a chain: each writer had loaded exactly the version before, and the last is the stored row |
| `Versions.OneCommitPerVersion` | stores/memstore/memstore.go:102-115 | Of all writers that loaded one version at most one commits |
| `Versions.WriteCommitsIff` | stores/memstore/memstore.go:102-115 | A write commits exactly when its writer holds the stored version, and changes nothing otherwise |
| `ClientAssertions.SecondAcceptanceIsLate` | oauth/client_assertion.go:309-331 | Under every interleaving with the sweeps an id is accepted a second time only after the validity of the first assertion, leeway included, though each was verified within its own |
| `ClientAssertions.AcceptedWasValid` | oauth/client_assertion.go:241-333 | In every reachable state every accepted assertion was signed by the client it names as issuer and subject, meant for this server, within its times give or take half a minute when verified, and of bounded lifetime and id when recorded |
| `ClientAssertions.AcceptedAtMostOnce` | oauth/client_assertion.go:325-331 | When every handler records before the validity of its assertion ends, no assertion is accepted twice |
| `ClientAssertions.AcceptsAgainIff` | stores/memstore/oauth.go:222-244 | A handler about to record an id that was accepted before succeeds exactly when a sweep since had a cutoff past its validity |
| `ClientAssertions.StalledReplayIff` | oauth/client_assertion.go:309-331 | A handler holding an accepted assertion can have it accepted again without the clock moving exactly when its validity has ended |
| `ClientAssertions.StalledReplayExample` | oauth/client_assertion.go:309-331 | A run in which one assertion is accepted twice: the second handler stalls between verification and recording while its id is swept |
| `Sessions.SortByExpiry` | identity/token_service.go:255-256 | A permutation, oldest expiry first |
| `Sessions.SlotRoundTrip` | identity/token_service.go:155-157 | A written slot admits exactly its secret until its expiry in whole seconds |
| `Sessions.SlotAcceptsIff` | identity/token_service.go:332-349 | A stored slot text, whatever it is, admits a token exactly when it is the token's hash, a colon and a number of seconds that has not passed |
| `SessionCap.IssueExact` | identity/token_service.go:223-271 | Issuing leaves the new session and as many of the user's unexpired ones as the cap allows: exactly the excess is evicted |
| `SessionCap.EvictsOldest` | identity/token_service.go:255-270 | Every evicted session expires no later than every surviving older one |
| `SessionCap.IssueSparesOthers` | identity/token_service.go:236-240 | Issuing removes another user's session exactly when it has expired |
| `SessionCap.SessionsCapped` | identity/token_service.go:246-271 | Over every sequence of operations no user has more sessions than the cap |
| `SessionCap.IssuedAdmits` | identity/token_service.go:223-242 | A session just issued admits exactly its user with its secret until its lifetime ends, and nobody when its id is empty or longer than 64 |
| `SessionCap.RotatedAdmits` | identity/token_service.go:353-389 | After a rotation the session admits exactly the same user with the new secret, for a full lifetime |
| `SessionRotation.ReadThenCommit` | identity/token_service.go:353-389 | The two store calls of a rotation with nothing in between are the rotation of the service |
| `SessionRotation.SecondUseOverlaps` | identity/token_service.go:353-389 | Under every interleaving a session secret is redeemed twice only by a rotation that had read the row before the first was committed |
| `SessionRotation.SequentialSingleUse` | identity/token_service.go:353-389 | One rotation after the other, every secret is redeemed at most once |
| `SessionRotation.OverwritesOtherIff` | identity/token_service.go:376-380 | A rotation about to commit overwrites a hash other than the one it checked exactly when another rotation of the session was committed in between |
| `SessionRotation.DoubleUseExample` | identity/token_service.go:353-389 | Two overlapping rotations both succeed with one secret |
| `SessionRotation.RevokedForGood` | stores/memstore/refreshtoken.go:33-74 | Once a row is gone - revoked, evicted or swept - no rotation in flight or later brings it back or returns a pair for it |
| `SessionRotation.CommitIsIsolated` | stores/memstore/refreshtoken.go:33-41 | Committing a rotation changes hash, expiry and time of use of its own row and nothing else |
| `SessionRotation.OwnerKept` | identity/token_service.go:376-380 | A stored row always belongs to the user it was created for |
| `Lockout.LockoutBound` | identity/user_manager.go:396-425 | In any half-open window as long as the lockout duration without a successful check at most max(1, limit) counted failures are let through, from any counter value |
| `Lockout.LocksAtTheLimit` | identity/user_manager.go:406-415 | The bound is reached by any mixture of wrong passwords and second factors, and then the account is locked exactly until a duration after the last failure |
| `Lockout.SuccessStartsOver` | identity/user_manager.go:418-425 | After a success, whatever the counter was, it takes the full number of counted failures to lock the account, and one fewer leaves it open |
| `Lockout.UncountedAttempts` | identity/signin_manager.go:87-112 | Failed recovery codes, passwords of accounts that may not sign in, opted-out wrong passwords and attempts while locked leave the account as it was, however many |
| `Lockout.RecoveryMissesUncounted` | identity/signin_manager.go:188-200 | Any number of failed recovery codes leaves the account as it was |
| `Lockout.CounterRange` | identity/user_manager.go:406-425 | The counter stays between zero and the limit over every run |
| `Limiter.CleanupIsInvisible` | oauth/server.go:454-460 | Over every sequence of requests the limiter decides as if it never cleaned up |
| `Limiter.AdmissionBound` | oauth/server.go:450-471 | In any interval no longer than the window at most 2*limit - 1 requests of an address are admitted (one, for a limit below one) |
| `Limiter.BoundReached` | oauth/server.go:450-471 | For every limit and window some requests reach that bound |
| `PhoneCodes.JudgeOfValue` | identity/phone.go:45-48 | The print and parse round trip: the judgement on a printed token in terms of hash, expiry and attempts |
| `PhoneCodes.JudgeOfOther` | identity/phone.go:59-68 | A stored text without a separator is left alone, and one whose expiry is no number is removed |
| `PhoneCodes.JudgeWithoutAttempts` | identity/phone.go:73-76 | A token without a number of attempts has had none |
| `PhoneCodes.AppliedIsNext` | identity/phone.go:54-83 | After a guess the store holds what the run of guesses goes on with, and every other token as it was |
| `PhoneCodes.SucceedsIff` | identity/phone.go:54-83 | The i-th guess at an issued code succeeds exactly when it is right and in time, all earlier ones were misses in time, and there were fewer of them than the cap |
| `PhoneCodes.OneSuccess` | identity/phone.go:69-72 | Between two issuances at most one guess succeeds |
| `PhoneCodes.ComparedBound` | identity/phone.go:73-81 | Exactly which guesses are compared with the stored hash: never more than max(1, cap) |
| `PhoneCodes.RightCodeTooLate` | identity/phone.go:77-79 | After that many misses even the right code is refused |
| `PhoneCodes.ChangeCodeBinds` | identity/phone.go:150-182 | A change code issued for a number without a bar confirms that number only |
| `PhoneCodes.ChangeGuessBinds` | identity/phone.go:150-182 | For a hash without collisions, a guess at a stored change code is accepted exactly when it is in time and both the code and the number are the ones the code was issued for |
| `RecoveryCodes.ListedOfJoin` | identity/twofactor.go:69 | The join and split round trip, down to the empty list |
| `RecoveryCodes.GuessConsumes` | identity/twofactor.go:82-99 | A success removes exactly one occurrence of its hash; a failure changes nothing |
| `RecoveryCodes.WithoutFirst` | identity/twofactor.go:82-95 | What is consumed is the first occurrence, and the other codes keep their order |
| `RecoveryCodes.CodesConserved` | identity/twofactor.go:62-112 | Over every run the count is the codes generated less the successes, and the stored multiset the generated one less the guessed |
| `RecoveryCodes.SucceedsIff` | identity/twofactor.go:76-103 | A guess succeeds exactly when its hash was generated more often than it was guessed before |
| `Scopes.DedupKeepsOrder` | oauth/util.go:145-155 | First-occurrence order is kept |
| `Scopes.RoundTripIff` | oauth/util.go:145-157 | Exactly the duplicate-free lists of tokens survive printing and parsing |
| `Scopes.ParseIsCanonical` | oauth/util.go:145-157 | Parsing is idempotent through printing |
| `Scopes.UnionIsSetUnion` | oauth/util.go:172 | The union of scope lists is set union |
| `Scopes.UnionInOrder` | oauth/util.go:172 | On token lists it lists the first before the second, each scope once |
| `Totp.WindowAccepts` | identity/totp.go:61-84 | A code made at t validates at every time at most k steps away on the same side of the epoch |
| `Totp.WindowEnds` | identity/totp.go:61-84 | More than the skew in full steps away, no counter of the window is the one the code was made for |
| `Totp.CounterCounts` | identity/totp.go:50-57 | A counter is the number of whole steps in the Unix time, modulo 2^64 |
| `Totp.DefaultsStandFor` | identity/totp.go:27-38 | Zero stands for six digits, half a minute and one step; other values for themselves |
| `Totp.CodeShape` | identity/totp.go:98-102 | Every code has exactly the configured number of decimal digits, for 1 to 31 |
| `Totp.CodeIsTruncation` | identity/totp.go:87-103 | A code is, in decimal, the 31 bits of the HMAC value, as one big-endian number, at the offset given by its last byte, modulo the power of ten - cut to 32 bits beyond nine digits |
| `Totp.CodeWithoutDigits` | identity/totp.go:98-102 | For no digits, or a negative number of them, every code is a zero, filled up with blanks |
| `Totp.WorkedExample` | identity/totp.go:92-102 | The example of section 5.4 of RFC 4226 |
| `Totp.ModulusZeroIff` | identity/totp.go:98-102 | The 32-bit modulus is zero, and the division fails, exactly from 32 digits on |
| `OAuthHandlers.Handler.Step` | oauth/token.go:146-301 | One store call of any request: the new tables and the next program counter with its locals |
| `OAuthHandlers.Handler.RedeemStep` | oauth/token.go:146-186 | The checks before the user lookup, in order, with the replay branch |
| `OAuthHandlers.Handler.RefreshStep` | oauth/token.go:234-275 | The checks before the user lookup, in order, with the reuse and expiry branches |
| `OAuthHandlers.Handler.RefreshUserStep` | oauth/token.go:276-290 | User, lockout and security stamp checks, and scope narrowing |
| `OAuthHandlers.Handler.VisitStep` | oauth/authorize.go:101-105 | The decision to skip the consent page |
| `OAuthHandlers.Handler.ApproveStep` | oauth/authorize.go:225-232 | The scopes to be remembered: the request merged into what was approved before |
| `OAuthHandlers.Handler.RevokeTokenStep` | oauth/token.go:450-471 | Finding the grant a presented token belongs to |
| `OAuthHandlers.Handler.Serve` | oauth/token.go:146-301 | A handler run to its answer with nothing in between computes the sequential handler, and terminates |
| `OAuthHandlers.StepsTerminate` | oauth/token.go:146-301 | Every store call brings a handler closer to its answer |
| `OAuthHandlers.Server.PurgeExpired` | oauth/server.go:416-426 | Deletes exactly the codes and grants that expired before the clock reading, and the recorded assertion ids, and counts the first two |
| `OAuthHandlers.Server.ValidateResourceToken` | oauth/token.go:355-402 | Answers a user exactly for an access token of this server with the right audience, within its whole-second times, whose user is there, not locked out and of the same security stamp, and whose grant is stored for that user; session tokens and foreign texts are refused |
| `OAuthHandlers.Server.RevokeClient` | oauth/server.go:407-412 | Deletes the user's grants of the client and the remembered consent, and nothing else |
| `Versions.SameUpdate` | stores/memstore/memstore.go:441-454 | Users and roles follow the same update rule |
| `ClientAssertions.Authenticator.Authenticate` | oauth/client_assertion.go:241-333 | Succeeds exactly when form, client, signature, audience, times, lifetime and id are acceptable and the id is unrecorded; then it is recorded until expiry plus leeway, otherwise nothing changes |
| `Sessions.TokenService.EnforceMaxSessions` | identity/token_service.go:246-271 | Evicts exactly the excess over the cap, only the user's rows, never the one to keep, and none that expires later than another it leaves |
| `Sessions.TokenService.NewSessionRefresh` | identity/token_service.go:223-242 | Creates, sweeps and evicts; the new session is there afterwards |
| `Sessions.TokenService.RefreshSession` | identity/token_service.go:353-389 | Rotates the row exactly when user, secret and expiry agree, and changes nothing otherwise |
| `Sessions.TokenService.Refresh` | identity/token_service.go:308-329 | Session tokens stay in their session; a slot token is moved into a new session and the slot is retired |
| `Sessions.TokenService.ValidateLegacySlot` | identity/token_service.go:332-349 | The slot check, malformed texts included |
| `Sessions.TokenService.Revoke` | identity/token_service.go:395-405 | Ends the slot and every session of the user and nothing else |
| `Sessions.TokenService.RevokeSession` | identity/token_service.go:410-427 | Ends the session the token names if it is the user's; refuses another user's |
| `Lockout.SignInManager.AccessFailed` | identity/user_manager.go:406-415 | Counts a failure, locks at the limit, and saves the account |
| `Lockout.SignInManager.ResetAccessFailedCount` | identity/user_manager.go:418-425 | Clears the counter and saves, or leaves a zero counter unwritten |
| `Lockout.SignInManager.PasswordSignIn` | identity/signin_manager.go:87-112 | Result and account after a password sign-in, the lockout and opt-out cases included |
| `Lockout.SignInManager.SecondFactorSignIn` | identity/signin_manager.go:116-152 | Result and account after an authenticator or SMS code |
| `Lockout.SignInManager.RecoveryCodeSignIn` | identity/signin_manager.go:188-200 | Result and account after a recovery code; a miss is not counted |
| `Limiter.IPLimiter.Allow` | oauth/server.go:450-471 | Decision and new table of one request, the cleanup loop included |
| `PhoneCodes.PhoneCodeManager.ConsumePhoneCode` | identity/phone.go:54-83 | Result and stored token of one guess, expired and malformed texts included |
| `PhoneCodes.PhoneCodeManager.ChangePhoneNumber` | identity/phone.go:180-194 | A match sets and confirms the number and replaces the security stamp; a miss leaves the account alone |
| `PhoneCodes.PhoneCodeManager.SendPhoneToken` | identity/phone.go:97-110 | Stores the fresh token and sends its code; without a number the token is stored all the same and nothing is sent |
| `PhoneCodes.PhoneCodeManager.ConfirmPhoneNumber` | identity/phone.go:119-130 | Confirms the number exactly when the guess is accepted, and leaves the account alone otherwise |
| `PhoneCodes.PhoneCodeManager.SendChangePhoneNumberToken` | identity/phone.go:162-174 | Stores the token and sends the code to the new number, unless there is no sender or no number |
| `RecoveryCodes.RecoveryCodeManager.GenerateRecoveryCodes` | identity/twofactor.go:62-73 | Returns the n drawn codes and stores their hashes joined |
| `RecoveryCodes.RecoveryCodeManager.RedeemRecoveryCode` | identity/twofactor.go:76-103 | Succeeds exactly when the hash is listed, and then stores the others |
| `RecoveryCodes.RecoveryCodeManager.CountRecoveryCodes` | identity/twofactor.go:106-112 | The number of listed parts |
| `Scopes.ParseScopes` | oauth/util.go:145-155 | The loop computes the duplicate-free tokens in first-occurrence order |
| `Scopes.ContainsAll` | oauth/util.go:159-170 | Is the subset test |
| `Totp.Authenticator.Hotp` | identity/totp.go:87-103 | The loop in 32-bit arithmetic computes the HOTP value (section 5.3 of RFC 4226) |
| `Totp.Authenticator.Code` | identity/totp.go:50-57 | The code of a time, or nothing for a secret that does not decode |
| `Totp.Authenticator.Validate` | identity/totp.go:61-84 | Accepts exactly the HOTP values of the 2k+1 counters around now, modulo 2^64 (section 5.2 of RFC 6238) |
| `MemStore.DeleteMatching` | stores/memstore/oauth.go:103-114 | The sweep loop keeps exactly the rows that do not match and counts the others |
| `MemStore.Store.MarkCodeUsed` | stores/memstore/oauth.go:91-101 | Succeeds exactly on a present unused code, and then marks it with time and grant id |
| `MemStore.Store.SaveConsent` | stores/memstore/oauth.go:127-136 | Upsert that keeps the creation time of an existing row |
| `MemStore.Store.RotateGrant` | stores/memstore/oauth.go:164-174 | Compare-and-swap on the refresh hash: whole new state on a match, nothing otherwise |
| `MemStore.Store.DeleteUserClientGrants` | stores/memstore/oauth.go:183-194 | Deletes exactly the user's grants of the client, and counts them |
| `MemStore.Store.DeleteExpiredCodes` | stores/memstore/oauth.go:103-114 | Deletes exactly the codes that expired before the cutoff, and counts them |
| `MemStore.Store.DeleteExpiredGrants` | stores/memstore/oauth.go:209-220 | Deletes exactly the grants that expired before the cutoff, and counts them |
| `MemStore.Store.UseClientAssertion` | stores/memstore/oauth.go:222-231 | Records an assertion id unless it is recorded, and says which |
| `MemStore.Store.DeleteExpiredClientAssertions` | stores/memstore/oauth.go:233-244 | Deletes exactly the ids that expired before the cutoff |
| `MemStore.Store.DeleteStaleClients` | stores/memstore/oauth.go:55-70 | Deletes exactly the clients that are old, unused since, and hold no grant |
| `MemStore.Store.UpdateUser` | stores/memstore/memstore.go:102-115 | A write with the stored stamp replaces row and stamp; any other write changes nothing and says why |
| `MemStore.Store.UpdateRole` | stores/memstore/memstore.go:441-454 | The same for roles |
| `MemStore.Store.CascadeDeleteLocked` | stores/memstore/memstore.go:125-165 | The loops over the tables delete exactly what the cascade means |
| `MemStore.Store.PurgeAnonymousUsers` | stores/memstore/memstore.go:168-181 | Equals one cascade over exactly the stale guests, and returns their number |
| `MemStore.SweepLogins` | stores/memstore/memstore.go:134-139 | The loop over the login index deletes from both login maps exactly the logins bound to the user |
| `MemStore.Store.AddLogin` | stores/memstore/memstore.go:387-399 | A login bound to an account is never bound again; otherwise both maps gain it |
| `MemStore.Store.FindByLogin` | stores/memstore/memstore.go:422-430 | The user a login is bound to |
| `MemStore.Store.RemoveLogin` | stores/memstore/memstore.go:401-408 | Unbinds exactly that login, in both maps |
| `MemStore.Store.ListUserRefreshTokens` | stores/memstore/refreshtoken.go:76-87 | All of the user's rows, each once, ordered by session id |
| `MemStore.Store.UpdateRefreshToken` | stores/memstore/refreshtoken.go:33-41 | Overwrites a row only while it is there |
| `MemStore.Store.DeleteUserRefreshTokens` | stores/memstore/refreshtoken.go:50-61 | Deletes exactly the user's rows, and counts them |
| `MemStore.Store.DeleteExpiredRefreshTokens` | stores/memstore/refreshtoken.go:63-74 | Deletes exactly the rows that expired before the cutoff, and counts them |

## Left out

- HTTP parsing, CORS, redirects, HTML pages, CSRF tokens and the metadata documents: plumbing without state of its
  own.
- Client resolution (registered clients, metadata documents, `jwks_uri` fetching) and client secrets: a request
  carries the client it resolved to; for assertions, whether one of the client's keys signed is a field of the
  assertion.
- URL handling (`canonicalResource`, `matchRedirectURI`) and BASE64URL(SHA-256) in PKCE: unrestricted functions in
  `Config`.
- The authorization endpoint's lookup of the signed-in user and its lockout check: they only refuse.
- Access-token claims that carry no authority here: issuer, roles, custom claims, `jti`, `expires_in`.
- Reading a bearer token: whose signature, which type and issuer it has is given with the token, not parsed from text.
- Token validation is no request of the machine: it is one call of the server object, and `AuthorityAcrossReads` says
  what its two reads establish when other steps come between them.
- Dynamic registration, listing of users, roles and clients with its orders, API keys, external logins, delivery by
  email and SMS, two-factor provider registry, role membership and claim lists: each would only add easy members.
- `User.Attributes` and the shallow copies of the store: user rows are values, so aliasing of that map is not
  modelled.
- The store object groups its maps into two records, one field per group: which map is updated is captured, the
  separate Go map objects are not.
- The gorm, pgx and sqlc stores, migrations and generated code: the same contract in SQL.
- Key rings, JWT signing and parsing, password hashing and policy, naming checks, policy evaluation: library code or
  easy members.
- Store failures: a store call always succeeds, so the best-effort branches that only log a failure are not reached.
- Concurrent recovery-code and SMS guesses, known limits of the source: those two machines are sequential.
- Concurrent issuing of sessions: the cap is proved for one operation after the other.
- Other writes to an account during a lockout window (administrative unlocks, edits of the counter) and rehashing on
  sign-in.
- Sign-ins that opt out of lockout, and recovery codes, are not counted by the source and so not by the lockout bound.
- TOTP times on different sides of the epoch: conversion to 64 unsigned bits tears the count there.
- Token validation reads the wall clock where the rest of the server reads its configured clock: one clock here.
- Periods that are not whole seconds: the step is the period in whole seconds, as the source truncates it, and at
  least one.
