# Pocket ID verification model

Pocket ID is an OpenID Connect provider that signs users in with passkeys. This project models the parts of
its backend in which several functions, several tables or several concurrent calls have to agree, and proves
that they do.

- **The interaction protocol** (`Interaction`, `InteractionRuns`, `InteractionFrames`, `InteractionSteps`,
  `InteractionTokens`, `InteractionSafety`, `InteractionOutcomes`, `InteractionProgress`, `InteractionChoices`,
  `MaxAge`, `AuthorizationService`): an authorize
  request becomes a stored session with four requirements, is worked off step by step, resumed and granted. An
  authorize call reads the stored parameters, then the session, and only then runs its transaction; other calls run
  in between, so what it holds may be stale. Client settings are fixed during a run and authorizations are not
  revoked; the API tables, the users and their groups may answer differently at every step.
- **Resources and consent** (`Resource`, `Consent`, `Text`, `Lists`): resource indicators of section 2 of RFC 8707,
  and the flat list of consented keys as a faithful record of what was consented to.
- **Device authorization** (`DeviceAuthorization`, `DeviceAuthorizationService`): the user-code flow of RFC 8628,
  in which two users may hold the same unused request.
- **API grants** (`ApiTables`, `ApiViews`, `ApiChanges`, `ApiRows`, `ApiService`, `ApiLookup`): access and permission rows edited
  by eight operations and read by four independent readers.
- **Device login** (`DeviceLoginActor`, `DeviceLogin`, `DeviceLoginOutcomes`, `DeviceLoginService`): a request is created, proved and
  decided, polled and consumed by concurrent calls around one actor.
- **Email verification** (`EmailVerificationActor`, `EmailVerification`, `EmailVerificationService`): tokens that
  are taken out of an actor, applied to a row, and handed back when the database fails.
- **LDAP reconciliation and back-channel logout** (`LdapTables`, `LdapUsers`, `LdapGroups`, `LdapService`,
  `Backchannel`): who is disabled, who loses a group, and who has to be told.

Each flow has functions that say what one operation leaves behind, classes whose methods carry the operation out
step by step and are proved against these functions, and lemmas about whole runs of the functions. Transactions and
actor turns are atomic steps; loops over Go maps and database rows choose their next element arbitrarily. In a run,
history fields record which proofs were issued to whom, who used them, consented, approved and was granted what; no
operation reads them.

## Where the code does something else than it says

- `max_age` is multiplied into a 64-bit number of nanoseconds. Above 9223372036 seconds the product wraps around and
  a login made this very moment can be refused. It never lets an old login pass.
- The comment on issuing verification mails says that only the most recent link works. A failed database update can
  hand an older token back after a newer one has gone, and then the older link works again.
- Reconciling groups reports users as removed who may have lost nothing: every entry of a group reports whom it leaves
  out, but only the last entry with an ID decides the members. The report is exact if and only if everybody whom some
  entry leaves out is left out by the last entry of one of their groups too, or is in a group that is gone; distinct
  group IDs are enough.

## Model

| member | source | states |
|---|---|---|
| InteractionSafety.EveryGrantIsJustified | backend/internal/oidc/authorization_service.go:209-291 | in every interleaving of authorize calls (with stale reads), steps, token issues, expiry and the clock, each grant found, before its own call recorded anything, a client that skips consent or a stored consent covering every key of the request; a demanded consent step and reauthentication proof were made by the granted user in the binding that was granted, a demanded account selection for the interaction; a client that requires PAR was served only through a pushed request and one that requires PKCE only with a challenge; granted scopes are the order-preserving dedup of the request, which is a narrowing of the original that keeps openid; a login that the prompt, the client or max_age demands is a proof of the binding or, for max_age alone, a login recent enough when the binding looked at it; the authentication time of the granted session is that of a proof in the binding or of the granting call's own login, never another user's or an earlier binding's; and every proof of the run is a token that was issued to the user it counts for and used before it expired |
| InteractionSafety.EveryTicketIsGrantedOnce | backend/internal/oidc/interaction_session_service.go:69-79 | no interaction ID, and no request that needed none, is ever granted twice, and a granted interaction has no session left |
| InteractionOutcomes.EveryConsentHasACause | backend/internal/oidc/authorization_service.go:836-886 | whenever a step of a run records a consent key for a client and a user, it is that user's consent step for the client that left the key's scope in, or a grant to this user and client of a request with the key |
| InteractionTokens.ReauthenticationSucceedsExactlyWhen | backend/internal/oidc/authorization_service.go:665-680 | a reauthentication step succeeds if and only if the token is an unexpired one of this very user; it uses up this token alone, clears the one flag and remembers when the token was issued |
| InteractionTokens.TokenIsUsedExactlyWhen | backend/internal/oidc/authorization_service.go:355-364 | an authorize call uses up a token if and only if a reauthentication is required and the token is an unexpired one of the caller |
| InteractionTokens.StepKeepsGenuine | backend/internal/webauthn/service.go:617-631 | each step of the protocol keeps it true that every used-up token was issued to the user it counts for and used before it expired, and that remembered times are times of such tokens |
| InteractionOutcomes.CompletedExactlyWhen | backend/internal/oidc/authorization_service.go:584-663 | completing a step succeeds if and only if the interaction is no older than an hour, somebody is signed in, another user can be switched to, and the step is the first one open and its user brings what it takes, for each of the four steps |
| InteractionOutcomes.ConsentStepRecordsExactly | backend/internal/oidc/authorization_service.go:682-707 | a consent step succeeds if and only if every approved scope was requested and what is left can be granted, and records the keys of exactly what is left for this user and client, nothing for anybody else |
| InteractionOutcomes.SwitchOwesExactly | backend/internal/oidc/authorization_service.go:498-515 | a switch makes the new user owe exactly what the request demands, no more and no less, and keeps only the account selection |
| InteractionOutcomes.AuthenticatingAddsExactly | backend/internal/oidc/authorization_service.go:759-774 | authenticating adds exactly what the request demands of the user to what was owed |
| InteractionOutcomes.OpenedExactlyWhen | backend/internal/oidc/authorization_service.go:109-206 | a request passes the checks before its transaction if and only if challenge, push, resumed interaction, scopes, resource and sign-in are as the client and the prompt demand; a signed-in user goes on with the stored session and another one gets a session that demands a login first |
| InteractionOutcomes.DeniedExactlyWhen | backend/internal/oidc/authorization_service.go:209-225 | an unknown user is not found, and a known one is denied if and only if the client is restricted to groups the user is not in |
| InteractionOutcomes.FreshRequestExactly | backend/internal/oidc/authorization_service.go:209-291 | a request without an interaction succeeds if and only if its user is allowed, it can be granted and prompt=none finds nothing owed; it is granted if and only if nothing remains, and otherwise a session of this user owes exactly what remains |
| InteractionOutcomes.ResumedRequestExactly | backend/internal/oidc/authorization_service.go:209-291 | a resumed request succeeds under the same conditions, if the user can be switched to and a session that is used up is still there; it is granted if and only if nothing remains, and otherwise its interaction goes on |
| InteractionChoices.DeselectedScopesAreNeverGranted | backend/internal/oidc/authorization_service.go:686-690 | in every run, a grant in a binding in which the user completed a consent step holds no scope that step left out, not even when the granting call had read its parameters or session before the step |
| InteractionChoices.StepKeepsChoices | backend/internal/oidc/authorization_service.go:740-757 | each step keeps the invariant behind it: settled sessions, in the table or in flight, ask for nothing beyond the choice made in their binding |
| InteractionSafety.EverySessionIsInOrder | backend/internal/oidc/authorization_service.go:740-757 | every stored session needs authentication exactly when no user is bound, its scopes equal its stored scope parameter and are a subsequence of the first request's scopes that keeps openid, no stored parameter but the scope ever differs from the first request (redirect URI, nonce, state and challenge included), and a client that requires PAR or PKCE was served so |
| InteractionSafety.StepKeepsInv | backend/internal/oidc/authorization_service.go:109-206 | each step of the protocol keeps the invariant behind the three theorems and forgets no consent, proof or selection |
| InteractionSafety.CommitKeepsInv | backend/internal/oidc/authorization_service.go:209-291 | the authorize transaction keeps the invariant even when the session it read has changed since |
| InteractionSafety.ClearedIsJustified | backend/internal/oidc/authorization_service.go:246-274 | a request whose debts are settled stays justified after the granting call records its consent |
| InteractionSafety.ResumedGrantIsCleared | backend/internal/oidc/authorization_service.go:428-446 | a resumed request that passed the binding check needs no consent, proof or selection that the session's user has not given |
| InteractionSteps.CompleteKeepsInv | backend/internal/oidc/authorization_service.go:584-640 | an accepted step keeps the invariant: each flag it leaves clear is backed by the history of the current binding |
| InteractionSteps.SwitchedSessionIsOk | backend/internal/oidc/authorization_service.go:498-515 | after a switch to any user the session owes everything its request demands of that user, whatever the previous user had done |
| InteractionSteps.NarrowedSessionInherits | backend/internal/oidc/authorization_service.go:740-757 | narrowing keeps exactly the approved scopes and openid, in order, and the rewritten scope parameter reads back as the narrowed list |
| InteractionSteps.ConsentStepCovers | backend/internal/oidc/authorization_service.go:682-707 | what a consent step records covers everything the narrowed session will ask for |
| InteractionFrames.BindKeepsInv | backend/internal/oidc/authorization_service.go:405-423 | reading and validating the session, or creating one for an unknown user, keeps the invariant |
| InteractionFrames.OpenKeepsInv | backend/internal/oidc/authorization_service.go:384-402 | a request rebuilt from stored parameters inherits from the original request |
| InteractionSafety.OnlyAllowedUsersPass | backend/internal/oidc/authorization_service.go:209-225 | no transaction ends well, and so nothing is granted, for an unknown user or one outside the client's allowed groups |
| InteractionSafety.SilentRequestsNeverInteract | backend/internal/oidc/authorization_service.go:347-352 | a request with prompt=none and no account selection is answered by a grant or an error, never by an interaction |
| InteractionSafety.FailedResourcesLookAlike | backend/internal/oidc/authorization_service.go:134-149 | before sign-in, all failures of a request that names a resource are one and the same error, whatever the API tables hold |
| Interaction.RequirementsFor | backend/internal/oidc/authorization_service.go:776-799 | consent is required exactly when the prompt asks for it or it is neither skipped nor covered; reauthentication is required exactly when a login is demanded or max_age makes one due |
| Interaction.KeepApproved | backend/internal/oidc/authorization_service.go:728-733 | exactly the requested scopes that are approved or required, in requested order |
| InteractionProgress.AtMostFourSteps | backend/internal/oidc/authorization_service.go:584-663 | from any reachable state, while one user works on an interaction, at most four more steps are accepted, though early steps may raise later requirements and anything else may run in between |
| InteractionProgress.AppliedStepMovesOn | backend/internal/oidc/authorization_service.go:642-663 | each applied step moves the first required step strictly forward and lowers the four requirements in lexicographic order |
| InteractionProgress.SwitchingDemandsANewProof | backend/internal/oidc/authorization_service.go:498-515 | after a switch or an account selection, a grant in the new binding that demands a login rests on a proof used up after the switch |
| InteractionProgress.ResumingAsAnotherDemandsANewProof | backend/internal/oidc/authorization_service.go:226-234 | when another signed-in user resumes the interaction, the switch inside the authorize transaction starts a new binding, and neither the grant of that transaction nor a later one in the binding rests on a proof used up before |
| InteractionProgress.FinishedInteractionIsGranted | backend/internal/oidc/authorization_service.go:246-291 | an interaction with nothing left to do is granted to its user with exactly the session's scopes, for every client, those that require PKCE included, and its session is gone |
| InteractionProgress.RequiredStepsAreInOrder | backend/internal/oidc/interaction_session_dto.go:74-90 | the required steps are exactly the set flags, each once, in the fixed order; none are left exactly when no flag is set |
| MaxAge.MaxAgeIsRespectedExactlyWhen | backend/internal/oidc/authorization_service.go:819-834 | the max_age check means what the parameter says, for every login and clock, if and only if max_age is at most 9223372036 seconds |
| MaxAge.AnOldLoginIsAlwaysCaught | backend/internal/oidc/authorization_service.go:819-834 | whatever wraps, a login older than max_age is always asked to reauthenticate |
| MaxAge.AFreshLoginCanBeRefused | backend/internal/oidc/authorization_service.go:833 | with max_age=9223372037 a login made this very moment counts as too old |
| MaxAge.MaxAgeIsRejectedExactlyWhen | backend/internal/oidc/authorization_service.go:819-834 | max_age is rejected if and only if it is there and is no number that fits and is not negative; a login of unknown time is too old for any max_age |
| Text.ParseIntReadsNumerals | backend/internal/oidc/authorization_service.go:819-834 | a decimal numeral is read as its number with its sign if and only if it fits into 64 bits |
| MaxAge.ImmediateGrantRespectsMaxAge | backend/internal/oidc/authorization_service.go:309-336 | a request granted at once without a proof comes from a login not older than its max_age |
| MaxAge.EveryGrantRespectsMaxAge | backend/internal/oidc/authorization_service.go:209-291 | in every run, a grant of a request with max_age, resumed or not, rests on a proof used up in its binding or on a login of its user no older than max_age when the binding looked at it |
| AuthorizationService.Service.CompleteInteractionStep | backend/internal/oidc/authorization_service.go:584-640 | the whole step, including the in-memory switch and rollback on every error, leaves the tables exactly as the protocol's step function says |
| AuthorizationService.Service.ApplyInteractionStep | backend/internal/oidc/authorization_service.go:642-663 | each of the four steps changes the record, the consents and the proofs exactly as the protocol's function says |
| AuthorizationService.Service.AuthorizeAuthenticated | backend/internal/oidc/authorization_service.go:209-291 | the transaction grants or reports an interaction exactly as the protocol's function says, with the same authentication time, and restores every table on failure |
| AuthorizationService.Service.OpenAuthorize | backend/internal/oidc/authorization_service.go:109-162 | the part before the transaction checks, collapses resource errors, and stores a session only for an unknown user |
| AuthorizationService.Service.ResolveRequirements | backend/internal/oidc/authorization_service.go:309-365 | a resumed session's requirements win, prompt=none is refused, a proof is used up only when one is required and valid, and the authentication time is that of the proof, of the session's reauthentication, or of the caller's login, in this order |
| AuthorizationService.Service.SwitchUser | backend/internal/oidc/authorization_service.go:498-515 | the record is rewritten as the switch function says, keeping the account selection and forgetting the previous user's reauthentication |
| AuthorizationService.Service.AuthenticateUser | backend/internal/oidc/authorization_service.go:759-774 | authenticating binds the user and only ever adds requirements |
| AuthorizationService.Service.CompleteConsentStep | backend/internal/oidc/authorization_service.go:682-707 | binds, narrows, resolves and records in this order, and clears the flag only at the end |
| AuthorizationService.Service.CompleteReauthenticationStep | backend/internal/oidc/authorization_service.go:665-680 | the flag is cleared, and the token's creation time stored, exactly when an unexpired token of this user was used up |
| AuthorizationService.Service.ConsumeReauthenticationToken | backend/internal/webauthn/service.go:617-631 | a token is deleted, and its creation time returned, exactly when it is this user's and not expired |
| AuthorizationService.Service.GiveConsent | backend/internal/oidc/authorization_service.go:836-886 | the row becomes the merge of the old row and the new keys, and the result says whether all keys were there before |
| AuthorizationService.SessionRecord.NarrowScopes | backend/internal/oidc/authorization_service.go:740-757 | scopes and stored scope parameter are narrowed together or, on an unrequested scope, not at all |
| AuthorizationService.SessionRecord.BindUser | backend/internal/oidc/authorization_service.go:484-496 | only an unbound record takes a user; another user is refused |
| AuthorizationService.SessionRecord.RequiredInteractionSteps | backend/internal/oidc/interaction_session_dto.go:74-90 | the list built by appending is the specified order of required steps |
| AuthorizationService.NarrowApprovedScopes | backend/internal/oidc/authorization_service.go:715-736 | the two loops reject the first unrequested approval and otherwise keep the approved and required scopes in requested order |
| Consent.AuthorizedExactlyWhenConsented | backend/internal/oidc/authorization_service.go:888-911 | after any sequence of consents a request counts as authorized if and only if the pair consented before and every identity scope, permission of an audience, and audience of the request was consented to |
| Consent.RowsAreExact | backend/internal/oidc/authorization_service.go:836-886 | the stored row of a pair is everything consented to for it, each key once, in order of first consent |
| Consent.EncodingIsInjective | backend/internal/oidc/api_resource.go:106-137 | no two well-formed items share a stored key |
| Consent.KeysAreEncodings | backend/internal/oidc/api_resource.go:131-137 | the keys of a grant are exactly the encodings of its items |
| Consent.PermissionKeysAreEncodable | backend/internal/api/service.go:24-37 | every permission key the API tables can hold is non-empty, separator-free and no standard scope |
| Consent.MergeConsentScopes | backend/internal/oidc/authorization_service.go:916-935 | the two passes over one seen set compute the dedup of both lists |
| Consent.ConsentScopesInclude | backend/internal/oidc/authorization_service.go:903-911 | true exactly when every requested key is authorized |
| Consent.ConsentKeysForGrant | backend/internal/oidc/api_resource.go:116-137 | one key per scope in order, and the audience key exactly when a resource was named |
| Resource.ResolveResource | backend/internal/oidc/api_resource.go:45-94 | the loops return the audience and the dedup of the scopes, or the error of the first failing check, for both subject types |
| Resource.ResolutionMatchesTheAdminView | backend/internal/oidc/api_resource.go:45-94 | a named resource resolves if and only if the admin's view of an API with that audience shows access and every wanted scope is an identity scope or a listed permission's key |
| Resource.ResourceResolvesExactlyWhen | backend/internal/oidc/api_resource.go:45-94 | read from the tables: a target is invalid if and only if it is no URI or no API has its audience, access is missing if and only if the subject has no access row and no opt-in, and otherwise it resolves if and only if each requested scope is an identity scope or a permission the subject holds there or the opt-in flags; what is granted is what was requested, or everything for a client acting for itself that requests nothing |
| Resource.IdentityResolvesExactlyWhen | backend/internal/oidc/api_resource.go:45-94 | without a resource exactly the identity scopes can be granted, for the client itself |
| ApiLookup.LookUp | backend/internal/oidc/api_resource.go:61 | the lookup that resolving relies on is the runtime decision read from the tables |
| Resource.FirstUngrantable | backend/internal/oidc/api_resource.go:83-91 | no scope is rejected exactly when every scope is grantable |
| Resource.FewerScopesFewerKeys | backend/internal/oidc/api_resource.go:131-137 | a request for fewer scopes of the same resource needs no consent its original did not |
| Resource.NarrowedRequestResolves | backend/internal/oidc/api_resource.go:45-94 | a narrowed request resolves whenever its original does, to the same audience and its own scopes without duplicates |
| Resource.TrailingSlashesDoNotMatter | backend/internal/oidc/api_resource.go:58-59 | all spellings of a resource with more trailing slashes get the same audience |
| Resource.WideningCoversResolution | backend/internal/api/service.go:837-875 | whatever resolving grants was accepted by the widened scopes and audiences |
| Resource.ResolvedGrantsAreWellFormed | backend/internal/oidc/api_resource.go:106-110 | every grant resolved against valid tables meets the hypotheses of the injective encoding |
| Text.ScopesRoundTrip | backend/internal/oidc/authorization_service.go:751-754 | a scope list joined into the stored parameter is read back unchanged |
| Lists.DedupKeepsOrder | backend/internal/oidc/api_resource.go:83-91 | removing duplicates yields a subsequence, and changes nothing when there are none |
| DeviceAuthorization.EveryAcceptanceIsJustified | backend/internal/oidc/device_service.go:89-176 | over every interleaving of creations, loads, acceptances and revocations, a user code is accepted once at most, and every acceptance granted, as a set, exactly the approved part of what the device asked for, for the one audience of its resource, recorded a consent covering it, and used up a token that was issued to that user, before it expired, when the client demands one |
| DeviceAuthorization.AcceptedExactlyWhen | backend/internal/oidc/device_service.go:89-176 | a request is accepted if and only if it was pending when loaded, the user exists and is allowed, only requested scopes are approved and they resolve, a demanded proof is an unexpired one of this user, and both codes are still active and nobody accepted meanwhile |
| DeviceAuthorization.CreatedExactlyWhen | backend/internal/oidc/device_service.go:52-87 | a request is created if and only if all its scopes can be granted, with all of them granted; an unknown resource and one out of reach are answered alike |
| DeviceAuthorization.NarrowedRequestIsGenuine | backend/internal/oidc/device_service.go:180-201 | narrowing keeps requested and granted scopes the same set, in order, with openid |
| DeviceAuthorization.AcceptedPieces | backend/internal/oidc/store.go:667-725 | an acceptance succeeds only for an allowed user against an active, still unused stored code, whatever the caller had loaded |
| DeviceAuthorizationService.RequestRecord.NarrowScopes | backend/internal/oidc/device_service.go:180-201 | both lists are narrowed in place, or neither when a scope was not requested |
| DeviceAuthorizationService.RequestRecord.GrantResourceIndicator | backend/internal/oidc/api_resource.go:97-104 | each scope is granted once, and so is the audience, unless it is empty |
| DeviceAuthorizationService.Service.AcceptDeviceCode | backend/internal/oidc/device_service.go:89-176 | the whole acceptance does what the function says or rolls every table back |
| DeviceAuthorizationService.Service.StoreAcceptedRequest | backend/internal/oidc/store.go:667-725 | claims the user code by its stored state and then updates the device code |
| DeviceAuthorizationService.Service.CreateDeviceAuthorization | backend/internal/oidc/device_service.go:52-87 | a resolved request is stored under both codes with all its scopes and its audience granted; an unreachable resource is reported as an invalid target |
| ApiTables.EveryRunIsValid | backend/internal/api/service.go:1051-1109 | every sequence of operations keeps: a permission row implies the access row of its API for the same subject |
| ApiTables.StepKeepsValid | backend/internal/api/service.go:167-261 | each of the eight operations keeps the constraints and the implication |
| ApiViews.DeletePermissionsDropsExactly | backend/internal/api/service.go:1051-1109 | an access row is dropped if and only if the client held a deleted permission there for that subject and holds no surviving one |
| ApiViews.UpdatePermissionsIsExact | backend/internal/api/service.go:167-261 | the API ends with exactly the requested keys under the requested names; a retained key keeps its ID, opt-in flag and every grant, a new one is opted out and granted to nobody; other APIs keep everything |
| ApiViews.SetAccessReadsBack | backend/internal/api/service.go:701-750 | each subject holds exactly this API's permissions that were wanted for it and has access exactly when that was wanted or it holds any; a public client gets nothing for itself; the opt-in and every other pair are unchanged |
| ApiViews.DecisionExactlyWhen | backend/internal/api/service.go:878-935 | a subject reaches an API if and only if it has an access row or acts for a user of an opted-in client; a key is allowed if and only if the subject holds a permission with it there or that opt-in flags one |
| ApiChanges.SetCimdReadsBack | backend/internal/api/service.go:265-324 | after the opt-in is set, a client ID metadata document reaches the API for users if and only if it is on, with exactly the selected permissions; explicit grants and other APIs read as before |
| ApiChanges.SetCimdFlags | backend/internal/api/service.go:265-324 | each flag of this API's permissions says whether it was selected; every other column, row and API is unchanged |
| ApiChanges.CreateApiExactlyWhen | backend/internal/api/service.go:92-115 | an API is created if and only if its audience without trailing slashes is neither the issuer's nor taken; nobody reaches the new one and every other pair reads as before |
| ApiChanges.DeleteApiIsExact | backend/internal/api/service.go:143-163 | the API, its permissions and every row about them are gone, and no other pair changes |
| ApiChanges.RemoveAccessIsExact | backend/internal/api/service.go:753-789 | no explicit row of the pair is left, for either subject, and no other pair changes |
| ApiChanges.CheckInputsExactlyWhen | backend/internal/api/service.go:172-196 | a list of permissions is accepted if and only if all keys are unreserved scope tokens and distinct; otherwise the first input that is not decides the error |
| ApiViews.SetAccessIsIdempotentAndUndone | backend/internal/api/service.go:701-773 | repeating the call changes nothing and a later removal erases all of it |
| ApiViews.ListedAndAssignablePartition | backend/internal/api/service.go:631-697 | listed and assignable sides split all APIs of a client and all clients of an API |
| ApiViews.EveryRunPartitions | backend/internal/api/service.go:508-697 | the partition holds in every state reachable from empty tables |
| ApiViews.WideningIsExact | backend/internal/api/service.go:837-875 | widened scopes and audiences are the union of what the runtime decision allows over all APIs and both subjects |
| ApiViews.ListedIffReaches | backend/internal/api/service.go:343-455 | a pair is listed exactly when the client reaches the API, because a permission implies access |
| ApiService.Service.AllowedScopesForAudience | backend/internal/api/service.go:878-935 | access exactly when the admin's view shows it for the subject (or the opt-in for users), with the keys of the listed permission IDs, none twice; the same stated on the tables, with the opt-in for users only |
| ApiService.Service.ClientAPIScopesAndAudiences | backend/internal/api/service.go:837-875 | the lists hold exactly the widened scopes and audiences, none twice |
| ApiService.Service.ListClientAPIs | backend/internal/api/service.go:343-455 | exactly the listed APIs, each with its view |
| ApiService.Service.ListAPIClients | backend/internal/api/service.go:508-628 | exactly the listed clients, each with its view |
| ApiService.Service.ListAssignableAPIs | backend/internal/api/service.go:661-697 | exactly the APIs the client cannot reach |
| ApiService.Service.ListAssignableClients | backend/internal/api/service.go:631-658 | exactly the clients that cannot reach the API |
| ApiService.Service.ReplacePermissions | backend/internal/api/service.go:167-261 | for every order in which the maps are walked the result is the same; a rejected input changes nothing |
| ApiService.Service.DeletePermissionRows | backend/internal/api/service.go:1051-1109 | the statements leave exactly the specified rows |
| ApiService.Service.SetAPIClientAccess | backend/internal/api/service.go:701-750 | the tables are those of the specification, and the answer is the applied grant: per subject the wanted permissions of this API, with the access they imply |
| ApiService.Service.RemoveAPIClientAccess | backend/internal/api/service.go:753-789 | no row of the pair is left, no other row is touched |
| ApiService.Service.SetCimdAccess | backend/internal/api/service.go:265-324 | the opt-in flags are exactly the selected ones, on this API only |
| ApiService.Service.Delete | backend/internal/api/service.go:143-163 | the API, its permissions and all their grants are gone |
| ApiService.Service.Create | backend/internal/api/service.go:92-115 | an API is created exactly when its canonical audience is neither the issuer's nor in use |
| ApiService.Distinct | backend/internal/api/service.go:937-948 | the dedup of the list, in order of first occurrence |
| ApiService.IntersectIDs | backend/internal/api/service.go:800-812 | the available IDs that were requested, none twice |
| ApiService.CheckRequest | backend/internal/api/service.go:172-196 | the first rejected input decides the error |
| DeviceLogin.EveryRunIsSafe | backend/internal/devicelogin/service.go:158-233 | over all interleavings of creates, decisions, polls of possibly stale states, consumes and expiry, each request signs in one device at most, after an approval and before expiry, as exactly the user who approved it |
| DeviceLogin.EverySignInIsProven | backend/internal/devicelogin/service.go:137-156 | behind every sign-in stands a passkey proof that was issued to the approving user, at most a minute old when that user used it up and used up before the approval, and no proof serves two requests |
| DeviceLoginOutcomes.DeniedForEver | backend/internal/devicelogin/actor.go:213-239 | once a live pending request is denied, in every run after it no sign-in with its token is logged and no decision on it is accepted, and until it expires polls of the present state are answered with the denial |
| DeviceLoginOutcomes.CreatedExactlyWhen | backend/internal/devicelogin/actor.go:125-158 | a request is stored if and only if code and token are there and no live request has the code; it is pending for five minutes, to half a second |
| DeviceLoginOutcomes.PolledExactly | backend/internal/devicelogin/service.go:158-233 | a poll keeps waiting, goes on with the approver, or ends, exactly as the live request is pending, approved, or neither |
| DeviceLoginOutcomes.StrangersLearnNothing | backend/internal/devicelogin/actor.go:179-211 | only the device that holds the token of a live request is told anything |
| DeviceLogin.ProvesExactlyWhen | backend/internal/devicelogin/service.go:137-145 | a proof is used up if and only if it is the user's own and at most a minute old, and is gone afterwards |
| DeviceLogin.RunKeepsHistory | backend/internal/devicelogin/actor.go:213-239 | who approved a request, and when, is settled once |
| DeviceLogin.StepKeepsInv | backend/internal/devicelogin/actor.go:82-108 | every actor turn and service step keeps the invariant |
| DeviceLogin.ApprovalLeadsToSignIn | backend/internal/devicelogin/service.go:174-211 | a live pending request that a user with a proof approves signs that user in on the device |
| DeviceLoginService.Service.Exchange | backend/internal/devicelogin/service.go:158-233 | the long poll logs a session exactly when it reports one, for the approver, whatever ran in between |
| DeviceLoginService.Service.Redeem | backend/internal/devicelogin/service.go:183-211 | after loading the user, the consume decides alone whether a session is minted |
| DeviceLoginService.Service.CreateRequest | backend/internal/devicelogin/service.go:65-106 | within three attempts a pending request waits under one of the codes, or the device token was never used |
| DeviceLoginService.Service.Decide | backend/internal/devicelogin/service.go:137-156 | without a usable proof nothing happens; with one, an accepted approval is recorded for this user and this proof; a denial is stored exactly when the request is live and pending |
| DeviceLoginActor.RequestActor.Create | backend/internal/devicelogin/actor.go:125-158 | the turn stores a pending request exactly when no live one is there |
| DeviceLoginActor.RequestActor.Poll | backend/internal/devicelogin/actor.go:179-211 | a read-only answer by status, expiry and device token |
| DeviceLoginActor.RequestActor.Decide | backend/internal/devicelogin/actor.go:213-239 | only a live pending request is decided, once |
| DeviceLoginActor.RequestActor.Consume | backend/internal/devicelogin/actor.go:241-270 | an approved live request is deleted by the turn that reports it |
| DeviceLoginActor.RequestActor.Inspect | backend/internal/devicelogin/actor.go:160-177 | found exactly when live and pending |
| DeviceLoginActor.RequestActor.Persist | backend/internal/devicelogin/actor.go:291-304 | a state whose time is up is not stored |
| EmailVerification.EveryTokenWorksOnce | backend/internal/emailverification/service.go:154-217 | over every interleaving of issues, two-phase verifications, failures, restores, discards and cancellations, each token is in one place at most and causes one update at most, which leaves the row verified with the address the token was mailed to |
| EmailVerification.UpdateWritesOneRow | backend/internal/emailverification/service.go:175-209 | an applied update changes this user's row only, and only while it still holds the expected address |
| EmailVerification.VerifySucceedsExactlyWhen | backend/internal/emailverification/service.go:154-217 | an undisturbed verification succeeds if and only if the token is live, the row still matches and the address is free |
| EmailVerification.RequestedChangeIsApplied | backend/internal/emailverification/service.go:78-88 | an account with address a that asks for b and opens the link undisturbed ends up verified with b if and only if it does so within a day and b is free; otherwise nothing changes |
| EmailVerification.SentLinkVerifies | backend/internal/emailverification/service.go:64-74 | an account that asks to verify its address and opens the link undisturbed within a day is verified with this address |
| EmailVerification.ChangeFromAnEmptyAddress | backend/internal/emailverification/service.go:175-209 | with an empty stored address the link of a change is applied if and only if it is opened within a day and the new address is empty too, because the address replaced is what marks a change |
| EmailVerification.RequestChangeIssues | backend/internal/emailverification/service.go:123-152 | a request for a new address leaves one live link, mailed to the new address and bound to the old one, for a day |
| EmailVerification.SendIssues | backend/internal/emailverification/service.go:123-152 | a request to verify leaves one live link, mailed to the current address, for a day |
| EmailVerification.DiscardAndRestoreExactly | backend/internal/emailverification/actor.go:146-204 | discarding drops this very token only; a token handed back is live again if and only if it has not expired and no other is live |
| EmailVerification.CancelDropsChangesOnly | backend/internal/emailverification/actor.go:170-185 | cancelling drops a pending change and leaves a plain verification alone |
| EmailVerification.NewestStaysAloneExactlyWhen | backend/internal/emailverification/service.go:121-123 | a step keeps the claim that only the newest link works if and only if it does not restore an older token into an empty actor |
| EmailVerification.AnOlderTokenCanWorkAgain | backend/internal/emailverification/service.go:229-237 | a run in which an older link works after a newer one was issued |
| EmailVerification.CancelKillsUnheldChange | backend/internal/emailverification/actor.go:170-185 | cancelling kills the link of a pending change for good if and only if no verification holds its token at that moment |
| EmailVerification.DeadForEver | backend/internal/emailverification/actor.go:146-168 | a superseded, discarded, cancelled, expired or lost token never works again |
| EmailVerification.RunKeepsEmailsUnique | backend/internal/emailverification/service.go:175-209 | verifying changes never give two users one address |
| EmailVerification.StepKeepsInv | backend/internal/emailverification/actor.go:70-85 | each step keeps every token in one place and revives no dead one |
| EmailVerificationService.Service.Verify | backend/internal/emailverification/service.go:154-217 | success means this call logged the token's one update; after a database failure the token is back unless it expired or another is live |
| EmailVerificationService.Service.UpdateHeld | backend/internal/emailverification/service.go:175-209 | the conditional update either writes the mailed address or changes nothing |
| EmailVerificationService.Service.HandBack | backend/internal/emailverification/service.go:229-237 | restoring never applies the token and never overwrites a live one |
| EmailVerificationService.Service.Issue | backend/internal/emailverification/service.go:123-152 | a link that is sent is mailed to the new address, or to the current one, and bound accordingly; a mail failure leaves the actor without this token |
| EmailVerificationActor.VerificationActor.Issue | backend/internal/emailverification/actor.go:109-116 | the newest unexpired state replaces whatever was there |
| EmailVerificationActor.VerificationActor.Consume | backend/internal/emailverification/actor.go:118-144 | the caller alone holds the token afterwards |
| EmailVerificationActor.VerificationActor.Discard | backend/internal/emailverification/actor.go:146-168 | only this very token is deleted |
| EmailVerificationActor.VerificationActor.CancelChange | backend/internal/emailverification/actor.go:170-185 | no pending change is left, a plain verification stays |
| EmailVerificationActor.VerificationActor.Restore | backend/internal/emailverification/actor.go:187-204 | a live token is never overwritten |
| EmailVerificationActor.VerificationActor.SetState | backend/internal/emailverification/actor.go:206-218 | a state whose time is up is not stored |
| EmailVerificationActor.VerificationActor.PendingChange | backend/internal/emailverification/service.go:91-110 | a change is pending exactly while an unexpired token would replace the address |
| LdapGroups.GroupsMatchDirectory | backend/internal/ldapsync/service.go:443-532 | with distinct IDs each desired group exists under its name, in the row that had its ID, and a user is a member if and only if the directory manages the user and the entry lists the name in the user's row; absent LDAP groups are gone, other groups are untouched, and the reported users are exactly those who lost a membership |
| LdapGroups.SyncGroupsFailExactlyWhen | backend/internal/ldapsync/service.go:480-498 | the group part fails if and only if some entry, at its turn, finds its name at a group with another ID |
| LdapGroups.ClientsLoseGoneGroups | backend/internal/ldapsync/service.go:507-529 | no user and no authorization changes, and a client's restriction loses exactly the groups that are gone |
| LdapGroups.ReportedExactlyWhen | backend/internal/ldapsync/service.go:466-541 | for any directory, repeated IDs allowed: a user is reported if and only if some entry of one of the user's groups leaves the user out, or one of these groups is gone |
| LdapGroups.LostExactlyWhen | backend/internal/ldapsync/service.go:443-532 | for any directory: a membership is lost if and only if the last entry of its group leaves the user out, or the group is gone |
| LdapGroups.ReportIsExactExactlyWhen | backend/internal/ldapsync/service.go:466-541 | the report names exactly those who lost a membership if and only if everybody some entry leaves out is also left out by the last entry of one of their groups, or is in a group that is gone |
| LdapGroups.EveryLostMembershipIsReported | backend/internal/ldapsync/service.go:466-541 | no lost membership goes unreported, even when IDs repeat |
| LdapGroups.ReportedUsersLostMembership | backend/internal/ldapsync/service.go:466-541 | distinct IDs meet that condition: then the reported users are those who lost a membership |
| LdapGroups.RepeatedIDsCanOverreport | backend/internal/ldapsync/service.go:466-541 | a directory that repeats an ID and fails the condition: a user who loses nothing is reported |
| LdapGroups.ReconcileGroupsKeepsConstraints | backend/internal/ldapsync/service.go:443-532 | reconciling groups keeps names, IDs and references sound |
| LdapUsers.PresentUsersAreSafe | backend/internal/ldapsync/service.go:577-698 | a user whose LDAP ID is in the directory is never disabled or deleted and loses nothing, even when the entry is invalid; local users do not change at all |
| LdapUsers.DesiredUserIsEnabled | backend/internal/ldapsync/service.go:588-634 | the row of a present valid entry ends enabled, even when its new name or address is taken |
| LdapUsers.TheLastEntryDecides | backend/internal/ldapsync/service.go:588-634 | the last entry with a row's ID decides it: the row gets name, address and admin flag if and only if nobody else has the name or the address at that turn, and is only enabled otherwise |
| LdapUsers.EntryWritesItsRow | backend/internal/ldapsync/service.go:588-634 | one entry writes or creates exactly its row, under that condition, and no other row |
| LdapUsers.NewEntryIsCreatedExactlyWhen | backend/internal/ldapsync/service.go:588-634 | an ID without a row ends with an enabled user if and only if one of its entries finds its name and address free at its turn |
| LdapUsers.GoneUsersAreDeprovisioned | backend/internal/ldapsync/service.go:656-698 | a user gone from the directory is disabled, or deleted with all memberships and authorizations, as configured |
| LdapUsers.NotificationsEqualDisablings | backend/internal/ldapsync/service.go:577-698 | over any run of soft-delete syncs and other changes, the notifications prepared for a user equal that user's enabled-to-disabled transitions, and are none while back-channel logout is off |
| LdapUsers.ReconcileUsersKeepsConstraints | backend/internal/ldapsync/service.go:577-688 | reconciling users keeps names, IDs and references sound |
| Backchannel.EveryEndedSessionIsNotified | backend/internal/ldapsync/service.go:115-185 | every authorized pair with a logout URL that could be used before a sync and cannot be used after it is notified |
| Backchannel.EveryTargetHasCause | backend/internal/ldapsync/service.go:115-185 | for any directory: a client is notified of a user if and only if notifications are on and either the user was deprovisioned by this sync, or fails the client's group restriction now and was removed from a group by an entry or with the group |
| Backchannel.TargetLostMembershipExactlyWhen | backend/internal/ldapsync/service.go:115-185 | a user who stays loses a membership in a sync if and only if the last entry of one of the user's groups leaves the user out, or the group is gone |
| Backchannel.LostGroupAccessIsTargeted | backend/internal/ldapsync/service.go:443-532 | a pair that had group access before and lacks it after is among the lost-access targets |
| Backchannel.LostAccessTargetsExactly | backend/internal/backchannellogout/service.go:137-159 | the targets are exactly the authorized pairs with a logout URL that match the filter and fail the group restriction |
| Backchannel.IsUserGroupAllowed | backend/internal/oidc/authorization_service.go:938-952 | allowed exactly when unrestricted or a group is shared |
| LdapService.ApplyAdminGroupMembership | backend/internal/ldapsync/service.go:213-233 | in the array, exactly the users named by the admin group gain the flag; nobody loses it |
| LdapService.Sync.UpsertUsers | backend/internal/ldapsync/service.go:588-634 | the loop leaves exactly the specified rows, skipping entries already in use |
| LdapService.Sync.DeprovisionUsers | backend/internal/ldapsync/service.go:656-685 | the loop disables or deletes exactly the absent LDAP users |
| LdapService.Sync.ReconcileUserTable | backend/internal/ldapsync/service.go:577-688 | the user table is reconciled as specified and the targets are those of the deprovisioned users |
| LdapService.Sync.UpsertGroups | backend/internal/ldapsync/service.go:466-505 | groups, members and removed users are those of the specification, or the sync fails on a name in use |
| LdapService.Sync.DeleteGoneGroups | backend/internal/ldapsync/service.go:507-529 | exactly the absent LDAP groups are deleted with their members |
| LdapService.Sync.ReconcileGroupTable | backend/internal/ldapsync/service.go:443-532 | the group table is reconciled as specified, with every removed member reported |
| LdapService.Sync.SyncAllTables | backend/internal/ldapsync/service.go:115-185 | one transaction: all of it and the targets, or nothing |
| LdapService.CollectRemovedMembers | backend/internal/ldapsync/service.go:535-541 | adds exactly the previous members that are not current ones |

## Left out

- HTTP handlers, cookies, CSP, CORS, DTO mapping, logging, tracing and metrics: plumbing around the calls modelled here.
- The fosite, WebAuthn, LDAP, JWT, MaxMind and actor libraries: an authorize request is its parameters and its caller, a valid resource URI is a predicate, and the way a scope is granted once is taken from the library's documented behaviour. Their code is not part of this model.
- Token minting, ID-token claims and request times, and the authentication time of the device flow: the interaction protocol models authentication times up to the session a grant is made with.
- LdapService.Sync.UpsertUsers: does not model the abort of a sync on a user without an address (`MissingField`), because entries without a required address are dropped while they are fetched (backend/internal/ldapsync/service.go:381-385) and never reach the loop.
- A resumed authorize request that also carries a body with parameters of its own: resumed requests are rebuilt from the stored parameters.
- Requests that name several resources, and infrastructure errors of the database inside the interaction protocol: they end a call without a change.
- Audit events, IP addresses and the flag that a client supports PKCE: written, never read by the flows modelled here.
- Deletion of clients and revocation of consents while interactions are pending: the consent theorems are about runs without them.
- Display information of permissions, names, descriptions, timestamps, search, sorting and pagination: list views are maps and sets, and which page is shown does not matter to what they hold.
- SQL text and collation: tables are maps and sets, foreign keys are cascades, unique columns are checks; whether the database folds case when it compares user names is a parameter of the LDAP model.
- Fetching and normalising LDAP entries, profile pictures and file deletion after the commit: library and I/O behaviour.
- Delivery of back-channel logout tokens over HTTP: the model ends with the set of clients to notify.
- Hashes, random tokens and user codes: fresh opaque values. Normalisation of typed user codes is not part of this model.
- Several clock readings within one actor turn or one call: each turn reads the clock once.
- Actor calls that fail for infrastructure reasons in the device-login service: they end the call like a refusal.
- IsUserGroupAllowed: allowed groups and group memberships are read as lists of IDs, without the rows behind them.
