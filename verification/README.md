# Verified models of OLP

OLP (OpenLLMProxy) keeps its management authority in a database, talks to plugins
over a byte stream, and serves connections from a bounded listener. What these
parts promise holds only because many handlers and goroutines cooperate. This
project models them in Dafny and proves those promises for every input, every
reachable state and every interleaving. `dafny verify dfyconfig.toml` checks it.

How to read it:

- **Access kernel.** Almost every handler of `internal/access` first locks the one
  installation row, so a handler's transaction is one step on the tables. A step
  is a function from tables to tables and a reply (`Mfa`, `OidcFlows`, `SamlFlows`,
  `Authority`, `Keys`), and a run is any sequence of requests. Refused steps leave
  the tables as they were; the failures that commit in the source (a wrong second
  factor, a verified loss of authority) commit here. Flows that span several
  transactions keep what their goroutines hold between them in the state. Classes
  named `Server` run the same transactions statement by statement and are proved
  equal to the step functions.
- **Answers and histories.** What these steps mean is told on the rows, without
  naming the steps: exactly when each handler accepts and what it then writes
  (`MfaAnswers`, `AuthorityAnswers`, `Grants`, `PolicyAnswers`), where every
  standing, session and identity comes from (`Standings`, `AuthoritySessions`,
  `Identities`), and which earlier requests of a run every outcome goes back to
  (`OidcHistory`, `SamlHistory`, `MfaAnswers`). `StdioRecord` does the same for
  the frames of the plugin protocol.
- **Concurrency.** The listener (`Listener`), the plugin multiplexer (`Stdio`) and
  the installation lock itself (`Route`) are state machines over the atomic steps
  of their goroutines; a run is an arbitrary interleaving. Their classes are the
  critical sections under the mutex.
- **Algorithms.** `Carry`, `RoleMapping`, `Admission`, `Continuation`,
  `Pagination`, `Policy`, `CodePool` and `Transport` hold the loops, each proved
  against a specification about which the promises are then proved.
- **Identifiers.** Ids, entity tags, revisions and tokens are drawn from one
  growing supply, so a new one is new and one below the supply has been used. A
  digest is its preimage. One clock never runs backwards.

Results that differ from what one might expect:

- The clock alone can remove the last usable owner: the owner search trusts SAML
  metadata and certificates only while they are in date
  (`UsableOwners.WaitingKeepsOwnerExactlyWhenInDate`). So can a provider that stops
  mapping the last owner to that role
  (`UsableOwners.ProviderKeepsOwnerExactlyWhenSpared`). Nothing else can
  (`UsableOwners.OwnerStaysExactlyInCalmRuns`).
- Unlinking an OIDC identity treats a SAML-managed account as managed by hand, and
  unlinking a SAML identity treats an OIDC-managed one so; the latter also counts
  another SAML identity as a way to sign in when the metadata is out of date
  (`SignInPaths.UnlinkOidcKeepsAPathExactlyWhen`,
  `SignInPaths.UnlinkSamlKeepsAPathExactlyWhen`).
- The listener's own goroutine closes an open socket in two cases: its server was
  shut down before it accepted the socket, and in the race between a hijack and its
  hook (`Listener.OwnCloseHitsOpenSocketExactlyWhen`); the bound on open sockets
  and the meaning of a nil Shutdown survive both.
- An OIDC login checks only that the account is active, so an account not managed
  by OIDC and not authorized can be given a session; that session is minted under
  the account's present standing and authenticates nothing
  (`SignInPaths.DeadSessionExactlyWhenUnheeded`).
- A cancellation reaches its call exactly until another request with its id comes
  in or a call with its id unregisters
  (`Stdio.CancelReachesExactlyTheUndisturbed`). A peer that reuses an id in flight
  therefore loses the cancellation of the older call at once, and that of the newer
  call when the older one is done.

## Model

| member | source | states |
|---|---|---|
| `Listener.OpenSocketsAreBounded` | cmd/olp/listener.go:85-141 | In every run, an admitted socket whose tracked Close has not begun is among the admitted connections, and these never exceed the limit, in or out of the hijack race |
| `Listener.ShutdownNilMeansDrained` | cmd/olp/listener.go:145-178 | A nil result of any Shutdown call means no admitted connection remains and none is ever added, whatever runs later |
| `Listener.ShutdownReturnsOnlyWithSocketsClosed` | cmd/olp/listener.go:156-177 | When any Shutdown call returns, with or without an error, every socket ever admitted has begun to close and stays so |
| `Listener.OwnCloseHitsOpenSocketExactlyWhen` | cmd/olp/listener.go:123-137 | In every run, a goroutine that loads the flag while its socket is open can go on to close that open socket if and only if the server never accepted the socket, or a handler took it over and the hook had not stored the flag |
| `Listener.EveryOwnCloseHasItsReason` | cmd/olp/listener.go:123-137 | Every run in which the goroutine is about to close an open socket holds the earlier load, made when the socket was unaccepted or in the hijack race |
| `Listener.UnservedSocketIsReachable` | cmd/olp/listener.go:113-137 | The first reason is reachable: a Shutdown call stops the server before the goroutine reaches Serve, which then accepts nothing |
| `Listener.HijackRaceIsReachable` | cmd/olp/listener.go:101-137 | The second is reachable: a Shutdown call between the untracking and the hook makes the goroutine close the hijacked socket |
| `Listener.StepKeepsInv` | cmd/olp/listener.go:113-141 | Every atomic step of accept loop, connection goroutine and shutdown worker keeps slots, sockets and drains in agreement |
| `Listener.RunKeepsInv` | cmd/olp/listener.go:55-178 | So does every interleaving; a closed listener admits nothing, a begun Close stays begun, a finished goroutine stays finished |
| `Listener.LimitIsFixed` | cmd/olp/listener.go:86-90 | No run changes the admission limit |
| `Listener.Server.Serve` | cmd/olp/listener.go:55-64 | Starting on a closed server is refused, otherwise the table of connections starts empty |
| `Listener.Server.Admit` | cmd/olp/listener.go:85-112 | A connection is admitted exactly when the server is open and below its limit, and is then in the table |
| `Listener.Server.Release` | cmd/olp/listener.go:138-140 | The connection leaves the table and nothing else changes |
| `Listener.Server.BeginShutdown` | cmd/olp/listener.go:145-155 | No admission can follow, and the snapshot lists every admitted connection once |
| `Stdio.ReaderNeverBlocks` | plugin/stdio.go:85-92 | In every run the reader's send of a response finds room in the channel |
| `Stdio.HostCallGetsOnlyItsReply` | plugin/stdio.go:155-183 | Every host call is handed at most one response, only one with its own id, and has no entry left once it returned, even when ids wrap at 64 bits |
| `Stdio.ReplyFindsItsHostCall` | plugin/stdio.go:85-92 | While fewer than 2^64 host calls were made, a response for a call that still waits is handed to that call |
| `Stdio.CallWritesPartsThenOneResponse` | plugin/stdio.go:103-150 | What a call writes is parts only while it is in flight, and parts then exactly one response, nothing after it, once answered, all under its id, on return, panic or cancellation; what these frames carry is stated by StdioRecord.ResponseCarriesTheResult and StdioRecord.FramesCarryWhatWasSent |
| `Stdio.FramesOfAnIdNeverInterleave` | plugin/stdio.go:78-84 | If no id in flight is reused, frames of one id never mix two calls, and none of a call's frames follows its response |
| `Stdio.CancelReachesExactlyTheUndisturbed` | plugin/stdio.go:79-107 | In every run, whatever ids the peer reuses, a cancel frame cancels a call not cancelled yet if and only if no further request with its id came in and no call with its id unregistered since the call was made; it then cancels no other call |
| `Stdio.CancelReachesItsCall` | plugin/stdio.go:93-99 | When the peer reuses no id in flight, a cancellation of a running call reaches that call and no other |
| `Stdio.ReusedIdLosesTheCancel` | plugin/stdio.go:79-99 | Reusing an id in flight overwrites the entry, so the older call runs on and no cancellation reaches it |
| `Stdio.ReusedIdLosesTheNewerCancelToo` | plugin/stdio.go:79-107 | Once the older call unregisters, the newer one runs on without its entry and no cancellation reaches it either |
| `StdioRecord.ResponseCarriesTheResult` | plugin/stdio.go:103-116 | In every run a call has one handler result, and the response it writes carries that result, or the size error exactly when its frame is 1 MiB or more |
| `StdioRecord.ResponseFollowsItsHandler` | plugin/stdio.go:103-112 | Every response written follows the return of its call's handler |
| `StdioRecord.FramesCarryWhatWasSent` | plugin/stdio.go:126-171 | In every run the parts a call wrote are exactly those it sent, in order, the host requests written carry the ids of the host calls begun modulo 2^64, in order, and every call has the id of its request |
| `StdioRecord.RepliesCameFromThePeer` | plugin/stdio.go:85-99 | Every reply a host call returns came in a response frame, and every cancelled call had a cancel frame with its id |
| `Stdio.StepKeepsHosts` | plugin/stdio.go:85-92 | Every step keeps pending requests, channels and the reader in agreement |
| `Stdio.Session.constructor` | plugin/stdio.go:51 | A session starts with no running call and no pending request |
| `Stdio.Session.Register` | plugin/stdio.go:80-83 | The call's cancel function is stored under its id |
| `Stdio.Session.Take` | plugin/stdio.go:86-89 | The channel waiting for the id is returned and its entry removed, so it is returned once |
| `Stdio.Session.Cancel` | plugin/stdio.go:93-99 | A cancel frame cancels the context of the call registered under its id and no other: fields that show a state of the machine show the state after its cancel step |
| `Stdio.Session.Unregister` | plugin/stdio.go:105-107 | The entry of the id is removed |
| `Stdio.Session.BeginHostCall` | plugin/stdio.go:161-166 | The next id modulo 2^64 is taken and the channel stored under it |
| `Stdio.Session.Forget` | plugin/stdio.go:167-171 | The pending request is removed |
| `Carry.Carry` | plugin/plugin.go:310-334 | The parts sent are the head and then one part per non-empty read, up to the first that fails; nothing is sent exactly when the head is refused, and the outcome tells a failed send, a failed read and a finished body apart |
| `Carry.FinishedCarryIsComplete` | plugin/plugin.go:310-334 | A carried response that finished is its head followed by non-empty body parts whose concatenation is exactly the bytes read |
| `Carry.CarriedBytes` | plugin/plugin.go:320-327 | Putting the sent parts together gives back the bytes read, by induction over the reads |
| `Carry.BodyPartFits` | plugin/plugin.go:291-293 | A 64 KiB part in base64 (section 4 of RFC 4648) within its JSON frame, under any 64-bit id, is below an eighth of the 1 MiB frame |
| `Carry.SendBody` | plugin/stdio.go:138-149 | Sending a body part fails only when the write fails, never for its size |
| `MfaRuns.EveryRunKeepsLimits` | internal/access/mfa_verify.go:223-255 | In every reachable state a user has at most one TOTP factor, ten factors, eight challenges and twenty sessions |
| `MfaRuns.AcceptedTotpIsTheFirst` | internal/access/mfa_manage.go:116-123 | An accepted TOTP enrolment finds the user without a TOTP factor, although only the start of the enrolment looked for one |
| `MfaSteps.EnrolmentIsAddable` | internal/access/mfa_verify.go:240-255 | A challenge with the user's present MFA revision may still add its factor: the facts it was issued on still hold, and its secret belongs to nothing else |
| `MfaAnswers.AcceptedExactlyWhen` | internal/access/mfa_verify.go:24-171 | In every reachable state a proof is accepted if and only if the challenge can be loaded, the proof is one that only its user can give (a newer code of their own TOTP factor or of the secret being enrolled, a passkey of theirs, an unused code of theirs), and an enrolment finds fewer than ten factors; a wrong proof is the failure that counts |
| `MfaAnswers.AcceptedProofMeans` | internal/access/mfa_verify.go:24-195 | Acceptance uses up the challenge, and of codes and counters exactly the one presented; a login mints one verified local session, of the challenge's own user, and every other user's sessions stay |
| `MfaAnswers.AcceptedEnrolmentMeans` | internal/access/mfa_verify.go:197-271 | Acceptance of an enrolment adds exactly one factor of the kind asked for to the challenge's own user, gives ten new recovery codes exactly with the first, and mints that user a verified session |
| `MfaAnswers.AcceptanceHasItsHistory` | internal/access/mfa_state.go:114-155 | Every acceptance in a run goes back to the request that issued its challenge, less than 300 seconds before, to the same user under the same entity tag and MFA revision, and presented by the same session if it was issued to one; a login goes back to a password sign-in, a grant to a request of its session, a factor to the start of an enrolment |
| `MfaAnswers.SignInAnswersExactly` | internal/access/mfa_state.go:195-211 | A password mints a session, always that user's and unverified, if and only if local sign-in is on, the user may sign in, MFA is not required and they have no factor, and leads to a challenge exactly in the other cases that can be answered |
| `MfaAnswers.SessionChallengeIssuedExactlyWhen` | internal/access/mfa_manage.go:36-60 | A session is given a challenge if and only if it authenticates, its user has a factor and some method is left to answer with |
| `MfaAnswers.EnrolmentBeginsExactlyWhen` | internal/access/mfa_manage.go:67-175 | An enrolment starts if and only if the caller is a recently confirmed session or a bootstrap challenge of a user without factors, there is room for a factor, and no second TOTP factor is asked for |
| `MfaAnswers.RemovalMeans` | internal/access/mfa_manage.go:177-232 | A factor is removed if and only if it is the caller's own, the revision matches, identity was confirmed and required MFA keeps another; recovery codes go exactly with the last factor, and only that user's |
| `MfaAnswers.RenewalMeans` | internal/access/mfa_manage.go:242-272 | Recovery codes are renewed if and only if the same holds and the caller has a factor; the caller then has exactly ten, all new, and everybody else has what they had |
| `MfaAnswers.RecoveryMeans` | internal/access/recovery.go:32-76 | A recovery succeeds exactly for an active account, ends that account's sessions and no others, and clears its factors, codes and challenges exactly when told to reset |
| `MfaRuns.EveryRunKeepsFactorsBehindProofs` | internal/access/mfa_manage.go:193-227 | In every reachable state recovery codes and verified local sessions belong to users with a factor, and every factor's sealed secret can be read, whatever was swept |
| `MfaRuns.AcceptedAtMostOnce` | internal/access/mfa_verify.go:24-53 | Each challenge, each recovery code and each time step of a TOTP secret (section 5.2 of RFC 6238) is accepted at most once in a run |
| `MfaRuns.SpentIsNeverAccepted` | internal/access/mfa_verify.go:175-177 | Once used up, none of these is ever accepted again, whatever happens in between |
| `MfaRuns.AtMostFiveFailures` | internal/access/mfa_verify.go:89-100 | A challenge counts at most five failures over a whole run |
| `MfaRuns.FailuresUseRemaining` | internal/access/mfa_state.go:132 | The failures of a run are bounded by what the challenge has left |
| `MfaRuns.EnrolmentLeavesOneSession` | internal/access/mfa_verify.go:197-209 | After an enrolment from a session, the new verified session is the user's only one |
| `MfaRuns.RemovalLeavesOneSession` | internal/access/mfa_manage.go:225-227 | After a removal, the session that asked is the user's only one |
| `MfaRuns.ChangeRetiresChallenges` | internal/access/mfa_state.go:132 | Once a user's factors or recovery codes changed, by enrolment, removal, renewal or reset, no challenge issued to them before can be answered by anyone in any later state of any run |
| `MfaRuns.StepGrows` | internal/access/mfa_state.go:132 | No request takes a user's MFA revision back |
| `MfaRuns.EnrolmentSucceeds` | internal/access/mfa_manage.go:105-175 | From every state, a session that confirmed its identity and has room for a TOTP factor can enrol one with the new secret's present code |
| `MfaRuns.StepFollows` | internal/access/mfa_verify.go:24-210 | No request brings back an identifier, lowers an attempt count or a TOTP counter, or makes a factor out of anything but a pending enrolment or a new identifier |
| `MfaSteps.StepKeepsInv` | internal/access/mfa_verify.go:102-221 | Every request keeps the invariant of the MFA tables |
| `MfaSteps.VerifyKeepsInv` | internal/access/mfa_verify.go:102-221 | In particular mfaVerify, on success, on refusal and on the failure that commits |
| `MfaSteps.RemoveKeepsInv` | internal/access/mfa_manage.go:177-232 | In particular mfaRemove, whether or not the factor is the last |
| `MfaSteps.RecoverKeepsInv` | internal/access/recovery.go:41-76 | In particular RecoverPassword, with and without the MFA reset |
| `MfaInvariants.StoreFlowKeepsInv` | internal/access/mfa_state.go:114-125 | Issuing a challenge prunes first, so no user exceeds eight, and never deletes a factor's secret |
| `MfaInvariants.AddFactorKeepsInv` | internal/access/mfa_verify.go:240-255 | Adding a factor under a fresh revision keeps the limits and outdates every challenge of the user |
| `MfaServer.Server.ReplaceRecoveryCodes` | internal/access/mfa_state.go:213-230 | The user's codes become exactly ten new ones, other users' codes stay |
| `MfaServer.Server.InsertCodes` | internal/access/mfa_state.go:217-229 | The loop inserts exactly the codes it returns |
| `MfaServer.Server.StoreMfaFlow` | internal/access/mfa_state.go:114-125 | Expired and surplus challenges and their unused secrets go, the new challenge is bound to the user's entity tag and revision, and at most eight challenges of the user and no expired one remain |
| `MfaServer.Server.MintSession` | internal/access/sessions.go:36-51 | The oldest sessions beyond nineteen go and one is added, so the user has at most twenty |
| `MfaServer.Server.MfaChallenge` | internal/access/mfa_state.go:157-193 | A challenge is issued unless no method is left to answer it |
| `MfaServer.Server.SignInLocally` | internal/access/mfa_state.go:195-211 | A password sign-in becomes a challenge, an enrolment or a session, as factors and policy say; the invariant holds after |
| `MfaServer.Server.BeginMfaEnrollment` | internal/access/mfa_manage.go:67-175 | The enrolment's tables and reply, for a bootstrap challenge and for a session, with every refusal; the invariant holds after |
| `MfaServer.Server.ActivateMfa` | internal/access/mfa_verify.go:223-271 | The factor, its kept secret, the fresh revision and, for a first factor, the codes |
| `MfaServer.Server.MfaVerify` | internal/access/mfa_verify.go:102-221 | The tables and reply of every verification are those that MfaAnswers.AcceptedExactlyWhen, AcceptedProofMeans and AcceptedEnrolmentMeans describe, the invariant holding after |
| `MfaServer.Server.MfaRemove` | internal/access/mfa_manage.go:177-232 | The tables and reply of every removal, the invariant holding after |
| `MfaServer.Server.MfaRecovery` | internal/access/mfa_manage.go:242-272 | The tables and reply of every rotation of recovery codes, the invariant holding after |
| `MfaServer.Server.RecoverPassword` | internal/access/recovery.go:32-76 | The tables and reply of every recovery, the invariant holding after |
| `MfaServer.Server.CollectSecrets` | internal/access/recovery.go:52-68 | The loop collects exactly the secrets of the user's factors and pending enrolments |
| `OidcFlows.ConsumedAtMostOnce` | internal/access/oidc.go:394-436 | Under every interleaving of begins, callbacks, configuration changes and sweeps, a flow is consumed at most once |
| `OidcFlows.AtMostOneOutcome` | internal/access/oidc.go:521-661 | and produces at most one session, link, grant or committed denial |
| `OidcFlows.OutcomeUnderOneConfiguration` | internal/access/oidc.go:526-532 | An outcome is committed only if the configuration was the same, and enabled, in every state from the flow's begin on |
| `OidcFlows.UndisturbedFlowIsAccepted` | internal/access/oidc.go:285-436 | From every state with an enabled configuration, a flow that nothing disturbs ends in the outcome it was begun for |
| `OidcHistory.ConsumedExactlyWhen` | internal/access/oidc.go:376-436 | After any run, any begin and any run between, a callback consumes the flow if and only if it brings the cookie that begin gave out, less than 600 seconds later, and meanwhile no configuration was stored, the flow was not consumed and not swept |
| `OidcHistory.FinishedExactlyWhen` | internal/access/oidc.go:521-661 | A callback that consumed its flow commits the outcome it was begun for, or the denial, if and only if the provider's answer is no error, it has not ended, and no configuration was stored in between |
| `OidcHistory.BegunExactlyWhen` | internal/access/oidc.go:285-376 | A flow that read an enabled configuration is stored if and only if none was stored since and it was not stored already |
| `OidcHistory.OutcomeHasItsHistory` | internal/access/oidc.go:396-416 | Every session, link, grant or denial in a run goes back, through its consumption with that cookie within 600 seconds, to the begin that gave the cookie out, and is of the kind begun |
| `OidcFlows.StepKeepsInv` | internal/access/oidc.go:396-436 | Every transaction keeps flows under the present configuration and callbacks on distinct consumed flows |
| `OidcFlows.Server.PutConfiguration` | internal/access/oidc.go:224-265 | A configuration change draws a fresh entity tag and deletes every flow |
| `OidcFlows.Server.BeginFlow` | internal/access/oidc.go:323-376 | A flow is stored only under the configuration that was read, still in place inside the transaction |
| `OidcFlows.Server.ConsumeFlow` | internal/access/oidc.go:396-436 | The tables and reply of every callback: the flow is gone with the commit, and is consumed exactly when OidcHistory.ConsumedExactlyWhen says so |
| `OidcFlows.Server.FinishCallback` | internal/access/oidc.go:521-578 | The callback commits an outcome only if the configuration it consumed under is still in place; a denial commits, an error does not |
| `SamlFlows.ReceivedAtMostOnce` | internal/access/saml_flow.go:231-274 | However flows, posts, configuration changes and sweeps interleave, at most one assertion is received in answer to a request |
| `SamlFlows.AssertionAcceptedAtMostOnce` | internal/access/saml_flow.go:238-264 | Each assertion is accepted at most once in a whole run, even after its replay row was swept (section 4.1.4.5 of SAML 2.0 Profiles) |
| `SamlFlows.AcceptedIdIsBlocked` | internal/access/saml_flow.go:238-248 | From acceptance until its conditions end, no assertion of the same issuer and id is received, not even for another request |
| `SamlFlows.AtMostOneOutcome` | internal/access/saml_flow.go:299-319 | A flow produces at most one session, link, grant or committed denial |
| `SamlFlows.OutcomeWithinAssertion` | internal/access/saml_flow.go:249-263 | An outcome follows the reception of an assertion for the flow's own request, and precedes every end that assertion carries |
| `SamlFlows.OutcomeUnderOneConfiguration` | internal/access/saml_flow.go:292-298 | An outcome is committed only if the configuration was the same, and enabled, in every state from the flow's begin on |
| `SamlFlows.UndisturbedFlowIsCompleted` | internal/access/saml_flow.go:105-320 | From every state with an enabled configuration, a flow that nothing disturbs, answered in time, ends in the outcome it was begun for |
| `SamlHistory.PresentedExactlyWhen` | internal/access/saml_flow.go:170-225 | A posted assertion passes the first check if and only if its flow is unexpired and unreceived under the present enabled configuration, answers the flow's request, and no end it carries lies 90 seconds back |
| `SamlHistory.ReceivedExactlyWhen` | internal/access/saml_flow.go:226-273 | It is then received if and only if meanwhile no configuration was stored, the post has not ended, and the flow is still unexpired and unreceived and the assertion unused |
| `SamlHistory.CompletedExactlyWhen` | internal/access/saml_flow.go:276-320 | A received flow is completed if and only if the completion brings the flow's cookie before its shortened end, no error comes in, and meanwhile no configuration was stored and the flow was not completed and not swept; the outcome is of the kind begun |
| `SamlHistory.BegunExactlyWhen` | internal/access/saml_flow.go:53-144 | A flow that read an enabled configuration is stored if and only if none was stored since and it was not stored already |
| `SamlHistory.OutcomeHasItsHistory` | internal/access/saml_flow.go:105-320 | Every outcome in a run goes back, through the reception of an assertion presented for its flow, to the begin that gave out the cookie the completion brings, less than 300 seconds before |
| `SamlFlows.StepKeepsInv` | internal/access/saml_flow.go:226-307 | Every step keeps request ids unique, posts true to their flows, and received flows within their assertion's life |
| `SamlFlows.Server.StoreDefinition` | internal/access/saml_config.go:218-259 | A configuration change draws a fresh entity tag and deletes every flow |
| `SamlFlows.Server.BeginFlow` | internal/access/saml_flow.go:105-144 | A flow is stored only under the enabled configuration that was read, still in place inside the transaction |
| `SamlFlows.Server.Shorten` | internal/access/saml_flow.go:249-257 | The flow's end becomes the earliest of its own and the assertion's ends with skew |
| `SamlFlows.Server.ReceiveAssertion` | internal/access/saml_flow.go:226-273 | The transaction of the ACS: configuration, replay row and unreceived, unexpired flow are checked, and a refusal leaves no row behind |
| `SamlFlows.Server.CompleteFlow` | internal/access/saml_flow.go:276-320 | A received flow is consumed with its outcome or denial; any other error rolls the consumption back |
| `RoleMapping.MappedRole` | internal/access/oidc.go:663-683 | The loops return the first matching email mapping, else the best group mapping, else the default |
| `RoleMapping.MappedDecides` | internal/access/oidc.go:663-683 | The result satisfies an order-free description of the decision |
| `RoleMapping.DecisionIsUnique` | internal/access/oidc.go:181-194 | Under validated mappings that description has one answer |
| `RoleMapping.MappedIgnoresOrder` | internal/access/oidc.go:663-683 | Under validated mappings the role does not depend on the order or repetition of mappings and groups |
| `RoleMapping.UnvalidatedOrderMatters` | internal/access/oidc.go:186-189 | Without validation it does |
| `RoleMapping.OidcPredictionIsFaithful` | internal/access/oidc.go:686-714 | On recorded claims that still match, oidcSignInRole is the role that syncFederatedAuthority leaves after signing in with them, and none exactly when that sign-in is denied |
| `RoleMapping.SamlPredictionIsFaithful` | internal/access/saml_identities.go:11-20 | The same for samlSignInRole |
| `RoleMapping.SyncSettles` | internal/access/oidc.go:863-896 | Signing in again with the same claims changes nothing |
| `AuthorityProofs.EveryRunKeepsAuthority` | internal/access/identity.go:307-330 | In every reachable state each pending unexpired invitation's issuer is active, authorized, owner and global, at most one open invitation exists per email, and every session was minted under its user's present standing |
| `Grants.AcceptanceMeans` | internal/access/identity.go:538-593 | An invitation is accepted if and only if local sign-in is on and it is pending, unexpired and its email free; that adds one user with exactly the invitation's email and role, marks this invitation and no other, and mints only that user's session |
| `Grants.AcceptedAtMostOnce` | internal/access/identity.go:560-577 | In every run an invitation is accepted at most once |
| `Grants.SpentIsNeverAccepted` | internal/access/identity.go:560-566 | An invitation that was accepted or revoked or has expired is accepted in no later state of any run |
| `Grants.InvitationMeans` | internal/access/identity.go:431-494 | An invitation is created if and only if the issuer is an active, authorized, global owner, local sign-in is on, it lasts 1 to 720 hours and the email is free; it offers what was asked until then, and of earlier ones exactly the open ones of that email become revoked |
| `Grants.RevocationMeans` | internal/access/identity.go:496-536 | Revoking changes exactly the one invitation, unless it was accepted |
| `Standings.StandingHasItsReason` | internal/access/identity.go:261-344 | Every request changes or adds at most one user's row, and what changes is what that request asks for: setup, an accepted invitation, a matching update, a provisioning of that account, a password of its own, or a mapped role from the provider that manages the account |
| `Standings.OwnersHaveTheirReason` | internal/access/identity.go:287-330 | A user becomes a global owner with authority only by setup, an acceptance of an owner's invitation to that role, a matching update, a provisioning as owner, or a provider that maps them to owner |
| `Standings.EmailsStayDistinct` | internal/access/identity.go:476-482 | In every reachable state no two users have the same email |
| `Standings.SetUpMeans` | internal/access/identity.go:171-239 | Setup succeeds if and only if the installation is not complete and the email free, and makes that one owner with a session |
| `Standings.SetUpAtMostOnce` | internal/access/identity.go:171-239 | In every run it succeeds at most once |
| `AuthorityAnswers.UpdateCommitsExactlyWhen` | internal/access/identity.go:261-344 | An update commits if and only if it names a change and the present entity tag, takes no standing from the caller, and leaves a usable owner; it then writes that row, ends that user's sessions and no others, and revokes their pending invitations exactly when they stop being a global owner |
| `AuthorityAnswers.DeprovisionCommitsExactlyWhen` | internal/access/provisioning.go:117-154 | A deprovisioning commits if and only if the account is under provisioning and a usable owner remains, and deactivates exactly that account |
| `AuthorityAnswers.ReprovisionCommitsExactlyWhen` | internal/access/provisioning.go:54-103 | A provisioning of a known account commits if and only if it is under provisioning, no other account has the email and a usable owner remains |
| `AuthorityAnswers.ProvisionCommitsExactlyWhen` | internal/access/provisioning.go:54-114 | One of an unknown account commits if and only if the email is free and a usable owner remains, and adds exactly that account |
| `AuthorityAnswers.AllowCommitsExactlyWhen` | internal/access/identity.go:346-394 | Local sign-in is switched if and only if a usable owner remains then |
| `AuthorityAnswers.OidcConfigurationMeans` | internal/access/oidc.go:129-276 | An OIDC configuration is stored if and only if it asks for openid, its policy is valid and a usable owner remains; claims of earlier sign-ins are voided exactly when the client secret is another |
| `AuthorityAnswers.SamlConfigurationMeans` | internal/access/saml_config.go:204-264 | A SAML configuration is stored if and only if it is in date, its policy is valid and a usable owner remains; facts are voided exactly when the provider or an attribute is another, and disabling it ends SAML sessions and no others |
| `AuthorityAnswers.LogInAnswersExactly` | internal/access/sessions.go:60-125 | A password is accepted if and only if local sign-in is on and the user is active, authorized and has one; the one new session is that user's |
| `AuthorityAnswers.UnlinkOidcExactlyWhen` | internal/access/oidc.go:781-843 | An OIDC identity is unlinked if and only if the caller's session is live, it is their own, a path that the handler counts remains, and so does a usable owner; exactly that identity goes |
| `AuthorityAnswers.UnlinkSamlExactlyWhen` | internal/access/saml_identities.go:74-168 | The same for a SAML identity |
| `AuthorityAnswers.ProviderAnswersExactly` | internal/access/oidc.go:533-657 | A verified provider sign-in is granted exactly when the linkage, the caller and the mapped role admit it, with a session or, for a confirmation, a grant |
| `AuthoritySessions.SessionsHaveTheirReason` | internal/access/sessions.go:36-51 | Every new session of every request belongs to the one account that the request is about, by the method it signed in with; no other request adds one, and none changes |
| `AuthoritySessions.SessionLivesADay` | internal/access/sessions.go:36-51 | In every run a session that authenticates does so less than 86400 seconds after it was made and is still the row it was |
| `AuthoritySessions.SessionsEndAsAsked` | internal/access/sessions.go:169-205 | Logging out ends exactly that session, a sweep ends only expired ones, and a password change, recovery or unlinking ends every other session of its user |
| `Identities.IdentitiesHaveTheirReason` | internal/access/oidc.go:578-657 | A linked identity never changes its account, a new one is the signed-in provider's and belongs to the account that sign-in is about, and one goes only when its own account unlinks it |
| `Identities.EvidenceIsRecorded` | internal/access/oidc.go:552-577 | Every provider sign-in that is not refused leaves exactly its own identity with what it asserted, except a denied SAML login of an unknown one; a refused sign-in changes nothing |
| `UsableOwners.OwnerStaysExactlyInCalmRuns` | internal/access/identity.go:346-394 | From any state with a usable owner, a run has one throughout if and only if each provider sign-in spares one and the clock outdates no lone SAML owner's metadata; no administrative request can leave none |
| `UsableOwners.ProviderKeepsOwnerExactlyWhenSpared` | internal/access/oidc.go:560-577 | A provider sign-in keeps a usable owner if and only if it follows no account, or its provider does not manage the account, or maps it to owner, or a usable owner remains without it |
| `UsableOwners.StepKeepsOwnerExactlyWhen` | internal/access/identity.go:346-394 | The same for every request, told from the state before it |
| `UsableOwners.OidcSignInFollows` | internal/access/oidc.go:552-577 | An OIDC sign-in of a linked identity changes, apart from sessions and invitations, only that account's role and authorization and that identity's claims |
| `UsableOwners.SamlSignInFollows` | internal/access/saml_flow.go:369-392 | The same for a SAML sign-in of a linked identity or one being linked |
| `UsableOwners.StepKeepsOwner` | internal/access/identity.go:317-319 | No single administrative step removes the last usable owner |
| `UsableOwners.WaitingKeepsOwnerExactlyWhenInDate` | internal/access/saml_config.go:74-82 | Letting time pass keeps a usable owner exactly when one signs in locally or through OIDC, or the SAML metadata and a certificate are in date then |
| `UsableOwners.ClockCanTakeTheOwner` | internal/access/saml_identities.go:30-35 | The clock alone can take the last usable owner away |
| `UsableOwners.ProviderCanTakeTheOwner` | internal/access/oidc.go:566-577 | A verified sign-in without a mapped role takes the last usable owner away, and that loss commits |
| `SignInPaths.UnlinkOidcKeepsAPathExactlyWhen` | internal/access/oidc.go:804-827 | A user who unlinked an OIDC identity keeps a way to sign in of the kind that the account's management demands if and only if SAML does not manage the account or a usable SAML identity is linked |
| `SignInPaths.SamlManagedCanKeepOnlyAPassword` | internal/access/oidc.go:808-824 | A SAML-managed account can unlink OIDC and keep only its password |
| `SignInPaths.UnlinkSamlKeepsAPathExactlyWhen` | internal/access/saml_identities.go:94-142 | A user who unlinked a SAML identity keeps such a way if and only if OIDC manages the account and a usable OIDC identity is linked, or SAML manages it and the metadata is in date, or neither does and a password, an OIDC identity or the date will do |
| `SignInPaths.OidcManagedCanKeepOnlyAPassword` | internal/access/saml_identities.go:105-110 | An OIDC-managed account can unlink SAML and keep only its password |
| `SignInPaths.ExpiredMetadataCanBeAllThatIsLeft` | internal/access/saml_identities.go:94-142 | With the metadata out of date, one of two SAML identities can be unlinked although nothing else is left |
| `SignInPaths.DeadSessionExactlyWhenUnheeded` | internal/access/oidc.go:610-657 | A request is answered with a session that authenticates nothing if and only if it is an OIDC login of a linked, active, unauthorized account that OIDC does not manage |
| `SignInPaths.UnauthorizedCanBeSignedIn` | internal/access/oidc.go:644-653 | There is such an account: SAML withdrew its authorization and an OIDC identity is still linked |
| `AuthorityProofs.StepKeepsInv` | internal/access/identity.go:261-344 | Every handler keeps the authority invariant |
| `AuthorityProofs.ReassignKeepsInv` | internal/access/identity.go:398-409 | A change of authority keeps it if it retires the issuer's invitations or the issuer stays an owner |
| `AuthorityProofs.OidcKeepsInv` | internal/access/oidc.go:533-657 | Every outcome of an OIDC sign-in keeps it |
| `AuthorityProofs.SamlKeepsInv` | internal/access/saml_flow.go:322-432 | Every outcome of a SAML sign-in keeps it |
| `AuthorityProofs.InviteKeepsInv` | internal/access/identity.go:476-482 | A new invitation revokes the open ones of its email first |
| `AuthorityServer.Server.EnsureUsableOwner` | internal/access/identity.go:346-394 | The search finds a usable owner exactly when there is one: by password, by SAML or by OIDC |
| `AuthorityServer.Server.UsableSamlOwner` | internal/access/saml_identities.go:22-52 | The SAML part of that search |
| `AuthorityServer.Server.RetireIssuedInvitations` | internal/access/identity.go:398-409 | Each of the issuer's pending unexpired invitations becomes revoked, every other row stays as it is, and the issuer has none pending left |
| `AuthorityServer.Server.Update` | internal/access/identity.go:287-343 | The tables and reply of every user update, the invariant holding after |
| `AuthorityServer.Server.Deprovision` | internal/access/provisioning.go:126-153 | The tables and reply of every deprovisioning, the invariant holding after |
| `AuthorityServer.Server.CreateInvitation` | internal/access/identity.go:454-482 | The tables and reply of every invitation, the invariant holding after |
| `AuthorityServer.Server.ChangeAuthority` | internal/access/provisioning.go:89-103 | After a change of authority the row has a fresh entity tag, the user has no session left and, where told to retire, no pending invitation |
| `AuthorityServer.Server.Provision` | internal/access/provisioning.go:54-114 | The tables and reply of every provisioning, the invariant holding after |
| `AuthorityServer.Server.Retire` | internal/access/identity.go:513-527 | An invitation that was not accepted ends up revoked, once or again |
| `AuthorityServer.Server.Accept` | internal/access/identity.go:560-590 | The tables and reply of every acceptance are those that Grants.AcceptanceMeans describes, the invariant holding after |
| `AuthorityServer.Server.NewSession` | internal/access/sessions.go:36-51 | The oldest sessions beyond nineteen go and one is minted under the user's present standing |
| `Kernel.SurplusIsTheOldest` | internal/access/sessions.go:36-51 | The rows that go are older than every row that stays, and as many stay as may |
| `AuthorityServer.Server.PutOidcConfiguration` | internal/access/oidc.go:203-262 | The tables and reply of every OIDC configuration: a changed client secret voids recorded claims before the owner search |
| `AuthorityServer.Server.StoreSamlDefinition` | internal/access/saml_config.go:204-264 | The tables and reply of every SAML configuration: changed attributes void recorded facts before the owner search, and a disabled one ends SAML sessions |
| `AuthorityServer.Server.ChangeSignInMethod` | internal/access/oidc.go:845-856 | A fresh entity tag, and one new session in place of all others |
| `AuthorityServer.Server.FinishUnlink` | internal/access/oidc.go:825-842 | An unlinking commits only if a usable owner remains, and then rotates the session |
| `AuthorityServer.Server.UnlinkOidcIdentity` | internal/access/oidc.go:781-843 | The tables and reply of every unlinking of an OIDC identity, the invariant holding after |
| `AuthorityServer.Server.UnlinkSamlIdentity` | internal/access/saml_identities.go:74-168 | The tables and reply of every unlinking of a SAML identity, the invariant holding after |
| `AuthorityServer.Server.OidcKnownIdentity` | internal/access/oidc.go:556-656 | The tables and reply of every callback for a linked identity: a loss of authority commits with its denial, an error commits nothing |
| `AuthorityServer.Server.FollowSaml` | internal/access/saml_flow.go:385-431 | The tables and reply of acceptSAML once the account is known |
| `AuthorityServer.Server.SyncFederatedAuthority` | internal/access/oidc.go:863-896 | Role, authorization, sessions and invitations follow the mapped role exactly as decided, the invariant holding after |
| `Keys.ReplayAnswersWithoutEffect` | internal/access/replay.go:23-86 | From a commit until its replay expires, whatever runs between, the same request gets the identical reply and any other under the same actor and key is refused, both without effect |
| `Keys.EveryRunIsBounded` | internal/access/keys.go:517-533 | In every reachable state a key has at most eight overlap rows, and every replay row has its stored reply with the same end |
| `Keys.OneEffectPerTag` | internal/access/keys.go:484-497 | A rotation or revocation on one If-Match takes effect at most once in a whole run, even after the replay expired |
| `Keys.ReplacedSecretEnds` | internal/access/keys.go:521-533 | After a rotation, nothing that runs later lets the replaced secret work for longer than the overlap, at most 86400 seconds |
| `Keys.ZeroOverlapLeavesOne` | internal/access/keys.go:518-520 | After a rotation without overlap exactly the new secret works, or none if the key expired |
| `Keys.TakesExactlyWhen` | internal/access/keys.go:457-524 | A creation, rotation or revocation takes effect if and only if its idempotency key is 1 to 200 long and unused, the If-Match is the key's tag and it is not revoked, and an overlap is at most 86400 seconds and finds fewer than eight live ones |
| `Keys.RotationWorksExactly` | internal/access/keys.go:517-557 | After a rotation exactly the new secret works and, with an overlap, the replaced one and those still overlapping; the reply names the new tag and lookup id |
| `Keys.OverlapLastsExactly` | internal/access/keys.go:529-530 | The replaced secret works at a later time if and only if that time is before the end of the overlap and of the key, and the reply names that end |
| `Keys.RevokedNeverWorks` | internal/access/keys.go:559 | After a revocation that took effect no secret of the key works in any later state of any run; the reply names the new tag, and other keys and all overlaps are as before |
| `Keys.CreatedWorksExactly` | internal/access/keys.go:226-305 | Of a created key exactly the secret handed out works, unless it is expired already, and every other key is as before |
| `Keys.UpdateMeans` | internal/access/keys.go:307-427 | An update takes effect if and only if the If-Match is the key's tag and it is not revoked, and leaves the secrets that work before its new end |
| `Keys.OtherKeysAreLeftAlone` | internal/access/keys.go:434-579 | No request about one key changes which secrets of another work |
| `Keys.LimiterIdentityIsFixed` | internal/access/keys.go:557 | The limiter identity of a key never changes |
| `Keys.RotationEnds` | internal/access/keys.go:529-530 | A rotation's overlap ends within its seconds and no later than the key |
| `Keys.StepKeepsInv` | internal/access/keys.go:434-579 | Every request keeps lookup ids distinct, overlaps few and replays answerable |
| `Keys.KnownStaysKnown` | internal/access/keys.go:467-469 | A key's row is never deleted, so its replays stay reachable |
| `Keys.Server.FindReplay` | internal/access/replay.go:23-70 | What Replay answers: nothing, the stored reply, or a refusal |
| `Keys.Server.TransitionKey` | internal/access/keys.go:457-578 | The tables and reply of every rotation and revocation, replayed, refused or taking effect, are those that Keys.TakesExactlyWhen, RotationWorksExactly and RevokedNeverWorks describe, the invariant holding after |
| `Admission.AtMostLimitPerWindow` | internal/access/identity.go:146-158 | With a clock that does not run backwards, a bucket passes at most its limit in a window |
| `Admission.AtMostTwiceLimitPerMinute` | internal/access/identity.go:148-150 | and at most twice its limit in any half-open 60 seconds |
| `Admission.SweepingChangesNoVerdict` | internal/access/identity.go:159-161 | Sweeping any rows older than ten minutes, at any time, changes no verdict of a run |
| `Admission.AdmittedExactlyWhen` | internal/access/identity.go:121-157 | A request is admitted if and only if each of its buckets, global, source and, with a target, target and account, has room at its limit |
| `Admission.RefusedOnlyWhenUsedUp` | internal/access/identity.go:146-158 | In every run a bucket has no room only when it passed exactly its limit in its present window |
| `Admission.RefusalLeavesTheRest` | internal/access/identity.go:154-157 | A refusal by one bucket leaves the later ones uncharged |
| `Admission.OneLimitPerSlot` | internal/access/identity.go:127-144 | A bucket is always charged against the one limit its name stands for |
| `Admission.Admissions.Admit` | internal/access/identity.go:121-169 | The loop charges the buckets in order up to the first refusal and commits the counts either way |
| `Continuation.ReadStream` | continuation/olp_continuation.py:63-120 | The loop over the stream, its sort and its checks compute the specified turn or fail |
| `Continuation.AbsorbChunk` | continuation/olp_continuation.py:73-103 | One chunk changes what was gathered as specified or fails |
| `Continuation.SortCalls` | continuation/olp_continuation.py:106-110 | The calls in index order, exactly when indices are contiguous from zero and every call is complete |
| `Continuation.GatheredSays` | continuation/olp_continuation.py:80-95 | However text and fragments are split and interleaved, an accepted stream gathers all text in order and, per index, all fragments in order |
| `Continuation.AcceptedStreamIsUnary` | continuation/olp_continuation.py:159-171 | An accepted stream yields the assistant message that the unary conversion of what it carries yields |
| `Continuation.FragmentationDoesNotMatter` | continuation/olp_continuation.py:72-115 | Two accepted streams that carry the same give the same message |
| `Continuation.AcceptedStreamCarriesItsMessage` | continuation/olp_continuation.py:104-115 | An accepted stream carries complete calls with contiguous indices, and has calls exactly when it finished for tool calls |
| `Continuation.AcceptsExactlyDeliveries` | continuation/olp_continuation.py:72-103 | The loop accepts exactly the streams with valid chunks, at most one terminal chunk, ready and with a handle, and nothing observed or terminal after it |
| `Continuation.AcceptsExactlyTheAcceptable` | continuation/olp_continuation.py:72-112 | A stream that carries a message is accepted if and only if it is such a delivery, its terminal chunk has a non-empty handle and the usage and finishes for tool calls exactly when there are calls, and every call is complete |
| `Continuation.AcceptedExactlyWhen` | continuation/olp_continuation.py:72-112 | Over all streams: one is accepted if and only if it carries some message and these conditions hold of it |
| `Continuation.AcceptedTurnIsTheStreams` | continuation/olp_continuation.py:76-103 | An accepted turn has the stream's observations in order and the handle, finish and usage of its terminal chunk |
| `Continuation.BuildNextTurn` | continuation/olp_continuation.py:123-138 | The next request appends the assistant message and its results, exactly when there is one matching result per call in order |
| `Continuation.EveryTurnKeepsItsResults` | continuation/olp_continuation.py:132-135 | In a conversation of any length each assistant message is at its place, directly followed by exactly its results, call by call in order with their texts, each block starts where the one before ends, the last ends the list, and the history before is unchanged |
| `Continuation.ConversationGoesOnExactlyWhen` | continuation/olp_continuation.py:124-132 | A conversation is accepted if and only if every turn has a handle, calls, and one text result per call in order |
| `Continuation.TurnsAreAdjacent` | continuation/olp_continuation.py:132-135 | Any two consecutive turns of a conversation stand directly after one another |
| `Pagination.Asked` | internal/access/http.go:472-493 | A page size outside 1 to 200 or an unreadable parameter is refused; otherwise the page has the size asked for or 50, and the cursor asked for or the largest id |
| `Pagination.PageIsRight` | internal/access/http.go:499-508 | A page lists rows below the cursor strictly descending, and a row it leaves out lies below the next cursor |
| `Pagination.EveryStayingRowOnce` | internal/access/http.go:472-509 | A walk from the top over changing rows that ends lists each row present throughout exactly once, and no row twice, for any page sizes; only a row with the largest id is never listed |
| `Pagination.WalkIsDescending` | internal/access/identity.go:246 | Every walk goes strictly down |
| `Pagination.WalkListsWhatStays` | internal/access/http.go:499-508 | A row present throughout is listed by every walk that ends |
| `Pagination.WalkListsWhatWas` | internal/access/identity.go:246 | A walk lists only rows that some page saw |
| `Pagination.WalkEnds` | internal/access/http.go:501-504 | The cursor falls with every page, so every walk ends |
| `Pagination.WalkPages` | internal/access/http.go:499-509 | A client's loop over next_cursor computes the walk |
| `Policy.TokenOperationsWithinCreator` | internal/access/policy.go:160-182 | A management token never authorizes an operation that its creator lacks now, or one that is not delegable |
| `Policy.TokenReachWithinCreator` | internal/access/organizations.go:9-21 | It reaches no project and no organization that its creator does not reach now |
| `Policy.TokenProjects` | internal/access/principal.go:180-193 | An assigned creator narrows it to their own projects and project roles |
| `Policy.ProjectTokenReachesNoOrganization` | internal/access/principal.go:164-168 | A token limited to projects reaches no organization |
| `Policy.AdmittedTokenActsWithinCreator` | internal/access/contract.go:35-56 | For every contract that parses, a token admitted to a route acts through a non-empty set of delegable operations that its creator holds now, installation-wide where the route says so |
| `Policy.InferenceKeyOnlyReadsTheCatalog` | internal/access/contract.go:138-143 | For every contract that parses, an inference key is admitted only to safe catalog reads |
| `Policy.ParsedAlternativesAreTruthful` | internal/access/contract.go:147-169 | Alternatives that parse name operations, delegable ones for tokens, and declare the installation scope where an operation needs it |
| `Policy.ReadRequirement` | internal/access/contract.go:115-172 | The loops compute the specified requirement, or refuse |
| `Policy.ReadScopes` | internal/access/contract.go:147-162 | The scope loop computes operations, installation flag and need for it, or refuses |
| `Policy.Admits` | internal/access/contract.go:35-56 | The search admits a principal exactly when some alternative of its kind is satisfied |
| `Policy.ParseOperation` | internal/access/policy.go:122-129 | The search finds the operation of a name, and none exactly when no operation has it |
| `Policy.NamedIsInverse` | internal/access/policy.go:107-129 | Naming an operation and parsing the name undo each other |
| `Policy.BuildMachine` | internal/access/principal.go:134-195 | The loops build the specified principal, whatever order the map of memberships is iterated in |
| `Policy.ReadTokenScopes` | internal/access/principal.go:155-163 | The scope loop keeps exactly the names of operations |
| `PolicyAnswers.ResolvesExactlyWhen` | internal/access/principal.go:74-155 | A credential resolves if and only if it is a session of an active, authorized account or a token neither expired nor revoked of such an account, and to that account or that token |
| `PolicyAnswers.DeadTokenIsNobody` | internal/access/principal.go:134-155 | A token that is unknown, expired or revoked resolves to nobody and is admitted by no requirement |
| `PolicyAnswers.TokenAuthorizesExactly` | internal/access/policy.go:160-182 | A token authorizes an operation if and only if it names it, the operation is delegable, its creator has it now, and it is for all projects where the operation needs the installation |
| `PolicyAnswers.TokenReachesProjectExactly` | internal/access/scope.go:25-42 | It reaches a project if and only if it is for all projects or names it, and its creator reaches it now |
| `PolicyAnswers.TokenReachesOrganizationExactly` | internal/access/organizations.go:9-21 | It reaches an organization if and only if it is for all projects and its creator is a member, managing where change is asked, or is global and, for change, an owner whose token has the access scope |
| `PolicyAnswers.ContractReadExactlyWhen` | internal/access/contract.go:115-172 | A route's security parses if and only if it is public or every alternative is lawful |
| `PolicyAnswers.AdmittedExactlyWhen` | internal/access/contract.go:35-56 | A parsed contract admits a principal if and only if one of the alternatives as written lets that principal in |
| `Route.CommitsOnlyWhatIsAuthorizedNow` | internal/access/route.go:140-175 | However requests interleave, a mutation that came through BeginMutation and commits is authorized by the tables it commits against and acts as the principal they give it |
| `Route.LostAuthorityNeverCommits` | internal/access/route.go:149-162 | A request whose authority is gone when it is resolved again under the lock has ended, and commits in no continuation of the run |
| `Route.LostAuthorityIsRefused` | internal/access/route.go:149-162 | Authority lost after admission does lead there |
| `Route.StepKeepsInv` | internal/access/http.go:395-405 | Only the holder of the installation lock is inside a transaction, and a cleared one is allowed by the tables as they are |
| `Route.Server.Reauthorized` | internal/access/route.go:152-162 | The caller is resolved and checked again against the present tables |
| `Route.Server.BeginMutation` | internal/access/route.go:164-175 | The caller holds the lock afterwards exactly when the tables still allow the request |
| `CodePool.ValidatedIsIdempotent` | internal/access/code_mode.go:372-400 | Validating a validated pool changes nothing, whatever order its weights are listed in |
| `CodePool.SlicesAreParsed` | internal/access/code_mode.go:376-398 | Parsing the concatenated ids and slicing them apart gives what parsing each list gives |
| `CodePool.ValidatedMeans` | internal/access/code_mode.go:372-400 | Every id is parsed in its place and every weight goes to the parsed id of its account |
| `CodePool.ValidatedExactlyWhen` | internal/access/code_mode.go:342-400 | A pool validates if and only if it is well-formed: kind and owner go together, the lists are given and short enough, every id parses, and the weights are in range and name different listed accounts once parsed |
| `CodePool.SavedExactlyWhen` | internal/access/code_mode.go:233-299 | It is saved if and only if it is well-formed, what it names belongs to its project, and an existing pool keeps kind and owner; the saved accounts, weights and keys are exactly those named, with weight 1 where none is given |
| `CodePool.SavingAReadingChangesNothing` | internal/access/code_mode.go:233-303 | Saving a pool, reading it back and saving that reading is accepted and leaves the same accounts, weights and keys |
| `CodePool.Store.Save` | internal/access/code_mode.go:233-299 | The loops replace a pool's accounts, weights and keys, ignoring repeats, exactly when the input is valid and permitted |
| `Transport.EveryAddressGetsItsShare` | internal/access/oidc_transport.go:71-89 | If each dial ends within its slice, every one of n addresses gets at least the whole time divided by n, rounded down |
| `Transport.AttemptsStayWithinTheDeadline` | internal/access/oidc_transport.go:72-81 | and all dials together never take longer than the whole time |
| `Transport.DialAddresses` | internal/access/oidc_transport.go:71-89 | The first address that connects, tried in order within its slice, and no address after it is tried |
| `Transport.BodyIsAPrefix` | internal/access/oidc_transport.go:114-124 | Over any read sizes a body yields an unmodified prefix of at most 2^20 bytes |
| `Transport.FittingBodyIsWhole` | internal/access/oidc_transport.go:114-124 | A body that fits never fails and ends only when handed over whole; one that does not fit never reports its end |
| `Transport.FailurePersists` | internal/access/oidc_transport.go:119-122 | After a failure every later read fails and yields nothing, and the body was too large |
| `Transport.Body.constructor` | internal/access/oidc_transport.go:105 | A body starts with 2^20 bytes remaining |
| `Transport.Body.ReadInto` | internal/access/oidc_transport.go:114-124 | One read of the cut body, in place |

## Left out

- Cryptography, password hashing, WebAuthn, TOTP arithmetic and the XML and token verification of providers: a proof, code or assertion stands for the secret, request and time it was made from.
- Recent-authentication grants (ConsumeRecent, grantRecent): a step that needs one takes its presence as a parameter.
- SCIM, projects, limits, budgets, settings other than local sign-in and required MFA, and the gateway: they would add tables without new reasoning.
- Audit rows, cookies, redirects, error texts and JSON projections: no effect on the tables modelled.
- Housekeeping deletes with LIMIT: modelled as sweeps of any portion of expired rows at any time.
- Transactions that do not take the installation lock: `Route` is about requests that call BeginMutation, and the steps on the tables are handlers that hold the lock. Last-seen times, admission counters and the poll of an account enrolment (internal/providers/grants.go:303-313), which reauthorizes and commits under the enrolment's own lock, are written without it; of these only admission is modelled, on its own.
- Mfa: a database error or an admission refusal inside a handler is a request that did not happen.
- Authority: whether a local session needs a second factor is decided in `Mfa`; here any unexpired session of an active, authorized user may act, which only adds runs.
- Authority: sign-ins through a provider for an identity not linked yet, and setup, are modelled on values only.
- Authority: the checks that keep a manager for each SCIM-managed project can only refuse an update, and are left out.
- Stdio.FramesOfAnIdNeverInterleave: assumes the peer reuses no id in flight, as OLP numbers its calls; with an id reused, two calls may write under it in any order.
- Admission.AtMostTwiceLimitPerMinute: assumes, like Admission.AtMostLimitPerWindow, that charges of a row see nondecreasing times. In the source a charge sees the start of its transaction, and these transactions do not take the installation lock, so two that overlap may charge a row out of that order.
- Listener.Server.Serve: the accept loop's retry delays and accept errors are not modelled; Serve is called once.
- Continuation.ReadStream: HTTP, headers and the SDK version check are outside the model, and usage objects are numbers.
- Policy.AdmittedTokenActsWithinCreator: sets of operations and roles are sets, where the source uses bit masks.
- CodePool.SavingAReadingChangesNothing: stated for ParseUUID as any parser whose results parse to themselves, and for a pool that stays in its project.
- Transport.EveryAddressGetsItsShare: time spent between dials is taken to be zero.
- Keys: access to the key's project is decided in `Policy` and `Route`, and workload-managed keys, which have no secret to rotate, are left out.
- Key creation beyond its row, limit templates, route groups and the field checks of validateAndNormalizeKey: one-branch checks.
