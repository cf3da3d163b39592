# Fleet backend: a verified model

This project models the parts of a fleet-management backend whose rules span many functions, and proves those
rules over whole runs. `dafny verify dfyconfig.toml` checks everything.

**Signing in and moving between companies** (`Base`, `OtpCodes`, `SessionTokens`, `Transfers`, `Credentials`,
`TableMoves`, `PurgeInvisible`, `OtpBounds`, `CodeSignIn`, `SessionsEnd`, `TransferRuns`, `CredentialCalls`,
`CredentialServices`). One machine with a
clock: sign-in codes over several channels with shared attempt counting, codes minted by managers, refresh tokens
with rotation and a 60 s grace window, password resets, accounts, links that move a driver to another company, and
the nightly purge. The strongest result is a simulation: a run with purges answers exactly like the run without them.

**Trips, trucks and chats** (`Trips`, `ChatRuns`, `Replies`, `TripWrites`, `TruckCalls`, `ChatCalls`,
`TruckSwaps`, `Fleet`, `UnreadBadges`, `TripServices`).
About ten writers touch the same rows: trips are created, handed to other drivers, managers and trucks (swapping with
or ending the trip in the way), truck edits cascade to open trips, and every change of people closes one chat session
and opens another. Proved over every run: one private chat per pair, a live view that equals history, replies that
stay where they belong, swaps that swap back, injective driver assignment, badges that agree with read marks.

**Questions to drivers** (`TripOrder`, `DepartPrompts`). "Are we heading to loading?" asked by any number of servers
whose reads and writes interleave.

**Alarms** (`Alarms`), **signed URLs** (`SignedUrls`), **company invite links** (`InviteLinks`, interleaved with its
row locks).

Where the original updates objects in place, classes do too: `CredentialServices`, `TripServices`, `AlarmsService` and
`SupabaseStorage` hold the tables as fields, and each method is proved equal to a function on the state before it; the
results are then proved about those functions, over all runs of them. What each function accepts, answers and leaves is
stated once more on plain rows, with its conditions and numbers spelled out (`CodeSignIn`, `CredentialCalls`, `TripWrites`,
`TruckCalls`, `ChatCalls`), so that the two can be held against each other.

How the model reads the code:

- Each service call is one atomic step, and time advances strictly between steps, except in `DepartPrompts` and
  `InviteLinks`, where every database statement is a step of its own.
- Times are milliseconds. Comparisons are as strict as in the code: a refresh token that expires at T still works at T.
- Tables that never lose rows are sequences in creation order, so a row's id is its position; the others are maps.
- Phone numbers are taken in their normalised form (an unusable number is `None`). Hashes are injective, so rows are
  keyed by the token or code itself; a fresh token is one never drawn before (`minted`).
- What the environment decides is a parameter: feature flags, the drawn code or token, whether a text or a purge step
  fails, what the storage bucket answers, the time zone's offset and resolution.
- Who may call an operation at all (roles, guards) is settled before it; checks made inside the call are modelled with
  their answers.
- "Find the first" without an order is the newest row for chat sessions and the first for trucks; the invariants proved
  here (at most one open session, at most one truck per driver) show that there is only one to find.
- Where the code and its comments differ, the model follows the code: a delivered trip keeps its chat open when only
  its status changed, a swap is with the newest open trip on the target truck, moving a trip to a truck does not
  restart its question counter, and a broadcast goes by who manages the truck, not by who takes part in the chat.

## Model

| member | source | states |
|---|---|---|
| PurgeInvisible.PurgeIsInvisible | src/maintenance/retention.service.ts:44-131 | dropping every nightly purge from a run, whatever steps of it failed, changes no other call's answer: code checks, cooldowns, manager requests, refreshes, resets and transfers all see expired or used rows and deleted rows alike |
| PurgeInvisible.SameStep | src/auth/auth.service.ts:335-369 | two stores whose live rows agree answer every call alike and still agree afterwards: the step of the simulation |
| PurgeInvisible.PurgeKeepsAlive | src/maintenance/retention.service.ts:44-131 | a purge with any set of failing steps leaves every live row of the four tables as it was |
| PurgeInvisible.StampedStep | src/driver-transfers/driver-transfers.service.ts:101-121 | no call ever leaves a row that expires, is used, accepted or declined before it was created – what makes the purge's cut-offs safe |
| OtpBounds.AttemptsNeverExceedFive | src/auth/auth.service.ts:861-899 | in every run no sign-in code is ever counted more than 5 misses |
| OtpBounds.MissesAreBounded | src/auth/auth.service.ts:861-899 | over any run the wrong guesses of a phone that reach a comparison number at most 5 times the codes ever stored for it |
| OtpBounds.AtMostFiveMoreMisses | src/auth/auth.service.ts:861-899 | from any state with at most 5 pending codes, while no new code is stored for the phone, at most 5 more wrong guesses reach a comparison, however many codes are pending |
| OtpBounds.SignInEndsEarlierCodes | src/auth/auth.service.ts:905-909 | after a successful sign-in no code of that phone stored earlier ever signs in again |
| OtpBounds.GuessRowByRow | src/auth/auth.service.ts:852-909 | what one guess does to every stored code: spent ones among the five newest are locked, a miss counts against the ones with attempts left, a sign-in uses up every unused code of the phone; the right code of an inactive driver is neither used up nor counted |
| OtpBounds.OneRequestOneCode | src/auth/auth.service.ts:782-844 | over any run a manager mints at most as many codes for a driver as the driver made requests to that manager |
| CodeSignIn.WhoSignsIn | src/auth/auth.service.ts:861-931 | a code signs a user in if and only if the newest row with that code, among the phone's five newest unused and unexpired rows, those with fewer than five misses, is that user's and they are an active driver; one 90-day session of theirs and one audit entry are then added. The exact conditions of each refusal, which adds neither |
| CodeSignIn.CodesAfterGuess | src/auth/auth.service.ts:876-909 | what a guess does to each stored row, by that row's place among the five newest: locked, used up, counted, or untouched |
| CodeSignIn.CheckOnRows | src/auth/auth.service.ts:861-893 | when a comparison finds no code, only spent ones, a wrong or the right one, by positions in the table |
| CredentialCalls.PurgeOnRows | src/maintenance/retention.service.ts:53-131 | each step that does not fail takes exactly the old rows, by cut-offs in milliseconds, and nothing outside the five tables changes |
| CredentialCalls.CodesStayInOrder | src/maintenance/retention.service.ts:60-75 | the codes a purge leaves keep their order |
| CredentialCalls.RefreshOnRows | src/auth/auth.service.ts:335-369 | a token is refreshed if and only if it is stored, unexpired, never revoked or at most 60 s ago, and its user active and not deleted; what is then stored, and what a refusal leaves |
| CredentialCalls.RetryIsServed | src/auth/auth.service.ts:341-354 | the same token again within 60 s gets another session of the same user |
| CredentialCalls.LogoutOnRows | src/auth/auth.service.ts:372-382 | a presented token is revoked and expires now; an unknown one changes nothing |
| CredentialCalls.LoginOnRows | src/auth/auth.service.ts:226-251 | a password signs in exactly the active, undeleted user of that e-mail whose password it is; everything else is refused alike and leaves no trace |
| CredentialCalls.AdminLoginOnRows | src/auth/auth.service.ts:107-127 | the same for administrators, who alone learn that a password was wrong |
| CredentialCalls.InvitedUserOnRows | src/auth/auth.service.ts:130-160 | an invited user gets the password and a session; an unknown link changes nothing |
| CredentialCalls.TeamLeadOnRows | src/auth/auth.service.ts:162-201 | a company invite adds a team lead exactly if nobody has the e-mail |
| CredentialCalls.AskResetOnRows | src/auth/auth.service.ts:943-974 | a user with a password gets one link for 60 minutes and their unused ones are used up; nobody else gets one |
| CredentialCalls.ResetOnRows | src/auth/auth.service.ts:976-1009 | a link works if and only if it is stored, unused and unexpired; the password, the link and the user's unexpired sessions then change, and nothing else |
| CredentialCalls.NewPasswordCounts | src/auth/auth.service.ts:976-1009 | a reset link works once; after it the new password signs in and no other does |
| CredentialCalls.AccountsOnRows | src/users/users.service.ts:597-632 | switching an account on and off: when refused, and the rows written |
| CredentialCalls.DeletionOnRows | src/users/users.service.ts:634-689 | an account goes unless unknown, gone or the company's last active administrator; which rows go with it and which stay |
| CredentialCalls.StrangersGetNoCode | src/auth/auth.service.ts:476-510 | a phone of no active driver gets the usual answer and no code |
| CredentialCalls.DriversGetACode | src/auth/auth.service.ts:476-560 | an active driver gets a 5-minute code, unless one was stored for the channel within 60 s or nothing is switched on; the review phone's code counts as a text and is not recorded |
| CredentialCalls.ManagersAreAsked | src/auth/auth.service.ts:641-711 | the driver's truck's manager gets a 15-minute request if active, of the same company and reachable, under the same pause |
| CredentialCalls.MintingOnRows | src/auth/auth.service.ts:782-844 | each condition of minting a code, in order; the 15-minute row added, the requests closed, no other row changed |
| CredentialCalls.RequestsSeen | src/auth/auth.service.ts:718-780 | a manager sees until when the newest open request runs, and nobody else sees one |
| CredentialCalls.LinksOnRows | src/driver-transfers/driver-transfers.service.ts:152-266 | showing, accepting and declining a link are possible under one and the same condition on the rows, spelled out, and refused otherwise |
| CredentialCalls.AcceptOnRows | src/driver-transfers/driver-transfers.service.ts:202-257 | the driver leaves every truck, belongs to the new company, is switched on and is under the asker if that user is still of that company and not deleted; the link is accepted and the driver's other unanswered ones end now |
| CredentialCalls.DriversOnRows | src/users/users.service.ts:148-194 | adding a driver by phone: a new account, a refusal within the company, a transfer request across companies |
| CredentialCalls.TextsOnRows | src/driver-transfers/driver-transfers.service.ts:61-93 | a text goes out if and only if the pair has no open link from the last 10 minutes, and fewer than 5 links of the driver and 20 of the company are from the last 24 hours |
| CredentialCalls.TransferRequestOnRows | src/driver-transfers/driver-transfers.service.ts:101-147 | a request ends the pair's unanswered links and, if it stays, is one new link for 24 hours |
| SessionsEnd.EndedSessionsStayEnded | src/auth/auth.service.ts:999-1004 | after a password reset, deactivation, account deletion or logout no affected refresh token is accepted by any later call, through reactivations, grace-window retries and purges |
| SessionsEnd.RotationWindow | src/auth/auth.service.ts:341-354 | once a token is first rotated at r, every later acceptance of it comes after r and at most 60 s after r; grace uses never move r |
| SessionsEnd.AcceptedRefreshIssuesOne | src/auth/auth.service.ts:301-369 | an accepted refresh adds exactly one new token, of the same user, expiring 90 days (driver) or 30 days (others) later, marks the old one revoked if it was not, and changes no other row |
| SessionsEnd.MarksRun | src/auth/auth.service.ts:335-382 | no run un-ends a token or moves the moment it was first rotated |
| TransferRuns.LinksAreAnsweredOnce | src/driver-transfers/driver-transfers.service.ts:152-266 | after a transfer link was accepted or declined once, every later answer to it is refused and changes nothing, even after its row is purged |
| TransferRuns.OneOpenLinkAlways | src/driver-transfers/driver-transfers.service.ts:101-121 | in every run a driver has at most one open link per target company |
| TransferRuns.AcceptClosesTheRest | src/driver-transfers/driver-transfers.service.ts:202-257 | right after an accept no link of that driver, to any company, is open |
| TransferRuns.CompanyChangesOnlyByAccept | src/driver-transfers/driver-transfers.service.ts:202-257 | a call changes a user's company exactly if it is an accept of an open link of that user, and then from the link's old company to its new one |
| TransferRuns.TransfersFormAPath | src/driver-transfers/driver-transfers.service.ts:171-248 | over any run the accepted transfers of a driver form a path from the company at the start to the company at the end |
| TransferRuns.CapsHoldAlways | src/driver-transfers/driver-transfers.service.ts:74-147 | no window of 24 hours holds more than 5 requests to one driver or 20 for one company that were created and stayed, and so no more delivered texts, whatever is purged or fails in between |
| TransferRuns.EmptyStarts | src/driver-transfers/driver-transfers.service.ts:47-149 | the empty store meets every condition the transfer results start from |
| TableMoves.CodesMove | src/auth/auth.service.ts:476-909 | every call of the machine is one of six moves on the codes table: store, check, close requests, delete a user's, purge, or nothing |
| TableMoves.TokensMove | src/auth/auth.service.ts:107-382 | every call of the machine, including sign-ups and administrators' sign-ins, is one of a few moves on the refresh tokens |
| TableMoves.LinksMove | src/driver-transfers/driver-transfers.service.ts:47-266 | every call is one of a few moves on the transfers, texts and moves made |
| OtpCodes.AliveThroughCheck | src/auth/auth.service.ts:861-909 | checking a code gives the same live codes whether or not dead rows are still stored |
| OtpCodes.CheckSeesAliveOnly | src/auth/auth.service.ts:861-893 | which codes a guess is compared with, and whether it matches, depends on live codes only |
| OtpCodes.CooldownSeesAliveOnly | src/auth/auth.service.ts:604-619 | the cooldown depends only on codes still within the purge's grace period |
| OtpCodes.RequestSeesAliveOnly | src/auth/auth.service.ts:718-730 | the manager-request look-up depends on live codes only |
| SessionTokens.RefreshThroughRotate | src/auth/auth.service.ts:341-354 | rotation gives the same live tokens whether or not dead rows are still stored |
| Transfers.RequestsAgree | src/driver-transfers/driver-transfers.service.ts:61-93 | whether a text may be sent depends only on links kept by the purge |
| Transfers.OpenAgrees | src/driver-transfers/driver-transfers.service.ts:152-185 | whether a link is open depends only on links kept by the purge |
| CredentialServices.AuthService.IssueRefreshToken | src/auth/auth.service.ts:306-319 | stores a token with the lifetime of the user's role |
| CredentialServices.AuthService.IsCoolingDown | src/auth/auth.service.ts:604-619 | scans for a code of the phone and channel created within the last minute |
| CredentialServices.AuthService.RequestDriverOtp | src/auth/auth.service.ts:476-560 | the whole request in place: silent exits, review phone, manager route, cooldown, stored code, audit row |
| CredentialServices.AuthService.RequestThroughManager | src/auth/auth.service.ts:641-710 | the manager route: only the manager of the driver's current truck, in the same company, reachable by mail or button |
| CredentialServices.AuthService.FindOpenRequest | src/auth/auth.service.ts:718-730 | the newest live request of the driver to this manager |
| CredentialServices.AuthService.Manages | src/auth/auth.service.ts:733-759 | the requester is the active manager of the driver's current truck in the same company |
| CredentialServices.AuthService.DriverLoginCodeRequest | src/auth/auth.service.ts:766-774 | until when the driver's request is open, read-only |
| CredentialServices.AuthService.IssueDriverLoginCode | src/auth/auth.service.ts:782-844 | mints one code on an open request and closes the driver's requests to this manager |
| CredentialServices.AuthService.FindPending | src/auth/auth.service.ts:861-870 | the newest five unused, unexpired codes of the phone |
| CredentialServices.AuthService.Compare | src/auth/auth.service.ts:876-890 | separates spent codes from live ones and finds the first live code that matches |
| CredentialServices.AuthService.VerifyDriverOtp | src/auth/auth.service.ts:852-932 | the whole check in place: locks spent codes, counts a miss against every live code, burns all codes on success, issues a session |
| CredentialServices.AuthService.LoginByPassword | src/auth/auth.service.ts:226-251 | a session for a known, active, undeleted user with the right password |
| CredentialServices.AuthService.LoginAsAdmin | src/auth/auth.service.ts:107-127 | a session for an administrator with the right password |
| CredentialServices.AuthService.SignUpByLink | src/auth/auth.service.ts:130-224 | an invited user gets the password, or a company its team lead under a free e-mail; either gets a session |
| CredentialServices.AuthService.RefreshSession | src/auth/auth.service.ts:335-369 | the rotation with its 60 s grace window and the user checks after it |
| CredentialServices.AuthService.RevokeRefresh | src/auth/auth.service.ts:372-382 | ends the presented token now |
| CredentialServices.AuthService.RequestPasswordReset | src/auth/auth.service.ts:943-974 | stores a reset link only for a user with a password; the answer never tells |
| CredentialServices.AuthService.ResetPasswordByLink | src/auth/auth.service.ts:976-1009 | sets the password, spends the link and ends every session of the user |
| CredentialServices.UsersService.DeactivateUser | src/users/users.service.ts:707-731 | switches the account off and ends its sessions |
| CredentialServices.UsersService.ActivateUser | src/users/users.service.ts:597-632 | switches the account on unless it is erased |
| CredentialServices.UsersService.EraseRowsOf | src/users/users.service.ts:655-672 | releases the truck and deletes the user's tokens, codes and reset links |
| CredentialServices.UsersService.DeleteOwnAccount | src/users/users.service.ts:634-689 | refuses the last admin of a company, otherwise erases the account and keeps phone and e-mail unique |
| CredentialServices.DriverTransfersService.CreateDriver | src/users/users.service.ts:148-194 | adds a driver, with a password if given, or asks a driver of another company for a transfer |
| CredentialServices.DriverTransfersService.MayTextNow | src/driver-transfers/driver-transfers.service.ts:61-93 | the resend pause and both sliding-window caps |
| CredentialServices.DriverTransfersService.Request | src/driver-transfers/driver-transfers.service.ts:47-149 | expires older links of the pair, stores the new one, and drops it again if the text fails, unless dropping fails too |
| CredentialServices.DriverTransfersService.FindOpen | src/driver-transfers/driver-transfers.service.ts:152-185 | an open link whose driver and company still fit |
| CredentialServices.DriverTransfersService.LookupByLink | src/driver-transfers/driver-transfers.service.ts:188-200 | shows an open link, changes nothing |
| CredentialServices.DriverTransfersService.AcceptByLink | src/driver-transfers/driver-transfers.service.ts:202-257 | moves the driver, releases the truck, closes the driver's other links |
| CredentialServices.DriverTransfersService.DeclineByLink | src/driver-transfers/driver-transfers.service.ts:259-266 | marks an open link declined |
| CredentialServices.RetentionService.PurgeAll | src/maintenance/retention.service.ts:44-145 | does nothing while another purge runs; otherwise each step that does not fail takes exactly the codes, sessions and reset links that expired or were used or revoked over 24 hours ago, the transfers that expired or were answered over 30 days ago, the addresses of entries older than 90 days, and reports how many that were; a failed one changes nothing and reports 0 |
| CredentialServices.RetentionService.RunSteps | src/maintenance/retention.service.ts:53-131 | the five steps in order, each of which may fail alone |
| CredentialServices.Database.UpdateOtps | src/auth/auth.service.ts:879-897 | an update of many rows visits every row once |
| ChatRuns.OneChatAlways | src/messages/trip-chat-sessions.service.ts:96-280 | in every state of every run a trip has at most one open session, which speaks for its current driver and manager; its sessions do not overlap; every message falls inside its own session; nothing said is lost or moved |
| ChatRuns.StepKeeps | src/trips/trips.service.ts:152-1505 | every single call – create, status, driver, manager, truck with any strategy, truck edit with its cascade, broadcast, message, read marks – keeps all of that, and posts only into sessions still open when it ends |
| ChatRuns.ReopenKeeps | src/messages/trip-chat-sessions.service.ts:113-224 | closing and reopening a chat keeps the session chain and posts exactly one line, into the new session |
| ChatRuns.ResettleKeeps | src/trips/trips.service.ts:571-680 | a truck change with either strategy keeps the chats of both trips sound |
| ChatRuns.CascadeKeeps | src/trucks/trucks.service.ts:394-415 | handing all open trips of a truck to a new manager keeps every chat sound, trip by trip |
| ChatRuns.CascadeRows | src/trucks/trucks.service.ts:394-415 | a truck's new manager takes over exactly its open trips of other managers; no other trip changes |
| ChatRuns.SessionTellsThePair | src/messages/trip-chat-sessions.service.ts:13-19 | a message's session has the driver and manager the trip had when the message was posted |
| ChatRuns.LiveChatIsHistory | src/messages/trip-chat-sessions.service.ts:42-74 | a requester who is not an admin sees exactly the trip's messages posted while they held the part in the trip that they hold now; an admin sees all; nobody else sees any |
| ChatRuns.DriverSeesTheirTime | src/messages/trip-chat-sessions.service.ts:42-74 | the current driver sees exactly the messages posted while they drove the trip |
| Replies.RepliesNeverLeave | src/common/utils/reply-targets.ts:27-91 | in every reachable state following replies, through messages and files, never leaves the trip; through messages alone it never leaves the session and never loops |
| Replies.SenderTakesPart | src/messages/messages.service.ts:37-91 | whoever gets a message sent takes part in the open session it lands in, and the call adds nothing but that message |
| Replies.ConfinedAlways | src/common/utils/reply-targets.ts:27-61 | every run keeps every quote inside its trip, and message quotes inside their session |
| TripWrites.NewTripHasItsChat | src/trips/trips.service.ts:152-191 | each refusal's condition on the rows; otherwise the trip stands last, assigned, and one session of its pair is added |
| TripWrites.DriverHandover | src/trips/trips.service.ts:460-495 | each refusal's condition on the rows; otherwise the trip has the driver and, if that is a change, its chat ends and one with the new driver begins with one line; nothing else changes |
| TripWrites.ManagerHandover | src/trips/trips.service.ts:933-966 | the same for a manager, anyone of the company but a driver |
| TruckCalls.TruckHandover | src/trucks/trucks.service.ts:165-415 | the edited truck has what the edit names, the driver it names leaves the first other truck they were on, and no other truck changes; a new manager takes over exactly the truck's open trips of others, each with a new chat, and every other trip and chat stays |
| TruckCalls.TruckEditAnswers | src/trucks/trucks.service.ts:165-175 | each refusal of an edit and its condition on the rows, with the number of the truck that has the plate |
| TruckCalls.CascadeOnRows | src/trucks/trucks.service.ts:394-415 | the loop over open trips: which trips and chats change hands and which stay as they are |
| TruckCalls.NewTruckOnRows | src/trucks/trucks.service.ts:46-108 | each refusal of a new truck and its condition on the rows; otherwise the truck is added |
| TruckCalls.DriverCardOnRows | src/users/users.service.ts:329-367 | each refusal; otherwise the driver is on the named truck and on no other, and nothing else changes |
| TruckCalls.TruckChangeAnswers | src/trips/trips.service.ts:536-600 | a truck change goes through if and only if the trip is found in scope and stands on the truck already, or the truck is of its company and has a driver and, where another open trip stands on it, a strategy is given and a swap finds a driver on the old truck; each refusal's condition, with the newest such trip named, and that it changes nothing |
| TruckCalls.TruckChangeOnRows | src/trips/trips.service.ts:601-750 | what a change that goes through leaves: the trip on the truck with its driver, assigned, in a new chat; the other trip moved back likewise or delivered; both trucks' managers; who is told; nothing else |
| TruckCalls.AnnounceOnRows | src/trips/trips.service.ts:777-815 | one line into the chat of the truck's newest open trip, if the truck has a driver and that trip a chat |
| TripWrites.StatusOnRows | src/trips/trips.service.ts:1117-1149 | which trip a status is taken for, from the office and from the driver, and that it is stored as given, or the trip left alone if none is |
| TripWrites.HidingOnRows | src/trips/trips.service.ts:1391-1413 | each refusal of hiding a trip and its condition |
| ChatCalls.PostingOnRows | src/messages/messages.service.ts:37-91 | a message is accepted if and only if the trip is there and not deleted, the sender is its driver, still of its company, or its manager, it has a chat, a quoted message sits in that chat and a quoted file in the trip; it is stored last, unread, with its quotes; each refusal leaves everything |
| ChatCalls.ReadingOnRows | src/messages/messages.service.ts:527-588 | a message becomes read if and only if it was unread, was not sent by the reader and sits in a session of the trip whose driver or manager is the reader; a file, if it was unread, not uploaded by the reader, and of the trip, which is now theirs; nothing else changes |
| ChatCalls.UploadOnRows | src/documents/documents.service.ts:31-180 | each refusal of an upload and its condition; otherwise all files are added, unread and with their quotes |
| ChatCalls.DocDeletionOnRows | src/documents/documents.service.ts:205-268 | each refusal of deleting a file and its condition on trips, sessions and trucks |
| TruckCalls.CompletingEndsTheOther | src/trips/trips.service.ts:625-630 | with COMPLETE_OTHER the trip in the way is delivered and no session of it is left open |
| TripWrites.BroadcastReachesEach | src/trips/trips.service.ts:1415-1505 | exactly one line into the open chat of every open trip on the sender's trucks, and nothing else |
| TripWrites.ReopenOnRows | src/messages/trip-chat-sessions.service.ts:113-224 | the trip's open session ends now, one of the new pair is added with one line, and no other session, trip or message changes |
| TripWrites.SwapsHappen | src/trips/trips.service.ts:571-680 | a concrete pair of trips that swaps and swaps back, so the conditions of the swap results do occur |
| TruckSwaps.SwapExchanges | src/trips/trips.service.ts:571-680 | a swap exchanges the two trips' trucks, gives each the driver of its new truck, keeps both managers, hands each truck to the manager of the trip now on it, and touches nothing else |
| TruckSwaps.SwapBackRestores | src/trips/trips.service.ts:571-732 | swapping there and back restores everyone's place if and only if both trips were aligned with their trucks and the trip swapped away is the newest open one on the truck it went to |
| TruckSwaps.OneTripPerTruckSwapsBack | src/trips/trips.service.ts:571-732 | when no other open trip stands on the first truck and both trips are aligned, swapping back is always allowed and restores everything |
| TruckSwaps.ManagersConserved | src/trips/trips.service.ts:672-732 | the multiset of truck managers is kept if and only if – without a swap – the trip's manager managed its old truck and the new truck had a manager, or – with a swap – the two trips' managers are the two trucks' managers |
| TruckSwaps.SyncTrucks | src/trips/trips.service.ts:696-770 | exactly the two trucks change manager; the old truck keeps its own when there is nobody to give it to |
| TruckSwaps.SettledTrips | src/trips/trips.service.ts:601-669 | which trips a truck change rewrites, and how, for each strategy |
| Fleet.CardsAgree | src/trucks/trucks.service.ts:181-206 | putting a driver on a truck from the truck card and from the driver card leave the same assignment, and so do the two ways of clearing it |
| Fleet.CardsAlwaysAgree | src/users/users.service.ts:329-367 | so they do from every reachable state |
| Fleet.SoundAlways | src/trucks/trucks.service.ts:90-206 | in every run no driver is on two trucks, no two trucks of a company share a plate, and every trip is on a truck of its own company |
| Fleet.EditRowSound | src/trucks/trucks.service.ts:90-206 | an edit with a free plate keeps all that |
| Fleet.FromTheTruckCard | src/trucks/trucks.service.ts:181-206 | the truck card keeps the assignment injective and puts the driver on the truck |
| Fleet.FromTheDriverCard | src/users/users.service.ts:329-367 | the driver card, an accepted transfer and an account deletion keep the assignment injective |
| UnreadBadges.ReadingClearsTheBadge | src/messages/messages.service.ts:527-588 | in every reachable state, when someone not an admin marks a trip read, their badge for it becomes 0, their other badges stay, and their total drops by exactly what it showed – for the office and the driver's summary |
| UnreadBadges.NoBadgeRises | src/messages/messages.service.ts:527-588 | nobody's badge rises because someone reads |
| UnreadBadges.OthersLoseWhatWasRead | src/messages/messages.service.ts:527-588 | when someone reads a trip, any viewer's badge falls by exactly the rows it counted that were the reader's to read |
| UnreadBadges.BadgeOnRows | src/messages/messages.service.ts:274-351 | a trip's badge is the number of rows that meet conditions spelled out on trips, sessions, messages and files |
| UnreadBadges.TotalIsSumOfTrips | src/messages/messages.service.ts:274-351 | the unread rows counted at once are the trips' badges added up |
| UnreadBadges.DriverSummary | src/messages/messages.service.ts:412-516 | the driver's summary counts every unread row once, total = active + past, and tripUnread holds exactly the non-zero badges |
| UnreadBadges.OfficeSummary | src/messages/messages.service.ts:263-404 | the total over trucks is every unread row once; each truck appears once, its figure is its active and past trips' together, and every trip with something unread is listed at its own truck |
| UnreadBadges.CountsAreTheBadges | src/messages/messages.service.ts:316-320 | the groups are exactly the trips with something unread, each once, with its badge |
| UnreadBadges.AddUp | src/messages/messages.service.ts:485-502 | the accumulation over the groups, row by row |
| TripServices.TripChatSessionsService.GetActiveSession | src/messages/trip-chat-sessions.service.ts:21-28 | the trip's session without an end, if any |
| TripServices.TripChatSessionsService.GetVisibleSessionIds | src/messages/trip-chat-sessions.service.ts:42-74 | exactly the sessions the live chat may show, each once |
| TripServices.TripChatSessionsService.OpenInitial | src/messages/trip-chat-sessions.service.ts:96-105 | a new trip's first session |
| TripServices.TripChatSessionsService.CloseAndOpenNew | src/messages/trip-chat-sessions.service.ts:113-224 | ends the active session, opens one for the new pair and announces it there |
| TripServices.TripChatSessionsService.PostSystemMessage | src/messages/trip-chat-sessions.service.ts:234-266 | a line into the active session, if there is one |
| TripServices.TripChatSessionsService.CloseActive | src/messages/trip-chat-sessions.service.ts:269-280 | ends the active session, if there is one |
| TripServices.TripsService.Create | src/trips/trips.service.ts:152-217 | a trip of a driver and a truck of the company, with its chat |
| TripServices.TripsService.SetStatus | src/trips/trips.service.ts:407-416 | of the trip, truck and chat rows only the status changes; the chat stays open even when delivered |
| TripServices.TripsService.DriverSetsStatus | src/trips/trips.service.ts:1117-1149 | the same, for the driver who still belongs to the trip's company |
| TripServices.TripsService.GiveToDriver | src/trips/trips.service.ts:460-524 | a new driver gets the trip and a new chat; the same driver changes nothing |
| TripServices.TripsService.GiveToManager | src/trips/trips.service.ts:933-966 | a new manager gets the trip and a new chat; the same manager changes nothing |
| TripServices.TripsService.GiveToTruck | src/trips/trips.service.ts:536-683 | every branch of a truck change in place, as TruckCalls.TruckChangeAnswers and TruckCalls.TruckChangeOnRows state it |
| TripServices.TripsService.SettleTrips | src/trips/trips.service.ts:601-641 | the trip moves, and the one in its way moves back or is delivered |
| TripServices.TripsService.MoveTripToTruck | src/trips/trips.service.ts:855-877 | new truck and driver, status back to assigned, a new chat |
| TripServices.TripsService.SyncTruckOwnership | src/trips/trips.service.ts:696-750 | each of the two trucks goes to its trip's manager, with an announcement |
| TripServices.TripsService.AnnounceTruckManager | src/trips/trips.service.ts:777-815 | a line into the chat of the truck's newest open trip |
| TripServices.TripsService.Remove | src/trips/trips.service.ts:1391-1413 | hides a trip; a plain manager only on their own truck |
| TripServices.TripsService.BroadcastToMyTrucks | src/trips/trips.service.ts:1415-1505 | one line per open chat on the sender's trucks, and how many there were |
| TripServices.Store.FindNewestOpen | src/trips/trips.service.ts:571-583 | the newest open trip on a truck, other than a given one |
| TripServices.TrucksService.FindPlateOwner | src/trucks/trucks.service.ts:90-108 | the company's truck with this plate, other than a given one |
| TripServices.TrucksService.Create | src/trucks/trucks.service.ts:46-57 | a truck with a plate free in its company and people of it; a driver already on a truck is refused |
| TripServices.TrucksService.Update | src/trucks/trucks.service.ts:165-442 | plate, driver, manager and the cascade to open trips, with their refusals in order |
| TripServices.TrucksService.Attach | src/trucks/trucks.service.ts:181-206 | the driver leaves the truck they were on, then takes this one |
| TripServices.TrucksService.HandOver | src/trucks/trucks.service.ts:394-415 | the loop over open trips |
| TripServices.UsersService.AssignTruckFromCard | src/users/users.service.ts:329-367 | the driver leaves every truck, then takes the given one |
| TripServices.MessagesService.Create | src/messages/messages.service.ts:37-91 | who may write, into which session, quoting what |
| TripServices.MessagesService.MarkTripRead | src/messages/messages.service.ts:527-588 | marks read, and returns once each, exactly the unread messages of others in the reader's sessions of the trip, and the unread files of others if the trip is the reader's now |
| TripServices.DocumentsService.IsOpenTo | src/common/utils/access.ts:42-101 | who may upload to a trip |
| TripServices.DocumentsService.UploadMany | src/documents/documents.service.ts:31-180 | all files of an album are added to a trip open to the uploader, quoting only what the active chat may quote, or none is |
| TripServices.DocumentsService.ShowsDocs | src/documents/documents.service.ts:245-268 | who may see a trip's files: past drivers and the truck's present driver included |
| TripServices.DocumentsService.Remove | src/documents/documents.service.ts:205-238 | a file one may see, a driver only their own, is marked deleted |
| DepartPrompts.AsksAreNumbered | src/trips/trips.service.ts:1176-1204 | with any number of servers reading and claiming in any order, the questions put about a trip between two fresh starts of its counter are numbered 1, 2, … once each and in order, at most 3 |
| DepartPrompts.AsksOnlyAboutAccepted | src/trips/trips.service.ts:1188-1204 | a question is put only by a successful claim, about a trip accepted and not deleted at that moment; one step puts at most one |
| DepartPrompts.QuestionsWaitIfDue | src/trips/trips.service.ts:1188-1292 | a question whose pending time is still set when it is claimed is put at least 20 minutes after the last question or "No" if and only if that time has come – what the sweep tests and the claim does not; then it is also 20 minutes after the last question |
| DepartPrompts.RepeatsWait | src/trips/trips.service.ts:1283-1311 | also where that time was cleared in between: a repeated question comes at least 20 minutes after the one before if the counter did not start over between the server's read and its claim |
| DepartPrompts.StaleSweepAsksAtOnce | src/trips/trips.service.ts:1283-1311 | neither condition can be dropped: a run in which questions 1 and 2 are put a millisecond apart |
| DepartPrompts.SortingFindsCurrent | src/trips/trips.service.ts:265-279 | the first of the driver's open trips sorted by progress is a current one in the sense the look-ups use |
| DepartPrompts.ClaimsAreCurrent | src/trips/trips.service.ts:1159-1204 | a server sets out to ask only about a trip that is, at that step, the current one of its driver: after a status change one just accepted and never asked about, in a sweep one read with fewer than three questions |
| DepartPrompts.SweptTrip | src/trips/trips.service.ts:1283-1311 | what a swept trip comes to at that server's next step, whatever others do before: a fresh start if it was not current, the end if it was asked three times, otherwise the next question if the row still stands as read |
| DepartPrompts.SweepReadsTheDue | src/trips/trips.service.ts:1283-1295 | a sweep takes up exactly the accepted, undeleted trips whose time has come, each once and as it stands |
| DepartPrompts.StatusMovesTheQuestion | src/trips/trips.service.ts:1117-1174 | what each status does to a pending question and its counter, and when a look-up and a question follow |
| DepartPrompts.NoPostpones | src/trips/trips.service.ts:1231-1281 | a "No" puts the question off by 20 minutes, or ends it after the third |
| DepartPrompts.SpacedAlways | src/trips/trips.service.ts:1159-1311 | every run keeps a pending question exactly 20 minutes after the last question or "No" |
| TripOrder.SortByProgress | src/trips/trip-order.ts:29-38 | a permutation, further along first and older first among equals |
| TripOrder.FurtherAlongLeads | src/trips/trip-order.ts:22-38 | loaded leads on site, on the way, accepted and assigned, in this order; of two level trips the older leads |
| TripOrder.OrderIsUnique | src/trips/trip-order.ts:29-38 | when no two trips are level that order is the only one |
| TripOrder.CurrentLeads | src/trips/trip-order.ts:41-45 | a truck with trips shows exactly one, and no other trip is ahead of it |
| AlarmTime.NextFireTime | src/alarms/alarm-time.ts:24-44 | terminates, answers nothing only for a one-off alarm, and otherwise the first step after now, of one day for a daily alarm and seven for a weekly one |
| AlarmTime.StepGoesByDays | src/alarms/alarm-time.ts:31-41 | a step goes to the same wall-clock reading that many days on |
| AlarmTime.FirstAfterIsUnique | src/alarms/alarm-time.ts:24-44 | there is only one such step |
| AlarmTime.StepKeepsWallTime | src/alarms/alarm-time.ts:34-42 | a step keeps the wall-clock time if and only if the reading it aims at is not in a gap |
| AlarmTime.TimeOfDayKept | src/alarms/alarm-time.ts:34-42 | k steps all keep the time of day if and only if none of their readings is in a gap |
| AlarmTime.ClosedForm | src/alarms/alarm-time.ts:24-44 | with no gap on the way the next ring is the reading k periods on, for the least k that lies after now |
| AlarmTime.GapShiftsForGood | src/alarms/alarm-time.ts:34-42 | a daily alarm that lands in a gap stays off by the gap on every later day |
| Alarms.CheckKeeps | src/alarms/alarms.service.ts:213-284 | after a check an alarm is no longer due, a recurring one waits for a later time than it rang for, and its rings so far are in rising order |
| Alarms.CheckOnRows | src/alarms/alarms.service.ts:213-284 | which alarms ring at a check, and what each kind waits for afterwards |
| Alarms.AlarmsService.CheckAlarms | src/alarms/alarms.service.ts:213-284 | every due alarm rings exactly once, in any order; others are untouched; nothing is due afterwards |
| Alarms.AlarmsService.Ring | src/alarms/alarms.service.ts:266-282 | one due alarm: on to its next time, or done |
| Alarms.AlarmsService.Update | src/alarms/alarms.service.ts:170-199 | only the creator; only a new time makes a sent alarm ring again |
| Alarms.AlarmsService.Remove | src/alarms/alarms.service.ts:202-210 | the creator or the target |
| SignedUrls.SupabaseStorage.SignPath | src/supabase-storage/supabase-storage.service.ts:375-410 | every URL returned belongs to the asked path; a display URL has more than 12 hours left, any other lasts as asked; the cache never exceeds 20 000 |
| SignedUrls.SignAnswers | src/supabase-storage/supabase-storage.service.ts:375-410 | when the cache answers, which bucket answer becomes found, missing or thrown, and exactly what is kept and forgotten |
| SignedUrls.SupabaseStorage.Keep | src/supabase-storage/supabase-storage.service.ts:398-408 | a new display URL is kept, dropping the oldest entry first when the cache is full |
| SignedUrls.SupabaseStorage.DeleteFile | src/supabase-storage/supabase-storage.service.ts:353-360 | forgets every non-empty name passed, the file's own and the further ones, and keeps every other with its URL |
| SignedUrls.EntrySurvives | src/supabase-storage/supabase-storage.service.ts:353-408 | while a cached URL may be reused, a call keeps it if and only if it neither deletes the file nor stores another one when the cache is full and the file is its oldest; of the stores only those taking a new place bring that nearer |
| SignedUrls.SameUrlAgain | src/supabase-storage/supabase-storage.service.ts:383-410 | over any run within its reusable time a file keeps its URL if and only if no call deletes it or pushes it out as the oldest of a full cache; while it does, asking gives that URL whatever the bucket would answer |
| SignedUrls.LastsExactly | src/supabase-storage/supabase-storage.service.ts:398-408 | in a run without deletions that is exactly until the files that took a new place have filled the room behind it and another is stored; reads of cached files and asks that sign nothing use no room |
| SignedUrls.FreshUrlLasts | src/supabase-storage/supabase-storage.service.ts:398-408 | a file signed for the first time keeps its URL through 19 998 new files and any number of renewals of others, or through 19 999 stores of others of either kind |
| SignedUrls.FitsLasts | src/supabase-storage/supabase-storage.service.ts:353-408 | deletions of other files only prolong that |
| SignedUrls.RenewedCanBeLostAtOnce | src/supabase-storage/supabase-storage.service.ts:398-408 | a renewed URL keeps its old place: for the oldest of 19 999 two new files are enough to lose it |
| SignedUrls.NeverTooLarge | src/supabase-storage/supabase-storage.service.ts:398-403 | through any sequence of signing and deleting the cache holds at most 20 000 entries, each its own path's |
| InviteLinks.OneLeadPerLink | src/auth/auth.service.ts:166-201 | with any number of registrations and re-issues at once, a company link makes at most one team lead |
| InviteLinks.FailedCreateLeavesTheLink | src/auth/auth.service.ts:180-201 | a create that fails rolls the claim back: others can claim the link, and it is still found until it expires |
| InviteLinks.CreateEndsTheLink | src/auth/auth.service.ts:183-201 | after a create nobody who looked the link up before can claim it |
| InviteLinks.RegistrationOnRows | src/auth/auth.service.ts:134-201 | when a link is found, when it can be claimed, what a create makes of it, and what a re-issue does |
| InviteLinks.DrawKeeps | src/admin/admin.service.ts:388-400 | a re-issue draws a token no company and no lead ever had |

## Left out

- Transport and presentation: controllers, request validation, guards, throttling, sockets, push, mail, text messages,
  translations and logging; only that a question was put or a text was delivered is kept.
- Cryptography, password hashing and the choice of random codes and tokens.
- Image conversion, uploads to the bucket and the limit on concurrent conversions.
- The time-zone library: a zone is any offset function that varies by less than a day, with a resolution that picks a
  moment showing the reading if there is one. `parseAlarmTime` is taken as its resulting moment.
- Races between separate database statements, other than in `DepartPrompts` and `InviteLinks`.
- Drawing and looking up user invites, and the contact details a first team lead fills in; a sign-up takes the user or
  company its link stands for as given.
- Truck activation and trip notes and stops: they touch no row the results are about.
- Editing and deleting messages, reactions, groups, direct messages, ratings, announcements and statistics.
- Snippets, titles and sort order in the unread summaries: only their counts are modelled.
- Reply ids that are empty strings, which the checks let through as "no reply" and the database would refuse.
- The archive view of ended sessions; only the live view is modelled.
- TripServices.TripsService.SetStatus: does not hold the question counter and time it resets; they are in DepartPrompts.
- TripServices.TripsService.DriverSetsStatus: likewise.
- TruckSwaps.OneTripPerTruckSwapsBack: needs the first truck to be of the trip's company, which Fleet.SoundAlways proves
  of every reachable state.
- DepartPrompts.RepeatsWait: one direction only; where the pending time is still set, DepartPrompts.QuestionsWaitIfDue is
  the exact condition, and where it was cleared no row tells whether the last question was long enough ago.
- AlarmTime.ClosedForm: holds only while no reading on the way is in a gap; AlarmTime.GapShiftsForGood is a case where
  one is.
