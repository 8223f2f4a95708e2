# Portal state models

A Dafny model of the parts of the portal's backend that keep state under rules, and
proofs of what those rules promise over every run.

* **Price history** (`Downsample`, `PriceLog`, `MarketHistory`, `MarketSeries`,
  `MarketPromises`, `MarketRead`, `MarketLow`). A throttled stream of market points is
  folded raw to hourly to daily by a rollup that rereads only recent raw rows, pruned
  tier by tier and stitched back into one series. The store carries, as ghost state, the
  flat log of every point ever captured, and every claim is about that log. It also
  carries what it was sent and what it held after each capture: `MarketHistory.IsRun`
  says which sequences of contents are runs, and `Store.Traced` that the store's own is
  one. `MarketPromises` says in seconds and days what a reader of the tiers can rely on.
* **Quota ledgers** (`QuotaLedger` with `RefineryEvents`, `TransferEvents`,
  `GiftLimits`). Rolling-window caps with reservations that expire: one ledger over
  weights, three sets of rules.
* **Sign-in** (`PortalTables`, `PortalIdentity`, `PortalBackfill`, `PortalSteps`,
  `PortalSessions`, `PortalAccounts`, `PortalRuns`, `PortalHistory`, `PortalServer`).
  The older link table and the profile bindings mirror each other while callers edit one
  of them; owners are written once; versions on bindings end old sessions; credentials
  and one-use challenges. `PortalTables.Inv` is what holds in every reachable state: the
  tables mirror each other, an active binding's profile is the recorded owner, no
  session is ahead of its binding, every open session names a way in that its profile
  still has, tokens are unique, and active passkeys are eight at most.
  `PortalTables.Evolves` is what every step leaves in place. `PortalRuns.Op` lists every
  operation and `PortalRuns.Step` says what each does to the tables; `PortalRuns.IsRun`
  is any operations in any order from a migrated database, and the theorems about runs
  are over that. `PortalHistory` traces what a state relies on back to the operations on
  record: which one posed and which one verified the challenge behind a ticket, which
  one made a session, saw it and had it proved. `PortalServer.Portal` is the portal as
  it is called: a request with a token comes in through the session check, each
  operation is a transaction, and its `Valid` says that what was done so far is a run
  that ends in the present state.
* **Transfer relinking** (`TransferRelink`). Plans that re-point links along character
  transfers, and what is true when they have been applied.
* **Reports** (`ReportDelivery`). Window arithmetic and exactly-one-claimer delivery;
  the store's rows are always `ReportDelivery.Run` of everything it was asked.
* **Cache** (`SingleFlightCache`). Coroutines as interleaved steps over one store.
* **Chat pacing** (`ChatPacing`). Two brakes over stamps in whole seconds.

Conventions. A table is a map; a transaction is one method, and a failed one leaves the
database as it was. Where several statements of a transaction read the clock they read
the same time. Time is in whole seconds except in chat pacing, where the clock is a real
number. Random values are parameters that differ from all drawn before. A cap check
carries two clocks, because the window is computed before the write begins.

Each operation says twice what it does: once by the function it shares with the theorems
about runs, and once with the fields, statuses and limits of the tables written out
(`SessionOpened`, `PasswordChanged`, `WayLost`, `AccountLetGo`, `AccountTaken`,
`ProfileFounded`, `KeyRegistered`, `EditAllowed`, `EditDone`, `ItemWritten`, and
`Resolved` in each ledger); lemmas connect the two for all inputs.

Three claims turned out to hold only under a condition, and are stated with it. The caps
hold if and only if consuming verdicts arrive within the pending lifetime
(`QuotaLedger.CapsHoldIffVerdictsArePrompt`). On chains of transfers an identity can end
beyond the target of its own item (`TransferRelink.EveryoneArrives`,
`TransferRelink.ChainsOvershoot`). The seven-day low is the minimum over every capture
from the first hour boundary of the window if and only if the window starts on an hour
or before the beginning of time, or raw no longer holds the partial first hour, or the
last rollup is older than that hour (`MarketLow.KeepsPromise`,
`MarketLow.LowIsPlainIffKept`); which captures it counts at any moment is
`MarketLow.Low7dIsExact`, and `MarketLow.StaleLowCountsPartialHour` is the shortest
failure, through the reader itself.

Where `portal_gift_limits.py` describes a reused key as always let through, its code
checks the caps again for refused, failed and deferred rows; the model follows the code.

## Model

| member | source | states |
|---|---|---|
| Downsample.Bucket.Add | admin-backend/market_history.py:291-300 | after adding a row the bucket stands for the old rows plus this one; nulls are skipped column by column |
| Downsample.Bucket.Fold | admin-backend/market_history.py:302-313 | the folded row is the fold of every row added so far, and each of its fields is the statistic of its own column of those rows: the least price, the median, the rounded means, the number of samples |
| Downsample.FoldRowsIsFold | admin-backend/market_history.py:227-313 | column by column: the least price; the value with half of the others at most on either side, or for an even number the half-sum, rounded down, of the two in the middle; the nearest integer to the mean; none only for a column without values |
| Downsample.MedianIsOne | admin-backend/market_history.py:227-234 | by counts alone a list has one median |
| Downsample.FoldRowsPermutation | admin-backend/market_history.py:277-313 | a bucket folds to the same row whatever order its rows arrive in |
| Downsample.SortedUnique | admin-backend/market_history.py:227-234 | the sorted price list that the median reads is the one sorted arrangement of its bag |
| Downsample.FoldRowsTotals | admin-backend/market_history.py:302-313 | a fold keeps the sample count and the true minimum of its rows |
| PriceLog.RecomputeSince | admin-backend/market_history.py:389-399 | rereading only the rows past an aligned boundary recomputes exactly the buckets past it |
| PriceLog.Refresh | admin-backend/market_history.py:384-406 | replacing the buckets past an aligned boundary by their recompute turns the rollup of the old log into the rollup of the grown one |
| PriceLog.RecomputeConserves | admin-backend/market_history.py:277-313 | over any aligned stretch one rollup neither loses nor doubles a sample, and keeps the minimum |
| PriceLog.SpacedBound | admin-backend/market_history.py:336-348 | stamps more than ten minutes apart are at most (n+600)/601 in n seconds |
| MarketHistory.Aggregate | admin-backend/market_history.py:391-406 | the accumulation loop reads rows in any order and yields, per template and bucket, the fold of all rows of that bucket |
| MarketHistory.HourlyCatchesUp | admin-backend/market_history.py:389-406 | an hourly tier that matched the log at the last rollup matches the present log after the incremental refold |
| MarketHistory.DailyCatchesUp | admin-backend/market_history.py:407-432 | refolding only the days of touched hours brings the daily tier up to date |
| MarketHistory.NothingTouched | admin-backend/market_history.py:412-413 | when no hour was touched both coarser tiers were up to date already |
| MarketHistory.RefoldBoundary | admin-backend/market_history.py:384-389 | every raw row past the refold boundary is still stored and the log below it has not changed since the last rollup |
| MarketHistory.Store.Rollup | admin-backend/market_history.py:384-432 | both coarser tiers equal the full recompute from every point ever captured, cut at the last horizon |
| MarketHistory.Store.Prune | admin-backend/market_history.py:435-454 | exactly the rows older than 48 hours, 60 days and 365 days go, in seconds, and the counts dropped are right |
| MarketHistory.Store.MaybeRollup | admin-backend/market_history.py:368-381 | runs exactly when the hour, of 3600 seconds, has turned, and then rolls up and prunes everything captured so far |
| MarketHistory.Store.Capture | admin-backend/market_history.py:320-361 | stores, column for column, one point for the first row of every named template with no point in the last ten minutes, keeps every tier the recompute of the log, and is one step of a run |
| MarketHistory.RunIsSound | admin-backend/market_history.py:320-455 | over any run of captures from an empty file the log is throttled and has only grown since the last rollup, which no capture is an hour ahead of |
| MarketSeries.ClosedHourIsExact | admin-backend/market_history.py:320-455 | in any reachable state a retained hour before the last rollup has a row exactly when a point was ever captured in it, and the row is the fold of all of them |
| MarketSeries.ClosedDayIsExact | admin-backend/market_history.py:407-432 | the same two folds deep for a retained closed day |
| MarketPromises.HourInFull | admin-backend/market_history.py:227-455 | the row of an hour of the last sixty days, over at the last rollup, is there exactly when that hour has captures, and each field is the statistic of their column, the captures being listed by their stamps |
| MarketPromises.DayInFull | admin-backend/market_history.py:407-432 | the same for a day of the last year and the hours it had |
| MarketPromises.RawInFull | admin-backend/market_history.py:435-454 | raw holds every capture of the 48 hours before the last rollup, and every later one |
| MarketSeries.ClosedDayConserves | admin-backend/market_history.py:277-432 | a closed day counts every capture of that day once and carries their true minimum |
| MarketSeries.ThrottleBoundsSamples | admin-backend/market_history.py:54-336 | no hour ever shows more than 6 captures and no day more than 144 |
| MarketRead.Select | admin-backend/market_history.py:519-535 | one tier answers with the rows of the template in the range, oldest first, none missing |
| MarketRead.MinPrice | admin-backend/market_history.py:540-548 | the minimum ignores nulls and is none when nothing is priced |
| MarketRead.History | admin-backend/market_history.py:477-556 | points are ordered, no two cover the same instant, and none is older than 21 days, or than the days asked for; a capture is shown exactly when the start of its bucket is in the window, but for the gap in the detailed view, and the low is the least price of the last seven days in what it reads |
| MarketRead.EveryCaptureOnce | admin-backend/market_history.py:489-535 | from the first whole bucket of the window every capture is covered by one point, except those between the raw cut and the last prune, which are covered by none |
| MarketRead.GapIsShort | admin-backend/market_history.py:511-516 | that strip is shorter than an hour |
| MarketRead.ServedIsExact | admin-backend/market_history.py:519-535 | a point of the detailed view is the fold of every capture in the stretch it stands for |
| MarketRead.PlainCoversRolled | admin-backend/market_history.py:489-535 | in the plain view a capture from the first whole bucket on is covered exactly when its hour or day was rolled in, and every capture before the last rollup was |
| MarketRead.PlainIsExact | admin-backend/market_history.py:519-535 | a point of the plain view is the fold of everything rolled up in its stretch, which is every capture there once the stretch has closed |
| MarketLow.Low7dIsExact | admin-backend/market_history.py:537-550 | which captures the low is the minimum of, for every interleaving of captures, rollups and prunes |
| MarketLow.Low7dFromHourBoundary | admin-backend/market_history.py:537-550 | under the exact condition on clock and last rollup the low is the minimum over every capture from the first hour boundary of the seven days on |
| MarketLow.LowIsPlainIffKept | admin-backend/market_history.py:368-550 | over all runs and templates that is so if and only if the condition holds; where it fails, one priced capture in the partial hour shows it |
| MarketLow.StaleLowCountsPartialHour | admin-backend/market_history.py:537-550 | one capture, no rollup since: the reader reports a price from before the first hour boundary |
| QuotaLedger.SumLive | admin-backend/portal_refinery_events.py:151-167 | the loop over the table computes the weight of all counting rows of the selection |
| QuotaLedger.NeverOverCap | admin-backend/portal_refinery_events.py:151-310 | in every run whose consuming verdicts arrive within the pending lifetime, no window anywhere holds more consumed weight than either cap, for any group of keys that is always checked together |
| QuotaLedger.CapsHoldIffVerdictsArePrompt | admin-backend/portal_refinery_events.py:63-310 | the caps hold over all runs if and only if no consuming verdict is later than the pending lifetime; the failing run fills the cap, lets it expire, and settles everything |
| QuotaLedger.VerdictsAreFinal | admin-backend/portal_refinery_events.py:283-306 | an applied or replayed row is never altered by any later reserve, refusal or verdict |
| QuotaLedger.ReserveKeepsCaps | admin-backend/portal_refinery_events.py:202-251 | a reservation decided on what the check summed keeps both caps in every window |
| QuotaLedger.PendingElsewhere | admin-backend/portal_refinery_events.py:12-16 | a reservation leaves every counter that does not select it as it was |
| QuotaLedger.StrandedReservationLapses | admin-backend/portal_refinery_events.py:27-32 | once expired, a reservation takes nothing from any allowance |
| QuotaLedger.AllowanceReturns | admin-backend/portal_refinery_events.py:190-224 | one window after the last row any request within the caps passes |
| QuotaLedger.RefusedKeyIsNew | admin-backend/portal_refinery_events.py:204-229 | a key that was refused, failed or put off is decided as if it had never been used |
| QuotaLedger.AnsweredKeyIsKnown | admin-backend/portal_refinery_events.py:202-210 | a key that is pending, applied or replayed passes as it is |
| RefineryEvents.Events.CheckAndReserve | admin-backend/portal_refinery_events.py:170-274 | a pending, applied or replayed key passes; any other, new or refused or failed or deferred, is weighed against 250 units of its tier in seven days, and ends as a refusal or as a pending row with what was asked; the answer carries the total as the table then stands |
| RefineryEvents.Events.Settle | admin-backend/portal_refinery_events.py:277-310 | closes only a pending row and stamps only listed columns |
| RefineryEvents.WeeklyDustCap | admin-backend/portal_refinery_events.py:48-310 | no seven days of any run hold more than 250 units of one tier under one identity, given prompt verdicts |
| TransferEvents.Events.CheckAndReserve | admin-backend/portal_transfer_events.py:149-259 | the same against 30 of a sender and then 15 between two identities in 24 hours, with the answers and retry times of either |
| TransferEvents.Events.Settle | admin-backend/portal_transfer_events.py:262-295 | closes only a pending row; the first of a column's names present is stamped |
| TransferEvents.DailyCaps | admin-backend/portal_transfer_events.py:51-295 | at most 30 transfers of a sender and 15 between two identities in any 24 hours of a run, given prompt verdicts |
| GiftLimits.Events.CheckAndReserve | admin-backend/portal_gift_limits.py:174-289 | as for transfers with the configured caps, except that a gift to oneself always passes |
| GiftLimits.Events.Settle | admin-backend/portal_gift_limits.py:292-310 | closes only a pending row; an unknown status is refused by the table |
| GiftLimits.DailyCaps | admin-backend/portal_gift_limits.py:60-310 | applied gifts stay within both caps in any 24 hours of a run, given prompt verdicts; replays and gifts to oneself are not counted |
| QuotaLedger.ExemptIsFree | admin-backend/portal_gift_limits.py:27-31 | a gift to oneself passes and leaves every total as it was |
| PortalIdentity.SourceLinks | admin-backend/portal_identity.py:62-85 | accepts exactly a hundred thousand rows at most, each with a positive number, a positive account and an identity of one to twenty digits, no identity twice on an account and one active link an account |
| PortalIdentity.BeginLegacyLinks | admin-backend/portal_identity.py:318-336 | opens a transaction and remembers the links, or leaves nothing open |
| PortalIdentity.FinishLegacyLinks | admin-backend/portal_identity.py:339-411 | whatever the caller did to the links, it is accepted exactly when no row is lost, every altered row is and stays the identity's on its account, and accounts are given only under the stated conditions; then each altered row is the profile's binding under a new version, owners are recorded for what was given and nothing else, or everything since begin is undone |
| PortalIdentity.AcceptableIsAllowed | admin-backend/portal_identity.py:344-384 | the checks in the order they are made come to the rule row by row |
| PortalIdentity.CarriedMirror | admin-backend/portal_identity.py:380-406 | links and bindings correspond one to one after the change: same account, same identity, same stamps, active together |
| PortalIdentity.FinishedKeeps | admin-backend/portal_identity.py:339-411 | an accepted change keeps the whole invariant, raises every touched version, writes owners once and revives no session |
| PortalIdentity.ClaimsHold | admin-backend/portal_identity.py:386-391 | after the change the profile of every active binding is the recorded owner |
| PortalBackfill.Backfill | admin-backend/portal_identity.py:127-193 | succeeds exactly where the links are sound and of each identity and each link everything is there or there is room for it; then each identity has one enabled profile and a live provider and each link its field-equal binding, new ones at version 1, and otherwise nothing happened; run on its own result it succeeds and changes nothing |
| PortalBackfill.MigratableCan | admin-backend/portal_identity.py:62-180 | what the checks accept is that rule, link by link |
| PortalBackfill.MigratedIsSound | admin-backend/portal_identity.py:127-193 | a migrated database satisfies the invariant from which every run starts |
| PortalRuns.OwnershipIsForever | admin-backend/portal_credentials.py:135-140 | over any run of operations a recorded owner, also a null one, never changes, and whoever holds an account is its owner |
| PortalRuns.ChargedToOne | admin-backend/portal_identity.py:259-266 | over any run an account is charged to the allowance of one identity, once and for all |
| PortalTables.ChangeLeavesBehind | admin-backend/portal_credentials.py:796-804 | whatever unlinks, relinks or changes a binding leaves every session on it behind that does not move in the same step |
| PortalRuns.StepKeeps | admin-backend/portal_credentials.py:101-112 | each of the nineteen operations keeps the invariant and everything that must stay in place, and all but the relinking of transfers leave stale sessions stale |
| PortalRuns.RunIsHistory | admin-backend/portal_credentials.py:101-112 | the invariant holds at every state of every run |
| PortalRuns.LeftBehindNeverOpens | admin-backend/portal_credentials.py:389-391 | a session left behind by a change to its binding opens nothing at any later state of a run, unless a transfer moves that very account |
| PortalRuns.DeadTokensStayDead | admin-backend/portal_credentials.py:379-381 | over any run a token that stopped opening a session never opens one again |
| PortalRuns.RetiredForGood | admin-backend/portal_credentials.py:446-502 | a token replaced by a change of password, a new passkey or a switch of account opens no session at any later state |
| PortalRuns.NeverLockedOut | admin-backend/portal_credentials.py:462-468 | over any run a profile that can sign in can always sign in |
| PortalRuns.FiveTries | admin-backend/portal_credentials.py:309-322 | over any run at most five codes are judged against a challenge |
| PortalRuns.NoneAfterSuccess | admin-backend/portal_credentials.py:313-315 | after a success no code is judged against the challenge again |
| PortalRuns.UsedOnce | admin-backend/portal_credentials.py:299-306 | over any run a challenge is used up once, so one verified game code makes one link or one profile at most, and nothing is judged against it afterwards |
| PortalRuns.LaterMigrationIsIdle | admin-backend/portal_identity.py:127-193 | at any state of a run a migration that is possible has nothing left to do |
| PortalHistory.TicketsServeTheirBrowser | admin-backend/portal_credentials.py:290-322 | over any run whatever uses a game code was preceded by the operation that posed it for this very browser, purpose and profile and by one that found the right code within five minutes of that and at most ten minutes before; and the account it gives is the one named when it was posed, held from then on and by nobody else before |
| PortalHistory.AnsweredAsPosed | admin-backend/portal_credentials.py:290-306 | over any run whatever judges, spends or uses a challenge comes from the browser it was posed to, for the purpose and profile it was posed for; codes within five minutes |
| PortalHistory.EveryChallengeIsAccounted | admin-backend/portal_credentials.py:271-322 | at every state of a run each challenge is as it was posed, good until five minutes after that, or ten after it was verified |
| PortalHistory.StepGivesChallenge | admin-backend/portal_credentials.py:271-322 | each of the nineteen operations poses a challenge, counts a try, marks it as used, or leaves it alone |
| PortalHistory.StepGivesSession | admin-backend/portal_credentials.py:344-504 | each of them makes a session for thirty days, renews its token, its proof or the time it was seen, or leaves those alone |
| PortalHistory.OpensExactly | admin-backend/portal_credentials.py:374-400 | at any state of a run a token opens a session exactly when that has the token, has not ended, was seen within seven days, is not past its end, and its profile is enabled and holds its account at its version |
| PortalHistory.OpensWithItsWay | admin-backend/portal_credentials.py:331-341 | and whoever is let in has a way in that the profile still has |
| PortalHistory.IdleOpensNothing | admin-backend/portal_credentials.py:379-388 | a session idle for more than seven days, past its end or of a disabled profile opens nothing, whatever the token |
| PortalHistory.LetInWasSeen | admin-backend/portal_credentials.py:374-400 | over any run a request that is let in follows, within thirty days, the sign-in that made its session and, within seven, that sign-in or a request let in by it |
| PortalHistory.ChangesFollowProof | admin-backend/portal_credentials.py:403-410 | over any run whoever changes a name, a password, a way in or an account does so by an open session of the profile that a sign-in or a change of password on record proved at most ten minutes before |
| PortalHistory.HoldersInFull | admin-backend/portal_identity.py:127-193 | at every state an account has one holder at most, who is its recorded owner, and every link is the binding of the profile of its identity, with the same stamps |
| PortalHistory.WaysInFull | admin-backend/portal_credentials.py:607-612 | at every state eight passkeys and one Discord identity a profile at most, no name and no token twice, no session ahead of its binding |
| PortalHistory.AlwaysAWayIn | admin-backend/portal_credentials.py:462-468 | a profile with a way in has one at every later state |
| PortalHistory.ChangeShutsOut | admin-backend/portal_credentials.py:389-391 | once a binding was given up or taken back, a session that has not moved opens nothing on it |
| PortalServer.Portal.SwitchSession | admin-backend/portal_credentials.py:374-504 | a request comes in exactly by a usable session, succeeds exactly as the operation says, and adds what was done to the run |
| PortalServer.Portal.UnlinkAccount | admin-backend/portal_credentials.py:374-810 | the same for giving up an account |
| PortalServer.Portal.LinkVerifiedGame | admin-backend/portal_credentials.py:374-793 | the same for linking by a verified code |
| PortalServer.Portal.VerifyGameCode | admin-backend/portal_credentials.py:309-322 | a code is on record as judged exactly when it was, right or wrong |
| PortalServer.Portal.FinishRegistration | admin-backend/portal_credentials.py:620-636 | the challenge is on record as spent whatever becomes of the attempt, the passkey only when it is stored |
| PortalServer.Portal.EditLinks | admin-backend/portal_identity.py:318-411 | any rewriting of the links between begin and finish is one step of the run when it is accepted, and none when it is not |
| PortalServer.Portal.ApplyItem | admin-backend/portal_transfer_relink.py:121-168 | so is an item of a transfer plan |
| PortalTables.EvolvesChain | admin-backend/portal_credentials.py:101-112 | what every step leaves in place is left in place by any sequence of steps |
| PortalSessions.ViewIsBinding | admin-backend/portal_credentials.py:80-93 | under the invariant the cross-checks of the identity view hold exactly for active bindings of enabled profiles |
| PortalSessions.OpenSession | admin-backend/portal_credentials.py:374-400 | a token opens its session exactly when that was seen within seven days, has not ended, is not past its end, and its profile is enabled and holds the account at the version it is good for; only the time last seen is written, when a minute has passed |
| PortalSessions.UsableIsLasting | admin-backend/portal_credentials.py:374-400 | under the invariant the way in, the owner and the link need no further check |
| PortalSessions.RecentIsProved | admin-backend/portal_credentials.py:403-410 | a recent proof is one of ten minutes at most, by an open session of the profile under its own token |
| PortalSessions.SetPassword | admin-backend/portal_credentials.py:432-452 | succeeds exactly under a proof of ten minutes at most and a free name; the password has the next version, one session is left, under a new token and newly proved, and the old token opens nothing |
| PortalSessions.SetUsername | admin-backend/portal_credentials.py:688-695 | succeeds exactly under a recent proof and a free name, and changes only the name, of whoever has sign-in data |
| PortalSessions.RevokeMethod | admin-backend/portal_credentials.py:462-490 | succeeds exactly when the profile has the way in and another one; that way alone is gone, exactly the sessions opened by it end, and with Discord the versions of the profile's bindings rise together with the sessions that were current |
| PortalSessions.DiscordRemovalKeepsCurrent | admin-backend/portal_credentials.py:473-479 | removing Discord keeps exactly the current ones of the surviving sessions current |
| PortalSessions.SwitchSession | admin-backend/portal_credentials.py:493-504 | moves an open session of the profile to an account it holds, under a new token and the version of that account; stale sessions stay stale exactly when the session that moves was not stale itself |
| PortalSessions.RevokeSession | admin-backend/portal_credentials.py:507-512 | ends exactly the named session of the same profile |
| PortalAccounts.CreateSession | admin-backend/portal_credentials.py:344-371 | succeeds exactly for an enabled profile, a way in it has now and an account it holds; the session is good for thirty days and for the present version of the account, which by default is the first one linked |
| PortalAccounts.FirstAccount | admin-backend/portal_credentials.py:352-354 | the earliest linked account in view, ties by number |
| PortalAccounts.DefaultIsEarliest | admin-backend/portal_credentials.py:352-354 | under the invariant the default is the earliest linked account that an enabled profile holds |
| PortalAccounts.LinkDiscord | admin-backend/portal_credentials.py:813-826 | links exactly an identity of one to twenty digits that is nobody else's, under a recent proof, when no other is linked |
| PortalAccounts.UnlinkAccount | admin-backend/portal_credentials.py:796-810 | gives up the binding and its link together, under a new version; the profile's other sessions on it end, and the asking one, if it was its own, moves to the first account left |
| PortalAccounts.LinkVerifiedGame | admin-backend/portal_credentials.py:768-793 | links exactly an account that is nobody else's by a ticket that was posed to this browser and profile for it and verified within ten minutes; the binding is new or comes back, the owner is recorded, the ticket spent |
| PortalAccounts.NewChallenge | admin-backend/portal_credentials.py:271-282 | stores an open challenge under a new name, good for five minutes, and clears out exactly those a day past |
| PortalAccounts.VerifyGameCode | admin-backend/portal_credentials.py:309-322 | judges a code exactly when the challenge was posed to this browser for this purpose and profile, is unused, in time, not yet verified and tried less than five times; the right six digits make it good for ten minutes, a wrong try is counted although the call fails, the fifth spends the challenge |
| PortalAccounts.ConsumeChallenge | admin-backend/portal_credentials.py:299-306 | spends exactly a challenge posed to this browser for this purpose and profile, unused and in time |
| PortalAccounts.FinishRegistration | admin-backend/portal_credentials.py:607-636 | the challenge is spent by the attempt; within eight keys, and for the session that began, the passkey is stored, one session left and the old token dead |
| PortalAccounts.BootstrapPassword | admin-backend/portal_credentials.py:698-736 | one ticket posed to this browser and verified within ten minutes makes one profile, its owner record, its account, its password and a session on it, exactly when account, profile and name are free |
| PortalAccounts.BootstrapPasskey | admin-backend/portal_credentials.py:749-765 | the same with a passkey, from the same browser as the ticket and for the same profile and account; its own challenge is spent by the attempt, the ticket only by success |
| PortalAccounts.Install | admin-backend/portal_credentials.py:115-142 | records an owner for every account there is: a profile is the owner exactly when it holds the account, or nobody does and nobody else ever did; a second installation changes nothing |
| PortalSteps.RaiseBothKeeps | admin-backend/portal_credentials.py:476-479 | raising bindings and their current sessions together keeps the invariant and leaves stale sessions stale |
| PortalSteps.OneMoreKey | admin-backend/portal_credentials.py:609-610 | active passkeys never exceed eight |
| TransferRelink.Plan | admin-backend/portal_transfer_relink.py:66-98 | one item for each active link on a transferred account, in table order, each with the one action the rules give it |
| TransferRelink.ApplyItem | admin-backend/portal_transfer_relink.py:121-168 | succeeds exactly when there is something to apply, the link is still active on the old account and the edit is allowed; then the old row is revoked, for a move the identity's row on the new account is active since when the old one was linked, bindings and owners are as after an accepted edit, and exactly the identity's open sessions on the old account are on the new one; otherwise nothing changed |
| TransferRelink.ItemAccepted | admin-backend/portal_transfer_relink.py:121-168 | the rows of an item are acceptable exactly when the link is the identity's own, there is room and nobody else on the new account, and a grant meets an enabled profile, its provider and the recorded owner |
| TransferRelink.ItemStepKeeps | admin-backend/portal_transfer_relink.py:121-168 | an applied item keeps the whole invariant and touches no session on another account |
| TransferRelink.Run | admin-backend/portal_transfer_relink.py:171-196 | a plan over the cap changes nothing; when nothing fails everyone has left, and has arrived exactly as stated; every applied item shortens the total distance |
| TransferRelink.EveryoneArrives | admin-backend/portal_transfer_relink.py:66-196 | a player ends linked to the target of an item if and only if no applied item of the plan moves that link on |
| TransferRelink.ChainsOvershoot | admin-backend/portal_transfer_relink.py:66-98 | from a sound database with a chain of two transfers the plan retires a link in favour of one that it moves on: afterwards nobody is linked where the first item pointed |
| TransferRelink.EveryoneLeaves | admin-backend/portal_transfer_relink.py:143-145 | nobody who was moved or retired is still linked to the old account |
| TransferRelink.OneIdentityAnAccount | admin-backend/portal_transfer_relink.py:87-90 | an account has one active Discord identity at most, whatever subset of items was applied |
| TransferRelink.ItemsBringCloser | admin-backend/portal_transfer_relink.py:121-168 | where transfers go in no circles each applied item strictly shortens the summed chain length |
| ReportDelivery.ReportWindow | admin-backend/portal_reports.py:41-59 | the window is the last one closed by nine o'clock, or by Sunday six o'clock |
| ReportDelivery.WindowAtItsEnd | admin-backend/portal_reports.py:335-338 | a window read again at its end is itself |
| ReportDelivery.WindowsTile | admin-backend/portal_reports.py:46-56 | each window begins where the one before ended |
| ReportDelivery.WindowsApart | admin-backend/portal_reports.py:41-59 | two windows of a period are the same or do not overlap |
| ReportDelivery.IdDeterminesWindow | admin-backend/portal_reports.py:57-59 | the name of an edition determines its window |
| ReportDelivery.ReportStore.Prepare | admin-backend/portal_reports.py:331-352 | accepts exactly well-formed reports, of 65536 characters at most, whose window is the one they name; what was prepared first stays |
| ReportDelivery.ReportStore.Claim | admin-backend/portal_reports.py:410-435 | a draft is acquired exactly when nothing of its period is pending or uncertain and the channel is a number of 5 to 24 digits; a later claim gets the attempt that is, not acquired, exactly when it names the same channel |
| ReportDelivery.ReportStore.Acknowledge | admin-backend/portal_reports.py:437-452 | only the attempt that was made, on its channel, reports its message, a number of 5 to 24 digits, and never a second one |
| ReportDelivery.ReportStore.MarkUncertain | admin-backend/portal_reports.py:454-465 | a pending attempt becomes uncertain; a sent one stays sent |
| ReportDelivery.OneDeliveryAtATime | admin-backend/portal_reports.py:410-431 | at no moment of any run are two editions of a period pending or uncertain |
| ReportDelivery.WrittenOnce | admin-backend/portal_reports.py:331-465 | over any run the text, window, attempt and message of an edition are written once |
| ReportDelivery.AcquiredOnce | admin-backend/portal_reports.py:410-431 | over any run one claimer at most acquires an edition, and one did exactly when it is no draft |
| ReportDelivery.DeliveredForGood | admin-backend/portal_reports.py:316-328 | a sent edition never changes again in any run |
| SingleFlightCache.OneFetchPerKey | admin-backend/cache.py:56-63 | at every interleaving one call at most is fetching a key |
| SingleFlightCache.Cache.Begin | admin-backend/cache.py:46-54 | a fresh value is given back without waiting |
| SingleFlightCache.Cache.Acquire | admin-backend/cache.py:56-63 | under the lock the entry is looked at again; a fetch starts only when it is missing or past its time |
| SingleFlightCache.Cache.FetchSucceeds | admin-backend/cache.py:71-72 | the value is stored under the time the fetch began, which is a lifetime after the entry it replaces |
| SingleFlightCache.Cache.FetchFails | admin-backend/cache.py:64-70 | the fallback was fetched for the same key and was younger than lifetime plus grace when the failing fetch began; otherwise the failure is passed on |
| SingleFlightCache.Cache.Invalidate | admin-backend/cache.py:78-80 | drops one entry and keeps the order of fetches |
| SingleFlightCache.Cache.InvalidatePrefix | admin-backend/cache.py:83-88 | drops exactly the entries of a call name |
| SingleFlightCache.SucceedLog | admin-backend/cache.py:42-75 | successful fetches of a key are in order, and a lifetime apart unless the key was dropped between them |
| SingleFlightCache.FetchesApart | admin-backend/cache.py:42-75 | of two successful fetches of a key the later began a lifetime after the earlier, unless the key was dropped in between |
| ChatPacing.RetryAfter | admin-backend/portal_chat_filters.py:267-287 | the larger of the two brakes in whole seconds, zero only when neither is engaged |
| ChatPacing.PostKeepsPace | admin-backend/portal_chat_filters.py:251-287 | a message let through keeps messages a second apart and the eleventh thirty seconds after the first |
| ChatPacing.NeverMoreThanTen | admin-backend/portal_chat_filters.py:45-47 | no thirty seconds of stored stamps hold more than ten sends |
| ChatPacing.WaitIsExact | admin-backend/portal_chat_filters.py:267-287 | waiting the returned seconds is enough, and a second less is not |
| ChatPacing.LetThroughExactly | admin-backend/portal_chat_filters.py:267-287 | no brake is engaged exactly a second after the last message and thirty after the tenth last |
| ChatPacing.SendLog.GuardedSend | admin-backend/routers/portal_chat.py:292-304 | posts exactly then, and so keeps the pace over any run; otherwise answers with the least number of whole seconds after which it would |

## Left out

- Averages: `_mean` rounds a float quotient; the model rounds the exact quotient half to even.
- `backfill_from` of the price history: runs start from an empty file, because the imported first hour is not aligned.
- Parsing and case folding: snapshot stamps arrive as seconds and template names as ids after lower-casing.
- `aggregate_listings`, item names, icons and categories: lookup code without state.
- Fact conversion: values stamped on ledger rows arrive typed; a text that is not a number in a number column is not modelled.
- Transfer history, caps pages and the gift inbound alert: reads for display and notification.
- Password strength, hashing, WebAuthn and cookie signing: library code; a verified credential or hash is a parameter.
- `password_login` and `finish_authentication`: each ends in the session creation that is modelled; what precedes it is library verification.
- Rate limits, the audit table and the security summary: single writes or reads beside the modelled state.
- Character names and handles on links and bindings: copied for display.
- Schema comparison, file permissions and the path without profile tables: the unique indexes and foreign keys are part of the invariant instead.
- `_carry_forward` of mutes, blocks and directory opt-outs: plain copies between tables nothing else here reads.
- `profile_native_orphans`: a count that changes nothing.
- PortalIdentity.FinishLegacyLinks: between begin and finish a caller rewrites the link table as it likes and nothing else.
- PortalSessions.SwitchSession: stale sessions stay stale only for requests that came through the session check, because the operation itself does not recheck the version; the contract says so.
- TransferRelink.ApplyItem: excluded from the claim that stale sessions stay stale on the account it moves from, because it re-points open sessions by design.
- PortalServer.Portal: requests are atomic, so nothing comes between the session check and the operation; a whole transfer tick is its items one by one.
- Time zones: report windows are in Eastern wall seconds; the change to epoch seconds at nine and six o'clock is not modelled.
- Report text, digests and schema fields: a report carries one flag for being well formed, and its payload stands for its digest.
- `clear` of the cache: it drops the locks and is for tests.
- Chat texts, duplicates and mutes: filters beside the two brakes.
- Mirror snapshots, retention sweeps, watchlists, listings and request queues: single statements without rules across rows.
