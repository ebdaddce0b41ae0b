# The daily crown auction, modelled in Dafny

Users of "the world's most interesting person" bid a daily crown price.
Every night one settlement run charges the best bidder that can pay. The
winner becomes the crown holder until the next run. An admin can also
assign the crown at once, and an admin view shows who holds it. This
project models those three parts and proves what they guarantee.

- **Nightly settlement.** The cron route `POST /api/cron/settle-crown` and
  the scheduled function `settleCrownNightly` run the same steps:
  - a lock transaction on the `crownStatus/current` document;
  - the `isActive === true` filter;
  - the ranking (price descending, then the earliest price timestamp, then
    uid);
  - the charge loop that stops at the first `"succeeded"` charge;
  - the no-winner exits;
  - the lock cleanup.

  It is written once, as functions from the state before each stage to the
  state after it (module `Settlement`). Two imperative tails
  (`SettlementRun.SettleCrownRoute`, `SettlementRun.SettleCrownNightly`)
  are proved to do exactly what those functions say. The route adds the
  cron-secret check, the `force=1` unlock and the HTTP status codes. The
  function returns nothing or rethrows.
- **Manual assignment.** `POST /api/admin/assign-crown-now` (module
  `AssignCrown`) runs these steps in order:
  - the admin allow-list check;
  - the target and user checks;
  - the payment-method normalising write;
  - the amount fallback chain;
  - one charge under an `admin-assign:` idempotency key;
  - the crown merge and event, or the failure event.
- **Crown status.** `GET /api/admin/crown-status` (module
  `CrownStatusView`) pulls a uid out of the loosely shaped crown document
  and builds the snapshot, user and resolved champions.

The Firestore database is a class, `Store.CrownStore`. It holds the crown
document, the append-only `crown_events` log and the user documents. Every
awaited store call goes through `Perform`. A fault table, keyed by the
call's position in the run, says which calls throw and with what message.
So every catch block in the source is reachable in the model. The Stripe
gateway is a class, `Payments.Gateway`. It logs every charge request and
answers through a fixed oracle, `respond`. The clock (`now`, in
milliseconds), the Chicago date key and the rows returned by the users
query are inputs.

The model follows the code as written, including four behaviours that a
reader of the code may not expect. Each is proved:
- **A store failure after a paid charge means a second charge.** If a
  charge succeeds and the winner is published but appending the
  NIGHTLY_WIN event throws, the loop's own catch
  records a failure and charges the next candidate. That charge can succeed
  too, so two users are charged and the second is crowned
  (`SettlementFacts.StoreErrorAfterPaidChargeChargesNext`).
- **A failed lock transaction clears another run's lock.** If the lock
  transaction itself throws, the outer catch still clears the lock
  (`SettlementFacts.FailedLockTransactionStillClears`). That lock may
  belong to a concurrent run.
- **A numeric `activeUid` hides `userId`.** In `extractUid`, a non-nullish
  `activeUid` that is not a string ends the nullish chain, so a valid
  `userId` next to it is ignored
  (`CrownStatusView.NumericActiveUidHidesUserId`).
- **The two amount rules differ.** The admin route prefers
  `crownOfferCents` over `crownPrice`. The nightly run prefers `crownPrice`.
  So the same user can be charged different amounts
  (`AssignCrown.AdminAndNightlyAmounts`).

Two smaller details are also modelled as written:
- An exception thrown by the gateway in the admin route is answered with a
  500 and appends no event (`AssignCrown.ChargeAndPublishSound`).
- `extractUid` consults the whole nullish chain, from `activeUid` to
  `crownedUid`, before it scans the entries (`CrownStatusView.UidOf`).

## Model

In the source column below, the cron route is
`src/app/api/cron/settle-crown/route.ts` and the scheduled function is
`functions/src/index.ts`.

| member | source | states |
|---|---|---|
| Text.Trim | src/app/api/admin/assign-crown-now/route.ts:19-22 | The trimmed string is a slice of the input with only white space cut from each end; it is empty exactly when the input is all white space, and otherwise neither starts nor ends with white space |
| Text.Split | src/app/api/admin/assign-crown-now/route.ts:19-22 | Splitting on a separator gives at least one piece, and no piece contains the separator |
| Text.JoinSplit | src/app/api/admin/assign-crown-now/route.ts:19-22 | Joining the pieces of a split with the separator gives back the original string |
| Text.SplitJoin | src/app/api/admin/assign-crown-now/route.ts:19-22 | Splitting a join of separator-free pieces gives back exactly those pieces |
| Text.StrCompare | src/app/api/cron/settle-crown/route.ts:208 | The uid comparison is -1, 0 or 1; it is 0 exactly for equal strings and negative exactly when the first string comes first |
| Text.StrLessTransitive | src/app/api/cron/settle-crown/route.ts:208 | The string order used for the final uid tie-break is transitive (with Irreflexive, Asymmetric and Total it is a strict total order) |
| Text.ParseDecimalOfDecimal | src/app/api/cron/settle-crown/route.ts:254 | The decimal text of an amount in a key reads back as that amount |
| Text.DecimalInjective | src/app/api/cron/settle-crown/route.ts:254 | Different amounts have different decimal texts |
| Sorting.SortBySortsAndPermutes | src/app/api/cron/settle-crown/route.ts:196-210 | Sorting by a total preorder gives a sorted permutation of the input |
| Sorting.SortIsUnique | src/app/api/cron/settle-crown/route.ts:196-210 | When no two distinct elements tie, a sorted permutation is unique, so any correct sort gives the same order |
| Bidders.PaymentMethodFromUser | src/app/api/cron/settle-crown/route.ts:28-34 | The payment method is stripeDefaultPaymentMethodId if it is a non-empty string, else defaultPaymentMethodId if it is one, else none; a returned id is never empty |
| Bidders.PositivePriceIsChargeable | src/app/api/cron/settle-crown/route.ts:37-46 | A positive whole-dollar crownPrice gives crownPrice x 100 cents, which passes the 50-cent minimum |
| Bidders.CentsFieldDecidesWithoutPrice | functions/src/index.ts:37-45 | Without crownPrice, the amount is crownPriceCents, and it is chargeable exactly when crownPriceCents is at least 50 |
| Bidders.FirstTruthy | src/app/api/cron/settle-crown/route.ts:51-56 | The result is unset exactly when no stamp is truthy; otherwise it is the first truthy stamp in field order |
| Bidders.TieBreakMillis | src/app/api/cron/settle-crown/route.ts:50-68 | The tie-break time is the time of the first truthy field of crownPriceUpdatedAt, crownOfferUpdatedAt, updatedAt, createdAt, in that order, and 0 when none is truthy |
| Bidders.CompareMeansOutranks | src/app/api/cron/settle-crown/route.ts:196-210 | The comparator is negative exactly when the first candidate outranks the second, positive exactly when the second outranks the first, and zero exactly when price, time and uid all agree |
| Bidders.OutranksIsStrictTotalOrder | src/app/api/cron/settle-crown/route.ts:196-210 | The ranking is irreflexive, asymmetric, transitive and total on distinct uids |
| Bidders.NotAfterIsTotalPreorder | functions/src/index.ts:179-190 | "Not ranked after" is a total preorder, so sorting by it is well defined |
| Bidders.RankSortsAndPermutes | src/app/api/cron/settle-crown/route.ts:196-210 | The ranked list is in rank order and holds exactly the input candidates |
| Bidders.RankIsTheOnlySortedOrder | src/app/api/cron/settle-crown/route.ts:196-210 | With unique uids, every rank-ordered permutation of the candidates is the ranked list, so the charge order does not depend on the sort algorithm |
| Bidders.EarlierTimeWinsTie | src/app/api/cron/settle-crown/route.ts:201-205 | Between equal prices, the earlier tie-break time is ranked first whatever the input order |
| Bidders.ActiveOnly | src/app/api/cron/settle-crown/route.ts:167-170 | A candidate survives the filter exactly when it was in the rows and its isActive is true; nothing is added |
| Bidders.RankedAreActive | functions/src/index.ts:151-153 | Every candidate of the ranked list comes from the rows and is active |
| Keys.NightlyKey | src/app/api/cron/settle-crown/route.ts:254 | A nightly idempotency key starts with "nightly:" |
| Keys.AdminAssignKey | src/app/api/admin/assign-crown-now/route.ts:144 | An admin idempotency key starts with "admin-assign:" |
| Keys.KeyNamespacesDisjoint | src/app/api/admin/assign-crown-now/route.ts:144 | No nightly key equals any admin key, whatever the date, uid and amount |
| Keys.NightlyKeyInjective | src/app/api/cron/settle-crown/route.ts:254 | For colon-free date keys, equal nightly keys mean the same date, uid and amount, so the key is the same for exactly the same triple |
| Keys.AdminAssignKeyInjective | src/app/api/admin/assign-crown-now/route.ts:144 | For colon-free date keys, equal admin keys mean the same date, uid and amount |
| Store.ApplyMerge | src/app/api/cron/settle-crown/route.ts:70-79 | Each merge-write changes only its own fields: only a publish changes the crown fields, only clearLock or the lock take changes the lock fields, only the attempt record changes the attempt fields, clearLock leaves the document unlocked, and the admin publish keeps lastSettledForDate and assignedBy |
| Store.LockGuardDecides | src/app/api/cron/settle-crown/route.ts:98-125 | The guard says already settled exactly when lastSettledForDate is today's key, and already settling exactly when it is not and the lock is younger than 10 minutes; taking the lock stamps now and today's key and leaves the crown fields alone |
| Store.LockExpiresAfterTtl | functions/src/index.ts:89-114 | A lock taken at a given time blocks another run before the 10-minute mark and is taken over from then on |
| Store.Step | src/app/api/cron/settle-crown/route.ts:338-343 | An awaited store call either throws the message the fault table gives for its position and changes nothing, or applies its operation; either way it counts one call |
| Store.CrownStore.Perform | src/app/api/cron/settle-crown/route.ts:70-79 | Performing an operation leaves the store exactly as Step says, and returns the error it threw |
| Store.CrownStore.RunLockTransaction | src/app/api/cron/settle-crown/route.ts:98-125 | The lock transaction moves the store as Step says, and on success returns the guard computed from the document it read |
| Store.CrownStore.ReadUser | src/app/api/admin/assign-crown-now/route.ts:75-81 | Reading a user returns that user's document, or none when it does not exist, unless the read throws |
| Payments.Gateway.CreatePaymentIntent | src/app/api/cron/settle-crown/route.ts:242-255 | A charge appends its request to the gateway log and returns the oracle's answer for it |
| Settlement.NightlyRequest | src/app/api/cron/settle-crown/route.ts:242-255 | A nightly charge is for the candidate's uid, customer and payment method, for an amount of at least 50 cents, under the key nightly:{dateKey}:{uid}:{amountCents} |
| SettlementRun.AbortRun | src/app/api/cron/settle-crown/route.ts:338-343 | The outer catch tries to clear the lock and reports the error, as Abort says |
| SettlementRun.Perform3 | src/app/api/cron/settle-crown/route.ts:271-296 | Three awaited store calls in a row stop at the first one that throws, as Do3 says |
| SettlementRun.FinishRun | src/app/api/cron/settle-crown/route.ts:317-337 | Two writes and clearLock followed by a normal exit, with any throw passed to the outer catch, as Finish says |
| SettlementRun.RecordFailure | src/app/api/cron/settle-crown/route.ts:218-228 | A skipped candidate's NIGHTLY_FAIL event is appended and the loop goes on, or the run aborts if the write throws, as Skip says |
| SettlementRun.AttemptCharge | src/app/api/cron/settle-crown/route.ts:213-315 | One candidate's turn (the two skip rules, the charge, the status check, the winner writes and the inner catch) leaves the store, the gateway log and the exit as TryCandidate says |
| SettlementRun.ChargeRanked | functions/src/index.ts:193-289 | The charge loop over the ranked candidates ends exactly as ChargeLoop says |
| SettlementRun.SettleLocked | src/app/api/cron/settle-crown/route.ts:136-193 | After the lock is taken, the query, the no-candidates and no-active exits and the loop over the ranked active candidates end as AfterLock says |
| SettlementRun.RunSettlement | functions/src/index.ts:78-318 | A whole run, from the lock transaction on, leaves the store and gateway log and returns the outcome that Settle gives |
| SettlementRun.RouteReplyOf | src/app/api/cron/settle-crown/route.ts:127-343 | The route replies 200 exactly for already settled, already settling or a win; 404 exactly for no candidates or no active candidates; 402 exactly for all failed; 500 exactly for an unexpected error; and names a winner exactly on a win |
| SettlementRun.SettleCrownRoute | src/app/api/cron/settle-crown/route.ts:81-344 | A wrong cron secret throws and changes nothing; force=1 only clears the lock and charges nobody; otherwise the store and gateway end as Settle says and the reply is the matching status |
| SettlementRun.SettleCrownNightly | functions/src/index.ts:78-318 | The scheduled function leaves the store and gateway as Settle says, returns normally on every handled exit, and rethrows the message of an unexpected error |
| SettlementFacts.GuardStopsWithoutWrites | src/app/api/cron/settle-crown/route.ts:101-132 | When the guard refuses, the run returns alreadySettled (same-day settlement) or alreadySettling and writes no field, no event and no charge, so it never clears a lock it did not take |
| SettlementFacts.FailedLockTransactionStillClears | src/app/api/cron/settle-crown/route.ts:338-343 | If the lock transaction throws, the run reports that error but still clears the lock, with no event and no charge |
| SettlementFacts.TurnReleases | src/app/api/cron/settle-crown/route.ts:213-315 | Every way out of one candidate's turn leaves the lock cleared, unless that final clearLock call itself threw |
| SettlementFacts.ChargeLoopReleases | functions/src/index.ts:193-310 | Every ending of the charge loop leaves the lock cleared, unless the final clearLock call threw |
| SettlementFacts.LockReleasedOnEveryExit | src/app/api/cron/settle-crown/route.ts:143-343 | Every ending except alreadySettled and alreadySettling leaves the lock cleared, unless the final clearLock call threw |
| SettlementFacts.ChargeLoopPaid | functions/src/index.ts:193-289 | Over the charge loop, the charge log only grows, and the crown fields stay the same unless some charge made in the loop succeeded |
| SettlementFacts.CrownChangesOnlyAfterSucceededCharge | src/app/api/cron/settle-crown/route.ts:257-303 | If a run changes any crown field, some charge made in that run succeeded |
| SettlementFacts.WinnerWasCharged | functions/src/index.ts:252-277 | A Won outcome means the last charge was the winner's, under its nightly key, for at least 50 cents, and succeeded; the crown names that charge with assignedBy "nightly" and lastSettledForDate today; the lock is cleared; the last event is its NIGHTLY_WIN |
| SettlementFacts.RerunAfterWinDoesNothing | src/app/api/cron/settle-crown/route.ts:101-104 | After a win, a second run on the same day returns alreadySettled with no write, no event and no charge, whatever its rows |
| SettlementFacts.RequestsOf | src/app/api/cron/settle-crown/route.ts:218-255 | The charges for a list of candidates number at most the candidates, and each is the nightly request of a chargeable candidate from the list |
| SettlementFacts.ChargeLoopRequests | functions/src/index.ts:193-289 | The charges the loop makes are exactly those of a prefix of the ranked list, in rank order, one per chargeable candidate |
| SettlementFacts.ChargesFollowRanking | src/app/api/cron/settle-crown/route.ts:196-315 | The charges a run makes are exactly those of a prefix of the ranked active candidates, so each candidate gets at most one attempt, in rank order |
| SettlementFacts.ChargedRowsAreActive | src/app/api/cron/settle-crown/route.ts:167-170 | Every charge a run makes is the nightly request of an active, chargeable candidate from the rows |
| SettlementFacts.LossEvent | src/app/api/cron/settle-crown/route.ts:218-269 | The event a losing candidate leaves is a NIGHTLY_FAIL for that uid and day, and a candidate that never reached the gateway has no payment intent in it |
| SettlementFacts.LossEvents | src/app/api/cron/settle-crown/route.ts:213-315 | The losers leave one NIGHTLY_FAIL event each |
| SettlementFacts.FirstWin | functions/src/index.ts:193-289 | The first winning candidate from a position on: nobody before it wins, and it wins unless no one does |
| SettlementFacts.TurnWithoutFaults | functions/src/index.ts:193-289 | When the store never throws, a winner is charged once, published, logged with NIGHTLY_WIN and the lock cleared; any other candidate leaves only its NIGHTLY_FAIL event and at most its own charge, and the loop goes on |
| SettlementFacts.ChargeLoopWithoutFaults | functions/src/index.ts:193-310 | When the store never throws, the loop charges the chargeable candidates up to and including the first winner and logs a NIGHTLY_FAIL for each loser before it; with a winner it publishes it, logs NIGHTLY_WIN and clears the lock; with none it records all_failed, logs the summary event and clears the lock; user documents are untouched |
| SettlementFacts.SettleWithoutFaults | src/app/api/cron/settle-crown/route.ts:196-337 | When the store never throws and the lock is taken with an active candidate, the whole run behaves as the loop above over the ranked active candidates |
| SettlementFacts.AllFailedAllowsRerun | functions/src/index.ts:291-310 | After an all-failed run, the crown fields are unchanged, the attempt is recorded as all_failed for today, and a later run the same day may take the lock again |
| SettlementFacts.NoOfferExits | src/app/api/cron/settle-crown/route.ts:143-193 | With no rows (or no active rows), the run returns no_candidates (or no_active_candidates), charges nobody, appends one NIGHTLY_FAIL with uid "none", records the attempt, leaves the crown fields alone and clears the lock |
| SettlementFacts.StoreErrorAfterPaidChargeChargesNext | src/app/api/cron/settle-crown/route.ts:271-314 | If, after a succeeded charge and the winner merge, the NIGHTLY_WIN append throws, the next candidate is charged as well; both charges succeed and the second candidate is crowned |
| AdminAuth.NonBlankEntries | src/app/api/admin/assign-crown-now/route.ts:19-22 | The admin list holds exactly the non-empty trimmed pieces, and no more entries than pieces |
| AdminAuth.NoAdminsWhenUnset | src/app/api/admin/assign-crown-now/route.ts:19-24 | With ADMIN_UIDS unset or only white space, nobody is an admin |
| AdminAuth.AdminUidsOfList | src/app/api/admin/assign-crown-now/route.ts:19-22 | A comma-joined list of clean uids reads back as exactly that list |
| AdminAuth.BearerToken | src/app/api/admin/assign-crown-now/route.ts:13-15 | A token is found only in a header that is "Bearer " followed by it, and it is non-empty and on one line |
| AdminAuth.BearerTokenOfHeader | src/app/api/admin/assign-crown-now/route.ts:13-15 | Every non-empty one-line token is found in its own Bearer header |
| AdminAuth.RequireAdmin | src/app/api/admin/assign-crown-now/route.ts:12-26 | The check passes only with a Bearer token that the identity service maps to a listed admin uid; without a token it fails with "Missing Authorization header" |
| AdminAuth.ListedAdminPasses | src/app/api/admin/assign-crown-now/route.ts:12-26 | A listed admin with a valid token passes the check |
| AssignCrown.ServerError | src/app/api/admin/assign-crown-now/route.ts:195-199 | The catch replies 500 with a non-empty error and changes nothing further |
| AssignCrown.FirstNonZeroAt | src/app/api/admin/assign-crown-now/route.ts:44-59 | The chosen field is the first whose value is truthy; every field before it is missing or zero |
| AssignCrown.ResolveAmountCents | src/app/api/admin/assign-crown-now/route.ts:38-62 | A body amount wins; otherwise the first non-zero of crownOfferCents, crownPriceCents, amountCents is the amount; only when all three are zero or missing, the first non-zero of crownPrice, amount gives 100 times its value; no amount means all five are zero or missing |
| AssignCrown.OfferCentsComeFirst | src/app/api/admin/assign-crown-now/route.ts:44-51 | Without a body amount, a non-zero crownOfferCents is the amount |
| AssignCrown.AdminAndNightlyAmounts | src/app/api/admin/assign-crown-now/route.ts:38-62 | When only crownPrice is set, the admin and nightly amounts agree; when crownOfferCents is also set, they can differ (700 against 500) |
| AssignCrown.AdminRequest | src/app/api/admin/assign-crown-now/route.ts:127-146 | The admin charge is for the target's uid, customer, payment method and amount, under the key admin-assign:{date}:{uid}:{amountCents} |
| AssignCrown.ChargeAndPublishSound | src/app/api/admin/assign-crown-now/route.ts:114-194 | From the amount check on: the reply is 400 exactly when the amount is missing or under 50 cents, and otherwise exactly one charge is made, the admin request for the given customer, payment method and amount under the admin key; a 400 writes nothing and user documents are untouched; the crown changes only after a succeeded charge; the settlement fields are never written; a 200 crowns the charged user and logs ADMIN_ASSIGN_WIN; a 402 logs ADMIN_ASSIGN_FAIL and leaves the crown document alone |
| AssignCrown.DeclinedSound | src/app/api/admin/assign-crown-now/route.ts:148-166 | A charge that did not succeed gives 402 with its status and id, one ADMIN_ASSIGN_FAIL event and an untouched crown document, or a 500 if the event write throws |
| AssignCrown.PublishedSound | src/app/api/admin/assign-crown-now/route.ts:168-194 | A succeeded charge sets activeUid, activePriceCents, activePaymentIntentId and activeDateKey, keeps lastSettledForDate and assignedBy, logs ADMIN_ASSIGN_WIN and replies 200, or gives 500 if a write throws |
| AssignCrown.AssignToSound | src/app/api/admin/assign-crown-now/route.ts:75-194 | From the user read on: the same charge, crown and event guarantees; a 404 for an unknown user and a 400 for missing payment details come before any charge, crown or event write; the only user-document write is copying the resolved payment method onto stripeDefaultPaymentMethodId of the target when that field was not a non-empty string, and a 404 writes none |
| AssignCrown.AssignToCharges | src/app/api/admin/assign-crown-now/route.ts:75-146 | Any charge is the admin request for the target's stripeCustomerId, its resolved payment method and ResolveAmountCents of its document and the body amount, at least 50 cents; when the user read and the normalising write do not throw, the reply is 400 exactly when the customer id, the payment method or a chargeable amount is missing, and otherwise that one charge is made; a 404 means an unknown user, and an unknown user gets the "User not found" 404 unless the read throws |
| AssignCrown.NormalisedThenRejected | src/app/api/admin/assign-crown-now/route.ts:103-122 | A user with only defaultPaymentMethodId and a body amount under 50 cents gets a 400 with no charge, crown or event write, yet the method is already written onto stripeDefaultPaymentMethodId |
| AssignCrown.AssignCrownSound | src/app/api/admin/assign-crown-now/route.ts:64-200 | A caller who passes the admin check with a target gets the Sound, UsersSound and ChargesAsResolved guarantees for that target; a caller who fails the admin check gets a 500, and an admin caller without a target exactly the missing-target 400, and neither changes anything |
| AssignCrown.NonAdminChangesNothing | src/app/api/admin/assign-crown-now/route.ts:65-66 | A failed admin check gives 500 with an error, before any read, write or charge |
| AssignCrown.AssignedMeansCrowned | src/app/api/admin/assign-crown-now/route.ts:168-194 | A 200 means the caller is an admin, the reply names the target, exactly one charge was made and it succeeded, the target is the crown holder, and lastSettledForDate is unchanged |
| AssignCrown.ChargeAndPublishRun | src/app/api/admin/assign-crown-now/route.ts:114-194 | The charge-and-publish steps leave the store, gateway log and reply as ChargeAndPublish says |
| AssignCrown.AssignToRun | src/app/api/admin/assign-crown-now/route.ts:75-194 | The steps from the user read on leave the store, gateway log and reply as AssignTo says |
| AssignCrown.AssignCrownNow | src/app/api/admin/assign-crown-now/route.ts:64-200 | The route handler leaves the store, gateway log and reply exactly as AssignCrown says |
| CrownStatusView.Or | src/app/api/admin/crown-status/route.ts:94-113 | The or-fallback gives its first operand when that is truthy and its second otherwise |
| CrownStatusView.FirstPresent | src/app/api/admin/crown-status/route.ts:24-34 | The nullish chain picks the first key whose value is neither missing nor null |
| CrownStatusView.ScanFrom | src/app/api/admin/crown-status/route.ts:37-39 | The scan finds a value only from an entry whose key ends in uid (any case) and whose value is a non-blank string, and it is the first such entry in key order; it finds none exactly when no such entry exists |
| CrownStatusView.UidOf | src/app/api/admin/crown-status/route.ts:21-42 | An extracted uid is never blank and is the string value of a direct uid key or of a key ending in uid; when the nullish chain gives a non-blank string that is the answer, and otherwise the answer is the first-match scan |
| CrownStatusView.ActiveUidWins | src/app/api/admin/crown-status/route.ts:24-34 | A non-blank string activeUid is the extracted uid |
| CrownStatusView.NoUidExactly | src/app/api/admin/crown-status/route.ts:21-42 | No uid is extracted exactly when the nullish chain gives no non-blank string and no entry's key ends in uid with a non-blank string value |
| CrownStatusView.NonStringActiveUidSkipsChain | src/app/api/admin/crown-status/route.ts:24-39 | For every document whose activeUid is present, not null and not a string, the extracted uid is whatever the scan finds, so every other direct key is ignored |
| CrownStatusView.NumericActiveUidHidesUserId | src/app/api/admin/crown-status/route.ts:24-34 | A document with a numeric activeUid and a valid userId extracts no uid |
| CrownStatusView.ScanForUid | src/app/api/admin/crown-status/route.ts:37-39 | The scan loop returns what ScanFrom specifies |
| CrownStatusView.ExtractUid | src/app/api/admin/crown-status/route.ts:21-42 | extractUid returns what UidOf specifies |
| CrownStatusView.Resolve | src/app/api/admin/crown-status/route.ts:107-113 | Each resolved field (name, bio, photoUrl) is the snapshot value when that is non-empty, else the user value when that is non-empty, else "" |
| CrownStatusView.GetCrownStatus | src/app/api/admin/crown-status/route.ts:52-136 | The GET handler replies exactly as CrownStatusGet says |
| CrownStatusView.GetShowsView | src/app/api/admin/crown-status/route.ts:52-70 | A failed admin check or a failed crown read gives a 500; a missing crown document gives crown null with no user lookup; otherwise the reply is the view of the document |
| CrownStatusView.ViewShowsExtractedUser | src/app/api/admin/crown-status/route.ts:75-91 | user is null exactly when no uid was extracted; otherwise it carries that uid, and has profile fields exactly when the user document exists |
| CrownStatusView.ResolvedPrefersSnapshot | src/app/api/admin/crown-status/route.ts:94-113 | The resolved name is the snapshot name if non-empty, else the user's fullName, else displayName |
| CrownStatusView.NamePrefersSnapshot | src/app/api/admin/crown-status/route.ts:94-113 | The name fallback order, snapshot before fullName before displayName, holds for the expression the view uses |
| CrownStatusView.NoProfileMeansSnapshot | src/app/api/admin/crown-status/route.ts:100-113 | Without a user document the user champion is all empty and the resolved champion is the snapshot |

## Left out

- Floating point: prices are whole dollars and amounts whole cents, so `Math.round`, fractional `crownPrice` values, NaN and `Number.isFinite` are not modelled. A number field is present or absent.
- `chicagoDateKey` depends on the time-zone database; the date key is an input string.
- `Timestamp.now()`, `Date.now()` and `serverTimestamp()`: one `now` in milliseconds stands for the first two within a run, and `updatedAt`/`createdAt` server timestamps are not stored.
- The users query's `where`, `orderBy` and `limit`: the rows it returns are an input to the run.
- `localeCompare` is approximated by code-point order on uids.
- The charge's description, `metadata`, `confirm` and `off_session` flags are not modelled; a charge request carries amount, currency, customer, payment method, idempotency key, uid and purpose.
- Typed user fields hold strings or nothing; other truthy values in them (a number as `stripeDefaultPaymentMethodId`) are not modelled.
- `request.json()` parsing details: the admin body is three optional fields, all absent when it does not parse.
- Concurrency: Firestore transactions are atomic steps and parallel runs are not modelled beyond what the lock guard decides.
- The crown-status reply's debug fields, the key order of the `...raw` spread, and the integer-key-first order of `Object.entries` (entries keep document order).
- The identity service (`verifyIdToken`) is a function parameter; the cron secret is an input string.
- `console.error` logging.
- The React pages, the payment, queue and user routes, and the Stripe and Firebase client wrappers are not part of this model.
- AssignCrown.NonAdminChangesNothing: states that the reply is a 500 with an error body, not which message it carries.
- The non-object branch of `extractUid` (src/app/api/admin/crown-status/route.ts:22) is not modelled: a crown document is always an object here, since the route reads `snap.data() || {}`.
