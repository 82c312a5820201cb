# ecoSync pickup lifecycle, in Dafny

ecoSync is a waste-collection service. A household schedules a pickup, an administrator
accepts and completes it, and completion credits eco points to the household's ledger.
This project models the core of that service and proves properties of the model.

- **The pickup document** (`Pickups`, `Store`):
  - the status and waste-type enumerations;
  - the field defaults;
  - the eco-point reward rule (`calculateEcoPoints`);
  - the `#ECO-<year>-<nnn>` code written by the pre-save hook;
  - the validating, uniquely indexed save.
- **The administrator routes** (`AdminRoutes`):
  - the pickup update, which completes a pickup, credits the owner and sends the status-change notification;
  - the user patch and user delete;
  - the pagination arithmetic.
- **The owner routes** (`PickupRoutes`):
  - creating a pickup;
  - the field patch and owner completion;
  - the soft cancel;
  - the month-over-month recycling trend.
- **The site settings routes** (`SettingsRoutes`):
  - default creation;
  - the shallow merge;
  - the truthy-or-keep statistics update.
- **The authentication routes** (`AuthRoutes`):
  - the registration and login input checks;
  - e-mail normalisation;
  - the profile patch.
- **The administrator's pickup table** (`PickupManagement`):
  - the transitions its buttons offer;
  - the save-enabled rule;
  - the requests it sends;
  - the pagination controls.
- **The notification bell** (`NotificationsDropdown`):
  - the list and unread counter its handlers update;
  - the relative time text;
  - the badge.
- **The segregation guide's search filter** (`GuidePage`).
- **Cross-cutting lemmas** (`Lifecycle`): the UI offers a forward-only state machine, but the server accepts any named status from any status.

Shared helpers:

- `Wrappers` holds Option and Result.
- `Numbers` holds `Math.round` as `Floor(x + 1/2)`, `Math.ceil`, decimal rendering and parsing, and `padStart`.
- `Text` holds JavaScript whitespace trimming, ASCII case mapping, `includes` and the UTF-16 length.
- `Seqs` holds an order-preserving filter.

How the source is represented:

- **Collections** are maps from document key to document, held in a `Db` value. Each handler returns an `Outcome` holding the new `Db` and the reply, so "a refused request changes nothing" can be stated.
- **Notification writes** append to a sequence.
- **Weights** are `real`.
- **The request time and calendar year** are a `Clock` parameter.
- **Request fields:** a missing or falsy string field is `""`, and a field tested with `!== undefined` is an `Option`. A date or number of the owner's update is an `Input`: absent, a value that casts, or one the schema's cast refuses.
- **Edited documents.** A document edited in memory is a `Draft`: the document plus whether an assignment failed its cast. A failed cast keeps the previous value, and the next save is refused by validation.
- **Handlers.** Server handlers that assign fields one by one are methods that repeat those writes in order. Each method is proved equal to a declarative function, and the lemmas are about that function.
- **State-holding parts.** The settings collection and the bell are classes with fields.

The model follows the code on these points:

- The pickup ordinal is a global `countDocuments() + 1`, not a per-year count.
- The category is spelled `ewaste`.
- No route checks that a pickup has reached a final status before changing it.
- The table never offers in-progress → cancelled.
- A pickup can be awarded twice, by reopening it and completing it again (`Lifecycle.ReopenAwardsTwice`).

## Model

| member | source | states |
|---|---|---|
| Pickups.ParseStatus | server/models/Pickup.js:42-46 | a request string names an enumeration status exactly when it is one of the five schema strings, and parsing inverts `StatusName` |
| Pickups.ParseWasteType | server/models/Pickup.js:9-13 | a waste-type string falls outside the four-value enumeration exactly when it is parsed as `Other`, and parsing keeps the string |
| Pickups.Rate | server/models/Pickup.js:74-80 | definition (no contract of its own): the points per kilogram, 10 recyclable, 5 organic, 20 `ewaste`, 15 hazardous and 5 for any other name; what it means for the points is stated by `Points` and `EcoPoints` |
| Pickups.Points | server/models/Pickup.js:74-82 | the points are the weight times the category rate (10/5/20/15, default 5) rounded to nearest, and never negative for a non-negative weight; this is `calculateEcoPoints` for every name except those inherited from `Object.prototype` (see `EcoPoints`) |
| Pickups.EcoPoints | server/models/Pickup.js:74-82 | `calculateEcoPoints` is NaN exactly for an out-of-table name inherited from `Object.prototype` (`constructor`, `toString`, `__proto__`, …), and `Points` otherwise |
| Pickups.EcoPointsOfRequestName | server/models/Pickup.js:81 | a request's waste-type string gives NaN points exactly when it is an inherited name |
| Pickups.PointsExamples | server/models/Pickup.js:74-82 | 5.2 kg recyclable earns 52, 3.1 kg organic earns 16 (half rounds up), 0 kg earns 0 |
| Pickups.NewPickup | server/models/Pickup.js:26-61 | a new pickup is pending with no code, no completion time, zero collected weight and points, empty admin notes, and notes defaulting to "" |
| Pickups.FormatPickupIdExample | server/models/Pickup.js:67-69 | the third pickup of 2024 gets `#ECO-2024-003` |
| Pickups.FormatPickupId | server/models/Pickup.js:67-69 | definition (no contract of its own): `#ECO-`, the year, `-`, and count + 1 left-padded with '0' to three digits; proved about it by `FormatPickupIdExample`, `PickupIdRoundTrip` and `PickupIdInjective` |
| Pickups.PickupIdRoundTrip | server/models/Pickup.js:67-69 | a code reads back as its year and the ordinal count + 1; ordinals of four or more digits are kept whole |
| Pickups.ParseCodeParts | server/models/Pickup.js:69 | a code built from a digit year and a digit ordinal parses back to exactly those two numbers |
| Pickups.PickupIdInjective | server/models/Pickup.js:67-69 | different years or counts never give the same code |
| Pickups.PreSave | server/models/Pickup.js:65-71 | the hook always leaves a code; a code already set is never replaced; a missing one becomes the formatted code for the year and the stored count |
| Store.LevelFor | server/routes/adminRoutes.js:307 | the level is the one whose thousand-point band holds the points, and at least 1 for non-negative points |
| Store.SavePickup | server/models/Pickup.js:47-71 | a save succeeds exactly when the schema validators pass and no other pickup holds the hook's code; it fails with the validation or duplicate-key error otherwise and then writes nothing |
| Store.SaveKeepsValid | server/models/Pickup.js:47-71 | a successful save keeps every stored pickup valid, coded and uniquely coded |
| Store.ResaveStored | server/models/Pickup.js:66 | re-saving a stored, still valid pickup keeps its code and always succeeds |
| Store.SaveDraft | server/models/Pickup.js:47-71 | an edited document with a recorded cast error is refused with the validation error and nothing written; otherwise the save is `SavePickup` |
| AdminRoutes.PatchStatusAndNotes | server/routes/adminRoutes.js:281-285 | an accepted status name overwrites the status; notes overwrite whenever present; nothing else changes |
| AdminRoutes.AdminAward | server/routes/adminRoutes.js:289-299 | the award records the estimate as the collected weight and the completion time, with points that are those of the recorded weight; nothing else on the pickup changes |
| AdminRoutes.AdminCredit | server/routes/adminRoutes.js:302-309 | points and weight are added, 2.5 kg CO2 per kg is added unrounded, the level recomputed from the points, nothing else changed |
| AdminRoutes.CreditOwner | server/routes/adminRoutes.js:302-309 | the owner, when still present, gets the administrator credit; no other user changes and no user is added or removed |
| AdminRoutes.NotificationFor | server/routes/adminRoutes.js:319-341 | the title, type and message by target status: accepted with an optional note, completed with the earned points, declined with the reason or the support text, otherwise a system update naming the status; every message names the code |
| AdminRoutes.AdminNotification | server/routes/adminRoutes.js:314-351 | definition (no contract of its own): the notice to the owner, linked to the pickup and `/dashboard/history`, when a status was requested that differs from the previous one; proved about it by `AdminNotificationIff` and `AdminCompletedNotice` |
| AdminRoutes.AdminUpdateSpec | server/routes/adminRoutes.js:269-361 | definition (no contract of its own): PUT /pickups/:id as a function of the store; its properties are the ensures of `AdminUpdatePickup` and of the `Admin…` lemmas below |
| AdminRoutes.AdminUpdatePickup | server/routes/adminRoutes.js:269-361 | the step-by-step handler: not found changes nothing, and otherwise the result is the declarative update |
| AdminRoutes.AwardAndCredit | server/routes/adminRoutes.js:288-310 | the field writes of a completion give the declarative award on the pickup and the declarative credit in the ledger |
| AdminRoutes.AppendNotification | server/routes/adminRoutes.js:314-351 | the notification writes append exactly the declarative notice, or nothing when no other status was requested |
| AdminRoutes.AdminUpdateSucceeds | server/routes/adminRoutes.js:279-312 | on a valid store the update succeeds exactly when the requested status is empty or an enumeration value; an invalid one is refused with the store unchanged |
| AdminRoutes.AdminAwardOnCompletion | server/routes/adminRoutes.js:287-310 | completing from another status records the estimated weight, its points and the time, and credits exactly those to the owner when present; otherwise no ledger and no award field changes |
| AdminRoutes.AdminNoDoubleAward | server/routes/adminRoutes.js:288 | re-completing a completed pickup credits nothing and keeps its award fields |
| AdminRoutes.AdminStatusOverwrite | server/routes/adminRoutes.js:282 | any enumeration status is written whatever the current one, with no check for a final status |
| AdminRoutes.AdminNotesOnly | server/routes/adminRoutes.js:285 | a notes-only request rewrites the notes if present and nothing else, sends no notification |
| AdminRoutes.AdminNotificationIff | server/routes/adminRoutes.js:314-350 | exactly one notification is appended, to the owner and linked to the pickup and `/dashboard/history`, when the request succeeds with a status other than the previous one; none otherwise; earlier notifications are kept |
| AdminRoutes.AdminCompletedNotice | server/routes/adminRoutes.js:327-331 | the completion notice names the code and the points this request awarded |
| AdminRoutes.AdminIdempotent | server/routes/adminRoutes.js:269-361 | sending the same request again leaves the store and the reply as after the first |
| AdminRoutes.AdminFixedPoint | server/routes/adminRoutes.js:279-312 | a request that rewrites a stored pickup to itself and names its current status (or none) changes nothing and replies with the stored pickup |
| AdminRoutes.AdminKeepsValid | server/routes/adminRoutes.js:312 | the store invariant survives every request |
| AdminRoutes.AdminKeepsLevels | server/routes/adminRoutes.js:304-307 | every user's level still matches their points after any request |
| AdminRoutes.AdminOthersUnchanged | server/routes/adminRoutes.js:269-361 | no other pickup and no user besides the owner changes, and no document is added or removed |
| AdminRoutes.PatchUser | server/routes/adminRoutes.js:176-183 | name, e-mail and role change only to non-empty values, phone, location, points and level whenever present; password, avatar and totals are untouched |
| AdminRoutes.AdminUpdateUser | server/routes/adminRoutes.js:166-192 | a missing user is not found with nothing changed; otherwise the patched user is stored and returned |
| AdminRoutes.AdminPatchCanBreakLevel | server/routes/adminRoutes.js:182-183 | a patch of the level alone can make it disagree with the points |
| AdminRoutes.PickupsWithoutOwner | server/routes/adminRoutes.js:211 | exactly the pickups of other owners remain, unchanged |
| AdminRoutes.AdminDeleteUser | server/routes/adminRoutes.js:197-221 | a missing user is not found, deleting oneself is refused, both with nothing changed; otherwise the user and every pickup they own go, no pickup is added or changed, and everything else stays |
| AdminRoutes.DeletionCanRepeatCode | server/routes/adminRoutes.js:210-214 | after a deletion lowers the pickup count, the next new pickup is given a code already in use and its save is refused |
| AdminRoutes.ParamOr | server/routes/adminRoutes.js:103-104 | a missing, unparsable or zero parameter takes the default, so page and limit are never zero |
| AdminRoutes.Skip | server/routes/adminRoutes.js:251 | definition (no contract of its own): the documents skipped before a page, `(page - 1) * limit`; proved about it by `PagesCoverDocuments` and `PickupManagement.ShownRangeMatchesPage` |
| AdminRoutes.PageCount | server/routes/adminRoutes.js:131 | definition (no contract of its own): `Math.ceil(total / limit)` on reals; proved about it by `PageCountIsQuotient` and `PageCountBounds` |
| AdminRoutes.PageCountIsQuotient | server/routes/adminRoutes.js:131 | `Math.ceil(total / limit)` is the integer quotient rounded up |
| AdminRoutes.PageCountBounds | server/routes/adminRoutes.js:257 | the page count is the fewest pages of `limit` that hold every document, and 0 exactly when there are none |
| AdminRoutes.PagesCoverDocuments | server/routes/adminRoutes.js:251-257 | every document lies in the skip window of page `i / limit + 1`, which is between 1 and the page count, and in the window of no other page |
| PickupRoutes.CreateSpec | server/routes/pickupRoutes.js:117-136 | definition (no contract of its own): POST / as a function of the store, a missing date refused and a NaN or zero estimate stored as 0; proved about it by `CreatePickup` and `CreateNeverCollides` |
| PickupRoutes.CreateNeverCollides | server/routes/pickupRoutes.js:117-136 | while ordinals stay within the count, a request succeeds exactly when it is valid; it then stores one new pending pickup with the defaults and the next code and keeps the ordinals in bounds; an invalid one changes nothing |
| PickupRoutes.FreshCodeSaves | server/models/Pickup.js:65-71 | a valid uncoded pickup saved under a new key while ordinals stay within the count gets the next code, which no stored pickup holds, and the ordinals stay within the new count |
| PickupRoutes.CreatePickup | server/routes/pickupRoutes.js:117-136 | the step-by-step creation equals the declarative one, with a NaN or zero estimate stored as 0 |
| PickupRoutes.OwnerPatch | server/routes/pickupRoutes.js:154-161 | a falsy waste type, date, time or address keeps the stored value, a present estimate or note replaces it, an unparsable date or estimate keeps the stored value and records a cast error (exactly then), nothing else changes, and, for a valid stored pickup, the schema validators fail only on a waste type outside the enumeration |
| PickupRoutes.OwnerAward | server/routes/pickupRoutes.js:164-168 | completion stores the given weight, or the estimate when it is falsy, or the previous weight when its cast fails; then the points of the document's type and weight, or the previous points and a cast error when they are NaN; a cast error is recorded exactly in those cases |
| PickupRoutes.OwnerCredit | server/routes/pickupRoutes.js:170-176 | points and weight are added, `round(weight * 0.7)` CO2 is added, level recomputed, nothing else changed |
| PickupRoutes.CollectedWeight | server/routes/pickupRoutes.js:167 | definition (no contract of its own): the weight the completed document holds, the given one, the estimate when none is given, or the previous weight when the cast fails; proved about it by `OwnerAward` and `OwnerAwardOnCompletion` |
| PickupRoutes.OwnerCompletionAsWritten | server/routes/pickupRoutes.js:164-181 | definition (no contract of its own): the completion branch as written, the ledger saved before the pickup; proved about it by `CompleteForOwner`, `OwnerCreditWithoutCompletion` and `OwnerAgreesWhenValid` |
| PickupRoutes.OwnerOtherStatus | server/routes/pickupRoutes.js:177-181 | definition (no contract of its own): a truthy non-completing status is written as named and saved; proved about it by `WriteRequestedStatus`, `OwnerStatusOverwrite` and `OwnerFieldPatch` |
| PickupRoutes.OwnerUpdateAsWritten | server/routes/pickupRoutes.js:141-187 | definition (no contract of its own): PUT /:id as the source writes it; proved about it by `OwnerUpdatePickup`, `OwnerGuards` and `OwnerCreditWithoutCompletion` |
| PickupRoutes.OwnerUpdateSpec | server/routes/pickupRoutes.js:141-187 | definition (no contract of its own): PUT /:id with the credit written only once the completed pickup is saved; proved about it by `OwnerAgreesWhenValid`, `OwnerCreditOnlyWithCompletion` and the lemmas below |
| PickupRoutes.OwnerUpdatePickup | server/routes/pickupRoutes.js:141-187 | the step-by-step handler equals the owner update as written |
| PickupRoutes.AssignFields | server/routes/pickupRoutes.js:156-161 | the six field assignments, with their cast errors, give the declarative patch |
| PickupRoutes.CompleteForOwner | server/routes/pickupRoutes.js:164-181 | the completion branch, step by step: status, time, weight and points written, the owner's ledger saved, then the pickup; it equals the completion as written |
| PickupRoutes.WriteRequestedStatus | server/routes/pickupRoutes.js:177-181 | the non-completing branch, step by step: a truthy status written, then the pickup saved; it equals `OwnerOtherStatus` |
| PickupRoutes.CompletionValidIff | server/routes/pickupRoutes.js:164-181 | the completed document passes validation exactly when the patched waste type is in the enumeration and every date and number of the request casts |
| PickupRoutes.OwnerGuards | server/routes/pickupRoutes.js:145-152 | a missing pickup is not found and another user's is not authorized, both before anything is written |
| PickupRoutes.OwnerAgreesWhenValid | server/routes/pickupRoutes.js:164-181 | the written and the corrected handler agree on every request except a completion by an existing owner whose save validation refuses (an out-of-enumeration waste type, or a date or number that does not cast) |
| PickupRoutes.OwnerCreditWithoutCompletion | server/routes/pickupRoutes.js:170-181 | as written, a completion whose save validation refuses (an unknown waste type, or a date or number that does not cast) credits the owner with the points the document holds (the computed ones, or the stored ones when they are NaN), fails, leaves the pickup uncompleted, and the same request credits them again |
| PickupRoutes.OwnerCreditOnlyWithCompletion | server/routes/pickupRoutes.js:164-181 | in the corrected handler a failed request changes nothing, and any ledger change comes with a stored completion |
| PickupRoutes.OwnerAwardOnCompletion | server/routes/pickupRoutes.js:164-176 | completing from another status, with a valid waste type and every value casting, stores the award and credits exactly its points and weight to the owner, sending no notification |
| PickupRoutes.OwnerStatusOverwrite | server/routes/pickupRoutes.js:154-181 | any other enumeration status, including leaving `completed` or `cancelled`, is stored verbatim over the patch with no ledger change, unless a date or estimate failed its cast or the patched waste type is outside the enumeration, either of which refuses the save and changes nothing |
| PickupRoutes.OwnerFieldPatch | server/routes/pickupRoutes.js:154-181 | a request without a status stores the field patch with no ledger change, unless a date or estimate failed its cast or the patched waste type is outside the enumeration, which refuses the save and changes nothing; the written and the corrected handler agree on it |
| PickupRoutes.OwnerUnknownStatusRefused | server/routes/pickupRoutes.js:177-181 | a truthy status outside the enumeration is refused by the validators with nothing written, in the written and in the corrected handler |
| PickupRoutes.OwnerNoDoubleAward | server/routes/pickupRoutes.js:164 | updating a completed pickup never changes a ledger |
| PickupRoutes.OwnerKeepsLevels | server/routes/pickupRoutes.js:175 | every user's level still matches their points after an owner update |
| PickupRoutes.CancelPickup | server/routes/pickupRoutes.js:192-214 | not found and not authorized change nothing; on a valid store the cancel rewrites the status alone |
| PickupRoutes.Recycled | server/routes/pickupRoutes.js:84-85 | definition (no contract of its own): the sum of the collected weights; proved about it by `RecycledAppend` and `RecycledNonNegative` |
| PickupRoutes.RecycledAppend | server/routes/pickupRoutes.js:84-85 | the monthly total over two runs of pickups is the sum of their totals |
| PickupRoutes.RecycledNonNegative | server/routes/pickupRoutes.js:84-85 | with no negative weights the total is never negative |
| PickupRoutes.RecycledTrend | server/routes/pickupRoutes.js:87-89 | with nothing last month the trend is 100 if anything was recycled this month, else 0 |
| PickupRoutes.TrendFollowsChange | server/routes/pickupRoutes.js:87-89 | a positive trend means more was recycled, a negative one less, equal months give 0, and it never falls below -100 |
| PickupRoutes.TrendText | server/routes/pickupRoutes.js:96 | the text ends in '%' and starts with '+' exactly for a non-negative trend and with '-' otherwise |
| PickupRoutes.TrendTextRoundTrip | server/routes/pickupRoutes.js:96 | the text reads back as the trend |
| SettingsRoutes.DefaultSettings | server/models/SiteSettings.js:5-39 | the default document has key `main` and is stamped with the save time |
| SettingsRoutes.Spread | server/routes/settingsRoutes.js:42-45 | a key the patch carries wins whatever its value; others keep the stored value |
| SettingsRoutes.MergeImpact | server/routes/settingsRoutes.js:40-65 | definition (no contract of its own): each provided card is spread over the stored one; proved about it by `SpreadCards`, `OnlySpreadClears`, `RoutesAgreeWithoutEmpty` and `MergesIdempotent` |
| SettingsRoutes.MergeHero | server/routes/settingsRoutes.js:68-70 | definition (no contract of its own): the hero fields the body carries win; proved about it by `MergeSettings` and `MergesIdempotent` |
| SettingsRoutes.MergeContact | server/routes/settingsRoutes.js:73-75 | definition (no contract of its own): the contact fields the body carries win; proved about it by `MergeSettings` and `MergesIdempotent` |
| SettingsRoutes.KeepTruthy | server/routes/settingsRoutes.js:99-103 | only a non-empty string replaces the stored value, so a filled field stays filled |
| SettingsRoutes.UpdateImpact | server/routes/settingsRoutes.js:99-122 | definition (no contract of its own): each provided card takes its non-empty fields; proved about it by `UpdateImpactKeepsFilled`, `OnlySpreadClears`, `RoutesAgreeWithoutEmpty` and `MergesIdempotent` |
| SettingsRoutes.MergeSettings | server/routes/settingsRoutes.js:39-75 | the key and every section the body leaves out are kept |
| SettingsRoutes.UpdateImpactKeepsFilled | server/routes/settingsRoutes.js:99-122 | the statistics route can never empty a field |
| SettingsRoutes.OnlySpreadClears | server/routes/settingsRoutes.js:47-52 | an empty string clears a field through the shallow merge but not through the statistics route |
| SettingsRoutes.RoutesAgreeWithoutEmpty | server/routes/settingsRoutes.js:99-122 | a body without empty strings means the same to the two routes |
| SettingsRoutes.MergesIdempotent | server/routes/settingsRoutes.js:39-122 | sending the same body twice gives what sending it once gives |
| SettingsRoutes.SettingsStore.constructor | server/routes/settingsRoutes.js:12-17 | the collection starts with no `main` document |
| SettingsRoutes.SettingsStore.Get | server/routes/settingsRoutes.js:10-24 | the stored document is returned unchanged, or the defaults are created, stored and returned |
| SettingsRoutes.SettingsStore.Update | server/routes/settingsRoutes.js:29-84 | the stored (or default) document, merged section by section and stamped, is stored and returned |
| SettingsRoutes.SpreadCards | server/routes/settingsRoutes.js:40-65 | the card-by-card spreads give the declarative merge of the statistics |
| SettingsRoutes.SettingsStore.UpdateImpactStats | server/routes/settingsRoutes.js:89-131 | the statistics, updated truthy-or-keep, are stored with a new stamp and returned alone |
| AuthRoutes.RegisterCheck | server/routes/authRoutes.js:22-34 | a blank name, then a blank e-mail, then a missing password, then one under six UTF-16 units gives its own message; the checks pass exactly when none applies |
| AuthRoutes.NewUser | server/routes/authRoutes.js:43-48 | the new user has the trimmed name, the lower-cased trimmed e-mail, the default role and an empty, level-1 ledger |
| AuthRoutes.Register | server/routes/authRoutes.js:18-76 | failed checks and a taken address give their message and change nothing; an address taken only in trimmed form is refused by the unique index; otherwise exactly the new user is added |
| AuthRoutes.RegisterKeepsInvariants | server/routes/authRoutes.js:36-48 | registration keeps addresses unique and every level consistent |
| AuthRoutes.RegisterOnlyAdds | server/routes/authRoutes.js:43-48 | registration touches no pickup or notification and changes no existing user |
| AuthRoutes.PaddedEmailNotFound | server/routes/authRoutes.js:45 | an address registered with a leading space is stored trimmed, so the same typed address is then never found |
| AuthRoutes.RegisterPassesLoginCheck | server/routes/authRoutes.js:23-34 | whatever registration accepts passes the login input checks |
| AuthRoutes.LoginCheck | server/routes/authRoutes.js:86-92 | a blank e-mail, then a missing password, each gives its own message; otherwise the checks pass |
| AuthRoutes.Login | server/routes/authRoutes.js:82-124 | the check messages; no account for an unknown address; a success is an account with the lower-cased address whose password matches; a wrong password is a holder that does not match; with unique addresses the reply is determined |
| AuthRoutes.Or | server/routes/authRoutes.js:159-162 | JavaScript `value \|\| fallback` on strings |
| AuthRoutes.UpdateProfile | server/routes/authRoutes.js:154-195 | a missing user is not found; otherwise each profile field is replaced by a non-empty value only, and the role and ledger are kept |
| PickupManagement.DetailActions | src/components/admin/PickupManagement.jsx:402-440 | pending offers accept or reject, in progress offers complete, nothing else is offered, and every offer moves forward |
| PickupManagement.QuickActions | src/components/admin/PickupManagement.jsx:225-242 | pending offers in-progress, in progress offers completed, others nothing; never a rejection and always one of the detail offers |
| PickupManagement.OfferedPathIncreases | src/components/admin/PickupManagement.jsx:402-440 | along offered transitions the lifecycle stage strictly grows |
| PickupManagement.OfferedPathVisitsOnce | src/components/admin/PickupManagement.jsx:402-440 | following the buttons no status repeats, at most three statuses are visited, and a final one can only be last |
| PickupManagement.BadgeStyle | src/components/admin/PickupManagement.jsx:92-104 | a stored status whose name is outside the style table (pending and scheduled) gets the pending colours, and each other status its own entry |
| PickupManagement.BadgeStylesDistinct | src/components/admin/PickupManagement.jsx:93-98 | the four styled statuses look different; scheduled looks pending |
| PickupManagement.OpenEdit | src/components/admin/PickupManagement.jsx:49-56 | the form starts from the pickup's status and notes |
| PickupManagement.ChooseStatus | src/components/admin/PickupManagement.jsx:405-430 | an action button sets the status and keeps the notes typed |
| PickupManagement.SaveDisabled | src/components/admin/PickupManagement.jsx:489 | definition (no contract of its own): the `disabled` expression of the save button; proved about it by `SaveNeedsAChange` |
| PickupManagement.SaveNeedsAChange | src/components/admin/PickupManagement.jsx:489 | save is disabled while saving and on an unchanged form, and enabled by an offered action or a notes edit |
| PickupManagement.SaveRequest | src/components/admin/PickupManagement.jsx:58-61 | the save sends the form's status and notes |
| PickupManagement.QuickRequest | src/components/admin/PickupManagement.jsx:83-90 | a quick button sends the new status alone |
| PickupManagement.SaveRequestAccepted | src/components/admin/PickupManagement.jsx:61 | every form's request names an accepted status, and it awards exactly when it moves a non-completed pickup to completed |
| PickupManagement.PrevPage | src/components/admin/PickupManagement.jsx:278 | one page back, never below 1, filters kept |
| PickupManagement.NextPage | src/components/admin/PickupManagement.jsx:286 | one page on, never past the last, filters kept |
| PickupManagement.SetStatusFilter | src/components/admin/PickupManagement.jsx:151 | a new status filter returns to page 1 |
| PickupManagement.SetTypeFilter | src/components/admin/PickupManagement.jsx:159 | a new type filter returns to page 1 |
| PickupManagement.ControlsKeepPageInRange | src/components/admin/PickupManagement.jsx:278-286 | from a page in range every control keeps the page in range |
| PickupManagement.ShownRange | src/components/admin/PickupManagement.jsx:274 | definition (no contract of its own): the first and last numbers shown, `(page - 1) * 10 + 1` and `Math.min(page * 10, total)`; proved about it by `ShownRangeMatchesPage` |
| PickupManagement.ShownRangeMatchesPage | src/components/admin/PickupManagement.jsx:274 | on any page the server can return, the range shown starts after the skipped documents and covers exactly that page |
| NotificationsDropdown.MarkRead | src/components/ui/NotificationsDropdown.jsx:57-59 | only entries with the id become read; order, length and other fields are kept |
| NotificationsDropdown.MarkAllRead | src/components/ui/NotificationsDropdown.jsx:69 | every entry becomes read and nothing else changes |
| NotificationsDropdown.Remove | src/components/ui/NotificationsDropdown.jsx:81 | exactly the entries with other ids remain, in order and with their multiplicities |
| NotificationsDropdown.Decrement | src/components/ui/NotificationsDropdown.jsx:60 | the counter goes down by one and never below 0 |
| NotificationsDropdown.CountMarkRead | src/components/ui/NotificationsDropdown.jsx:57-60 | marking one entry lowers the unread count by one exactly when it was unread |
| NotificationsDropdown.CountRemove | src/components/ui/NotificationsDropdown.jsx:80-84 | deleting an entry lowers the unread count by one exactly when it was unread |
| NotificationsDropdown.HandlersKeepCountExact | src/components/ui/NotificationsDropdown.jsx:53-88 | with the mark button shown only on unread entries (lines 218-220), all three handlers keep the counter equal to the unread entries |
| NotificationsDropdown.Dropdown.constructor | src/components/ui/NotificationsDropdown.jsx:9-10 | the bell starts with no entries and a zero counter |
| NotificationsDropdown.Dropdown.Load | src/components/ui/NotificationsDropdown.jsx:26-37 | a fetch replaces the list and the counter |
| NotificationsDropdown.Dropdown.MarkAsRead | src/components/ui/NotificationsDropdown.jsx:53-64 | the list is marked and the counter decremented, never going negative |
| NotificationsDropdown.Dropdown.MarkAllAsRead | src/components/ui/NotificationsDropdown.jsx:66-74 | every entry is read and the counter is 0 |
| NotificationsDropdown.Dropdown.Delete | src/components/ui/NotificationsDropdown.jsx:76-88 | the entry is removed and the counter decremented only if it was unread |
| NotificationsDropdown.HoursOfMinutes | src/components/ui/NotificationsDropdown.jsx:107-108 | flooring to minutes and then hours is flooring to hours |
| NotificationsDropdown.DaysOfHours | src/components/ui/NotificationsDropdown.jsx:108-109 | flooring to hours and then days is flooring to days |
| NotificationsDropdown.FormatTime | src/components/ui/NotificationsDropdown.jsx:103-116 | under a minute "Just now", then whole minutes, hours or days with their suffix, and the date text from a week on |
| NotificationsDropdown.BadgeText | src/components/ui/NotificationsDropdown.jsx:132-135 | hidden exactly at 0 or below, "9+" above 9, the digit otherwise |
| GuidePage.InitialCategory | src/pages/GuidePage.jsx:62 | the URL parameter when non-empty, else `all` |
| GuidePage.FilteredItems | src/pages/GuidePage.jsx:64-68 | an item is shown exactly when its lower-cased name contains the lower-cased query and its category is selected; the result keeps the catalogue's order |
| GuidePage.EmptySearchShowsAll | src/pages/GuidePage.jsx:64-68 | no query and `all` shows the whole catalogue in order |
| GuidePage.ArrivalShowsAll | src/pages/GuidePage.jsx:62-68 | arriving without a category parameter (or with `all`), before any search, shows the whole catalogue |
| GuidePage.UnknownCategoryShowsNothing | src/pages/GuidePage.jsx:66 | a category no item has shows nothing |
| GuidePage.FindCategory | src/pages/GuidePage.jsx:158 | the lookup finds a category with that id, or reports that none has it |
| GuidePage.EveryItemHasCategory | src/data/wasteItems.js:3-42 | every catalogue item's category is declared, so each card finds its icon |
| Lifecycle.AdminReopen | server/routes/adminRoutes.js:282 | reopening as pending rewrites the status alone and keeps the store valid |
| Lifecycle.CancelledCanBeCompleted | server/routes/adminRoutes.js:287-310 | no button leaves `cancelled`, yet the administrator route completes a cancelled pickup and credits its points |
| Lifecycle.ReopenAwardsTwice | server/routes/adminRoutes.js:282-310 | completed → pending → completed is no offered path, yet the server takes it and credits the owner a second time |
| Lifecycle.OwnerCompletesCancelled | server/routes/pickupRoutes.js:164-176 | the owner route also completes a cancelled pickup and credits it, when its values cast and its waste type is valid |
| Lifecycle.AdminCreditsMoreCarbon | server/routes/pickupRoutes.js:172-173 | both completion paths credit the same points, weight and level, but the administrator's carbon offset is larger for any positive weight |

## Left out

- Mongoose queries and aggregations, HTTP status codes and JSON shaping are left out. This covers the admin statistics and recent lists, the stats route's recent pickups and next pickup, and population of the referenced user. A collection is a map and a reply is a `Result`.
- The leftovers of each `catch` are left out: only the error paths the handlers' own logic reaches are modelled.
  - validation failures;
  - duplicate keys;
  - not found / not authorized;
  - a missing owner on the owner route, as `ServerError`.
- Login: `matchPassword` (bcrypt) is a parameter, and JWT signing is left out. Password hashing in the user model is not part of this model, so the stored password is the one given.
- Register: `encodeURIComponent` is a parameter.
- The user model (`server/models/User.js`) is not part of this model.
  - Its defaults are assumed: role "user", zero ledger, level 1, empty phone and location.
  - Its unique e-mail index is assumed only for registration's create. The profile and admin user saves do not model that index, or any user validators.
- `createNotification` comes from a module not part of this model. It is modelled as appending a record to a sequence. Its own failure handling is not modelled.
- Login: when several users share an address, which one `User.findOne` returns is left unspecified (a nondeterministic choice).
- Dates and time zones are left out:
  - `new Date()` is the `Clock` parameter;
  - the month boundaries of the stats route are left out, so `Recycled` takes each month's completed pickups as input;
  - `toLocaleDateString` is the parameter `dateText`.
- `CreatePickup`: a date that does not parse is modelled as `None` and refused, as the schema's required-date validator refuses it. `new Date(date)` itself is not modelled.
- Floating-point artefacts of `Math.round` and of the weight arithmetic are left out: weights are exact reals. `PageCount` likewise uses exact real division.
- Concurrent requests on the same pickup are not modelled.
- The administrator's `DELETE /pickups/:id` (server/routes/adminRoutes.js:366-381) is left out as a plain delete by key.
- The 30-second polling and the fetch are left out. `Dropdown.Load` stands in for a fetch's result.
- `Dropdown.MarkAsRead`, `Dropdown.MarkAllAsRead`, `Dropdown.Delete`: a failed server call leaves the state as it was, so each method models only the success path.
- React state setters, rendering, animation, outside-click handling and the guide's per-item instructions are left out. The table's view state is the value `ListView`.
- `PickupManagement.SaveRequest`: the table sends the form after a save; the refetch that follows is not modelled.
- `Text.Lower`: case mapping covers ASCII letters only, not Unicode case folding.
- AuthRoutes.Register, AuthRoutes.PaddedEmailNotFound: both assume that the e-mail path of the user model (not part of this model) declares no `trim` or `lowercase` setter. With such setters Mongoose would also apply them to the `findOne` filters (server/routes/authRoutes.js:37 and :95), the padded address would be found at login, and the unique-index branch of registration could not be reached.
- AdminRoutes.AdminAward: uses `Points`, the table-or-5 rate, for every waste type. A name inherited from `Object.prototype` would give NaN points on the administrator route too. The route only reads stored pickups, and the enumeration validator keeps their waste type within the table.
- AuthRoutes.UpdateProfile, PickupRoutes.CreatePickup, PickupRoutes.OwnerUpdatePickup, PickupRoutes.CancelPickup, AdminRoutes.AdminDeleteUser: the token check of the `protect` and `adminProtect` middleware is left out; the signed-in user (`req.user._id`) is the parameter `actor` (`owner` for creation).
- AdminRoutes.AdminUpdateUser, AdminRoutes.AdminUpdatePickup, SettingsRoutes.SettingsStore.Update, SettingsRoutes.SettingsStore.UpdateImpactStats: the admin-role check of `adminProtect` is left out; these handlers do not use the signed-in user.

## Findings

| source | as written | input that shows it | evidently intended | confidence | as-written member | corrected member |
|---|---|---|---|---|---|---|
| server/routes/pickupRoutes.js:170-181 | the owner's completion saves the credited user (line 176) before the pickup (line 181); when the pickup's save is refused the credit stays and the pickup stays uncompleted | an owner `PUT /:id` with `status: "completed"` and `wasteType: "plastic"` (or `estimatedWeight: "abc"`) on a pending pickup: the save fails on the enumeration (or the Number cast), the owner gains the points, and repeating the request credits them again | the ledger changes only with a stored completion | not executed | PickupRoutes.OwnerCreditWithoutCompletion | PickupRoutes.OwnerCreditOnlyWithCompletion |
