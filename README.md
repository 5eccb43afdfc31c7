# Subscription quotas and listing review — a Dafny model

This project models the core of a marketplace back end. Landowners publish farms for sale or rent. Contractors publish service profiles ("contractor requests"). An administrator reviews both.

Every account is on one of three plans: Basic, Premium or VIP. The plan caps how many listings the account may hold:

- Basic: 1.
- Premium: 2.
- VIP: no cap.

A paid plan is granted when an administrator approves a subscription request. When it runs out, the expiry routine puts the account back on Basic and rejects the pending listings beyond the Basic allowance, newest first.

The model covers these parts:

- the record types and their enums and defaults (farms, contractor requests, subscription requests, the plan registry);
- the review state machine shared by all three reviewed collections, and the seven-day deletion of rejected farms;
- the landowner handlers (routers/ownerRouter.js): the listing form and its quota guard, the quota report, edit, delete, list and single get;
- the account and contractor handlers (routers/loginrouter.js):
  - the administrator e-mail list;
  - the contractor profile guard and the quota report, which read different plan fields;
  - request edits and deletion;
  - subscription requests and this file's own approve and reject;
  - the unguarded listing handler that answers `POST /owner/lands`;
- the administrator handlers (routers/adminRouter.js): the admin guard, the JSON-or-redirect choice, approve and reject for the three collections, and the plan grant;
- the public handlers (routers/public.js): the "top farms" query with its fallback, the tier-weighted contractor list, and rating admission;
- the sign-up, log-in, forgot and reset validators (validators/loginSchema.js);
- the expiry routine (utils/enforceExpiry.js).

How the code is written in Dafny:

- Collections are sequences held by a `Db` object (`Store.Db`). Handlers that write to them are methods with `modifies` clauses. Their decisions are functions, with lemmas about those functions.
- A document is addressed by its position in its sequence. `Reviews.Find` plays the role of `findById` / `findOne({_id, owner})`.
- New document ids and the current time are parameters.
- An absent or null string reads as "" wherever the code only uses it through `||` or `===`. Where absence matters, a `Field` (`Missing`, `Null` or `Text`) keeps it.
- `Infinity` is the `Unlimited` case of `Cap`.
- A Mongoose `required` string refuses "". So creating a farm with a blank title, or a contractor request with an empty company name, fails and the handler answers 500.
- `findOneAndUpdate` and `updateOne` run no validators. The timestamps plugin sets `updatedAt` on every write.

The code has no grace period, suspension or soft deletion: there is no `graceUntil`, `isSuspended` or `deletedAt` field, and no periodic sweep.

## Model

| member | source | states |
|---|---|---|
| Reviews.ReplayStamped | routers/adminRouter.js:54-60 | Any sequence of approvals, rejections and owner edits, starting from a new document, leaves an approved document with an approval time and a rejected one with a rejection time. The final status is the one the last event set. |
| Reviews.CountIsCard | routers/ownerRouter.js:80 | `countDocuments` with an owner and a set of statuses is the number of positions holding such a document. |
| Reviews.Find | routers/ownerRouter.js:224-225 | The lookup by id, optionally scoped to an owner, returns the first matching document. No document before it matches, and `None` means no document matches at all. |
| Reviews.RemoveFound | routers/ownerRouter.js:161-162 | Deleting the caller's own document lowers that owner's count by one when the document's status is counted, and changes no other owner's count. |
| FarmModel.Create | models/farmModel.js:8-38 | Creation fails exactly when the title is empty. Otherwise the farm is pending with no stamps, an empty note and 0 views; kind defaults to sale and the video URL to ""; both timestamps are the creation time. |
| FarmModel.NoStampNoExpiry | models/farmModel.js:40-42 | A farm without `rejectedAt` is never removed by the TTL index. |
| FarmModel.TtlRemovesOnlyRejected | models/farmModel.js:42 | Under the corrected approval, the TTL index only ever removes farms that are currently rejected. |
| FarmModel.ApproveFarm | routers/adminRouter.js:56-60 | Corrected approval: approved, approval time set, note cleared, and `rejectedAt` cleared. |
| FarmModel.FarmReplaySafe | routers/adminRouter.js:56-60 | With the corrected approval, every review history leaves a farm stamped, and `rejectedAt` is set only on a rejected farm. |
| FarmModel.ApprovedFarmExpiresAsWritten | routers/adminRouter.js:56-60 | As written, a farm rejected and then approved is approved and still past its TTL seven days after the rejection. |
| ContractorRequestModel.TierNameRoundTrip | models/contractorRequestModel.js:26 | The tier enum's names parse back to the same tier, and distinct tiers have distinct names. |
| ContractorRequestModel.Create | models/contractorRequestModel.js:3-27 | Creation fails exactly when the company name is empty. Otherwise the request is pending with no stamps, tier Basic, the video URL trimmed, and the given company name and services. |
| SubscriptionRequestModel.PlanNameRoundTrip | models/subscriptionRequest.js:7 | Each plan's name parses back to that plan, and no plan is named Basic. |
| SubscriptionRequestModel.Create | models/subscriptionRequest.js:4-13 | Creation fails exactly when the plan is not 'Premium' or 'VIP'. Otherwise the request is pending, holds the given name, WhatsApp number and notes, and carries that plan. |
| SubscriptionConfigModel.Insert | models/SubscriptionConfig.js:5 | Inserting a config is refused exactly when its key is already present; otherwise the config is appended. |
| SubscriptionConfigModel.InsertKeepsUnique | models/SubscriptionConfig.js:5 | Inserts keep keys unique. |
| SubscriptionConfigModel.SecondDefaultRefused | models/SubscriptionConfig.js:4-10 | A second config with the default key 'sub-plans' is refused. |
| EnforceExpiry.Decide | utils/enforceExpiry.js:8-13 | No user means nothing happens. The routine downgrades exactly when the tier is not Basic and an end date exists that is not after now. |
| EnforceExpiry.Downgrade | utils/enforceExpiry.js:16-18 | Both plan fields become Basic and the end date is cleared; email and role are kept. |
| EnforceExpiry.DowngradeSettles | utils/enforceExpiry.js:12-18 | After a downgrade, every later call leaves the user unchanged. |
| EnforceExpiry.Expire | utils/enforceExpiry.js:30 | An excess request becomes rejected at now with the expiry note; its id, owner, creation time and fields stay. |
| EnforceExpiry.ByCreatedTotal | utils/enforceExpiry.js:28 | Ordering by creation time is a total preorder. |
| EnforceExpiry.RejectEach | utils/enforceExpiry.js:29-31 | The loop rejects exactly the listed positions and leaves every other one as it was. |
| EnforceExpiry.ExpireCollection | utils/enforceExpiry.js:25-31 | One collection's pass yields the overflow rejection of that collection. |
| EnforceExpiry.EnforceExpiry | utils/enforceExpiry.js:7-41 | Unless the routine downgrades, nothing is written. On a downgrade: the user is downgraded, and the overflow of pending farms and of pending contractor requests is rejected, each against its Basic limit. |
| EnforceExpiry.OverflowFacts | utils/enforceExpiry.js:27-29 | The rejected positions are distinct pending documents of the owner. There are as many as the pending ones beyond the room left beside the approved ones. |
| EnforceExpiry.RejectOverflowChanges | utils/enforceExpiry.js:26-30 | Only the owner's pending documents change, and each one that changes is rejected with the expiry note. |
| EnforceExpiry.RejectOverflowKeepsCounts | utils/enforceExpiry.js:26-30 | Other users' counts and the owner's approved count are unchanged. |
| EnforceExpiry.RejectOverflowPendingLeft | utils/enforceExpiry.js:27-30 | Afterwards the owner has exactly `min(room, #pending)` pending documents, where room is `max(0, limit - approved)`. |
| EnforceExpiry.RejectOverflowWithinLimit | utils/enforceExpiry.js:25-30 | If approved ≤ limit before, then approved + pending ≤ limit after. |
| EnforceExpiry.RejectOverflowKeepsOldest | utils/enforceExpiry.js:28-29 | No request left pending was created after one that was rejected, so the oldest are kept. |
| EnforceExpiry.RejectOverflowIdempotent | utils/enforceExpiry.js:27-30 | A second rejection pass, at any time, changes nothing. |
| OwnerRouter.PlanLimitOrdered | routers/ownerRouter.js:15-19 | The cap is unlimited exactly for 'VIP'. Every other string gets a finite cap between 1 and the Premium cap. |
| OwnerRouter.PlanLimitVersusConfig | routers/ownerRouter.js:15-19 | The Basic and Premium caps equal the registry defaults 1 and 2. VIP is unlimited in the handlers but capped at 999 in the registry default. |
| OwnerRouter.OwnerPlan | routers/ownerRouter.js:75 | The landowner plan is `subscriptionTier`, or Basic when it is absent or empty. |
| OwnerRouter.PostLandDecides | routers/ownerRouter.js:63-143 | 400 exactly when the form fails `landSchema`, including a null owner contact field or extra description, photos that are not an array of strings, and a malformed location. 403 exactly when the form is valid and the owner's farms, whatever their status, reach the cap. 500 only for a title that trims to "". Otherwise a pending farm with kind rent exactly for 'rent', and `description` taken before `desc`. |
| OwnerRouter.PostLands | routers/ownerRouter.js:63-143 | The handler answers as decided and appends exactly the created farm, if any. |
| OwnerRouter.PostLandAddsOne | routers/ownerRouter.js:111-136 | An accepted form adds one farm and one pending farm to the owner, and no approved one. |
| OwnerRouter.PostLandWithinCap | routers/ownerRouter.js:80-88 | An owner within a finite cap stays within it after any form. |
| OwnerRouter.Quota | routers/ownerRouter.js:171-179 | The report gives the plan, its cap, the count of all the owner's farms, and `left`. `left` is unlimited exactly with the cap; otherwise it is `max(0, limit - used)`. |
| OwnerRouter.QuotaAgreesWithGuard | routers/ownerRouter.js:178 | For a valid form, the report shows nothing left exactly when the guard refuses with 403. |
| OwnerRouter.OwnedBy | routers/ownerRouter.js:148 | The owner filter keeps exactly the owner's farms; its length is the owner's count. |
| OwnerRouter.OwnLandsSpec | routers/ownerRouter.js:146-151 | `GET /owner/lands` lists every farm of the owner and nothing else, newest first. |
| OwnerRouter.Patched | routers/ownerRouter.js:191-213 | An edit overwrites title, kind, area, city, size, price, description and video URL from the form. It resets review to pending with no stamps and an empty note, and keeps id, owner, views and creation time. |
| OwnerRouter.PatchLand | routers/ownerRouter.js:187-231 | Only the caller's farm with that id is edited. Otherwise 404 and nothing changes. |
| OwnerRouter.PatchedCounts | routers/ownerRouter.js:209-212 | An edit keeps the owner's total count, withdraws an approval, and leaves the farm counted as pending. |
| OwnerRouter.DeleteLand | routers/ownerRouter.js:159-163 | Only the caller's farm with that id is removed. Otherwise 404 and nothing changes. |
| OwnerRouter.OwnLand | routers/ownerRouter.js:239-247 | The single get returns the caller's farm with that id, or `None` exactly when no such farm of the caller exists. |
| LoginSchema.NormalEmail | validators/loginSchema.js:4 | Trimming and lower-casing never lengthens the address. |
| LoginSchema.NormalEmailIdempotent | validators/loginSchema.js:4 | Normalising twice is normalising once. |
| LoginSchema.EmailFieldNormal | validators/loginSchema.js:4 | An accepted address is in normal form, well formed and without upper-case letters. |
| LoginSchema.EmailFieldIgnoresCaseAndSpace | validators/loginSchema.js:4 | Two inputs with the same normal form are accepted or refused alike, with the same value. |
| LoginSchema.ValidateSignup | validators/loginSchema.js:6-27 | A refused sign-up names at least one failing field. |
| LoginSchema.SignupRules | validators/loginSchema.js:6-27 | A sign-up is accepted exactly when name, email, role, password and confirmation all pass. It then carries a trimmed name of length ≥ 2, a normal address, a role of contractor or landowner, and a password of length ≥ 6 that the confirmation equals. The name and confirm errors appear exactly when those rules fail. |
| LoginSchema.PhoneOptional | validators/loginSchema.js:15 | The phone field (absent, null or any string) never decides acceptance. |
| LoginSchema.ValidateLogin | validators/loginSchema.js:29-37 | Log-in is accepted exactly with a valid address and a non-empty password, and carries the normal address. |
| LoginSchema.ValidateForgot | validators/loginSchema.js:39-44 | The forgot form is accepted exactly with a valid address, which it returns in normal form. |
| LoginSchema.ValidateReset | validators/loginSchema.js:46-55 | The reset form is accepted exactly when the password has ≥ 6 characters and the confirmation equals it. |
| LoginRouter.EntriesSpec | routers/loginrouter.js:12-15 | The list holds exactly the non-empty, trimmed and lower-cased parts of the comma-separated value. |
| LoginRouter.IsAdminEmailSpec | routers/loginrouter.js:11-17 | An email is an administrator's exactly when it is non-empty and its lower-case form equals some trimmed, lower-cased list part. |
| LoginRouter.EmptyEmailNeverAdmin | routers/loginrouter.js:16 | The empty email is never an administrator's. |
| LoginRouter.PaddedEmailNeverAdmin | routers/loginrouter.js:11-17 | An email starting with white space is never an administrator's, because the email itself is not trimmed. |
| LoginRouter.SessionRole | routers/loginrouter.js:127 | The session role is 'admin' exactly when the email is listed or the stored role is 'admin'; otherwise it is the stored role. |
| LoginRouter.NormalizePlan | routers/loginrouter.js:652-657 | The result is VIP, Premium or Basic, and it is VIP or Premium exactly when the trimmed input is. |
| LoginRouter.NormalizePlanIdempotent | routers/loginrouter.js:652-657 | Normalising is idempotent and ignores surrounding white space. |
| LoginRouter.ContractorPlanLimitIsPlanLimit | routers/loginrouter.js:606-610 | The contractor caps equal the landowner caps, and are unlimited exactly for VIP. |
| LoginRouter.ServicesSpec | routers/loginrouter.js:496-497 | From a string, the services are exactly the comma-separated parts, each trimmed, with the blank ones dropped, in order and with repetitions. Every service is trimmed and non-empty, and every part that is not blank is kept. |
| Common.TrimmedNonEmptyIsTrimThenFilter | routers/loginrouter.js:497 | Trimming and filtering in one pass equals `map(trim)` followed by `filter(Boolean)`. |
| LoginRouter.PostProfileDecides | routers/loginrouter.js:468-512 | 403 exactly when the pending and approved requests reach the cap of the `plan` field. 500 exactly when the form is not refused and the company name is empty. Otherwise a pending request of the caller with the parsed services, trimmed video URL and tier Basic. |
| LoginRouter.PostContractorProfile | routers/loginrouter.js:468-512 | The handler answers as decided and appends exactly the created request, if any. |
| LoginRouter.PostProfileWithinCap | routers/loginrouter.js:479-490 | A contractor within a finite cap stays within it after any form. |
| LoginRouter.ProfileGuardIgnoresRejected | routers/loginrouter.js:481-484 | Rejected requests use no quota: adding one never changes the guard's answer. |
| LoginRouter.LimitsLookupIsContractorPlanLimit | routers/loginrouter.js:625-626 | The quota's lookup table, with its default of 1, gives the same caps as `contractorPlanLimit`. |
| LoginRouter.Quota | routers/loginrouter.js:614-650 | The report's plan is the tier, else the plan field, else Basic; `used` counts pending and approved requests. `limit` and `left` are null exactly when unlimited; otherwise `left` is `max(0, limit - used)`. |
| LoginRouter.QuotaAgreesWithGuard | routers/loginrouter.js:620-633 | When the two plan fields agree, the report shows nothing left exactly when the profile guard refuses. |
| LoginRouter.QuotaAndGuardCanDisagree | routers/loginrouter.js:620-622 | A contractor with only `subscriptionTier` set to VIP is reported unlimited, yet the guard applies the Basic cap and refuses. |
| LoginRouter.PatchedRequest | routers/loginrouter.js:552-574 | Each given field is replaced (trimmed, except the avatar); each absent one is kept. Services are parsed as on creation. The review resets to pending with no stamps. |
| LoginRouter.EmptyPatchOnlyResubmits | routers/loginrouter.js:552-574 | An edit with no fields only resets the review and `updatedAt`. |
| LoginRouter.PatchContractorRequest | routers/loginrouter.js:542-588 | Only the caller's request with that id is edited. Otherwise 404 and nothing changes. |
| LoginRouter.PatchedRequestCounts | routers/loginrouter.js:571-574 | An edit re-checks no quota: editing a rejected request adds one to the owner's pending and approved count. |
| LoginRouter.DeleteContractorRequest | routers/loginrouter.js:528-540 | Only the caller's request with that id is removed. Otherwise 404 and nothing changes. |
| LoginRouter.OwnerSubscription | routers/loginrouter.js:591-603 | The stored plan is VIP exactly for 'VIP' and Premium for anything else. The name is the trimmed first and last names joined and trimmed; WhatsApp and notes are trimmed; the request is pending. |
| LoginRouter.PostOwnerSubscription | routers/loginrouter.js:591-603 | Always ok, and exactly that request is appended. |
| LoginRouter.ContractorSubscription | routers/loginrouter.js:658-672 | 400 exactly unless the plan is the string 'Premium' or 'VIP'. Otherwise a pending request with that plan and the untrimmed name and notes. |
| LoginRouter.PostContractorSubscription | routers/loginrouter.js:658-672 | On 400 nothing is stored; otherwise exactly that request is appended. |
| LoginRouter.MarkApproved | routers/loginrouter.js:687 | This approval sets the status and clears the note, and writes no approval time. |
| LoginRouter.MarkRejected | routers/loginrouter.js:702 | This rejection sets the status and the note, and writes no rejection time. |
| LoginRouter.MarkedUnstamped | routers/loginrouter.js:683-705 | After these transitions a new request lacks the stamp its status calls for. |
| LoginRouter.SetTier | routers/loginrouter.js:690 | Only the user's `subscriptionTier` is set, and only when the user exists. |
| LoginRouter.SetTierSplitsPlans | routers/loginrouter.js:690 | Afterwards the quota reads the new plan while the profile guard still reads the old one. |
| LoginRouter.ApproveSubscription | routers/loginrouter.js:683-694 | 404 with no change when missing. Otherwise the request is marked approved and the user's tier is set to its plan. |
| LoginRouter.RejectSubscription | routers/loginrouter.js:697-705 | 404 with no change when missing. Otherwise the request is marked rejected with the note. |
| LoginRouter.PostLandUnguarded | routers/loginrouter.js:356-402 | Fails exactly for a title that trims to "". Otherwise a pending farm of the caller, with the trimmed title and kind rent exactly for 'rent'. |
| LoginRouter.PostLandsUnguarded | routers/loginrouter.js:356-402 | 500 with no change for a blank title; otherwise exactly the new farm is appended. |
| LoginRouter.UnguardedIgnoresCap | routers/loginrouter.js:356-402 | Every accepted call adds one to the owner's farm count, whatever the plan. |
| AdminRouter.RequireAdmin | routers/adminRouter.js:14-17 | The guard passes exactly for role 'admin' and answers 403 otherwise. |
| AdminRouter.AdminSessionPasses | routers/adminRouter.js:14-17 | A session opened by sign-up or log-in passes exactly when the email is listed or the stored role is 'admin'. |
| AdminRouter.ContainsSpec | routers/adminRouter.js:22 | `includes` holds exactly when the text occurs at some position. |
| AdminRouter.WantsJSONCases | routers/adminRouter.js:20-23 | An Accept header containing `application/json` anywhere asks for JSON. A request with no header, no `ajax=1` and no XHR does not. |
| AdminRouter.Answer | routers/adminRouter.js:61-64 | For JSON: 200 exactly when found, else 404. Otherwise: a redirect with the handler's message kind when found, and 'danger' when not. |
| AdminRouter.NoteOf | routers/adminRouter.js:98 | The note is the given text, or "" when absent. |
| AdminRouter.ApprovedFarm | routers/adminRouter.js:56-60 | The farm becomes approved with an approval time and an empty note, and `updatedAt` is set; its id, owner and fields stay. Whether the TTL index removes it at any instant is unchanged, since `rejectedAt` is kept. |
| AdminRouter.ApprovedListingStillExpires | routers/adminRouter.js:56-60 | A farm rejected at `t` and then approved is approved, yet past its TTL at `t` + 7 days + 1 ms. |
| AdminRouter.ApproveFarmListing | routers/adminRouter.js:54-94 | A missing farm gets 404 or a redirect, with no change. Otherwise exactly that farm receives the approval update as written, and the answer is JSON or a redirect. |
| AdminRouter.RejectFarmListing | routers/adminRouter.js:96-150 | A missing farm gets 404 or a redirect, with no change. Otherwise the farm is rejected at now with the note. |
| AdminRouter.ApproveContractorRequest | routers/adminRouter.js:177-206 | A missing request gets 404 or a redirect, with no change. Otherwise approved at now with an empty note. |
| AdminRouter.RejectContractorRequest | routers/adminRouter.js:209-243 | A missing request gets 404 or a redirect, with no change. Otherwise rejected at now with the note. |
| AdminRouter.ApprovalIgnoresQuota | routers/adminRouter.js:177-183 | Approval checks no plan. Approving a rejected document adds one to the owner's pending and approved count; the owner's total count never moves. |
| AdminRouter.GrantPlan | routers/adminRouter.js:281-288 | Both plan fields of an existing user become the plan's name. Every other user is untouched, and nothing happens when the user is gone. |
| AdminRouter.GrantAlignsPlans | routers/adminRouter.js:281-288 | After a grant, the landowner guard, the contractor guard and the contractor quota all read the granted plan. The quota report then agrees with the contractor guard. |
| AdminRouter.GrantedPlanNeverExpires | routers/adminRouter.js:281-288 | The grant writes no end date, so a user without one is never downgraded by the expiry routine. |
| AdminRouter.ApproveSubscriptionRequest | routers/adminRouter.js:271-294 | 404 with no change when missing. Otherwise the request is approved at now with an empty note, the plan is granted unless the user write fails, and the answer is ok either way. |
| AdminRouter.RejectSubscriptionRequest | routers/adminRouter.js:297-306 | 404 with no change when missing. Otherwise rejected at now with the note. |
| PublicRouter.TopFirstPreorder | routers/public.js:23 | The order views, then updatedAt, then createdAt (all descending) is a total preorder. |
| PublicRouter.CandidatesSpec | routers/public.js:16-20 | The query keeps exactly the farms of the wanted kind, other than the excluded one, that are approved when the query asks for that. |
| PublicRouter.Limit | routers/public.js:24 | `.limit(n)` gives a prefix of length `min(len, n)`; a limit of 0 gives everything. |
| PublicRouter.TopQuerySpec | routers/public.js:22-26 | One query returns the top `limit` selected farms, or all of them for a limit of 0: exactly `min(#selected, limit)` rows, each taken no more often than stored, in views/updatedAt/createdAt order, and each ranked before every selected farm left out. There are no rows exactly when no farm qualifies. |
| PublicRouter.LimitKeepsTop | routers/public.js:24 | Cutting a sorted list with `.limit(n)` keeps rows that rank before every row cut off. |
| PublicRouter.TopFarmsSpec | routers/public.js:15-38 | The top `limit` farms of the wanted kind other than the excluded one: ranked among the approved ones when any qualifies, and among all of them otherwise. The rows are exactly `min(#qualifying, limit)` in number, in order, and each ranks before every qualifying farm left out. The result is empty only when no farm of that kind qualifies at all. |
| PublicRouter.Weight | routers/public.js:276 | The weight is 3 exactly for VIP, 2 exactly for Premium, and 1 otherwise. |
| PublicRouter.MissingTierIsBasic | routers/public.js:277 | A missing or unknown tier weighs what Basic weighs. |
| PublicRouter.ApprovedOnlySpec | routers/public.js:269-270 | The query keeps exactly the approved requests, each as often as stored. |
| PublicRouter.PublicContractorsSpec | routers/public.js:269-277 | The list is a permutation of the approved query result, with weights never increasing. |
| PublicRouter.Slice | routers/public.js:344-345 | `slice(0, n)` gives a prefix of length `min(len, n)`. |
| PublicRouter.AddRating | routers/public.js:340-354 | Exactly one entry is appended after the old ones, with the rater, the value, an ip of at most 100 characters and a user agent of at most 200. The count rises by one. |
| PublicRouter.AddedRaterIsRated | routers/public.js:333-345 | After a logged-in user's rating, the duplicate check sees that user. |
| PublicRouter.RatingBoard.Rate | routers/public.js:321-359 | 400 exactly for a value that is not a finite number in [1, 5]. Then 404 for a missing contractor, then 409 for a logged-in user already among the raters. Otherwise ok with one rating added. Nothing changes unless ok. |

## Left out

- HTTP plumbing is not modelled: sessions, cookies, redirects to log-in pages and page rendering. The session guards `requireAuth`, `requireAuthApi`, `requireAuthPage` and `requireRole`, and the redirecting `requireAdmin` in routers/loginrouter.js:68-75, are also left out. The model takes the caller's id as given.
- Mail sending (utils/mailer.js, utils/mailer2.js and the mail blocks of the admin handlers) is network I/O and is left out.
- Photos, the owner contact fields (`ownerInfo`), the three extra descriptions and the location are validated by `landSchema` (modelled in `OwnerRouter.LandValid`), but the model does not store them in the created farm; no later decision reads them. The read-only listing queries (`/admin/farms`, `/api/farms/sale`, the top-rated contractors) are left out too.
- Password hashing, password-reset tokens and the users model are not part of this model. A user is the fields the handlers read: email, role, `subscriptionTier`, `plan` and `subscriptionUntil`.
- utils/limits.js is not part of this model. Its Basic limits are parameters of `EnforceExpiry.EnforceExpiry`, and no caller of the routine appears in the code.
- Concurrency is left out. Each handler runs alone between two reads and writes of the store, and the two clock readings of the expiry routine are one `now`.
- Common.Trim: removes space, tab, line feed and carriage return, not every white-space character JavaScript's `trim` removes.
- LoginSchema.EmailField: accepts `local@label.label...` with non-empty parts and no white space, a simplification of Joi's `email({ tlds: false })` grammar. Lengths count characters, not UTF-16 code units.
- OwnerRouter.PostLandDecides: Joi's `uri()` is approximated by "a scheme of letters, digits, `+`, `-`, `.` starting with a letter, followed by a colon". Joi's `number()` conversion of numeric strings is folded into the form's numbers.
- PublicRouter.PublicContractorsSpec: the order among equal weights follows the query (the sort is stable). That is not stated as a separate property.
- Common.ToLower: only folds `A`-`Z`. JavaScript's `toLowerCase` and Joi's `lowercase()` fold every Unicode letter, so an `ADMIN_EMAILS` entry such as `Ädmin@x.io` matches `ädmin@x.io` in the code but not in `LoginRouter.IsAdminEmail`. `LoginSchema.NormalEmail` and `LoginSchema.EmailFieldNormal` share this simplification.
- EnforceExpiry.ExpireCollection: pending requests with the same `createdAt` are ordered as stored (the sort is stable), which MongoDB's `.sort({ createdAt: 1 })` does not promise. Among equally old requests, which ones the code rejects is not fixed, and the model picks one particular choice.
- OwnerRouter.PostLandDecides: photos and location are reduced to whether they have the shape the schema asks for; their items are not modelled.
- PublicRouter.TopFarmsSpec: rows with equal views, `updatedAt` and `createdAt` keep stored order, which MongoDB does not promise. The case-insensitive kind regex is equality on the kind enum, since stored kinds are lower case.
- PublicRouter.RatingBoard.Rate: `ratingAvg` and its `toFixed(2)` rounding are floating point and are left out. The rater is a parameter. The handler reads `req.user`, which no handler in the code sets, so as deployed every rating is anonymous and the 409 branch is never taken.
- PublicRouter.RatingBoard.Rate: the contractor-request schema declares none of `ratings`, `ratingAvg` and `ratingCount`. Under Mongoose's default strict mode, `save` would not store them. The model keeps the fields as the handler builds them, in a separate `RatingBoard`.
- OwnerRouter.PostLands is shadowed: routers/loginrouter.js is mounted before routers/ownerRouter.js (app.js:221-223), and its own `POST /owner/lands`, `GET /owner/lands` and `DELETE /owner/lands/:id` answer first. Their queries are the ones modelled by `LoginRouter.PostLandsUnguarded`, `OwnerRouter.OwnLandsSpec` and `OwnerRouter.DeleteLand`. See Findings.
- LoginRouter.ApproveSubscription and LoginRouter.RejectSubscription are shadowed by the admin router, which is mounted first at `/admin` (app.js:220). They are modelled by their own contracts. `normalizePlan`'s result is computed there but never used.
- Non-string inputs where the code calls `.trim()` directly (the owner subscription form, the unguarded listing form, `videoUrl` of the contractor profile form at routers/loginrouter.js:500, and the title, area, city, video URL and owner contact fields of the owner edit at routers/ownerRouter.js:192-207) throw in JavaScript and are not modelled; the fields are strings.

## Findings

| source | as written | input that shows it | evidently intended | confidence | as-written member | corrected member |
|---|---|---|---|---|---|---|
| routers/adminRouter.js:56-60 | The farm approval sets status, `approvedAt` and `reviewNote` but leaves `rejectedAt`. The TTL index on `rejectedAt` (models/farmModel.js:42) deletes the document seven days after it. | A farm rejected at time 0, then approved at time 1: it is approved, and at time 7 days + 1 ms it is past its TTL and is deleted. | Approval clears `rejectedAt`, as the owner's edit does (routers/ownerRouter.js:209-212), so only rejected farms expire. | medium; not executed | FarmModel.ApprovedFarmExpiresAsWritten | FarmModel.ApproveFarm |
| routers/loginrouter.js:356-402 | The listing handler here is mounted before routers/ownerRouter.js (app.js:221-223). It answers `POST /owner/lands` with no validation and no quota check. | A Basic owner who already has one farm posts a second with a non-blank title: 200, and the owner now has two farms. | The guarded handler of routers/ownerRouter.js:63-143 answers and refuses with 403. | medium; not executed | LoginRouter.UnguardedIgnoresCap | OwnerRouter.PostLandWithinCap |
