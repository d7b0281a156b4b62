# QR review backend: subscription, feedback and custom-URL routes in Dafny

This project models the request logic of a small Express/Mongoose backend for
QR-code reviews. It covers three groups of routes and the schemas of the
records they write.

- **Subscriptions** (`payments/subscription.routes.js`). `POST /create-subscription`
  looks up a pending attempt of the user (type `subscription`, status `created`).
  If the attempt is younger than five minutes, the route answers with the payment
  link stored on it (the model stores that link; the schema as written drops it,
  see "Findings"). Otherwise it cancels the attempt at the payment provider when it has a
  subscription id, marks it `failed`, asks the provider for a new subscription and
  stores a new `created` record. `GET /subscription-status` reports the status and
  plan of the user's newest subscription record, or `none`.
- **Feedback** (`feedbackRoutes/feedback.js`). `POST /feedback` checks the required
  fields first and the 1..5 rating range second. It stores the review and sends a
  Google review link exactly for ratings of 4 or more. The collection is listed
  newest first, and can be read, patched or deleted by id.
- **Custom URLs** (`customURL/customURL.js`). There is one redirect URL per user.
  `set-url` creates or overwrites it, `update-url` only overwrites it, and
  `delete-url` removes it. It can be read by its owner, or through a QR code's
  `randomId` and then the QR code's owner.

Each MongoDB collection is a class holding an in-memory table: `PaymentCollection`,
`FeedbackCollection` and `CustomUrlCollection`. The routes that write are methods
over these tables. The routes that only read are functions of the table. The clock
(`Date.now()`) is the parameter `now`. The authenticated caller's id is a trusted
parameter. The payment provider (Razorpay) is the class `RazorpayClient`. Each of
its calls either fails or succeeds, with an outcome the backend does not control,
and every call is recorded in its `log`. A successful create returns an id the
provider has never issued before.

The create route is specified by the function `CreateEffect`. It takes three
inputs: the pending record the lookup chose, the provider's answer to the cancel,
and its answer to the create. It gives the reply, the new table and the provider
calls. The method `CreateSubscription` is proved to produce exactly that effect.
The lemmas then prove three things about `CreateEffect`:
- expiring changes only the stale record;
- sequential requests never give a user two pending attempts;
- a second click within the window gets the same link back and changes nothing.

## Model

| member | source | states |
|---|---|---|
| `PaymentSchema.ParseType` | models/Payment.js:22-26 | `type` accepts exactly `order` and `subscription`; an accepted name round-trips through `TypeName`, a rejected one is no type's name |
| `PaymentSchema.ParseStatus` | models/Payment.js:28-36 | `status` accepts exactly the five names `created`, `paid`, `active`, `cancelled`, `failed`; round-trip with `StatusName` both ways |
| `PaymentSchema.CastPayment` | models/Payment.js:3-45 | creating a record succeeds iff `type` is present and in its enum and `status` is absent or in its enum; an absent status becomes `created`; `createdAt` is the creation time; all other fields are copied (the schema with `shortUrl` declared) |
| `PaymentSchema.CastPaymentAsWritten` | models/Payment.js:3-45 | as written, the same cast but the stored record never has a `shortUrl` |
| `Razorpay.RazorpayClient.CancelSubscription` | payments/subscription.routes.js:63 | a cancel call is logged with its outcome and issues no id |
| `Razorpay.RazorpayClient.CreateSubscription` | payments/subscription.routes.js:73-77 | a create call is logged with its outcome; on success the id was never issued before |
| `Razorpay.SubscriptionIdInjective` | payments/subscription.routes.js:73-77 | distinct provider serials give distinct subscription ids, which makes returned ids fresh |
| `SubscriptionRoutes.SetStatusById` | payments/subscription.routes.js:66-69 | `updateOne({_id}, {status})`: the record with that `_id` gets the status; every other record, and every other field, is unchanged |
| `SubscriptionRoutes.PaymentCollection.FindPending` | payments/subscription.routes.js:41-45 | the lookup returns some pending record of the user (type `subscription`, status `created`) from the table, or none exactly when there is none |
| `SubscriptionRoutes.PaymentCollection.UpdateStatus` | payments/subscription.routes.js:66-69 | the table becomes `SetStatusById` of the old one; ids stay distinct |
| `SubscriptionRoutes.PaymentCollection.Create` | payments/subscription.routes.js:79-88 | the cast record, with a fresh `_id`, is appended; a validation error stores nothing |
| `SubscriptionRoutes.Decide` | payments/subscription.routes.js:47-64 | reuse iff a pending record exists and `now - createdAt < 300000`, with that record's link; age exactly 300000 or more expires it; no record means create |
| `SubscriptionRoutes.NewSubscriptionRecord` | payments/subscription.routes.js:79-88 | the document the route creates casts to a pending record with the caller's id, the provider's id and link, the plan, type `subscription`, status `created`, amount 200, currency `INR`, stamped `now` |
| `SubscriptionRoutes.AfterCreate` | payments/subscription.routes.js:72-93 | exactly one create call; on failure a 500 and no append; on success the provider's subscription is answered and exactly the new record is appended |
| `SubscriptionRoutes.CreateEffect` | payments/subscription.routes.js:39-94 | reuse answers the pending link and changes nothing with no provider call; a cancel is issued iff the stale record has a truthy `subscriptionId`; a failed cancel answers 500 and changes nothing; otherwise the stale record is `failed` whatever the create answers; with no pending record no existing record changes; once the create call is issued, the reply is the provider's new subscription iff it answers one and 500 otherwise; at most one record is appended, only on success |
| `SubscriptionRoutes.CreateAndStore` | payments/subscription.routes.js:72-90 | the create step: its reply, new table and provider call are exactly `AfterCreate` of the provider's answer; a new `_id` is used up exactly when a record is appended |
| `SubscriptionRoutes.CreateSubscription` | payments/subscription.routes.js:39-94 | the route's reply, new table and provider calls are exactly `CreateEffect` of the chosen pending record and the provider's answers; a new `_id` is used up exactly when a record is appended; the table's ids stay distinct |
| `SubscriptionRoutes.ExpireTouchesOnlyStale` | payments/subscription.routes.js:66-69 | with distinct ids, expiring changes exactly the stale record's status and keeps every other record |
| `SubscriptionRoutes.CreatePreservesSinglePending` | payments/subscription.routes.js:41-88 | if no user has two pending attempts before a request, none has after it, on every path |
| `SubscriptionRoutes.RepeatWithinWindowReuses` | payments/subscription.routes.js:41-59 | after a successful create, the same user's next request within five minutes answers the same payment link, writes nothing and calls no provider |
| `SubscriptionRoutes.NewestSubscription` | payments/subscription.routes.js:100-103 | the user's subscription-type record with the largest `createdAt`, or none exactly when the user has no subscription record |
| `SubscriptionRoutes.SubscriptionStatus` | payments/subscription.routes.js:99-110 | `none` and a null plan iff the user has no subscription record; otherwise the status name and the plan (null when empty) of a newest such record |
| `SubscriptionRoutes.AsWrittenReuseLosesLink` | payments/subscription.routes.js:47-59 | with the schema as written, the record stored by a successful create is pending, but a reuse within the window answers no link |
| `SubscriptionRoutes.ReuseReturnsStoredLink` | payments/subscription.routes.js:47-59 | with `shortUrl` declared, a reuse within the window answers the link the provider issued |
| `FeedbackSchema.Conforms` | models/feedbackschema.js:5-9 | what the schema's validators accept: `userId` present, `name`, `email` and `comments` non-empty strings; `rating` any number |
| `FeedbackRoutes.Validate` | feedbackRoutes/feedback.js:15-21 | "All fields are required" iff a field is missing or falsy (so rating 0 gets it); the range message iff all are present and the rating is outside 1..5; accepted iff all are present and 1 <= rating <= 5 |
| `FeedbackRoutes.Acknowledge` | feedbackRoutes/feedback.js:28-39 | status 201; `googleReviewLink` is present iff rating >= 4, with the redirect message, otherwise the thank-you message |
| `FeedbackRoutes.SubmittedRecord` | feedbackRoutes/feedback.js:24-25 | the stored document has exactly the four body fields, a rating in 1..5, no `userId`, and the creation time |
| `FeedbackRoutes.SubmittedRecordLacksUserId` | models/feedbackschema.js:5 | the document the submit route stores does not meet the schema's required `userId` |
| `FeedbackRoutes.InsertNewestFirst` | feedbackRoutes/feedback.js:52 | inserting adds exactly one record to the multiset |
| `FeedbackRoutes.InsertKeepsNewestFirst` | feedbackRoutes/feedback.js:52 | inserting into a newest-first sequence keeps it newest first |
| `FeedbackRoutes.SortNewestFirst` | feedbackRoutes/feedback.js:52 | `sort({createdAt: -1})` gives a permutation of the records ordered by non-increasing `createdAt` |
| `FeedbackRoutes.ListFeedback` | feedbackRoutes/feedback.js:50-61 | `GET /feedback` answers 200 with all records and no others, newest first |
| `FeedbackRoutes.FindFeedback` | feedbackRoutes/feedback.js:68 | a record with the id, or none exactly when no record has it |
| `FeedbackRoutes.GetFeedback` | feedbackRoutes/feedback.js:66-80 | 404 iff no record has the id; otherwise that record |
| `FeedbackRoutes.Merge` | feedbackRoutes/feedback.js:88 | a patch keeps `_id` and `createdAt`; each of `userId`, `name`, `email`, `rating` and `comments` takes the body's value when the body gives one (the rating unchecked) and keeps the stored value otherwise; the empty patch changes nothing |
| `FeedbackRoutes.MergeIdempotent` | feedbackRoutes/feedback.js:88 | applying the same patch twice equals applying it once |
| `FeedbackRoutes.UpdateById` | feedbackRoutes/feedback.js:88 | the record with the id is merged with the patch; every other record is unchanged |
| `FeedbackRoutes.RemoveById` | feedbackRoutes/feedback.js:107 | exactly the records with the id are gone; an absent id leaves the table as it is |
| `FeedbackRoutes.RemoveByIdKeepsDistinct` | feedbackRoutes/feedback.js:107 | deleting keeps ids distinct |
| `FeedbackRoutes.RemoveByIdRemovesOne` | feedbackRoutes/feedback.js:107 | with distinct ids, deleting a present id removes exactly one record |
| `FeedbackRoutes.FeedbackCollection.Submit` | feedbackRoutes/feedback.js:10-45 | a rejected body answers 400 with its message and stores nothing; an accepted one appends exactly `SubmittedRecord` and answers `Acknowledge(rating)` |
| `FeedbackRoutes.FeedbackCollection.Update` | feedbackRoutes/feedback.js:85-100 | an absent id answers 404 and changes nothing; otherwise only that record is merged and the merged record is answered |
| `FeedbackRoutes.FeedbackCollection.Delete` | feedbackRoutes/feedback.js:105-116 | an absent id answers 404 and changes nothing; otherwise exactly that record is removed |
| `CustomUrlSchema.Trim` | models/CustomURL.js:13-17 | the trimmed company name has no leading or trailing white space and is no longer than the input |
| `CustomUrlSchema.TrimCutsOnlySpace` | models/CustomURL.js:16 | trimming cuts off only white space: the input is leading white space, the trimmed value, then trailing white space |
| `CustomUrlSchema.TrimKeepsTrimmed` | models/CustomURL.js:16 | a name without surrounding white space is stored as given |
| `CustomUrlSchema.TrimIdempotent` | models/CustomURL.js:16 | trimming twice equals trimming once |
| `CustomUrlSchema.Conforms` | models/CustomURL.js:6-28 | what the schema's validators accept: a company name present, non-empty and trimmed, a non-empty `url`, and `redirectFromRating` within 1..5 |
| `CustomUrlSchema.NewCustomUrl` | models/CustomURL.js:23-33 | a new record has the given user and URL, `redirectFromRating` 3 (within 1..5), `createdAt` now, and no company name |
| `CustomUrlSchema.NewCustomUrlLacksCompanyName` | models/CustomURL.js:13-17 | the record set-url creates does not meet the schema's required company name |
| `CustomUrlRoutes.Upsert` | customURL/customURL.js:14-21 | afterwards the user has a record with the given URL: the old record with only its URL changed, or a new one; other users' records are kept |
| `CustomUrlRoutes.UpsertIdempotent` | customURL/customURL.js:14-21 | setting the same URL twice gives the same table as once, whatever the clock says |
| `CustomUrlRoutes.UpsertKeepsKeyedByUser` | models/CustomURL.js:6-11 | the table stays one record per user, and the caller has exactly one record, with the new URL |
| `CustomUrlRoutes.OwnUrl` | customURL/customURL.js:83-94 | the caller's URL iff the caller has a record, otherwise 404 "No custom URL set yet" |
| `CustomUrlRoutes.UrlForQr` | customURL/customURL.js:31-46 | 404 "QR not found" iff no QR has the id; 404 "No custom URL set for this QR" iff its owner has no record; otherwise the owner's URL |
| `CustomUrlRoutes.CustomUrlCollection.SetUrl` | customURL/customURL.js:10-28 | a falsy URL answers 400 and changes nothing; otherwise the table becomes `Upsert` and the URL is answered; one record per user, non-empty URLs and thresholds in 1..5 are kept |
| `CustomUrlRoutes.CustomUrlCollection.UpdateUrl` | customURL/customURL.js:49-65 | a falsy URL answers 400; no record answers 404 and creates nothing; otherwise only the caller's URL changes |
| `CustomUrlRoutes.CustomUrlCollection.DeleteUrl` | customURL/customURL.js:68-79 | no record answers 404; otherwise exactly the caller's record is removed |

## Left out

- The webhook in Server.js:21-54 is not modelled. It computes an HMAC-SHA256 with Node's crypto library, compares it with `!==`, and only logs the event. No record is touched.
- `POST /admin/create-plan` (payments/subscription.routes.js:12-34) is not modelled. It is a single provider call with no logic.
- The provider's side is not modelled: its plans, its links, and the other fields of its subscription object. The reply carries only the id and `short_url`. The client's ids `"sub_"` followed by a serial number are a stand-in that only serves to make every returned id provably fresh; they are not the provider's id format.
- Concurrency is not modelled. Requests run one at a time. The unguarded read-then-write between the lookup and the create (payments/subscription.routes.js:41-88) can give a user two pending attempts under concurrent requests. `CreatePreservesSinglePending` holds only for sequential requests.
- Database failures are not modelled: a lost connection or a failed read or write. In the routes with a `try`/`catch` such a failure answers 500; `GET /subscription-status` (payments/subscription.routes.js:98-109) has no `catch`, so there a failure is not answered by the route at all. Only provider failures reach the 500 path of `CreateSubscription`. Error message texts of 500 replies are not modelled.
- Ids that are not valid ObjectIds are not modelled (they would cause a CastError and a 500). Ids are naturals. Request bodies whose values have the wrong JSON type are not modelled either.
- The `updatedAt` timestamp is not modelled. The order fields `orderId`, `paymentId` and `signature`, and the billing dates `currentStart`, `currentEnd` and `nextChargeAt` (models/Payment.js:11-13, 40-42), are not modelled. No core route writes or reads any of them.
- SubscriptionRoutes.CreateSubscription: the route is modelled over the corrected schema (`CastPayment`, with `shortUrl` declared), so a reuse answers the stored link. With the schema as written the reuse answers no link; `AsWrittenReuseLosesLink` shows this (see "Findings").
- SubscriptionRoutes.NewSubscriptionRecord: the new record is stamped with the request's clock reading `now`, the same one the reuse rule reads (payments/subscription.routes.js:47). Mongoose stamps `createdAt` at `Payment.create` (payments/subscription.routes.js:79), after up to two provider calls, so the stored time is in fact somewhat later than `now`.
- FeedbackRoutes.FeedbackCollection.Submit: models/feedbackschema.js:5 requires `userId`, but feedback.js:24 stores no `userId`. Mongoose would likely reject that save and answer 500. The model stores the record as the route intends, and `SubmittedRecordLacksUserId` records the mismatch.
- CustomUrlRoutes.CustomUrlCollection.SetUrl: models/CustomURL.js:13-17 requires `companyName`, but customURL.js:20 creates a record without one. Mongoose would likely reject that create and answer 500. The model creates the record as the route intends, and `NewCustomUrlLacksCompanyName` records the mismatch.
- FeedbackRoutes.Merge: the Mongoose casting and options of `findByIdAndUpdate` are not modelled. Fields in the patch replace the record's fields, and nothing is validated.
- Ratings are integers. JavaScript numbers can be fractional.
- Ties in `createdAt` are broken one fixed way. `NewestSubscription` takes the earliest stored of equally new records, and `SortNewestFirst` uses insertion order. MongoDB leaves the order of ties unspecified.
- models/QrImage.js is not part of this model. The QR collection is a map from `randomId` to owner, which assumes `randomId` is unique.
- Authentication (`authMiddleware`) and models/UserScema.js are not modelled. The caller's id is a trusted input.
- The commented-out router in feedbackRoutes/feedback.js:120-211 is not modelled. The git conflict markers in models/CustomURL.js surround two identical halves, and the first half is modelled.

## Findings

| source | as written | input that shows it | evidently intended | confidence | as-written member | corrected member |
|---|---|---|---|---|---|---|
| models/Payment.js:3-45 | The schema declares no `shortUrl` path. Under Mongoose's default strict mode, the `shortUrl` passed to `Payment.create` (payments/subscription.routes.js:83) is dropped. The reuse reply (payments/subscription.routes.js:55) then sends `short_url: undefined`. | A second `POST /create-subscription` by the same user within five minutes of a successful one. | The reuse reply carries the payment link the first request returned. | not executed; it depends on strict mode, which is Mongoose's default | `PaymentSchema.CastPaymentAsWritten`, `SubscriptionRoutes.AsWrittenReuseLosesLink` | `PaymentSchema.CastPayment`, `SubscriptionRoutes.ReuseReturnsStoredLink` |
