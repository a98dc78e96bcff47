# Booking ledger with a payment gate — a Dafny model

This project models the core of an event-booking backend (an Express/mongoose service). Bookings
are created either directly (cash, or online with a payment screenshot) or by verifying a
payment gateway's callback. The model covers:

- the price of the two fixed packages, `'499'` and `'999'`: 18% GST rounded to the nearest rupee;
- creation of a gateway order, charged in paise in INR;
- the callback check: the three gateway fields must be present and the HMAC signature must match
  before anything is read or written;
- the booking collection: unique six-character tokens drawn again until one is free, creation,
  listing newest first, lookup, the paid-flag toggle, and the three deletions with their release
  of stored screenshots;
- the `home_banner` entry of the site configuration;
- student registration and its public listing, which leaves out the private fields;
- the server's CORS origin check.

Each request runs as one atomic step. The random source, the clock, the HMAC, the payment
gateway and the blob store are parameters.

Modules, one per source file or shared concern:

- `Common`: optional request fields and JavaScript truthiness, status codes, the upload result.
- `Seqs`: filter, projection and the descending sort the stores' queries use.
- `Tokens`: the 36-symbol alphabet and `generateToken`.
- `BookingSchema`: `models/Booking.js` and the booking collection.
- `BookingController`: `controllers/bookingController.js`.
- `PaymentController`: `controllers/paymentController.js`.
- `SiteConfigSchema`, `SiteConfigController`: `models/SiteConfig.js` and `controllers/siteConfigController.js`.
- `StudentSchema`, `StudentController`: `models/Student.js` and `controllers/studentController.js`.
- `Server`: the CORS part of `server.js`.

Modelling choices:

- A falsy request field (absent, `null` or `""`) is `None` or `Some("")`. `Present` is JavaScript
  truthiness. Mongoose's `required` on a String path rejects the same values, so the controllers'
  own checks and schema validation use the same predicate.
- Schema validation is a predicate: `ValidBooking` and `ValidStudent`. A document that fails it
  is not stored, and the controller answers 500.
- The collections are classes. Their fields are reassigned by the operations. Each class has an
  invariant: the booking invariant `WellFormed` covers the unique token index, distinct `_id`s
  and validated documents.
- `_id` is a counter and the timestamps are a `now` parameter.
- The random source is a list of draws. Each draw is six indices in `0..35`. The token loop
  returns the first draw whose token is not taken. Every operation that draws a token requires
  that some draw in the list gives an untaken token.
- `verifyPayment` does not check the customer fields or the package itself. When they are
  invalid, `Booking.create` rejects the document, and the request ends in 500 after the signature
  has been accepted. The model states this (`VerifyPayment`, `DetailsValid`).
- Saving a toggled booking refreshes `updatedAt` (the schema has `timestamps`). So toggling
  changes `isPaid` and `updatedAt` and nothing else.
- `select` keeps `_id` unless it is excluded. So the public student view has `id`, `studentName`,
  `highestQualification` and `createdAt`.
- The package list is hard-coded three times in the code: the literal in `createOrder`, the
  literal in `getPriceBreakdown`, and the schema's `package` enum. The model follows the code. It has no configurable package catalog with a default
  fallback, because no such code exists in this repository: `routes/siteConfigRoutes.js`
  imports `getEventPackages`, but `controllers/siteConfigController.js` does not define it.

## Model

| member | source | states |
|---|---|---|
| `PaymentController.CalculateGst` | controllers/paymentController.js:6-9 | GST is 18% of the base rounded to the nearest rupee, halves up: `100*gst - 50 <= 18*base < 100*gst + 50` |
| `PaymentController.GstIsUnique` | controllers/paymentController.js:6-9 | only one amount meets that rounding condition, so `CalculateGst` is the rounded 18% |
| `PaymentController.BaseAmount` | controllers/paymentController.js:38 | `parseInt` of `'499'` is 499 and of `'999'` is 999 |
| `PaymentController.PackageAmounts` | controllers/paymentController.js:38-40 | package 499 pays 90 GST and package 999 pays 180 |
| `PaymentController.OfferedIsSchemaEnum` | controllers/paymentController.js:34 | the controller's package list and the schema's `package` enum name the same two packages |
| `PaymentController.GetPriceBreakdown` | controllers/paymentController.js:151-175 | 400 exactly for packages other than `'499'`/`'999'`; otherwise the base, the rounded GST, `total == base + gst` and `breakdown.gst == gst` |
| `PaymentController.CreateOrder` | controllers/paymentController.js:24-72 | 400 with no gateway call exactly when a field is falsy or the package is not offered; otherwise the gateway is asked for `100*(base+gst)` paise in INR with the customer notes; 500 exactly when the gateway fails; 200 echoes the gateway's id, amount and currency with `total == base + gst` |
| `PaymentController.OrderChargesBreakdownTotal` | controllers/paymentController.js:38-44 | the amount charged to the gateway is 100 times the total the breakdown shows for that package |
| `PaymentController.CheckCallback` | controllers/paymentController.js:89-103 | the callback fails as missing when any gateway field is falsy, and passes exactly when the signature equals the HMAC of the order id and payment id joined by a bar |
| `PaymentController.OnlineDraft` | controllers/paymentController.js:116-134 | the booking built from a callback is online and paid, holds both gateway ids and the package's GST and total, and passes validation exactly when name, number and address are present and the package is in the enum |
| `PaymentController.VerifyPayment` | controllers/paymentController.js:77-146 | 400 with the store untouched when the gate fails; 500 with the store untouched when the authenticated booking fails validation; otherwise 201 and exactly one new paid online booking whose token was free and is well-formed |
| `PaymentController.ReplayedCallbackBooksTwice` | controllers/paymentController.js:105-134 | submitting the same authentic callback twice, to any store, appends two paid bookings with the same gateway ids under different tokens, and the store then holds its old bookings followed by both |
| `Tokens.GenerateToken` | controllers/bookingController.js:6-13 | six draws give a six-character token over `A-Z0-9`, one symbol per draw (the same code is at controllers/paymentController.js:12-19) |
| `Tokens.AlphabetIsSymbols` | controllers/paymentController.js:13 | the alphabet literal lists the 26 capitals then the 10 digits |
| `Tokens.TokenIsDrawable` | controllers/paymentController.js:12-19 | every well-formed token is produced by some draw |
| `Tokens.SpellIsInjective` | controllers/paymentController.js:15-17 | different draws produce different tokens |
| `BookingSchema.BookingCollection.UniqueToken` | controllers/bookingController.js:40-47 | the retry loop ends on the first draw whose token no stored booking holds; every earlier draw was taken |
| `BookingSchema.ValidBooking` | models/Booking.js:4-30 | validation accepts a booking exactly when token, name, number and address are non-empty, `package` is `'499'` or `'999'` and `paymentMode` is `cash` or `online` |
| `BookingSchema.WellFormed` | models/Booking.js:4-30 | the collection invariant: tokens are pairwise distinct (the `unique` index), `_id`s are pairwise distinct and below the next id, and every stored booking passed validation |
| `BookingSchema.TokensIdentifyBookings` | models/Booking.js:4-8 | in a well-formed collection there are exactly as many distinct tokens as bookings, so a token names one booking |
| `BookingSchema.WithDefaults` | models/Booking.js:31-58 | a new document is unpaid, has no screenshot and no gateway ids, `gstAmount` 0 and `totalAmountPaid` null |
| `BookingSchema.BookingCollection.Create` | models/Booking.js:3-61 | a document is stored exactly when it validates and its token is not yet used; it gets the next `_id` and both timestamps, and nothing else changes |
| `BookingSchema.AppendKeepsWellFormed` | models/Booking.js:4-8 | adding a valid booking under a fresh token keeps tokens unique |
| `BookingSchema.FilterKeepsWellFormed` | controllers/bookingController.js:188 | deleting any selection of bookings keeps tokens and ids unique |
| `BookingSchema.IndexOfId` | controllers/bookingController.js:84 | finds the booking with the given `_id`, or reports that none has it |
| `BookingController.Draft` | controllers/bookingController.js:49-59 | a booking is paid exactly when its mode is `online`; it has screenshot fields exactly when an upload was made; it passes validation exactly when package and mode are in their enums |
| `BookingController.CreateBooking` | controllers/bookingController.js:18-65 | 400 exactly when a required field is falsy; 500 exactly when the upload of an online screenshot fails or validation fails; nothing is stored in either case; otherwise exactly one new booking under a fresh token |
| `BookingController.GetAllBookings` | controllers/bookingController.js:70-77 | every stored booking, as a permutation sorted by `createdAt`, newest first |
| `BookingController.GetBookingById` | controllers/bookingController.js:82-94 | a booking is found exactly when one has that `_id` |
| `BookingController.Flip` | controllers/bookingController.js:104-105 | the toggled booking has the opposite paid flag and `updatedAt` refreshed by `save`, and agrees with the original on every other field |
| `BookingController.TogglePaidStatus` | controllers/bookingController.js:99-113 | 404 with the store untouched for an unknown id; otherwise only that booking changes: its paid flag is negated and its `updatedAt` refreshed |
| `BookingController.ToggleKeepsWellFormed` | controllers/bookingController.js:104-105 | toggling keeps tokens unique and documents valid |
| `BookingController.ToggleTwiceRestores` | controllers/bookingController.js:104 | toggling twice restores the booking except for `updatedAt` |
| `BookingController.IdCountAtMostOne` | controllers/bookingController.js:132 | with distinct ids, one booking at most has a given id |
| `BookingController.DeleteRemovesExactlyOne` | controllers/bookingController.js:132 | deleting by an existing id removes exactly one booking and keeps all others |
| `BookingController.DeleteBooking` | controllers/bookingController.js:118-140 | 404 with the store untouched for an unknown id; otherwise exactly that booking is removed, after its screenshot's release is requested if its public id is set |
| `BookingController.ReleaseScreenshots` | controllers/bookingController.js:151-157 | one release request per booking with a screenshot, in order |
| `BookingController.DeleteAllBookings` | controllers/bookingController.js:145-164 | every screenshot is released, the store is empty, and the count is the number of bookings there were |
| `BookingController.DeleteBookingsByPackage` | controllers/bookingController.js:169-193 | exactly the bookings of that package are removed and all others kept in order; the count is the number removed |
| `Seqs.Filter` | controllers/bookingController.js:188 | a `deleteMany`/`find` query keeps exactly the matching documents |
| `Seqs.FilterSplits` | controllers/bookingController.js:188-189 | a query and its complement split the collection; `deletedCount` is the number of matches |
| `Seqs.FilterKeepsKeysDistinct` | models/Booking.js:7 | a unique key stays unique after deletions |
| `Seqs.SortDesc` | controllers/bookingController.js:72 | `sort({ createdAt: -1 })` returns a permutation sorted newest first |
| `Seqs.MapSortDesc` | controllers/studentController.js:33 | selecting fields then sorting gives the same list as sorting then selecting |
| `StudentSchema.ValidStudent` | models/Student.js:3-20 | validation accepts a student exactly when `studentName`, `whatsappNumber` and `highestQualification` are non-empty and `workingInIT` is `yes` or `no` |
| `StudentController.NewStudent` | controllers/studentController.js:7-12 | the new student holds exactly the four submitted fields, and it validates exactly when the three names are present and `workingInIT` is `yes` or `no` |
| `StudentController.RegisterStudent` | controllers/studentController.js:3-19 | 201 and one new student when validation passes; otherwise 500 and nothing stored |
| `StudentController.GetAllStudents` | controllers/studentController.js:21-28 | every student, as a permutation sorted by `createdAt`, newest first |
| `StudentController.PublicList` | controllers/studentController.js:33 | selecting then sorting equals projecting the sorted list |
| `StudentController.GetPublicStudents` | controllers/studentController.js:30-38 | the same length and order as `getAllStudents`, each entry reduced to `_id`, name, qualification and `createdAt` |
| `StudentController.PublicListHidesPrivateFields` | controllers/studentController.js:32-33 | the public listing does not depend on `whatsappNumber` or `workingInIT` |
| `SiteConfigSchema.SiteConfigCollection.Valid` | models/SiteConfig.js:3-13 | the configuration is a map, so each key has at most one value (the `unique` index on `key`); no key is empty and no value is `null` (both paths are required) |
| `SiteConfigController.GetBanner` | controllers/siteConfigController.js:7-18 | the stored `home_banner` value, or `null` exactly when the key is absent |
| `SiteConfigController.UpdateBanner` | controllers/siteConfigController.js:23-43 | without a file: 400, no upload, config unchanged; a failed upload gives 500 with the config unchanged; otherwise `home_banner` is upserted to the uploaded URL, other keys are unchanged, and the reply and later `getBanner` both return that URL |
| `Server.Compact` | server.js:20-24 | `filter(Boolean)` keeps exactly the present, non-empty entries |
| `Server.AllowedOrigins` | server.js:20-24 | the two local origins, then `FRONTEND_URL` only when it is set |
| `Server.IndexOf` | server.js:32 | `indexOf` is -1 exactly for an origin not in the list |
| `Server.CheckOrigin` | server.js:27-40 | no origin, or a listed one, is accepted; anything else is refused with "Not allowed by CORS" |
| `Server.DeployedPolicy` | server.js:20-40 | the deployed policy accepts exactly: no origin, the two local origins, and `FRONTEND_URL` when set |

## Left out

- HMAC-SHA256 and its hex digest are a function parameter `hmac`. Hashing is not modelled.
- `Math.random` is a list of draws given as a parameter. The model requires that some draw yields
  an untaken token. The source would loop forever on a source that never does. While some token
  is free, a uniform source fails forever with probability zero. Once all 36^6 tokens are taken, the
  loops in `createBooking` (controllers/bookingController.js:44-47) and `verifyPayment`
  (controllers/paymentController.js:108-114) never end. The model does not cover that state.
  Collision probabilities are not modelled.
- `Math.round(baseAmount * 0.18)` is computed in floating point in the source. The model uses
  exact integer rounding, halves up, over non-negative integers. The two agree on 499 and 999,
  which are the only bases whose GST is stored or returned. `verifyPayment` also calls
  `calculateGST` on `parseInt` of any package the client sends: 1000 for `'1000'`, `NaN` for
  `'abc'`. Those amounts are thrown away when validation rejects the package.
- `parseInt` is modelled only on `'499'` and `'999'`. In `verifyPayment`, a package outside the
  enum makes validation reject the document, so the amounts computed from it are never stored.
- `CheckCallback`, `VerifyPayment`: the gateway key secret is a `secret: string` parameter, so the
  model assumes `RAZORPAY_KEY_SECRET` is set. When it is unset, `crypto.createHmac('sha256',
  undefined)` throws (controllers/paymentController.js:95-98). Every callback that carries all
  three ids then gets 500 from the catch (lines 142-145), not 400. The model does not cover this.
- Gateway order creation is a function parameter. It returns the order, or nothing when it throws.
  The receipt's `Date.now()` is a `now` parameter. The notes' amounts are kept as numbers; the
  source turns them into decimal strings.
- The blob store (upload and destroy) is reduced to success or failure. Deletions record which
  public ids they asked it to release. Failures of a release are ignored, as in the source. An
  upload followed by a validation failure leaves an orphaned blob, which the model does not track.
- Mongoose casting of non-string values, malformed `_id` strings (a CastError answered with 500),
  and any storage failure other than validation are not modelled. `_id` is a natural number.
- Concurrency is not modelled. The race between the token lookup and `Booking.create` is out of
  scope, because each request is one atomic step.
- `controllers/authController.js`, `reset-admin.js`, the route tables, the `protect` and `upload`
  middleware, `connectDB`, the error middleware and `listen` are not part of this model.
  `server.js` mounts only the auth and booking routers, so the payment, config and student
  handlers are modelled as handlers, whether or not they are reachable.
- The other site configuration handlers that the routes import (workshop banner, workshop content,
  event packages) are not defined in `controllers/siteConfigController.js`, so they are not
  modelled. Config timestamps are not modelled.
