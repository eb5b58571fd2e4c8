# AgriConnect marketplace — a Dafny model

AgriConnect is a small marketplace for farmers, vendors and community agents. It is a single-page application. One top-level component owns three collections: the registered users, the crop listings and the escrow transactions. These live in browser storage. Three role views derive what each kind of user sees and send changes back up. The login form checks the user's input before it calls the authentication service.

This project models:

- the record store of `App.tsx` as the class `App.Store`. Its fields are the three collections, the signed-in user, and the queue of pending disbursement timers. Each handler is a method that states the whole new state. Each method is specified by a pure function on sequences (`MarkSold`, `ApplyUpdate`, `Disburse`, …), and lemmas are proved about those functions.
- the pure derivations of the four views (modules `VendorView`, `FarmerView`, `CommunityView` and `Auth`). These cover the search filter, purchase history and spending, the building of a transaction, earnings and ratings, the order board, the regional matching of farmers to an agent, the verification queues, proxy listings, phone sanitising and the ordered login checks.

JavaScript behaviour is written out explicitly:

- A string is truthy only when present and non-empty.
- `a || b` falls back when `a` is absent or empty.
- An object spread overwrites only the fields it carries.
- `indexOf` answers -1 when absent, and `find` answers the first match.
- `toLowerCase` and `trim` are `Text.Lower` and `Text.Trim`.
- `includes` is `Text.Contains`.

The supporting modules hold the vocabulary:

- `Wrappers`: the `Option` type.
- `Types`: the records of `types.ts`.
- `Seqs`: filter, map, reverse, sum, `indexOf` and `find` on sequences, with their laws.
- `Text`: lower-casing, trimming, substring containment, digit filtering and truncation.

A transaction moves EscrowPaid → InTransit → Delivered → Disbursed. The farmer marks an order as shipped. The vendor marks it as received. The platform then disburses it by itself 3000 ms later. The model treats that timer as an entry appended to `Store.pending` when the update is made. `Store.FireDisbursement` consumes the entries in order.

## Model

| member | source | states |
|---|---|---|
| App.Store.constructor | App.tsx:24-39 | Each collection is its saved value when one was stored. Otherwise users defaults to the single seeded farmer "Ramesh Singh" (id f1, Punjab, verified), and crops and transactions default to empty. No timers are pending and nobody is signed in. |
| App.Store.CompleteProfile | App.tsx:101-105 | The completed profile becomes the signed-in user and replaces every stored user with the same id. Nothing else changes. |
| App.ReplaceProfile | App.tsx:103 | Same length. Every entry with the profile's id becomes the profile. Every other entry is kept as it was. |
| App.ReplaceProfileUnknown | App.tsx:103 | A profile whose id matches nobody leaves the user list unchanged. No user is appended. |
| App.Store.Purchase | App.tsx:107-110 | The transaction is appended to the transactions. The bought crop is marked sold. Users, timers and the signed-in user are unchanged. |
| App.MarkSold | App.tsx:109 | Same length. A crop is sold afterwards iff it was sold before or its id is the bought crop's. No other field of any crop changes. |
| App.SecondPurchaseNotRejected | App.tsx:107-110 | Two purchases of the same crop are both recorded: the number of transactions referring to that crop grows by two. The store does not re-check the sold flag. |
| App.Store.UpdateTransaction | App.tsx:112-129 | The transactions become the partial update applied to every transaction with that id. One disbursement timer per matching transaction is queued exactly when the update sets the status to Delivered. Users, crops and the signed-in user are unchanged. |
| App.Overlay | App.tsx:116 | For each of the eleven fields, the update's value wins when the update carries the field. Otherwise the transaction's value is kept. A status-only update changes the status and nothing else. |
| App.ApplyUpdate | App.tsx:114-126 | Same length. Transactions with the id become the overlay of the update. All others are unchanged. |
| App.AnyStatusWritable | App.tsx:112-116 | Any status, forward or backward, can be written to an existing transaction. No lifecycle order is enforced. |
| App.DisbursementTimers | App.tsx:118-122 | No timer unless the update sets Delivered. Otherwise there is one timer per transaction carrying the id, and each timer names that id. |
| App.NoTimerForUnknownId | App.tsx:114-122 | An update for an id that no transaction has queues no timer, even one setting Delivered. |
| App.TimerForDelivery | App.tsx:118-121 | Marking an existing transaction Delivered always queues a disbursement. |
| App.Store.FireDisbursement | App.tsx:119-121 | The oldest pending timer fires. Every transaction with its id becomes Disbursed, in the collection as it is at firing time, and that timer leaves the queue. Nothing else changes. |
| App.Disburse | App.tsx:120 | Same length. Transactions with the id become Disbursed. Every other field, and every other transaction, is unchanged. |
| App.DisburseUnknown | App.tsx:120 | A timer whose transaction has vanished changes nothing. |
| App.AutoDisbursement | App.tsx:112-128 | For an in-transit transaction: marking it received and then firing its timer leaves it Disbursed with every other field intact. The other transactions are unchanged. |
| App.Store.UpdateCurrentUser | App.tsx:213 | The farmer view's user update replaces only the signed-in user. The stored users are untouched, so a farmer's verification request never reaches the community agent's queue. |
| App.Store.RequestCropVerification | App.tsx:131-133 | The crops become CropsAfterVerificationRequest. Nothing else changes. |
| App.CropsAfterVerificationRequest | App.tsx:132 | Same length. Crops with the id are flagged as awaiting verification. All other fields are unchanged, and the verified flag is not consulted. |
| App.Store.VerifyCrop | App.tsx:135-137 | The crops become CropsAfterVerify. Nothing else changes. |
| App.CropsAfterVerify | App.tsx:136 | Crops with the id become verified and no longer awaiting verification. Other crops are unchanged. |
| App.VerifyCropIdempotent | App.tsx:136 | Verifying a crop twice is the same as verifying it once. |
| App.Store.VerifyUser | App.tsx:241-243 | The users become UsersAfterVerify. Nothing else changes. |
| App.UsersAfterVerify | App.tsx:242 | A user is verified afterwards iff they were verified before or their id is the given one. No other field changes. |
| App.Store.ProxyRegister | App.tsx:244 | The enrolled farmer is appended to the users. Nothing else changes. |
| App.Store.AddCrop | App.tsx:247-249 | The listing is appended to the crops. Nothing else changes. |
| VendorView.DeliveryFee | components/VendorView.tsx:81 | The fee is never negative, and it is positive iff AgriConnect delivers. |
| VendorView.ArrivalDays | components/VendorView.tsx:73-74 | Arrival is 3 days out iff AgriConnect delivers, and 1 day out with self transport. |
| VendorView.NewTransaction | components/VendorView.tsx:76-87 | The transaction:<br>• has id "TX-" plus the random suffix;<br>• is in escrow;<br>• has the buyer's database id as buyer;<br>• has the listing's farmer as seller and the listing as crop;<br>• has amount ten times the price plus the delivery fee;<br>• is delivered to the buyer's location, or to "Default Delivery Point" when that is blank;<br>• arrives the given number of days after the purchase instant;<br>• has no tracking information. |
| VendorView.AmountExample | components/VendorView.tsx:81 | A listing priced 50 costs 650 with AgriConnect delivery and 500 with self transport. |
| VendorView.PaymentSuccess | components/VendorView.tsx:70-91 | With no selected crop nothing is recorded. Otherwise the recorded transaction is NewTransaction for the selected crop. |
| VendorView.FilteredCrops | components/VendorView.tsx:46-58 | A listing is shown iff its lower-cased name contains the lower-cased search term and, when a location is searched, its lower-cased farmer location contains it. A listing without a location is hidden by any non-empty location search. Sold listings are not filtered out. |
| VendorView.FilteredCropsAppend | components/VendorView.tsx:46-58 | Filtering distributes over concatenation, so it keeps store order. |
| VendorView.EmptySearchKeepsAll | components/VendorView.tsx:46-58 | Empty search terms show every listing, in store order. |
| VendorView.VendorTransactions | components/VendorView.tsx:62 | The history holds exactly the transactions whose buyer is this user's database id. |
| VendorView.HistoryAfterPurchase | components/VendorView.tsx:62-63 | The meaning of `VendorTransactions` and `TotalSpent` under a purchase. After a purchase by this user, the new transaction heads the history and total spending grows by its amount. A purchase by someone else changes neither. |
| VendorView.TotalSpentInStoreOrder | components/VendorView.tsx:63 | The meaning of `TotalSpent`. Total spending is the sum of the user's purchase amounts, whatever the display order. |
| VendorView.ReceivedAction | components/VendorView.tsx:93-97 | The "received" action is offered iff the transaction is in transit (the button at line 404). It sends the status-only update Delivered. |
| FarmerView.FarmerCrops | components/FarmerView.tsx:31 | The farmer's listings are exactly the crops whose farmer is this user's database id. |
| FarmerView.FarmerTransactions | components/FarmerView.tsx:32 | The farmer's sales are exactly the transactions whose seller is this user's database id. |
| FarmerView.EarningsAtMostSales | components/FarmerView.tsx:32-34 | The meaning of `TotalEarnings` (line 34). With non-negative amounts, earnings (disbursed sales only) lie between zero and the total of all the farmer's sales. They are equal to it when everything is disbursed. |
| FarmerView.Rating | components/FarmerView.tsx:36 | The rating is at most 5 and at least 3 for non-negative earnings. It is capped at exactly 5 iff earnings/20000 + 0.2·orders reaches 2. Below the cap it is exactly 3 + earnings/20000 + 0.2·orders. |
| FarmerView.RatingMonotone | components/FarmerView.tsx:36 | More earnings and more orders never lower the rating. |
| FarmerView.FarmerRatingAfterSale | components/FarmerView.tsx:32-36 | The meaning of `FarmerRating` (lines 35-36) and `TotalEarnings` under a new sale. A sale never lowers the farmer's rating. The farmer's own sale adds one order, and adds its amount to the earnings only when disbursed. Another farmer's sale changes neither. |
| FarmerView.FarmerCrop | components/FarmerView.tsx:42-61 | A new listing:<br>• belongs to the farmer's database id and carries their name, phone and location;<br>• is unverified, not awaiting verification and unsold;<br>• has a missing name defaulting to "" and a missing price to 0;<br>• has the given random id and the generated description;<br>• has an uploaded image, or "" when none;<br>• has category defaulting to "Other";<br>• has quantity and portfolio URL defaulting to "", and no unit. |
| FarmerView.ListedCropIsOwn | components/FarmerView.tsx:31 | A listing the farmer adds appears among the farmer's listings. |
| FarmerView.RequestVerification | components/FarmerView.tsx:71-73 | The user afterwards awaits verification. Nothing else about them changes. |
| FarmerView.ActiveOrders | components/FarmerView.tsx:212-217 | The order board holds exactly the farmer's sales that are not yet disbursed. |
| FarmerView.ActiveOrDisbursed | components/FarmerView.tsx:212 | The active orders and the disbursed sales together account for every sale exactly once. |
| FarmerView.ShippedAction | components/FarmerView.tsx:290-292 | "Mark as Shipped" is offered iff the order is in escrow. It sends the status-only update InTransit. |
| FarmerView.ProgressAsWritten | components/FarmerView.tsx:301-303 | As written, the first segment is lit for every status in the lifecycle. The second is lit only for Delivered and Disbursed. |
| FarmerView.ThirdSegmentNeverLit | components/FarmerView.tsx:303 | As written, the third segment is never lit, and the second is dark while in transit. |
| FarmerView.Progress | components/FarmerView.tsx:301-303 | Corrected: segment k is lit iff the status is at least the k-th stage of the lifecycle. |
| FarmerView.ProgressMonotone | components/FarmerView.tsx:301-303 | Corrected: moving forward through the lifecycle never turns a lit segment dark. |
| CommunityView.IsRegional | components/CommunityView.tsx:51-56 | With a blank or missing location on either side there is no match. Otherwise there is a match iff either cleaned location (lower-cased, trimmed) contains the other. |
| CommunityView.IsRegionalSymmetric | components/CommunityView.tsx:55 | Regional matching is symmetric. |
| CommunityView.IsRegionalReflexive | components/CommunityView.tsx:55 | A non-blank location matches itself. |
| CommunityView.BlankAgentMatchesEveryone | components/CommunityView.tsx:52-55 | An agent location made only of spaces passes the truthiness guard. It trims to empty and so matches every farmer with a location. |
| CommunityView.RegionalExamples | components/CommunityView.tsx:51-56 | "Punjab" matches "punjab, india". "Punjab" does not match "Kerala". An empty agent location matches nobody. |
| CommunityView.RegionalFarmers | components/CommunityView.tsx:58 | Exactly the farmers who have coordinates or a regional location. |
| CommunityView.UnverifiedRegionalUserRequests | components/CommunityView.tsx:59 | Exactly the unverified regional farmers who requested verification. |
| CommunityView.RegionalCropRequests | components/CommunityView.tsx:61-65 | A listing is queued iff it awaits verification, is unverified, and the first user whose id is the listing's farmer id is regional. Every queued listing has such a farmer. |
| CommunityView.CropOfUnknownFarmerNotQueued | components/CommunityView.tsx:63-64 | A listing whose farmer id names no user never reaches the queue. |
| CommunityView.VerifiedRegionalFarmers | components/CommunityView.tsx:68 | Exactly the regional farmers who are verified. |
| CommunityView.CommunityRating | components/CommunityView.tsx:151-155 | The rating lies in [3, 5], and is 5 iff the farmer has at least ten sales. |
| CommunityView.RatingInTenths | components/CommunityView.tsx:151-155 | Below the cap the rating is 3 + 0.2 per sale. |
| CommunityView.ProxyCrop | components/CommunityView.tsx:94-132 | A listing is made iff a farmer is selected and name, price, quantity and description are all filled in. It then:<br>• has id "PROXY-CROP-" plus the suffix;<br>• belongs to the farmer's database id, or to their id when that is blank;<br>• is verified at once, priced in kg;<br>• carries the farmer's name, phone and location;<br>• has the draft's name, price, quantity, description and image;<br>• has category defaulting to "Vegetables". |
| CommunityView.ProxyCropNeverQueued | components/CommunityView.tsx:129-130 | A proxy listing is never in the verification queue. |
| CommunityView.ProxyFarmer | components/CommunityView.tsx:375 | An enrolled farmer:<br>• has the form's name, phone and location;<br>• has id "F-" plus the suffix and no database id;<br>• is a verified farmer;<br>• has the fixed coordinates (30.9, 75.8). |
| CommunityView.ProxyFarmerListed | components/CommunityView.tsx:58-68 | An enrolled farmer is listed among the verified regional farmers, whatever the agent's location, and is never queued for verification. |
| Auth.SanitizePhone | components/Auth.tsx:121 | The kept phone:<br>• has at most ten characters, all of them digits;<br>• is a prefix of the input's digits;<br>• is exactly ten long when the input had at least ten digits. |
| Auth.SanitizeIdempotent | components/Auth.tsx:121 | Sanitising twice is the same as sanitising once. |
| Auth.SanitizeKeepsPhoneNumbers | components/Auth.tsx:121 | Up to ten digits pass through unchanged. |
| Auth.Submit | components/Auth.tsx:31-58 | The service is called iff:<br>• the phone has at least ten characters;<br>• on registration, the confirmation matches;<br>• the password has at least six characters.<br>The checks apply in that order. A short phone gives PhoneTooShort, then a registration mismatch gives PasswordMismatch, then a short password gives PasswordTooShort. The name, phone, password and mode are passed on unchanged. |
| Auth.LoginIgnoresConfirmation | components/Auth.tsx:39-42 | On login the confirmation field has no effect. |
| Auth.SanitizedPhoneCheck | components/Auth.tsx:34-37 | For a sanitised phone, the length check passes iff the raw input held at least ten digits. |
| Auth.Message | components/Auth.tsx:35-46 | The mismatch message always comes from the translations. The phone and password messages come from the translations in every language but English. In English they are the fixed texts "Please enter a valid 10-digit phone number" and "Password must be at least 6 characters". |
| Auth.ErrorAfterSubmit | components/Auth.tsx:31-58 | A rejected form shows its message. After the service call, a non-empty reply replaces the error, and otherwise the previous error stays. |

## Left out

- Browser storage (App.tsx:41-43). Reading and writing JSON is I/O. The constructor takes the three saved collections as optional parameters.
- Sign-in and role selection, the assistant calls through `askGemini` (services/gemini.ts:3), and the rest of `services/`. These are network calls. Any random identifier is taken as a parameter (`id`, `suffix`).
- `FarmerView.FarmerCrop`: models the evidently intended path of `handleAddCrop`, with the generated description as the `description` parameter. As written, components/FarmerView.tsx:3 imports `generateCropDescription` from services/gemini.ts, which exports only `askGemini`. The call at FarmerView.tsx:41 therefore fails, at import or at the call, before `addCrop` at line 64 runs. `getCommunityTips` (CommunityView.tsx:73) and `getVendorTips` (VendorView.tsx:33) are likewise defined in no file of the repository. CommunityView.tsx:89 calls `generateCropDescription`, which that file does not import either. Those screens' tips are UI and not part of this model.
- Clocks and dates. "Now" is an integer number of milliseconds given as a parameter. `setDate` on local time is modelled as adding whole days of 86 400 000 ms, which ignores daylight-saving shifts. ISO date formatting is not modelled.
- Timer timing and React batching. The model queues one disbursement per matching transaction and fires them in queue order. It does not model the real 3000 ms delay (the constant is kept as `App.DisbursementDelayMs`) or interleaving with other renders. It also does not model stale closures: the farmer view's `addCrop` (App.tsx:216) reads the rendered `crops`, and `onVerify` (App.tsx:242) and `onProxyRegister` (App.tsx:244) read the rendered `users`. Two such updates in quick succession could lose one. The model appends to the current state.
- Floating point and `toFixed(1)`. Amounts and ratings are exact reals. The ratings are stated before rounding to one decimal.
- Case mapping and string lengths. Lower-casing is ASCII only. Lengths count characters, not UTF-16 code units.
- A user's absent `_id` is the empty string `dbId == ""`.
- `CommunityView.ProxyCrop` reads the price and quantity as numbers. The form's `Number(...)` conversion of text is not modelled.
- Session and screen state, the translation tables and the purely presentational components. The profile-setup flag, language choice, logout dialog, tabs, modals and forms are UI state. The translation tables are given to `Auth.Message` as a parameter and are not part of this model.

Where the intended design and the code differ, the model follows the code:

- A purchase does not check that the crop is unsold. Only the disabled buy button (components/VendorView.tsx:267) prevents a second one (`App.SecondPurchaseNotRejected`).
- Status updates are not checked against the lifecycle order (`App.AnyStatusWritable`).
- Crop verification requests do not look at the verified flag.
- The automation's comment says two seconds, but the delay is 3000 ms.
- A farmer's own verification request updates only the signed-in user, never the stored users. So it never appears in the community agent's queue (`App.Store.UpdateCurrentUser`).

## Findings

| source | as written | input that shows it | evidently intended | confidence | as-written member | corrected member |
|---|---|---|---|---|---|---|
| components/FarmerView.tsx:301-303 (also components/VendorView.tsx:415-417) | Each progress segment looks the status up in a list that starts at its own stage, but compares the index against the segment's position (>= 1, >= 2). The third segment can never be lit, and the second is dark while in transit. | status Disbursed: the third segment's lookup gives 1, not >= 2; status InTransit: the second segment's lookup gives 0, not >= 1 | segment k lit once the transaction reaches stage k of EscrowPaid → InTransit → Delivered | not executed | FarmerView.ThirdSegmentNeverLit | FarmerView.ProgressMonotone |
